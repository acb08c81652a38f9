/**
  Issued assets over whole runs: only the issuer that the genesis document named mints, nobody else's transaction makes
  a supply grow, and every operation that has to pay a fee pays at least the least fee of its own asset.
 */
module AssetLaws {
  import opened Core
  import opened Sequences
  import opened Circles
  import opened CircleBooks
  import opened Escrows
  import opened Ledger
  import opened Conservation
  import opened LedgerSafety
  import opened LedgerRuns

  // ---------------------------------------------------------------- one transaction

  /** A mint is allowed exactly to the issuer of a known asset, while the supply stays in 64 bits. */
  lemma MintAllowed(s: State, tx: Tx)
    requires Shaped(s) && GoodTx(tx) && tx.body.Mint?
    ensures Allowed(s, tx) <==>
      tx.asset in s.defs && tx.asset != ORP && s.defs[tx.asset].issuer == tx.from
        && (if tx.asset in s.issued then s.issued[tx.asset] else 0) + tx.body.amount < TWO64
  {
    hide Shaped;
  }

  /** A transfer is allowed exactly when its asset is known and what it brings fits beside what is there, in 64 bits. */
  lemma TransferAllowed(s: State, tx: Tx)
    requires Shaped(s) && GoodTx(tx) && tx.body.Transfer?
    ensures Allowed(s, tx) <==>
      && (tx.asset in s.defs || tx.asset == ORP)
      && Balance(s.accounts, tx.body.to, tx.asset) + tx.body.amount < 0x1_0000_0000_0000_0000
  {
    hide Shaped;
  }

  /** What a transaction adds to the supply of an issued asset. */
  function Growth(tx: Tx, x: Asset): int {
    if tx.asset != x then 0
    else
      match tx.body
      case Mint(_, amount) => amount
      case Burn(amount) => -amount
      case _ => 0
  }

  lemma EffectGrowth(sha: Sha, s: State, tx: Tx, x: Asset)
    requires Shaped(s) && GoodTx(tx) && Allowed(s, tx)
    ensures IssuedOf(Effect(sha, s, tx), x) == IssuedOf(s, x) + Growth(tx, x)
  {
    hide Shaped, Effect, Allowed, GoodTx;
    EffectIssued(sha, s, tx);
  }

  lemma SettleIssued(s: State, tx: Tx, cost: int)
    requires tx.asset != ORP ==> tx.asset in s.defs
    ensures var t := Settle(s, tx, cost); t.issued == s.issued && t.defs == s.defs && t.minFee == s.minFee
  {}

  /** A committed transaction changes no definition, and a supply only as said; a mint comes from the issuer. */
  lemma CommittedGrowth(sha: Sha, s: State, e: Entry, t: State, x: Asset)
    requires Committed(sha, s, e, t)
    ensures t.defs == s.defs && t.minFee == s.minFee
    ensures IssuedOf(t, x) == IssuedOf(s, x) + Growth(e.tx, x)
    ensures e.tx.body.Mint? ==> e.tx.asset != ORP && e.tx.asset in s.defs && s.defs[e.tx.asset].issuer == e.tx.from
  {
    hide Shaped, GoodTx, Check, Covered, Effect, Settle, Cost, Growth;
    var at := s.(now := e.now);
    CheckedAsset(at, e.tx);
    EffectGrowth(sha, at, e.tx, x);
    SettleIssued(Effect(sha, at, e.tx), e.tx, Cost(at, e.tx));
    if e.tx.body.Mint? {
      hide Allowed;
      MintAllowed(at, e.tx);
    }
  }

  // ---------------------------------------------------------------- runs

  lemma {:induction false} DefsStay(sha: Sha, es: seq<Entry>, ss: seq<State>, k: nat)
    requires Trace(sha, es, ss) && k <= |es|
    ensures ss[k].defs == ss[0].defs && ss[k].minFee == ss[0].minFee
  {
    hide Committed;
    if k > 0 {
      DefsStay(sha, es, ss, k - 1);
      assert Committed(sha, ss[k - 1], es[k - 1], ss[k]);
      CommittedGrowth(sha, ss[k - 1], es[k - 1], ss[k], ORP);
    }
  }

  /** What one address minted of an asset in the first k transactions. */
  function MintedBy(es: seq<Entry>, a: Address, x: Asset, k: nat): int
    requires k <= |es|
  {
    if k == 0 then 0
    else
      var tx := es[k - 1].tx;
      MintedBy(es, a, x, k - 1) + if tx.body.Mint? && tx.asset == x && tx.from == a then tx.body.amount else 0
  }

  /** What everybody burned of it. */
  function BurnedOf(es: seq<Entry>, x: Asset, k: nat): int
    requires k <= |es|
  {
    if k == 0 then 0
    else
      var tx := es[k - 1].tx;
      BurnedOf(es, x, k - 1) + if tx.body.Burn? && tx.asset == x then tx.body.amount else 0
  }

  /**
    In every run the supply of an issued asset is its first supply, plus what the issuer named at genesis minted, less
    what was burned; an asset that genesis does not define keeps its supply.
   */
  lemma {:induction false} SupplyHistory(sha: Sha, es: seq<Entry>, ss: seq<State>, x: Asset, k: nat)
    requires Trace(sha, es, ss) && k <= |es| && x != ORP
    ensures SupplyOf(ss[k], x) == SupplyOf(ss[0], x) - BurnedOf(es, x, k)
      + if x in ss[0].defs then MintedBy(es, ss[0].defs[x].issuer, x, k) else 0
  {
    hide Committed;
    if k > 0 {
      SupplyHistory(sha, es, ss, x, k - 1);
      assert Committed(sha, ss[k - 1], es[k - 1], ss[k]);
      DefsStay(sha, es, ss, k - 1);
      CommittedGrowth(sha, ss[k - 1], es[k - 1], ss[k], x);
    }
  }

  /** A supply that grew was minted by the genesis issuer in that very transaction. */
  lemma OnlyIssuerMints(sha: Sha, es: seq<Entry>, ss: seq<State>, x: Asset, k: nat)
    requires Trace(sha, es, ss) && k < |es| && x != ORP && SupplyOf(ss[k + 1], x) > SupplyOf(ss[k], x)
    ensures x in ss[0].defs && es[k].tx.from == ss[0].defs[x].issuer && es[k].tx.asset == x && es[k].tx.body.Mint?
      && SupplyOf(ss[k + 1], x) == SupplyOf(ss[k], x) + es[k].tx.body.amount
  {
    hide Committed;
    assert Committed(sha, ss[k], es[k], ss[k + 1]);
    DefsStay(sha, es, ss, k);
    CommittedGrowth(sha, ss[k], es[k], ss[k + 1], x);
    AmountPositive(sha, ss[k], es[k], ss[k + 1]);
  }

  lemma AmountPositive(sha: Sha, s: State, e: Entry, t: State)
    requires Committed(sha, s, e, t)
    ensures e.tx.body.Burn? ==> 0 < e.tx.body.amount
  {
    hide Shaped, Check, Covered, Apply;
  }

  // ---------------------------------------------------------------- fees

  /**
    Minting, the steps of an escrow and the steps of a recovery are free; everything else, setting guardians included,
    has to pay the least fee of its own asset: that of the ledger for ORP, that of its definition for an issued one.
   */
  ghost predicate PaysLeast(tx: Tx, ledgerFee: int, defs: map<Asset, AssetDef>) {
    match tx.body
    case Mint(_, _) => true
    case EscrowAct(_, _) => true
    case Guard(op) => op.SetGuards? ==> Least(tx, ledgerFee, defs)
    case _ => Least(tx, ledgerFee, defs)
  }

  ghost predicate Least(tx: Tx, ledgerFee: int, defs: map<Asset, AssetDef>) {
    if tx.asset == ORP then tx.fee >= ledgerFee else tx.asset in defs && tx.fee >= defs[tx.asset].minFee
  }

  lemma StepNotFee(c: Circle, i: nat, op: Step, from: Address, now: int, bal: int)
    requires Shape(c) && i < |c.members|
    ensures StepCheck(c, i, op, from, now, bal) != Some(FeeTooLow)
  {
    hide Shape, Recipient, AllPaid, Unlocked, Need, RoundsLeft, RoundsWith, Wraps;
  }

  /** The rules of an operation never answer that the fee is too low. */
  lemma RuleNotFee(s: State, tx: Tx)
    requires Shaped(s) && (tx.asset != ORP ==> tx.asset in s.defs)
    ensures Rule(s, tx) != Some(FeeTooLow)
  {
    hide Shape, StepCheck, Balance;
    if tx.body.CircleStep? && tx.body.pool in s.pools {
      var c := s.pools[tx.body.pool];
      if Index(c.members, tx.from) >= 0 {
        StepNotFee(c, Index(c.members, tx.from), tx.body.step, tx.from, s.now, Balance(s.accounts, tx.from, c.asset));
      }
    }
  }

  /** A transaction in a known asset is refused for its fee exactly when it does not pay the least one it has to. */
  lemma FeeTooLowExactly(s: State, tx: Tx)
    requires Shaped(s) && (tx.asset != ORP ==> tx.asset in s.defs)
    ensures Check(s, tx) == Some(FeeTooLow) <==> !PaysLeast(tx, s.minFee, s.defs)
  {
    hide Shaped, Rule, Cost, Available;
    RuleNotFee(s, tx);
  }

  lemma StepErrors(c: Circle, i: nat, op: Step, from: Address, now: int, bal: int)
    requires Shape(c) && i < |c.members|
    ensures StepCheck(c, i, op, from, now, bal) in {None, Some(PoolRule), Some(Overflow)}
  {
    hide Shape, Recipient, AllPaid, Unlocked, Need, RoundsLeft, RoundsWith, Wraps;
  }

  /** What the rules of an operation answer names its kind; a sum out of range has its own answer. */
  lemma RuleErrors(s: State, tx: Tx)
    requires Shaped(s) && (tx.asset != ORP ==> tx.asset in s.defs) && Rule(s, tx).Some?
    ensures match tx.body
            case Transfer(_, _) => Rule(s, tx) == Some(Overflow)
            case Mint(_, _) => Rule(s, tx) in {Some(AssetRule), Some(Overflow)}
            case Burn(_) => false
            case OpenCircle(_, _) => Rule(s, tx) == Some(PoolRule)
            case CircleStep(_, _) => Rule(s, tx) in {Some(PoolRule), Some(Overflow)}
            case OpenEscrow(_) => Rule(s, tx) == Some(EscrowRule)
            case EscrowAct(_, _) => Rule(s, tx) == Some(EscrowRule)
            case Guard(_) => Rule(s, tx) == Some(GuardRule)
  {
    hide Shape, StepCheck, Balance;
    if tx.body.CircleStep? && tx.body.pool in s.pools {
      var c := s.pools[tx.body.pool];
      if Index(c.members, tx.from) >= 0 {
        StepErrors(c, Index(c.members, tx.from), tx.body.step, tx.from, s.now, Balance(s.accounts, tx.from, c.asset));
      }
    }
  }

  /**
    Which answer the frame of a transaction gives, in order: an unknown asset, too low a fee, a nonce used before, a
    nonce too far ahead, too little money; only then are the rules of the operation asked.
   */
  lemma AnswersInOrder(s: State, tx: Tx)
    requires Shaped(s)
    ensures var known, nonce := tx.asset != ORP ==> tx.asset in s.defs, Get(s.accounts, tx.from).nonce;
      var paid := known && PaysLeast(tx, s.minFee, s.defs);
      && (!known ==> Check(s, tx) == Some(AssetRule))
      && (known && !paid ==> Check(s, tx) == Some(FeeTooLow))
      && (paid && tx.nonce < nonce ==> Check(s, tx) == Some(NonceTooLow))
      && (paid && tx.nonce > nonce ==> Check(s, tx) == Some(NonceTooHigh))
      && (paid && tx.nonce == nonce && Available(s, tx) < Cost(s, tx) ==> Check(s, tx) == Some(Insufficient))
      && (paid && tx.nonce == nonce && Available(s, tx) >= Cost(s, tx) ==> Check(s, tx) == Rule(s, tx))
  {
    hide Shaped, Rule, Cost, Available;
  }

  /** Every committed transaction pays at least the least fee that genesis asks of it. */
  lemma FeesPaid(sha: Sha, es: seq<Entry>, ss: seq<State>, k: nat)
    requires Trace(sha, es, ss) && k < |es|
    ensures PaysLeast(es[k].tx, ss[0].minFee, ss[0].defs)
  {
    hide Shaped, GoodTx, Check, Covered, Apply, PaysLeast;
    DefsStay(sha, es, ss, k);
    assert Committed(sha, ss[k], es[k], ss[k + 1]);
    CheckedAsset(ss[k].(now := es[k].now), es[k].tx);
    FeeTooLowExactly(ss[k].(now := es[k].now), es[k].tx);
  }

  /** The fees paid in ORP by the first k transactions. */
  function FeesTo(es: seq<Entry>, k: nat): int
    requires k <= |es|
  {
    if k == 0 then 0 else FeesTo(es, k - 1) + if es[k - 1].tx.asset == ORP then es[k - 1].tx.fee else 0
  }

  lemma CommittedBurns(sha: Sha, s: State, e: Entry, t: State)
    requires Committed(sha, s, e, t)
    ensures t.burned == s.burned + (if e.tx.asset == ORP then e.tx.fee else 0)
    ensures t.supply == s.supply - (if e.tx.asset == ORP then e.tx.fee else 0)
  {
    hide Shaped, Check, Covered, Effect, Cost, SetBalance, CreditTo;
    CheckedAsset(s.(now := e.now), e.tx);
    FeeNonNeg(e.tx);
  }

  /** ORP is never minted, and burned exactly as the fees paid in it. */
  lemma {:induction false} BurnHistory(sha: Sha, es: seq<Entry>, ss: seq<State>, k: nat)
    requires Trace(sha, es, ss) && k <= |es|
    ensures ss[k].burned == ss[0].burned + FeesTo(es, k) && ss[k].supply == ss[0].supply - FeesTo(es, k)
  {
    hide Committed;
    if k > 0 {
      BurnHistory(sha, es, ss, k - 1);
      assert Committed(sha, ss[k - 1], es[k - 1], ss[k]);
      CommittedBurns(sha, ss[k - 1], es[k - 1], ss[k]);
    }
  }
}
