/**
  When the ledger accepts a transaction, for every kind of transaction and in both directions, in terms of who sends it,
  what it pays, and what it acts on.
 */
module Permissions {
  import opened Core
  import opened Sequences
  import opened Circles
  import opened CircleBooks
  import opened Escrows
  import opened Ledger
  import opened Conservation
  import opened LedgerSafety
  import opened AssetLaws
  import opened CircleLaws
  import opened EscrowOrigins
  import opened RecoveryLaws

  /** What a transaction takes from its sender beside the fee. */
  function Pays(s: State, tx: Tx): int
    requires Shaped(s)
  {
    match tx.body
    case Transfer(_, amount) => amount
    case Burn(amount) => amount
    case OpenCircle(_, terms) => terms.deposit
    case OpenEscrow(agreed) => Sum(agreed.milestones)
    case CircleStep(pool, step) => if Sits(s, tx, pool) then PaysIn(s.pools[pool], tx.from, step) else 0
    case _ => 0
  }

  predicate Sits(s: State, tx: Tx, pool: Hash) { pool in s.pools && tx.from in s.pools[pool].members }

  /** What a member puts into a circle: a contribution without an amount is all that is still owed. */
  function PaysIn(c: Circle, who: Address, step: Step): int
    requires Shape(c) && who in c.members
  {
    match step
    case Join => c.terms.deposit
    case Contribute(a) => if a > 0 then a else c.terms.contribution - PaidIn(c, Index(c.members, who))
    case Autopay(a) => a
    case _ => 0
  }

  /** The sender holds what it pays and the fee; a claimer may count the pot it is about to receive. */
  predicate Funded(s: State, tx: Tx)
    requires Shaped(s)
  {
    tx.body.Mint?
    || Balance(s.accounts, tx.from, tx.asset)
       + (if tx.body.CircleStep? && tx.body.step.Claim? && tx.body.pool in s.pools
            && s.pools[tx.body.pool].asset == tx.asset
          then s.pools[tx.body.pool].balance else 0)
       >= Pays(s, tx) + tx.fee
  }

  /** The operation is open to its sender now. */
  ghost predicate Permitted(s: State, tx: Tx)
    requires Shaped(s)
  {
    match tx.body
    case Transfer(_, _) => true
    case Mint(_, amount) =>
      tx.asset in s.defs && tx.from == s.defs[tx.asset].issuer && SupplyOf(s, tx.asset) + amount < TWO64
    case Burn(_) => true
    case OpenCircle(_, _) => tx.id !in s.pools
    case OpenEscrow(agreed) => tx.id !in s.escrows && s.now < agreed.shipBy
    case CircleStep(id, step) =>
      && id in s.pools && tx.asset == s.pools[id].asset
      && exists i :: 0 <= i < |s.pools[id].members| && Seated(s, tx, id, i)
           && MayStep(s.pools[id], i, step, s.now, Balance(s.accounts, tx.from, tx.asset))
    case EscrowAct(id, act) =>
      id in s.escrows && tx.asset == s.escrows[id].asset && MayAct(s.escrows[id], tx.from, act, s.now)
    case Guard(op) => MayGuard(s, tx.from, op)
  }

  /** The sender sits in this seat. */
  predicate Seated(s: State, tx: Tx, id: Hash, i: nat) {
    id in s.pools && i < |s.pools[id].members| && s.pools[id].members[i] == tx.from
  }

  lemma CirclePermitted(s: State, tx: Tx)
    requires LedgerInv(s) && Shaped(s) && GoodTx(tx) && (tx.asset != ORP ==> tx.asset in s.defs) && tx.body.CircleStep?
    ensures Rule(s, tx) == None <==> Permitted(s, tx)
  {
    hide EscrowInv, AccountsOk, TargetsOk, Conserved, Bounded, StepCheck, MayStep, Balance, Shape, Amounts, Books,
      CircleBooks.Seats, Phase, Pledges, Distinct;
    var id, step := tx.body.pool, tx.body.step;
    if id in s.pools && tx.asset == s.pools[id].asset {
      var c := s.pools[id];
      var i := Index(c.members, tx.from);
      assert CircleInv(c);
      if i >= 0 {
        StepsExactly(c, i, step, s.now, Balance(s.accounts, tx.from, tx.asset));
        OneSeat(c, i);
        assert Seated(s, tx, id, i);
      }
    }
  }

  lemma OneSeat(c: Circle, i: nat)
    requires CircleInv(c) && i < |c.members|
    ensures forall k :: 0 <= k < |c.members| && c.members[k] == c.members[i] ==> k == i
  {
    hide Amounts, Books, CircleBooks.Seats, Phase, Pledges;
  }

  lemma OtherPermitted(s: State, tx: Tx)
    requires LedgerInv(s) && Shaped(s) && GoodTx(tx) && (tx.asset != ORP ==> tx.asset in s.defs) && !tx.body.CircleStep?
    requires Available(s, tx) >= Cost(s, tx)
    ensures Rule(s, tx) == None <==> Permitted(s, tx)
  {
    InvParts(s);
    match tx.body {
      case Transfer(_, _) =>
        TransferNeverOverflows(s, tx);
        hide LedgerInv, Shaped;
      case EscrowAct(id, act) =>
        if id in s.escrows {
          ActsExactly(s.escrows[id], tx.from, act, s.now);
        }
        hide LedgerInv, Shaped, EscrowCheck, MayAct;
      case Guard(op) =>
        GuardsExactly(s, tx.from, op);
        hide LedgerInv, Shaped, GuardCheck, MayGuard;
      case _ => hide LedgerInv, Shaped;
    }
  }

  lemma CostSpelled(s: State, tx: Tx)
    requires Shaped(s) && GoodTx(tx) && (tx.body.CircleStep? ==> Sits(s, tx, tx.body.pool))
    ensures Cost(s, tx) == if tx.body.Mint? then 0 else Pays(s, tx) + tx.fee
  {
    hide Shape, GoodTerms, GoodEscrowTerms;
  }

  lemma FundedMeans(s: State, tx: Tx)
    requires Shaped(s) && GoodTx(tx) && (tx.body.CircleStep? ==> Sits(s, tx, tx.body.pool)) && AccountsOk(s.accounts)
    ensures Available(s, tx) >= Cost(s, tx) <==> Funded(s, tx)
  {
    BalanceNonNeg(s.accounts, tx.from, tx.asset);
    CostSpelled(s, tx);
    hide Shaped, GoodTx, Cost, Pays, Balance, AccountsOk;
  }

  /**
    The exact rules accept a transaction on a sound ledger if and only if its asset is known, it pays the least fee it
    has to, it carries its sender's next nonce, its sender holds what it costs, and its operation is open to its sender.
   */
  lemma AcceptsExactly(s: State, tx: Tx)
    requires LedgerInv(s) && Shaped(s) && GoodTx(tx)
    ensures Check(s, tx) == None <==>
      && (tx.asset != ORP ==> tx.asset in s.defs) && PaysLeast(tx, s.minFee, s.defs)
      && tx.nonce == Get(s.accounts, tx.from).nonce && Funded(s, tx) && Permitted(s, tx)
  {
    hide LedgerInv, Shaped, GoodTx, Funded, Permitted, Rule, Available, Cost, PaysLeast, Sits;
    if tx.asset != ORP ==> tx.asset in s.defs {
      InvParts(s);
      LeastMeans(s, tx);
      if tx.body.CircleStep? {
        CirclePermitted(s, tx);
        if Permitted(s, tx) {
          PermittedSits(s, tx);
        }
      }
      if tx.body.CircleStep? ==> Sits(s, tx, tx.body.pool) {
        FundedMeans(s, tx);
      }
      if !tx.body.CircleStep? && Available(s, tx) >= Cost(s, tx) {
        OtherPermitted(s, tx);
      }
    }
  }

  lemma LeastMeans(s: State, tx: Tx)
    requires tx.asset != ORP ==> tx.asset in s.defs
    ensures PaysLeast(tx, s.minFee, s.defs) <==> FeeFree(tx) || tx.fee >= MinFeeFor(s, tx.asset)
  {}

  lemma PermittedSits(s: State, tx: Tx)
    requires Shaped(s) && tx.body.CircleStep? && Permitted(s, tx)
    ensures Sits(s, tx, tx.body.pool)
  {
    hide Shaped, MayStep;
  }
}
