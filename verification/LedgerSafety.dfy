/**
  What every transaction keeps: conservation of every asset, sound circles, escrows and recovery setups,
  and balances that never leave the range of a 64-bit amount.
 */
module LedgerSafety {
  import opened Core
  import opened Sequences
  import opened MapSums
  import opened Circles
  import opened CircleBooks
  import opened CircleSteps
  import opened Escrows
  import opened Ledger
  import opened Conservation

  // ---------------------------------------------------------------- the invariant

  ghost predicate AccountOk(acc: Account) {
    && 0 <= acc.balance && 0 <= acc.nonce && ORP !in acc.assets
    && forall x :: x in acc.assets ==> 0 < acc.assets[x]
  }

  ghost predicate AccountsOk(m: Accounts) { forall a :: a in m ==> AccountOk(m[a]) }

  ghost predicate CirclesOk(pools: map<Hash, Circle>) { forall id :: id in pools ==> CircleInv(pools[id]) }

  ghost predicate EscrowsOk(escrows: map<Hash, Escrow>) { forall id :: id in escrows ==> EscrowInv(escrows[id]) }

  /** A pending recovery always names another, real key. */
  ghost predicate TargetOk(account: Address, g: Guardianship) {
    g.pending.Some? ==> g.pending.value.newOwner.Key? && g.pending.value.newOwner != account
  }

  ghost predicate TargetsOk(guards: map<Address, Guardianship>) { forall a :: a in guards ==> TargetOk(a, guards[a]) }

  /** Every asset's money adds up to its supply. */
  ghost predicate Conserved(s: State) { forall x :: Money(s, x) == SupplyOf(s, x) }

  ghost predicate Bounded(s: State) { forall x :: SupplyOf(s, x) < TWO64 }

  ghost predicate Parts(s: State) {
    CirclesOk(s.pools) && EscrowsOk(s.escrows) && TargetsOk(s.guards) && ORP !in s.defs
  }

  ghost predicate LedgerInv(s: State) {
    Parts(s) && AccountsOk(s.accounts) && Conserved(s) && Bounded(s)
  }

  lemma InvShaped(s: State)
    requires Parts(s)
    ensures Shaped(s)
  {}

  lemma BalanceNonNeg(m: Accounts, a: Address, x: Asset)
    requires AccountsOk(m)
    ensures 0 <= Balance(m, a, x)
  {}

  /** No place ever holds more than the supply, so no 64-bit amount in the ledger can overflow. */
  lemma PlacesBounded(s: State, x: Asset)
    requires LedgerInv(s)
    ensures 0 <= InAccounts(s.accounts, x) && 0 <= InCircles(s.pools, x) && 0 <= InEscrows(s.escrows, x)
    ensures InAccounts(s.accounts, x) + InCircles(s.pools, x) + InEscrows(s.escrows, x) == SupplyOf(s, x) < TWO64
  {
    hide CircleInv, EscrowInv, Holdings;
    assert Money(s, x) == SupplyOf(s, x);
    forall a | a in s.accounts ensures 0 <= AccountLines(s.accounts, x)[a] {
      BalanceNonNeg(s.accounts, a, x);
    }
    TotalNonNeg(AccountLines(s.accounts, x));
    forall id | id in s.pools ensures 0 <= CircleLines(s.pools, x)[id] {
      HoldingsNonNeg(s.pools[id]);
    }
    TotalNonNeg(CircleLines(s.pools, x));
    forall id | id in s.escrows ensures 0 <= EscrowLines(s.escrows, x)[id] {
      OpenHoldsMoney(s.escrows[id]);
    }
    TotalNonNeg(EscrowLines(s.escrows, x));
  }

  lemma AccountBounded(s: State, a: Address, x: Asset)
    requires LedgerInv(s)
    ensures 0 <= Balance(s.accounts, a, x) <= InAccounts(s.accounts, x) < TWO64
  {
    PlacesBounded(s, x);
    BalanceNonNeg(s.accounts, a, x);
    forall b | b in s.accounts ensures 0 <= AccountLines(s.accounts, x)[b] {
      BalanceNonNeg(s.accounts, b, x);
    }
    TotalNonNeg(AccountLines(s.accounts, x));
    if a in s.accounts {
      assert AccountLines(s.accounts, x)[a] == Balance(s.accounts, a, x);
    }
  }

  lemma PairBounded(s: State, a: Address, b: Address, x: Asset)
    requires LedgerInv(s) && a != b
    ensures Balance(s.accounts, a, x) + Balance(s.accounts, b, x) <= SupplyOf(s, x)
  {
    PlacesBounded(s, x);
    AccountBounded(s, a, x);
    AccountBounded(s, b, x);
    if a in s.accounts && b in s.accounts {
      var lines := AccountLines(s.accounts, x);
      forall k | k in lines ensures 0 <= lines[k] {
        BalanceNonNeg(s.accounts, k, x);
      }
      TotalPair(lines, a, b);
    }
  }

  /** The overflow guard of a transfer never fires on a transaction its sender can pay for. */
  lemma TransferNeverOverflows(s: State, tx: Tx)
    requires LedgerInv(s) && GoodTx(tx) && tx.body.Transfer? && Shaped(s) && Available(s, tx) >= Cost(s, tx)
    ensures !Wraps(Balance(s.accounts, tx.body.to, tx.asset), tx.body.amount)
  {
    PairBounded(s, tx.from, tx.body.to, tx.asset);
    PlacesBounded(s, tx.asset);
  }

  lemma CircleBounded(s: State, id: Hash, a: Address)
    requires LedgerInv(s) && id in s.pools
    ensures var c := s.pools[id];
      0 <= c.balance && 0 <= Circles.Held(c)
        && Holdings(c) + InAccounts(s.accounts, c.asset) <= SupplyOf(s, c.asset) < TWO64
  {
    hide CircleInv, EscrowInv;
    var c := s.pools[id];
    HoldingsNonNeg(c);
    PlacesBounded(s, c.asset);
    forall k | k in s.pools ensures 0 <= CircleLines(s.pools, c.asset)[k] {
      HoldingsNonNeg(s.pools[k]);
    }
    TotalNonNeg(CircleLines(s.pools, c.asset));
    assert CircleLines(s.pools, c.asset)[id] == Holdings(c);
  }

  // ---------------------------------------------------------------- the effect conserves money

  /** Money minus supply, which Settle brings back to zero. */
  ghost function Excess(s: State, x: Asset): int { Money(s, x) - SupplyOf(s, x) }

  /**
    The effect leaves the sender's spending unpaid for: the excess of the transaction's asset grows by what it spent.
   */
  ghost predicate Unpaid(s: State, spent: int, asset: Asset, t: State) {
    forall x :: Excess(t, x) == Excess(s, x) + if x == asset then spent else 0
  }

  lemma TransferUnpaid(s: State, to: Address, asset: Asset, amount: int)
    ensures Unpaid(s, amount, asset, s.(accounts := CreditTo(s.accounts, to, asset, amount)))
  {
    hide InAccounts, SetBalance;
    forall x ensures InAccounts(CreditTo(s.accounts, to, asset, amount), x) == InAccounts(s.accounts, x)
      + if x == asset then amount else 0 {
      SetMoney(s.accounts, to, asset, Balance(s.accounts, to, asset) + amount, x);
    }
  }

  lemma CircleOpenUnpaid(s: State, id: Hash, c: Circle)
    requires id !in s.pools
    ensures Unpaid(s, Holdings(c), c.asset, s.(pools := s.pools[id := c]))
  {
    hide InCircles, Holdings;
    forall x { CirclePut(s.pools, id, c, x); }
  }

  lemma EscrowOpenUnpaid(s: State, id: Hash, e: Escrow)
    requires id !in s.escrows
    ensures Unpaid(s, e.balance, e.asset, s.(escrows := s.escrows[id := e]))
  {
    hide InEscrows;
    forall x { EscrowPut(s.escrows, id, e, x); }
  }

  lemma CircleStepUnpaid(s: State, id: Hash, r: Payment, stake: int)
    requires id in s.pools && Sound(s.pools[id], stake, r)
    ensures Unpaid(s, stake, s.pools[id].asset,
      s.(pools := s.pools[id := r.circle],
        accounts := CreditsApplied(s.accounts, s.pools[id].asset, r.credits, |r.credits|)))
  {
    hide InCircles, InAccounts, Holdings, CircleInv;
    forall x
      ensures InCircles(s.pools[id := r.circle], x)
        + InAccounts(CreditsApplied(s.accounts, s.pools[id].asset, r.credits, |r.credits|), x)
        == InCircles(s.pools, x) + InAccounts(s.accounts, x) + if x == s.pools[id].asset then stake else 0
    {
      CirclePut(s.pools, id, r.circle, x);
      CreditsMoney(s.accounts, s.pools[id].asset, r.credits, |r.credits|, x);
    }
  }

  lemma EscrowActUnpaid(s: State, id: Hash, r: Settlement)
    requires id in s.escrows && r.escrow.asset == s.escrows[id].asset
    requires r.escrow.balance + SumCredits(r.credits) == s.escrows[id].balance
    ensures Unpaid(s, 0, s.escrows[id].asset,
      s.(escrows := s.escrows[id := r.escrow],
        accounts := CreditsApplied(s.accounts, s.escrows[id].asset, r.credits, |r.credits|)))
  {
    hide InEscrows, InAccounts;
    forall x
      ensures InEscrows(s.escrows[id := r.escrow], x)
        + InAccounts(CreditsApplied(s.accounts, s.escrows[id].asset, r.credits, |r.credits|), x)
        == InEscrows(s.escrows, x) + InAccounts(s.accounts, x)
    {
      EscrowPut(s.escrows, id, r.escrow, x);
      CreditsMoney(s.accounts, s.escrows[id].asset, r.credits, |r.credits|, x);
    }
  }

  lemma MoveUnpaid(s: State, old0: Address, new0: Address, asset: Asset)
    requires AccountsOk(s.accounts) && old0 in s.guards && old0 != new0
    ensures Unpaid(s, 0, asset, MoveAccount(s, old0, new0))
  {
    hide InEscrows, InAccounts, InCircles, MoveHoldings, RenameCircle, RenameEscrow;
    forall x ensures Money(MoveAccount(s, old0, new0), x) == Money(s, x) {
      MoveMoney(s.accounts, old0, new0, x);
      RenamedCircles(s.pools, old0, new0, x);
      RenamedEscrows(s.escrows, old0, new0, x);
    }
  }

  lemma GuardUnpaid(s: State, from: Address, op: GuardOp, asset: Asset)
    requires AccountsOk(s.accounts) && TargetsOk(s.guards) && GuardCheck(s, from, op) == None
    ensures Unpaid(s, 0, asset, GuardEffect(s, from, op))
  {
    hide InEscrows, InAccounts, InCircles, MoveAccount;
    if op.Finish? {
      assert TargetOk(op.account, s.guards[op.account]);
      MoveUnpaid(s, op.account, s.guards[op.account].pending.value.newOwner, asset);
    }
  }

  lemma MintBurnUnpaid(s: State, tx: Tx, sha: Sha)
    requires Shaped(s) && GoodTx(tx) && Allowed(s, tx) && (tx.body.Mint? || tx.body.Burn?)
    ensures Unpaid(s, Spent(s, tx), tx.asset, Effect(sha, s, tx))
  {
    hide InAccounts, InCircles, InEscrows, SetBalance, Shape;
    if tx.body.Mint? {
      forall x
        ensures InAccounts(CreditTo(s.accounts, tx.body.to, tx.asset, tx.body.amount), x)
          == InAccounts(s.accounts, x) + if x == tx.asset then tx.body.amount else 0
      {
        SetMoney(s.accounts, tx.body.to, tx.asset, Balance(s.accounts, tx.body.to, tx.asset) + tx.body.amount, x);
      }
    }
  }

  lemma CircleEffectUnpaid(sha: Sha, s: State, tx: Tx)
    requires CirclesOk(s.pools) && Shaped(s) && GoodTx(tx) && Allowed(s, tx) && tx.body.CircleStep?
    ensures Unpaid(s, Spent(s, tx), tx.asset, Effect(sha, s, tx))
  {
    hide Unpaid, CircleInv, Sound, StepEffect, Stake, StepCheck, Shape, CreditsApplied;
    var id := tx.body.pool;
    var c := s.pools[id];
    var i := Index(c.members, tx.from);
    StepSound(sha, c, i, tx.body.step, tx.from, s.now, Balance(s.accounts, tx.from, c.asset));
    CircleStepUnpaid(s, id, StepEffect(sha, c, i, tx.body.step, tx.from, s.now,
      Balance(s.accounts, tx.from, c.asset)), Stake(c, i, tx.body.step));
  }

  lemma EscrowEffectUnpaid(sha: Sha, s: State, tx: Tx)
    requires EscrowsOk(s.escrows) && Shaped(s) && GoodTx(tx) && Allowed(s, tx) && tx.body.EscrowAct?
    ensures Unpaid(s, Spent(s, tx), tx.asset, Effect(sha, s, tx))
  {
    hide Unpaid, EscrowInv, Shape, CreditsApplied, EscrowCheck, EscrowEffect;
    var id := tx.body.escrow;
    EscrowStepKeeps(s.escrows[id], tx.from, tx.body.act, s.now);
    EscrowActUnpaid(s, id, EscrowEffect(s.escrows[id], tx.body.act, s.now));
  }

  lemma OpenUnpaid(sha: Sha, s: State, tx: Tx)
    requires Shaped(s) && GoodTx(tx) && Allowed(s, tx) && (tx.body.OpenCircle? || tx.body.OpenEscrow?)
    ensures Unpaid(s, Spent(s, tx), tx.asset, Effect(sha, s, tx))
  {
    hide Unpaid, Shape, Holdings;
    match tx.body
    case OpenCircle(members, terms) =>
      NewCircleInv(tx.id, tx.asset, tx.from, members, terms);
      CircleOpenUnpaid(s, tx.id, NewCircle(tx.id, tx.asset, tx.from, members, terms));
    case OpenEscrow(agreed) =>
      EscrowOpenUnpaid(s, tx.id, NewEscrow(tx.asset, tx.from, agreed, s.now));
    case _ =>
  }

  lemma EffectUnpaid(sha: Sha, s: State, tx: Tx)
    requires Parts(s) && AccountsOk(s.accounts) && Shaped(s) && GoodTx(tx) && Allowed(s, tx)
    ensures Unpaid(s, Spent(s, tx), tx.asset, Effect(sha, s, tx))
  {
    hide Unpaid, Shape, CircleInv, EscrowInv, AccountOk, TargetOk;
    match tx.body
    case Transfer(to, amount) => TransferUnpaid(s, to, tx.asset, amount);
    case Mint(_, _) => MintBurnUnpaid(s, tx, sha);
    case Burn(_) => MintBurnUnpaid(s, tx, sha);
    case OpenCircle(_, _) => OpenUnpaid(sha, s, tx);
    case CircleStep(_, _) => CircleEffectUnpaid(sha, s, tx);
    case OpenEscrow(_) => OpenUnpaid(sha, s, tx);
    case EscrowAct(_, _) => EscrowEffectUnpaid(sha, s, tx);
    case Guard(op) => GuardUnpaid(s, tx.from, op, tx.asset);
  }

  /** The accounts after the debit and the nonce. */
  function Debited(s: State, tx: Tx, cost: int): Accounts {
    var paid := SetBalance(s.accounts, tx.from, tx.asset, Balance(s.accounts, tx.from, tx.asset) - cost);
    paid[tx.from := paid[tx.from].(nonce := paid[tx.from].nonce + 1)]
  }

  lemma DebitMoney(s: State, tx: Tx, cost: int, x: Asset)
    ensures InAccounts(Debited(s, tx, cost), x) == InAccounts(s.accounts, x) - if x == tx.asset then cost else 0
  {
    hide InAccounts;
    var v := Balance(s.accounts, tx.from, tx.asset) - cost;
    var paid := SetBalance(s.accounts, tx.from, tx.asset, v);
    SetMoney(s.accounts, tx.from, tx.asset, v, x);
    AccountPut(paid, tx.from, paid[tx.from].(nonce := paid[tx.from].nonce + 1), x);
  }

  /** The debit and the fee settle exactly the cost; a burned fee leaves the supply. */
  lemma SettleMoney(s: State, tx: Tx, cost: int, x: Asset)
    requires tx.asset != ORP ==> tx.asset in s.defs
    requires 0 <= tx.fee
    ensures Excess(Settle(s, tx, cost), x) == Excess(s, x) - if x == tx.asset then cost - tx.fee else 0
  {
    hide InEscrows, InCircles, InAccounts, SetBalance;
    DebitMoney(s, tx, cost, x);
    if tx.fee > 0 && tx.asset != ORP {
      var next := Debited(s, tx, cost);
      var issuer := s.defs[tx.asset].issuer;
      SetMoney(next, issuer, tx.asset, Balance(next, issuer, tx.asset) + tx.fee, x);
    }
  }

  /**
    Conservation for one transaction, whatever it is: if every asset's money matched its supply before,
    it does afterwards, and ORP supply plus the burned total is unchanged.
   */
  lemma ApplyConserves(sha: Sha, s: State, tx: Tx)
    requires Parts(s) && AccountsOk(s.accounts) && Conserved(s) && Shaped(s) && GoodTx(tx) && Apply(sha, s, tx).Ok?
    ensures Conserved(Apply(sha, s, tx).state)
    ensures Apply(sha, s, tx).state.supply + Apply(sha, s, tx).state.burned == s.supply + s.burned
  {
    hide Parts, AccountsOk, Shape, Effect, Spent, Check, Money, GoodTx;
    EffectUnpaid(sha, s, tx);
    var mid := Effect(sha, s, tx);
    FeeNonNeg(tx);
    var t := Apply(sha, s, tx).state;
    CheckedAsset(s, tx);
    SpentPlusFee(s, tx);
    forall x ensures Money(t, x) == SupplyOf(t, x) {
      SettleMoney(mid, tx, Cost(s, tx), x);
      assert Excess(s, x) == 0;
    }
  }

  lemma FeeNonNeg(tx: Tx)
    requires GoodTx(tx)
    ensures 0 <= tx.fee
  {}

  lemma CheckedAsset(s: State, tx: Tx)
    requires Shaped(s) && Check(s, tx) == None
    ensures tx.asset != ORP ==> tx.asset in s.defs
  {}

  lemma SpentPlusFee(s: State, tx: Tx)
    requires Shaped(s) && GoodTx(tx)
    ensures Cost(s, tx) - tx.fee == Spent(s, tx)
  {}

  // ---------------------------------------------------------------- the debit never underflows

  lemma {:induction false} ReceivedNonNeg(cs: seq<Credit>, a: Address, k: nat)
    requires k <= |cs| && forall j :: 0 <= j < |cs| ==> 0 <= cs[j].amount
    ensures 0 <= Received(cs, a, k)
  {
    if k > 0 {
      ReceivedNonNeg(cs, a, k - 1);
    }
  }

  /** What the sender of a circle step is credited by it. */
  function StepReceipt(sha: Sha, s: State, tx: Tx): int
    requires Shaped(s) && Check(s, tx) == None && tx.body.CircleStep?
  {
    var c := s.pools[tx.body.pool];
    var r := StepEffect(sha, c, Index(c.members, tx.from), tx.body.step, tx.from, s.now,
      Balance(s.accounts, tx.from, c.asset));
    Received(r.credits, tx.from, |r.credits|)
  }

  /**
    The two cases in which the funds check, made before the effect, does not by itself cover the debit after it:
    a claim, whose fee may be advanced from the pot, must bring in at least what the fee exceeds the balance by;
    and a recovered account that finishes its own recovery must not carry a fee.
   */
  predicate Covered(sha: Sha, s: State, tx: Tx)
    requires Shaped(s) && Check(s, tx) == None
  {
    if tx.body.CircleStep? && tx.body.step.Claim? then
      Balance(s.accounts, tx.from, tx.asset) + StepReceipt(sha, s, tx) >= tx.fee
    else if tx.body.Guard? && tx.body.op.Finish? && tx.body.op.account == tx.from then tx.fee == 0
    else true
  }

  lemma CreditRead(m: Accounts, to: Address, x: Asset, v: int, b: Address, y: Asset)
    ensures Balance(CreditTo(m, to, x, v), b, y) == Balance(m, b, y) + if to == b && x == y then v else 0
  {
    SetRead(m, to, x, Balance(m, to, x) + v, b, y);
  }

  /** Moving holdings empties the old account, adds to the new one, and leaves every other one alone; nonces stay. */
  lemma MoveRead(m: Accounts, old0: Address, new0: Address, b: Address, y: Asset)
    requires AccountsOk(m) && old0 != new0
    ensures Balance(MoveHoldings(m, old0, new0), b, y) ==
      if b == old0 then 0 else Balance(m, b, y) + if b == new0 then Balance(m, old0, y) else 0
    ensures Get(MoveHoldings(m, old0, new0), b).nonce == Get(m, b).nonce
  {
    hide Merged;
    var src, into := Get(m, old0), Get(m, new0);
    assert ORP !in src.assets && ORP !in into.assets;
    MergedHeld(into, src, y);
    MergedNonce(into, src);
    if src.balance == 0 && src.assets == map[] {
      assert Ledger.Held(src, y) == 0;
    }
    EmptyHolds(src.nonce, y);
  }

  lemma MergedNonce(acc: Account, src: Account)
    ensures Merged(acc, src).nonce == acc.nonce
  {}

  lemma EmptyHolds(nonce: int, y: Asset)
    ensures Ledger.Held(Account(0, nonce, map[]), y) == 0
  {}

  lemma CircleDebit(sha: Sha, s: State, tx: Tx)
    requires Parts(s) && AccountsOk(s.accounts) && Shaped(s) && GoodTx(tx) && Check(s, tx) == None
      && tx.body.CircleStep?
    ensures Balance(Effect(sha, s, tx).accounts, tx.from, tx.asset) == Balance(s.accounts, tx.from, tx.asset)
      + StepReceipt(sha, s, tx)
    ensures 0 <= StepReceipt(sha, s, tx)
  {
    hide Shape, CircleInv, EscrowInv, AccountOk, TargetOk, StepEffect, StepCheck, Stake, Holdings;
    var c := s.pools[tx.body.pool];
    var i := Index(c.members, tx.from);
    StepSound(sha, c, i, tx.body.step, tx.from, s.now, Balance(s.accounts, tx.from, c.asset));
    var r := StepEffect(sha, c, i, tx.body.step, tx.from, s.now, Balance(s.accounts, tx.from, c.asset));
    CreditsRead(s.accounts, c.asset, r.credits, |r.credits|, tx.from, tx.asset);
    ReceivedNonNeg(r.credits, tx.from, |r.credits|);
  }

  lemma EscrowDebit(sha: Sha, s: State, tx: Tx)
    requires Parts(s) && AccountsOk(s.accounts) && Shaped(s) && GoodTx(tx) && Check(s, tx) == None && tx.body.EscrowAct?
    ensures Balance(Effect(sha, s, tx).accounts, tx.from, tx.asset) >= Balance(s.accounts, tx.from, tx.asset)
  {
    hide Shape, CircleInv, AccountOk, TargetOk, EscrowEffect, EscrowCheck, EscrowInv;
    var e := s.escrows[tx.body.escrow];
    EscrowStepKeeps(e, tx.from, tx.body.act, s.now);
    var r := EscrowEffect(e, tx.body.act, s.now);
    CreditsRead(s.accounts, e.asset, r.credits, |r.credits|, tx.from, tx.asset);
    ReceivedNonNeg(r.credits, tx.from, |r.credits|);
  }

  lemma FinishDebit(s: State, from: Address, account: Address, x: Asset)
    requires Parts(s) && AccountsOk(s.accounts) && GuardCheck(s, from, Finish(account)) == None
    ensures from == account ==> Balance(GuardEffect(s, from, Finish(account)).accounts, from, x) == 0
    ensures from != account ==>
      Balance(GuardEffect(s, from, Finish(account)).accounts, from, x) >= Balance(s.accounts, from, x)
  {
    hide CirclesOk, EscrowsOk, RenameCircle, RenameEscrow, MoveHoldings, AccountsOk;
    assert TargetOk(account, s.guards[account]);
    var n := s.guards[account].pending.value.newOwner;
    MoveRead(s.accounts, account, n, from, x);
    BalanceNonNeg(s.accounts, account, x);
  }

  lemma GuardDebit(sha: Sha, s: State, tx: Tx)
    requires Parts(s) && AccountsOk(s.accounts) && Shaped(s) && GoodTx(tx) && Check(s, tx) == None && tx.body.Guard?
    ensures Balance(Effect(sha, s, tx).accounts, tx.from, tx.asset) >= tx.fee <==> Covered(sha, s, tx)
  {
    hide Shape, Parts, AccountsOk, MoveAccount, Balance;
    if tx.body.op.Finish? {
      FinishDebit(s, tx.from, tx.body.op.account, tx.asset);
    }
  }

  lemma PlainDebit(sha: Sha, s: State, tx: Tx)
    requires AccountsOk(s.accounts) && Shaped(s) && GoodTx(tx) && Check(s, tx) == None
    requires !tx.body.CircleStep? && !tx.body.EscrowAct? && !tx.body.Guard?
    ensures Balance(Effect(sha, s, tx).accounts, tx.from, tx.asset) >= Balance(s.accounts, tx.from, tx.asset)
  {
    hide Shape, Shaped, SetBalance, Rule, GuardEffect, CircleEffect, ActEffect, NewCircle, NewEscrow, Check,
      GoodTerms, GoodEscrowTerms, Balance, IssuedOf;
    match tx.body
    case Transfer(to, amount) => CreditRead(s.accounts, to, tx.asset, amount, tx.from, tx.asset);
    case Mint(to, amount) => CreditRead(s.accounts, to, tx.asset, amount, tx.from, tx.asset);
    case _ =>
  }

  /**
    The debit after the effect never takes more than the account holds, exactly when the transaction is Covered;
    outside the two premised cases every transaction that passes its checks is.
   */
  lemma DebitCovered(sha: Sha, s: State, tx: Tx)
    requires Parts(s) && AccountsOk(s.accounts) && Shaped(s) && GoodTx(tx) && Check(s, tx) == None
    ensures Balance(Effect(sha, s, tx).accounts, tx.from, tx.asset) >= Cost(s, tx) <==> Covered(sha, s, tx)
  {
    hide Shape, Parts, AccountsOk, Effect, Rule, StepReceipt, GoodTx;
    match tx.body
    case CircleStep(_, _) => CircleDebit(sha, s, tx);
    case EscrowAct(_, _) => EscrowDebit(sha, s, tx);
    case Guard(_) => GuardDebit(sha, s, tx);
    case _ => PlainDebit(sha, s, tx);
  }

  // ---------------------------------------------------------------- the parts stay sound

  lemma DebitedOk(s: State, tx: Tx, cost: int)
    requires AccountsOk(s.accounts) && Balance(s.accounts, tx.from, tx.asset) >= cost
    ensures AccountsOk(Debited(s, tx, cost))
  {}

  lemma CreditOk(m: Accounts, to: Address, x: Asset, v: int)
    requires AccountsOk(m) && 0 <= v
    ensures AccountsOk(CreditTo(m, to, x, v))
  {}

  lemma {:induction false} CreditsOk(m: Accounts, x: Asset, cs: seq<Credit>, k: nat)
    requires AccountsOk(m) && k <= |cs| && forall j :: 0 <= j < |cs| ==> 0 <= cs[j].amount
    ensures AccountsOk(CreditsApplied(m, x, cs, k))
  {
    hide AccountsOk, SetBalance;
    if k > 0 {
      CreditsOk(m, x, cs, k - 1);
      CreditOk(CreditsApplied(m, x, cs, k - 1), cs[k - 1].to, x, cs[k - 1].amount);
    }
  }

  lemma MergedOk(acc: Account, src: Account)
    requires AccountOk(acc) && AccountOk(src)
    ensures AccountOk(Merged(acc, src))
  {}

  lemma MoveOk(m: Accounts, old0: Address, new0: Address)
    requires AccountsOk(m)
    ensures AccountsOk(MoveHoldings(m, old0, new0))
  {
    hide Merged;
    MergedOk(Get(m, new0), Get(m, old0));
  }

  lemma ReplacedDistinct(members: seq<Address>, old0: Address, new0: Address)
    requires Distinct(members) && NoAddress !in members && new0.Key? && new0 !in members
    ensures Distinct(ReplaceMember(members, old0, new0)) && NoAddress !in ReplaceMember(members, old0, new0)
  {}

  lemma MembersKeep(c: Circle, members: seq<Address>, creator: Address)
    requires CircleInv(c) && |members| == |c.members| && Distinct(members) && NoAddress !in members
    ensures CircleInv(c.(members := members, creator := creator))
      && SameMoney(c, c.(members := members, creator := creator))
  {
    hide Distinct;
    if c.terms.mode != Goal {
      assert PaidList(c.(members := members, creator := creator)) == PaidList(c);
    }
  }

  /** A recovery leaves every circle sound and every seat held by a different key. */
  lemma RenameKeeps(c: Circle, old0: Address, new0: Address)
    requires CircleInv(c) && new0.Key?
    ensures CircleInv(RenameCircle(c, old0, new0)) && SameMoney(c, RenameCircle(c, old0, new0))
  {
    hide Amounts, Books, Seats, Phase, Pledges, Distinct, ReplaceMember;
    if new0 !in c.members {
      ReplacedDistinct(c.members, old0, new0);
      MembersKeep(c, ReplaceMember(c.members, old0, new0), Renamed(c.creator, old0, new0));
    }
  }

  ghost predicate SameMoney(c: Circle, r: Circle) { r.asset == c.asset && Holdings(r) == Holdings(c) }

  /** Effect keeps accounts, circles, escrows and recovery setups sound. */
  ghost predicate Kept(t: State) {
    CirclesOk(t.pools) && EscrowsOk(t.escrows) && TargetsOk(t.guards) && AccountsOk(t.accounts)
  }

  lemma MoveKeeps(s: State, old0: Address, new0: Address)
    requires Kept(s) && old0 in s.guards && new0.Key? && new0 != old0
    ensures Kept(MoveAccount(s, old0, new0))
  {
    hide CircleInv, EscrowInv, RenameCircle, AccountsOk, MoveHoldings;
    MoveOk(s.accounts, old0, new0);
    forall id | id in s.pools ensures CircleInv(RenameCircle(s.pools[id], old0, new0)) {
      RenameKeeps(s.pools[id], old0, new0);
    }
    forall id | id in s.escrows ensures EscrowInv(RenameEscrow(s.escrows[id], old0, new0)) {
      RenameEscrowKeeps(s.escrows[id], old0, new0);
    }
  }

  lemma RenameEscrowKeeps(e: Escrow, old0: Address, new0: Address)
    requires EscrowInv(e)
    ensures EscrowInv(RenameEscrow(e, old0, new0))
  {}

  lemma GuardKeeps(s: State, from: Address, op: GuardOp)
    requires Kept(s) && GoodGuardOp(op, from) && GuardCheck(s, from, op) == None
    ensures Kept(GuardEffect(s, from, op))
  {
    hide MoveAccount, CirclesOk, EscrowsOk, AccountsOk;
    if op.Finish? {
      assert TargetOk(op.account, s.guards[op.account]);
      MoveKeeps(s, op.account, s.guards[op.account].pending.value.newOwner);
    }
  }

  lemma CircleKept(sha: Sha, s: State, tx: Tx)
    requires Kept(s) && Shaped(s) && GoodTx(tx) && Check(s, tx) == None && tx.body.CircleStep?
    ensures Kept(Effect(sha, s, tx))
  {
    hide Shape, CircleInv, EscrowsOk, TargetsOk, AccountsOk, StepEffect, StepCheck, Stake, Holdings;
    var c := s.pools[tx.body.pool];
    var i := Index(c.members, tx.from);
    StepSound(sha, c, i, tx.body.step, tx.from, s.now, Balance(s.accounts, tx.from, c.asset));
    var r := StepEffect(sha, c, i, tx.body.step, tx.from, s.now, Balance(s.accounts, tx.from, c.asset));
    CreditsOk(s.accounts, c.asset, r.credits, |r.credits|);
  }

  lemma EscrowKept(sha: Sha, s: State, tx: Tx)
    requires Kept(s) && Shaped(s) && GoodTx(tx) && Check(s, tx) == None && tx.body.EscrowAct?
    ensures Kept(Effect(sha, s, tx))
  {
    hide Shape, CirclesOk, TargetsOk, AccountsOk, EscrowEffect, EscrowCheck, EscrowInv;
    var e := s.escrows[tx.body.escrow];
    EscrowStepKeeps(e, tx.from, tx.body.act, s.now);
    var r := EscrowEffect(e, tx.body.act, s.now);
    CreditsOk(s.accounts, e.asset, r.credits, |r.credits|);
  }

  lemma TransferKept(sha: Sha, s: State, tx: Tx)
    requires Kept(s) && Shaped(s) && GoodTx(tx) && Check(s, tx) == None
      && (tx.body.Transfer? || tx.body.Mint? || tx.body.Burn?)
    ensures Kept(Effect(sha, s, tx))
  {
    hide Shape, CirclesOk, EscrowsOk, TargetsOk, AccountsOk, SetBalance, Rule;
    match tx.body
    case Transfer(to, amount) => CreditOk(s.accounts, to, tx.asset, amount);
    case Mint(to, amount) => CreditOk(s.accounts, to, tx.asset, amount);
    case _ =>
  }

  lemma OpenKept(sha: Sha, s: State, tx: Tx)
    requires Kept(s) && Shaped(s) && GoodTx(tx) && Check(s, tx) == None && (tx.body.OpenCircle? || tx.body.OpenEscrow?)
    ensures Kept(Effect(sha, s, tx))
  {
    hide Shape, CircleInv, EscrowInv, TargetsOk, AccountsOk, NewCircle, NewEscrow, GoodTerms, GoodEscrowTerms, Rule;
    match tx.body
    case OpenCircle(members, terms) => NewCircleInv(tx.id, tx.asset, tx.from, members, terms);
    case OpenEscrow(agreed) => NewEscrowInv(tx.asset, tx.from, agreed, s.now);
    case _ =>
  }

  lemma EffectKept(sha: Sha, s: State, tx: Tx)
    requires Kept(s) && Shaped(s) && GoodTx(tx) && Check(s, tx) == None
    ensures Kept(Effect(sha, s, tx))
  {
    hide Shape, Kept;
    match tx.body
    case CircleStep(_, _) => CircleKept(sha, s, tx);
    case EscrowAct(_, _) => EscrowKept(sha, s, tx);
    case Guard(op) => GuardKeptToo(sha, s, tx);
    case OpenCircle(_, _) => OpenKept(sha, s, tx);
    case OpenEscrow(_) => OpenKept(sha, s, tx);
    case _ => TransferKept(sha, s, tx);
  }

  lemma GuardKeptToo(sha: Sha, s: State, tx: Tx)
    requires Kept(s) && Shaped(s) && GoodTx(tx) && Check(s, tx) == None && tx.body.Guard?
    ensures Kept(Effect(sha, s, tx))
  {
    hide Shape, Kept, GuardEffect, GuardCheck;
    GuardKeeps(s, tx.from, tx.body.op);
  }

  lemma SettleKept(s: State, tx: Tx, cost: int)
    requires Kept(s) && (tx.asset != ORP ==> tx.asset in s.defs) && Balance(s.accounts, tx.from, tx.asset) >= cost
    ensures Kept(Settle(s, tx, cost))
  {
    hide CirclesOk, EscrowsOk, TargetsOk, AccountsOk, SetBalance, Balance;
    DebitedOk(s, tx, cost);
    if tx.fee > 0 && tx.asset != ORP {
      CreditOk(Debited(s, tx, cost), s.defs[tx.asset].issuer, tx.asset, tx.fee);
    }
  }

  lemma GuardIssued(sha: Sha, s: State, tx: Tx)
    requires Shaped(s) && GoodTx(tx) && Allowed(s, tx) && tx.body.Guard?
    ensures Effect(sha, s, tx).issued == s.issued
  {
    hide Shape, Shaped, GuardEffect, GuardCheck, GoodTx;
    GuardAllowed(s, tx);
  }

  lemma StepIssued(sha: Sha, s: State, tx: Tx)
    requires Shaped(s) && GoodTx(tx) && Allowed(s, tx) && (tx.body.CircleStep? || tx.body.EscrowAct?)
    ensures Effect(sha, s, tx).issued == s.issued
  {
    hide Shape, Shaped, CircleEffect, ActEffect, GoodTx, Allowed;
  }

  lemma UnitsIssued(sha: Sha, s: State, tx: Tx)
    requires Shaped(s) && GoodTx(tx) && Allowed(s, tx) && (tx.body.Mint? || tx.body.Burn?)
    ensures Effect(sha, s, tx).issued == s.issued[tx.asset := IssuedOf(s, tx.asset)
      + if tx.body.Mint? then tx.body.amount else -tx.body.amount]
  {
    hide Shape, Shaped, CreditTo, Allowed, GoodTx, IssuedOf;
  }

  lemma OtherIssued(sha: Sha, s: State, tx: Tx)
    requires Shaped(s) && GoodTx(tx) && Allowed(s, tx)
      && (tx.body.Transfer? || tx.body.OpenCircle? || tx.body.OpenEscrow?)
    ensures Effect(sha, s, tx).issued == s.issued
  {
    hide Shape, Shaped, CreditTo, NewCircle, NewEscrow, Allowed, GoodTx;
  }

  /** Only a mint and a burn touch the supply of issued assets. */
  lemma EffectIssued(sha: Sha, s: State, tx: Tx)
    requires Shaped(s) && GoodTx(tx) && Allowed(s, tx)
    ensures Effect(sha, s, tx).issued ==
      match tx.body
      case Mint(_, amount) => s.issued[tx.asset := IssuedOf(s, tx.asset) + amount]
      case Burn(amount) => s.issued[tx.asset := IssuedOf(s, tx.asset) - amount]
      case _ => s.issued
  {
    hide Shaped, Effect, GoodTx, Allowed, IssuedOf;
    if tx.body.Guard? {
      GuardIssued(sha, s, tx);
    } else if tx.body.CircleStep? || tx.body.EscrowAct? {
      StepIssued(sha, s, tx);
    } else if tx.body.Mint? || tx.body.Burn? {
      UnitsIssued(sha, s, tx);
    } else {
      OtherIssued(sha, s, tx);
    }
  }

  lemma GuardAllowed(s: State, tx: Tx)
    requires Shaped(s) && Allowed(s, tx) && tx.body.Guard?
    ensures GuardCheck(s, tx.from, tx.body.op) == None
  {
    hide Shape;
  }

  /** A mint is refused when the asset's supply would pass 64 bits; nothing else makes a supply grow. */
  lemma EffectBounded(sha: Sha, s: State, tx: Tx)
    requires Bounded(s) && Shaped(s) && GoodTx(tx) && Check(s, tx) == None && ORP !in s.defs
    ensures Bounded(Settle(Effect(sha, s, tx), tx, Cost(s, tx)))
  {
    hide Shape, Effect, SetBalance, StepCheck, EscrowCheck, GuardCheck;
    var mid := Effect(sha, s, tx);
    EffectIssued(sha, s, tx);
    var t := Settle(mid, tx, Cost(s, tx));
    forall x ensures SupplyOf(t, x) < TWO64 {
      assert SupplyOf(s, x) < TWO64;
    }
  }

  /**
    One transaction keeps the whole ledger sound, whenever it is Covered: conservation of every asset, balances and
    supplies within 64 bits, sound circles, escrows and recoveries.
   */
  lemma ApplyKeeps(sha: Sha, s: State, tx: Tx)
    requires LedgerInv(s) && Shaped(s) && GoodTx(tx) && Check(s, tx) == None && Covered(sha, s, tx)
    ensures Apply(sha, s, tx).Ok? && LedgerInv(Apply(sha, s, tx).state)
  {
    hide Shape, CirclesOk, EscrowsOk, TargetsOk, AccountsOk, Conserved, Bounded, Covered, Effect, Check, GoodTx, Settle;
    EffectKept(sha, s, tx);
    DebitCovered(sha, s, tx);
    CheckedAsset(s, tx);
    SettleKept(Effect(sha, s, tx), tx, Cost(s, tx));
    EffectBounded(sha, s, tx);
    ApplyConserves(sha, s, tx);
    SettleDefs(Effect(sha, s, tx), tx, Cost(s, tx));
  }

  lemma SettleDefs(s: State, tx: Tx, cost: int)
    requires tx.asset != ORP ==> tx.asset in s.defs
    ensures Settle(s, tx, cost).defs == s.defs && Settle(s, tx, cost).now == s.now
  {}

  lemma InvParts(s: State)
    requires LedgerInv(s)
    ensures Parts(s) && AccountsOk(s.accounts) && Conserved(s)
  {}
}
