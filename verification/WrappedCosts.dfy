/**
  Costs of 2^64 and more. The program adds a cost up in 64 bits, so its checks compare the remainder; this module says
  exactly when that accepts what the exact cost does not allow, and what such an acceptance does to conservation.
 */
module WrappedCosts {
  import opened Core
  import opened Sequences
  import opened Circles
  import opened CircleBooks
  import CircleAutopay
  import opened Escrows
  import opened Ledger
  import opened Conservation
  import opened LedgerSafety
  import opened MachineFacts
  import opened Outcomes
  import opened Witnesses

  // ---------------------------------------------------------------- every transaction

  /**
    A transaction costs 2^64 or more only if it opens an escrow or a circle or puts money into a circle: transfers and
    burns are checked before, and the others cost their fee.
   */
  lemma WrapKinds(s: State, tx: Tx)
    requires Shaped(s) && GoodTx(tx) && Cost(s, tx) >= TWO64
    ensures tx.body.OpenCircle? || tx.body.OpenEscrow? || tx.body.CircleStep?
    ensures tx.body.CircleStep? ==> tx.body.step.Join? || tx.body.step.Contribute? || tx.body.step.Autopay?
  {
    hide Shape;
  }

  lemma StakeBounded(c: Circle, i: int, step: Step)
    requires CircleInv(c) && -1 <= i < |c.members| && GoodStep(step)
    ensures Stake(c, i, step) < TWO64
  {
    ContributionFits(c);
    if i >= 0 {
      ContributeFacts(c, i);
    }
  }

  /** A cost is one 64-bit amount and a fee. */
  lemma CostBelow(s: State, tx: Tx)
    requires LedgerInv(s) && Shaped(s) && GoodTx(tx)
    ensures Cost(s, tx) < 2 * TWO64
  {
    hide CircleInv, EscrowsOk, TargetsOk, Shape, AccountsOk, Conserved, Bounded, Stake;
    if tx.body.CircleStep? && tx.body.pool in s.pools {
      var c := s.pools[tx.body.pool];
      StakeBounded(c, Index(c.members, tx.from), tx.body.step);
    }
  }

  lemma CostDropped(s: State, tx: Tx)
    requires LedgerInv(s) && Shaped(s) && GoodTx(tx)
    ensures 0 <= CostIn64(s, tx) < TWO64 && CostIn64(s, tx) <= Cost(s, tx)
    ensures CostIn64(s, tx) == Cost(s, tx) <==> Cost(s, tx) < TWO64
    ensures Cost(s, tx) >= TWO64 ==> Cost(s, tx) - CostIn64(s, tx) == TWO64
  {
    CostNonNeg(s, tx);
    CostBelow(s, tx);
    hide LedgerInv, Shaped, GoodTx, Cost;
  }

  /** The program accepts all that the exact checks accept, and beyond that exactly what costs 2^64 or more. */
  lemma AcceptedExactly(s: State, tx: Tx)
    requires LedgerInv(s) && Shaped(s) && GoodTx(tx)
    ensures Check(s, tx) == None <==> CheckIn64(s, tx) == None && Cost(s, tx) < TWO64
    ensures Cost(s, tx) < TWO64 ==> CheckIn64(s, tx) == Check(s, tx)
  {
    AvailableFits(s, tx);
    CostDropped(s, tx);
    hide LedgerInv, Shaped, GoodTx, Cost, CostIn64, Rule, Available, FeeFree, MinFeeFor;
  }

  // ---------------------------------------------------------------- the ledger it leads to

  lemma DebitedIn64Is(s: State, tx: Tx, cost: int)
    ensures var acc := Get(s.accounts, tx.from); var u := (Ledger.Held(acc, tx.asset) - cost) % TWO64;
      DebitedIn64(s, tx, cost) == s.accounts[tx.from := WithBalance(acc, tx.asset, u).(nonce := acc.nonce + 1)]
  {}

  lemma IssuerIn64(s: State, tx: Tx, cost: int, back: Account)
    requires tx.asset != ORP && tx.asset in s.defs && PaysItself(s, tx) && 0 < tx.fee == cost < TWO64
    requires var acc, x := Get(s.accounts, tx.from), tx.asset; var held := Ledger.Held(acc, x);
      && 0 <= held < TWO64
      && WithBalance(WithBalance(acc, x, (held - cost) % TWO64).(nonce := acc.nonce + 1), x, held) == back
    ensures SettleIn64(s, tx, cost) == s.(accounts := s.accounts[tx.from := back])
  {
    var acc, x := Get(s.accounts, tx.from), tx.asset;
    var u := (Ledger.Held(acc, x) - cost) % TWO64;
    hide WithBalance, DebitedIn64, Ledger.Held;
    TakenBack(Ledger.Held(acc, x), cost);
    HeldWith(acc, x, u, x);
    DebitedIn64Is(s, tx, cost);
    assert DebitedIn64(s, tx, cost)[tx.from] == WithBalance(acc, x, u).(nonce := acc.nonce + 1);
    SameHeld(WithBalance(acc, x, u), acc.nonce + 1, x);
  }

  lemma SameHeld(acc: Account, nonce: int, x: Asset)
    ensures Ledger.Held(acc.(nonce := nonce), x) == Ledger.Held(acc, x)
  {}

  lemma TakenBack(held: int, cost: int)
    requires 0 <= held < TWO64 && 0 <= cost < TWO64
    ensures ((held - cost) % TWO64 + cost) % TWO64 == held
  {}

  lemma IssuerExact(s: State, tx: Tx, cost: int)
    requires tx.asset != ORP && tx.asset in s.defs && PaysItself(s, tx) && 0 < tx.fee
    ensures Settle(s, tx, cost) == s.(accounts := Settle(s, tx, cost).accounts)
  {
    hide SetBalance, CreditTo;
  }

  /** An issuer's fee in its own asset comes back, whether the debit in between goes below zero or wraps around. */
  lemma IssuerSame(s: State, tx: Tx, cost: int)
    requires AccountsOk(s.accounts) && tx.asset != ORP && tx.asset in s.defs && PaysItself(s, tx)
    requires 0 < tx.fee == cost < TWO64 && Balance(s.accounts, tx.from, tx.asset) < TWO64
    ensures SettleIn64(s, tx, cost) == Settle(s, tx, cost)
  {
    hide AccountsOk, AccountOk, WithBalance, Settle, SettleIn64;
    var acc, x := Get(s.accounts, tx.from), tx.asset;
    GetOk(s.accounts, tx.from);
    BalanceNonNeg(s.accounts, tx.from, x);
    var held := Ledger.Held(acc, x);
    var back := WithBalance(acc, x, held).(nonce := acc.nonce + 1);
    TwiceSet(acc, x, held - cost, held);
    TwiceSet(acc, x, (held - cost) % TWO64, held);
    IssuerAccounts(s, tx, cost, back);
    IssuerExact(s, tx, cost);
    IssuerIn64(s, tx, cost, back);
  }

  /** The two cases in which the program's next ledger is the exact one. */
  predicate Settled(sha: Sha, s: State, tx: Tx)
    requires Shaped(s)
  {
    Check(s, tx) == None && (Covered(sha, s, tx) || PaysItself(s, tx))
  }

  lemma SettledSame(sha: Sha, s: State, tx: Tx)
    requires LedgerInv(s) && Shaped(s) && GoodTx(tx) && 0 <= s.burned && s.supply + s.burned < TWO64
    requires Settled(sha, s, tx)
    ensures ApplyIn64(sha, s, tx) == Apply(sha, s, tx)
  {
    hide LedgerInv, Shaped, GoodTx, Cost, CostIn64, Check, CheckIn64, Effect, EffectIn64, SettleIn64, Settle, Covered,
      PaysItself, Balance, AccountsOk;
    if Covered(sha, s, tx) {
      PayableFits(sha, s, tx);
    } else {
      FeeNonNeg(tx);
      ExactAccepted(s, tx);
      CostFits(s, tx);
      EffectSame(sha, s, tx);
      UncoveredCost(sha, s, tx);
      UncoveredIssuer(sha, s, tx);
      IssuerSame(Effect(sha, s, tx), tx, Cost(s, tx));
    }
  }

  lemma UncoveredIssuer(sha: Sha, s: State, tx: Tx)
    requires LedgerInv(s) && Shaped(s) && GoodTx(tx) && Check(s, tx) == None && !Covered(sha, s, tx)
      && (tx.asset != ORP ==> tx.asset in s.defs) && PaysItself(s, tx)
    ensures var mid := Effect(sha, s, tx);
      && AccountsOk(mid.accounts) && tx.asset != ORP && tx.asset in mid.defs && PaysItself(mid, tx)
      && 0 <= Balance(mid.accounts, tx.from, tx.asset) < Cost(s, tx)
  {
    hide Shape, Shaped, CirclesOk, EscrowsOk, TargetsOk, AccountsOk, Conserved, Bounded, Covered, Effect, Check, GoodTx,
      Balance, Cost;
    EffectKept(sha, s, tx);
    DebitCovered(sha, s, tx);
    BalanceNonNeg(Effect(sha, s, tx).accounts, tx.from, tx.asset);
  }

  /** A balance as its field keeps it is never negative. */
  lemma SenderIn64(s: State, tx: Tx, cost: int)
    requires (tx.asset != ORP ==> tx.asset in s.defs) && !PaysItself(s, tx)
    ensures Balance(SettleIn64(s, tx, cost).accounts, tx.from, tx.asset)
      == (Balance(s.accounts, tx.from, tx.asset) - cost) % TWO64
  {
    hide SetBalance, Balance;
    var v := (Balance(s.accounts, tx.from, tx.asset) - cost) % TWO64;
    SetRead(s.accounts, tx.from, tx.asset, v, tx.from, tx.asset);
    var paid := SetBalance(s.accounts, tx.from, tx.asset, v);
    assert Balance(DebitedIn64(s, tx, cost), tx.from, tx.asset) == v by { NonceRead(s, tx, cost); }
    if tx.asset != ORP {
      var next, issuer := DebitedIn64(s, tx, cost), s.defs[tx.asset].issuer;
      SetRead(next, issuer, tx.asset, (Balance(next, issuer, tx.asset) + tx.fee) % TWO64, tx.from, tx.asset);
    }
  }

  lemma NonceRead(s: State, tx: Tx, cost: int)
    ensures Balance(DebitedIn64(s, tx, cost), tx.from, tx.asset)
      == (Balance(s.accounts, tx.from, tx.asset) - cost) % TWO64
  {}

  lemma UnsettledDiffers(sha: Sha, s: State, tx: Tx)
    requires LedgerInv(s) && Shaped(s) && GoodTx(tx) && CheckIn64(s, tx) == None && !Settled(sha, s, tx)
    ensures ApplyIn64(sha, s, tx) != Apply(sha, s, tx)
  {
    hide LedgerInv, Shaped, GoodTx, Cost, CostIn64, Check, CheckIn64, Effect, EffectIn64, SettleIn64, Settle, Covered,
      PaysItself, Balance;
    if Check(s, tx) == None {
      InvParts(s);
      FeeNonNeg(tx);
      EffectSame(sha, s, tx);
      DebitCovered(sha, s, tx);
      var mid := Effect(sha, s, tx);
      SameIssuer(s, mid, tx);
      SenderIn64(mid, tx, CostIn64(s, tx));
      SettledBalance(mid, tx, Cost(s, tx));
    }
  }

  lemma SameIssuer(s: State, t: State, tx: Tx)
    requires t.defs == s.defs && (tx.asset != ORP ==> tx.asset in s.defs)
    ensures PaysItself(t, tx) == PaysItself(s, tx)
  {}

  lemma SettledBalance(s: State, tx: Tx, cost: int)
    requires (tx.asset != ORP ==> tx.asset in s.defs) && 0 <= tx.fee && !PaysItself(s, tx)
    ensures Balance(Settle(s, tx, cost).accounts, tx.from, tx.asset)
      == Balance(s.accounts, tx.from, tx.asset) - cost
  {
    hide Settle;
    SettleRead(s, tx, cost, tx.from, tx.asset);
  }

  /**
    The program's next ledger is the one of the exact rules if and only if the cost is below 2^64 and the debit covered,
    or the sender is the issuer of its asset; then it is sound again.
   */
  lemma SameExactly(sha: Sha, s: State, tx: Tx)
    requires LedgerInv(s) && Shaped(s) && GoodTx(tx) && 0 <= s.burned && s.supply + s.burned < TWO64
    requires CheckIn64(s, tx) == None
    ensures ApplyIn64(sha, s, tx) == Apply(sha, s, tx) <==> Settled(sha, s, tx)
    ensures Settled(sha, s, tx) ==> LedgerInv(ApplyIn64(sha, s, tx).state)
  {
    hide LedgerInv, Shaped, GoodTx, Settled, ApplyIn64, CheckIn64;
    if Settled(sha, s, tx) {
      SettledSame(sha, s, tx);
      SettledSound(sha, s, tx);
    } else {
      UnsettledDiffers(sha, s, tx);
    }
  }

  lemma SettledSound(sha: Sha, s: State, tx: Tx)
    requires LedgerInv(s) && Shaped(s) && GoodTx(tx) && Settled(sha, s, tx)
    ensures Apply(sha, s, tx).Ok? && LedgerInv(Apply(sha, s, tx).state)
  {
    hide LedgerInv, Shaped, GoodTx, Covered, PaysItself;
    KeptExactly(sha, s, tx);
  }

  // ---------------------------------------------------------------- conservation

  /** What a 64-bit field loses of this value. */
  function Lost(v: int): (r: int)
    ensures r == 0 <==> 0 <= v < TWO64
    ensures v < 0 ==> r <= -TWO64
    ensures TWO64 <= v < 2 * TWO64 ==> r == TWO64
  {
    v - v % TWO64
  }

  /** What is lost of an autopay reserve. */
  function ReserveLost(s: State, tx: Tx): int
    requires Shaped(s) && Allowed(s, tx)
  {
    if tx.body.CircleStep? && tx.body.step.Autopay? then
      var c := s.pools[tx.body.pool];
      Lost(At(c.prepaid, Index(c.members, tx.from)) + tx.body.step.amount)
    else 0
  }

  /** What is lost of the sender's balance when it is debited. */
  function DebitLost(mid: State, tx: Tx, cost: int): int { Lost(Balance(mid.accounts, tx.from, tx.asset) - cost) }

  /** What is lost where the fee goes: the supply it is burned from, or the issuer's balance. */
  function FeeLost(mid: State, tx: Tx, cost: int): int
    requires tx.asset != ORP ==> tx.asset in mid.defs
  {
    if tx.fee <= 0 then 0
    else if tx.asset == ORP then -Lost(mid.supply - tx.fee)
    else Lost(Balance(DebitedIn64(mid, tx, cost), mid.defs[tx.asset].issuer, tx.asset) + tx.fee)
  }

  lemma AutopayHoldings(c: Circle, i: nat, more: int)
    requires CircleInv(c) && i < |c.members| && c.terms.mode != Goal && 0 <= At(c.prepaid, i) + more
    ensures Holdings(AddAutopay(c, i, more)) == Holdings(c) + more && AddAutopay(c, i, more).asset == c.asset
  {
    hide Seats, Phase, Pledges, RoundBooks, RunAutopay;
    ReserveFacts(c, i, more);
    var set0 := if c.prepaid == [] then Zeros(|c.members|) else c.prepaid;
    SumZeros(|c.members|);
    SumUpdate(set0, i, set0[i] + more);
    RunAutopayBooks(Reserve(c, i, more));
  }

  /** Unpaid for the effect in 64 bits: the sender has still to pay for what was spent, less what the reserve lost. */
  lemma EffectIn64Unpaid(sha: Sha, s: State, tx: Tx)
    requires LedgerInv(s) && Shaped(s) && GoodTx(tx) && CheckIn64(s, tx) == None
    ensures Unpaid(s, Spent(s, tx) - ReserveLost(s, tx), tx.asset, EffectIn64(sha, s, tx))
  {
    hide LedgerInv, Shape, Shaped, GoodTx, CheckAt, CheckIn64, Effect, EffectIn64, Spent, Unpaid, Rule;
    if tx.body.CircleStep? && tx.body.step.Autopay? {
      AutopayUnpaid(sha, s, tx);
    } else {
      InvParts(s);
      EffectUnpaid(sha, s, tx);
      EffectAsExact(sha, s, tx);
    }
  }

  lemma EffectAsExact(sha: Sha, s: State, tx: Tx)
    requires Shaped(s) && GoodTx(tx) && Allowed(s, tx) && !(tx.body.CircleStep? && tx.body.step.Autopay?)
    ensures EffectIn64(sha, s, tx) == Effect(sha, s, tx)
  {
    hide Shape, Shaped, GoodTx, StepEffect, StepCheck;
    PlainEffect(sha, s, tx);
  }

  lemma AutopayUnpaid(sha: Sha, s: State, tx: Tx)
    requires LedgerInv(s) && Shaped(s) && GoodTx(tx) && CheckIn64(s, tx) == None && tx.body.CircleStep?
      && tx.body.step.Autopay?
    ensures Unpaid(s, Spent(s, tx) - ReserveLost(s, tx), tx.asset, EffectIn64(sha, s, tx))
  {
    hide LedgerInv, Shape, Shaped, GoodTx, CheckAt, CheckIn64, EffectIn64, CircleInv, StepCheck, AddAutopay, InCircles,
      Room, Holdings;
    CircleAction(sha, s, tx);
    var id, amount := tx.body.pool, tx.body.step.amount;
    var c := s.pools[id];
    var i := Index(c.members, tx.from);
    AutopayAllowed(c, i, amount, tx.from, s.now, Balance(s.accounts, tx.from, c.asset));
    var more := Gain(At(c.prepaid, i), amount);
    AutopayHoldings(c, i, more);
    forall x { CirclePut(s.pools, id, AddAutopay(c, i, more), x); }
  }

  lemma AutopayAllowed(c: Circle, i: nat, amount: int, from: Address, now: int, bal: int)
    requires Shape(c) && i < |c.members| && StepCheck(c, i, Step.Autopay(amount), from, now, bal) == None
    ensures c.terms.mode != Goal && (c.prepaid == [] || i < |c.prepaid|)
  {}

  /** What settling in 64 bits does to the excess of every asset. */
  lemma SettleIn64Money(s: State, tx: Tx, cost: int, x: Asset)
    requires (tx.asset != ORP ==> tx.asset in s.defs) && 0 <= tx.fee
    ensures Excess(SettleIn64(s, tx, cost), x) == Excess(s, x)
      - if x == tx.asset then cost - tx.fee + DebitLost(s, tx, cost) + FeeLost(s, tx, cost) else 0
  {
    hide InEscrows, InCircles, InAccounts, SetBalance, Balance, DebitedIn64;
    DebitIn64Money(s, tx, cost, x);
    if tx.fee > 0 && tx.asset != ORP {
      var next := DebitedIn64(s, tx, cost);
      var issuer := s.defs[tx.asset].issuer;
      SetMoney(next, issuer, tx.asset, (Balance(next, issuer, tx.asset) + tx.fee) % TWO64, x);
    }
  }

  lemma DebitIn64Money(s: State, tx: Tx, cost: int, x: Asset)
    ensures InAccounts(DebitedIn64(s, tx, cost), x) == InAccounts(s.accounts, x)
      - if x == tx.asset then cost + DebitLost(s, tx, cost) else 0
  {
    hide InAccounts;
    var v := (Balance(s.accounts, tx.from, tx.asset) - cost) % TWO64;
    var paid := SetBalance(s.accounts, tx.from, tx.asset, v);
    SetMoney(s.accounts, tx.from, tx.asset, v, x);
    AccountPut(paid, tx.from, paid[tx.from].(nonce := paid[tx.from].nonce + 1), x);
  }

  /**
    The whole account of a transaction the program accepts: no other asset is touched, and in its own the money
    exceeds the supply by what the cost lost, less what the reserve, the debit and the fee lost.
   */
  lemma ExcessExactly(sha: Sha, s: State, tx: Tx, x: Asset)
    requires LedgerInv(s) && Shaped(s) && GoodTx(tx) && CheckIn64(s, tx) == None
    ensures ApplyIn64(sha, s, tx).Ok? && (tx.asset != ORP ==> tx.asset in s.defs)
    ensures var mid, cost := EffectIn64(sha, s, tx), CostIn64(s, tx);
      Excess(ApplyIn64(sha, s, tx).state, x) == if x != tx.asset then 0
        else Lost(Cost(s, tx)) - ReserveLost(s, tx) - DebitLost(mid, tx, cost) - FeeLost(mid, tx, cost)
  {
    hide Parts, AccountsOk, Bounded, Shape, Shaped, EffectIn64, Spent, CheckAt, CheckIn64, Money, GoodTx, Cost, Rule,
      SettleIn64, ApplyIn64, ReserveLost, DebitLost, FeeLost;
    AppliedIs(sha, s, tx);
    EffectIn64Unpaid(sha, s, tx);
    SpentPlusFee(s, tx);
    assert Excess(s, x) == 0;
    SettleIn64Money(EffectIn64(sha, s, tx), tx, CostIn64(s, tx), x);
  }

  lemma WrappedAccounts(sha: Sha, s: State, tx: Tx)
    requires Shaped(s) && GoodTx(tx) && Allowed(s, tx)
    requires tx.body.OpenCircle? || tx.body.OpenEscrow? || tx.body.CircleStep?
    requires tx.body.CircleStep? ==> tx.body.step.Join? || tx.body.step.Contribute? || tx.body.step.Autopay?
    ensures EffectIn64(sha, s, tx).accounts == s.accounts
    ensures Available(s, tx) == Balance(s.accounts, tx.from, tx.asset)
  {
    hide Shape, Shaped, GoodTx, StepCheck, NewCircle, NewEscrow, AddAutopay, JoinCircle, ContributeTo, Balance,
      CircleEffect;
  }

  /** A cost that wraps leaves the sender's balance with enough for the rest of it. */
  lemma WrappedDebit(sha: Sha, s: State, tx: Tx)
    requires LedgerInv(s) && Shaped(s) && GoodTx(tx) && CheckIn64(s, tx) == None && Cost(s, tx) >= TWO64
    ensures DebitLost(EffectIn64(sha, s, tx), tx, CostIn64(s, tx)) == 0
  {
    hide LedgerInv, Shaped, GoodTx, Cost, CostIn64, CheckAt, EffectIn64, Available, Balance, Rule;
    WrapKinds(s, tx);
    CostDropped(s, tx);
    AvailableFits(s, tx);
    WrappedAccounts(sha, s, tx);
  }

  /**
    What the program accepts conserves money if and only if the exact rules accept it and its debit is covered, unless
    the reserve, the supply or the issuer's balance wraps around as well. With a cost of 2^64 or more, 2^64 units are
    made.
   */
  lemma ConservedExactly(sha: Sha, s: State, tx: Tx)
    requires LedgerInv(s) && Shaped(s) && GoodTx(tx) && 0 <= s.burned && s.supply + s.burned < TWO64
    requires CheckIn64(s, tx) == None && (tx.asset != ORP ==> tx.asset in s.defs)
    requires ReserveLost(s, tx) == 0 && FeeLost(EffectIn64(sha, s, tx), tx, CostIn64(s, tx)) == 0
    ensures ApplyIn64(sha, s, tx).Ok?
    ensures Conserved(ApplyIn64(sha, s, tx).state) <==> Payable(sha, s, tx)
    ensures Cost(s, tx) >= TWO64 ==> Excess(ApplyIn64(sha, s, tx).state, tx.asset) == TWO64
  {
    hide LedgerInv, Shaped, GoodTx, Cost, CostIn64, CheckIn64, EffectIn64, Effect, ApplyIn64, Money, ReserveLost,
      FeeLost, Lost, LedgerSafety.Covered, Check, Balance;
    ExcessExactly(sha, s, tx, tx.asset);
    var t := ApplyIn64(sha, s, tx).state;
    AcceptedExactly(s, tx);
    CostDropped(s, tx);
    CostBelow(s, tx);
    if Cost(s, tx) >= TWO64 {
      WrappedDebit(sha, s, tx);
      assert Money(t, tx.asset) != SupplyOf(t, tx.asset);
    } else if Payable(sha, s, tx) {
      PayableFits(sha, s, tx);
      InvParts(t);
    } else {
      InvParts(s);
      DebitCovered(sha, s, tx);
      EffectSame(sha, s, tx);
      assert Money(t, tx.asset) != SupplyOf(t, tx.asset);
    }
  }

  // ---------------------------------------------------------------- one of each

  /** The sender owns its fee and nothing else, and 2^64 units appear. */
  ghost predicate MakesMoney(sha: Sha, s: State, tx: Tx) {
    && LedgerInv(s) && Shaped(s) && GoodTx(tx) && Available(s, tx) == tx.fee && Cost(s, tx) == TWO64
    && ApplyIn64(sha, s, tx).Ok? && Excess(ApplyIn64(sha, s, tx).state, tx.asset) == TWO64
  }

  lemma WrapMakesMoney(sha: Sha, s: State, tx: Tx)
    requires LedgerInv(s) && Shaped(s) && GoodTx(tx) && CheckIn64(s, tx) == None && ReserveLost(s, tx) == 0
    requires tx.asset == ORP && Available(s, tx) == tx.fee <= s.supply && s.burned == 0 && Cost(s, tx) == TWO64
    ensures MakesMoney(sha, s, tx)
  {
    hide LedgerInv, Shaped, GoodTx, Cost, CostIn64, CheckIn64, EffectIn64, ApplyIn64, Available, ReserveLost, Excess,
      Payable;
    PlacesBounded(s, ORP);
    FeeNonNeg(tx);
    ConservedExactly(sha, s, tx);
  }

  lemma StepMakesMoney(sha: Sha, c: Circle, step: Step)
    requires CircleInv(c) && c.asset == ORP && c.members[0] == Key(1) && Holdings(c) == 0 && c.prepaid == []
      && GoodStep(step) && !step.Claim?
    requires StepCheck(c, 0, step, Key(1), 1, 1) == None && Stake(c, 0, step) == TWO64 - 1
    ensures MakesMoney(sha, Small(Key(1), 1, map[0 := c], map[], 1, 1), StepTx(step, 1))
  {
    hide CircleInv, Shape, Holdings, StepCheck, Stake, Cost, Available, Rule, LedgerInv, Shaped, GoodTx, GoodStep,
      Check, MakesMoney;
    StepAccepted(c, 1, 1, step, 1);
    EmptyReserve(c, step);
    WrapMakesMoney(sha, Small(Key(1), 1, map[0 := c], map[], 1, 1), StepTx(step, 1));
  }

  lemma EmptyReserve(c: Circle, step: Step)
    requires c.prepaid == [] && GoodStep(step) && Shaped(Small(Key(1), 1, map[0 := c], map[], 1, 1))
      && Allowed(Small(Key(1), 1, map[0 := c], map[], 1, 1), StepTx(step, 1))
    ensures ReserveLost(Small(Key(1), 1, map[0 := c], map[], 1, 1), StepTx(step, 1)) == 0
  {
    hide Shape, StepCheck;
  }

  /** An autopay of 2^64 - 1 with a fee of 1. */
  lemma AutopayCostWraps(sha: Sha) returns (s: State, tx: Tx)
    ensures MakesMoney(sha, s, tx) && tx.body.CircleStep? && tx.body.step.Autopay?
  {
    hide CircleInv, Holdings, StepCheck, Stake, Shape, Tiny, MakesMoney, Small, CircleAutopay.Reserved;
    TinySound();
    TinyAllows(TWO64 - 1, 1);
    StepMakesMoney(sha, Tiny(), Step.Autopay(TWO64 - 1));
    s, tx := Small(Key(1), 1, map[0 := Tiny()], map[], 1, 1), StepTx(Step.Autopay(TWO64 - 1), 1);
  }

  /** An active savings circle with a target of 5 and nothing in it. */
  function Savings(): Circle {
    Circle(0, ORP, Key(1), Terms(1, 0, 0, Goal, 0, 5), [Key(1), Key(2)], [true, true], Active, 0,
           [false, false], [false, false], 0, 1, [], [], [], [], 0, [], [], [0, 0], [false, false], [])
  }

  lemma SavingsSound()
    ensures CircleInv(Savings()) && Holdings(Savings()) == 0
  {
    hide Distinct;
    assert SumTo([0, 0], 0) == 0 && SumTo([0, 0], 1) == 0;
    DistinctPair();
    assert Books(Savings()) && Amounts(Savings());
  }

  lemma DistinctPair()
    ensures Distinct([Key(1), Key(2)])
  {}

  lemma SavingsAllows(step: Step)
    requires step == Step.Contribute(TWO64 - 1)
    ensures Shape(Savings()) && Savings().asset == ORP && Savings().members[0] == Key(1) && Savings().prepaid == []
    ensures StepCheck(Savings(), 0, step, Key(1), 1, 1) == None && Stake(Savings(), 0, step) == TWO64 - 1
  {}

  /** Savings of 2^64 - 1 with a fee of 1. */
  lemma SavingsCostWraps(sha: Sha) returns (s: State, tx: Tx)
    ensures MakesMoney(sha, s, tx) && tx.body.CircleStep? && tx.body.step.Contribute?
  {
    hide CircleInv, Holdings, StepCheck, Stake, Shape, Savings, MakesMoney, Small;
    SavingsSound();
    SavingsAllows(Step.Contribute(TWO64 - 1));
    StepMakesMoney(sha, Savings(), Step.Contribute(TWO64 - 1));
    s, tx := Small(Key(1), 1, map[0 := Savings()], map[], 1, 1), StepTx(Step.Contribute(TWO64 - 1), 1);
  }

  lemma EscrowAccepted(s: State, tx: Tx, t: EscrowTerms)
    requires s == Small(Key(1), 1, map[], map[], 1, 1) && tx == Tx(0, Key(1), 1, 0, ORP, OpenEscrow(t))
    requires t == EscrowTerms(Key(2), Key(3), [TWO64 - 1], 10, 3600, 0) && Sum(t.milestones) == TWO64 - 1
    ensures Shaped(s) && GoodTx(tx) && Available(s, tx) == 1 && Cost(s, tx) == TWO64 && CheckIn64(s, tx) == None
    ensures ReserveLost(s, tx) == 0
  {}

  /** An escrow over 2^64 - 1 with a fee of 1. */
  lemma EscrowCostWraps(sha: Sha) returns (s: State, tx: Tx)
    ensures MakesMoney(sha, s, tx) && tx.body.OpenEscrow?
  {
    hide MakesMoney, LedgerInv, Available, Cost, CheckIn64, ReserveLost, Shaped, GoodTx;
    var t := EscrowTerms(Key(2), Key(3), [TWO64 - 1], 10, 3600, 0);
    assert SumTo(t.milestones, 0) == 0 && Sum(t.milestones) == TWO64 - 1;
    s, tx := Small(Key(1), 1, map[], map[], 1, 1), Tx(0, Key(1), 1, 0, ORP, OpenEscrow(t));
    SmallSound(Key(1), 1, map[], 1);
    EscrowAccepted(s, tx, t);
    WrapMakesMoney(sha, s, tx);
  }
}
