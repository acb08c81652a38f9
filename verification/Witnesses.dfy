/**
  Where the code does less than it says: for each such case a sound ledger and a transaction that passes every check.
 */
module Witnesses {
  import opened Core
  import opened Sequences
  import opened Circles
  import opened CircleBooks
  import opened CircleAutopay
  import opened ClaimFunding
  import opened Escrows
  import opened Ledger
  import opened Conservation
  import opened LedgerSafety
  import opened RecoverySafety

  // ---------------------------------------------------------------- small sound ledgers

  /** A ledger in which one account owns v ORP and there is no other money but what the circles hold. */
  function Small(a: Address, v: int, pools: map<Hash, Circle>, guards: map<Address, Guardianship>, supply: int,
      now: int): State
  {
    State(map[a := Account(v, 0, map[])], pools, map[], guards, map[], supply, 0, 0, map[], map[], now)
  }

  lemma LoneAccount(a: Address, v: int, x: Asset)
    ensures InAccounts(map[a := Account(v, 0, map[])], x) == if x == ORP then v else 0
  {
    assert AccountLines(map[], x) == map[];
    assert map[][a := Account(v, 0, map[])] == map[a := Account(v, 0, map[])];
    AccountPut(map[], a, Account(v, 0, map[]), x);
  }

  lemma LoneCircle(c: Circle, x: Asset)
    requires c.asset == ORP
    ensures InCircles(map[0 := c], x) == if x == ORP then Holdings(c) else 0
  {
    assert CircleLines(map[], x) == map[];
    assert map[][0 := c] == map[0 := c];
    CirclePut(map[], 0, c, x);
  }

  lemma SmallSound(a: Address, v: int, guards: map<Address, Guardianship>, now: int)
    requires 0 <= v < TWO64 && TargetsOk(guards)
    ensures var s := Small(a, v, map[], guards, v, now); LedgerInv(s) && Shaped(s)
  {
    var s := Small(a, v, map[], guards, v, now);
    forall x ensures Money(s, x) == SupplyOf(s, x) && SupplyOf(s, x) < TWO64 {
      assert CircleLines(s.pools, x) == map[] && EscrowLines(s.escrows, x) == map[];
      LoneAccount(a, v, x);
    }
  }

  lemma SmallWithCircle(a: Address, v: int, c: Circle, guards: map<Address, Guardianship>, now: int)
    requires 0 <= v && CircleInv(c) && c.asset == ORP && v + Holdings(c) < TWO64 && TargetsOk(guards)
    ensures var s := Small(a, v, map[0 := c], guards, v + Holdings(c), now); LedgerInv(s) && Shaped(s)
  {
    hide CircleInv;
    var s := Small(a, v, map[0 := c], guards, v + Holdings(c), now);
    HoldingsNonNeg(c);
    forall x ensures Money(s, x) == SupplyOf(s, x) && SupplyOf(s, x) < TWO64 {
      assert EscrowLines(s.escrows, x) == map[];
      LoneAccount(a, v, x);
      LoneCircle(c, x);
    }
    InvShaped(s);
  }

  /** A step by Key(1), member 0 of the only circle, who owns v. */
  function StepTx(step: Step, fee: int): Tx { Tx(0, Key(1), fee, 0, ORP, CircleStep(0, step)) }

  lemma FirstIndex(s: seq<Address>, x: Address)
    requires |s| > 0 && s[0] == x
    ensures Index(s, x) == 0
  {}

  lemma HasMembers(c: Circle)
    requires Shape(c)
    ensures |c.members| > 0
  {}

  lemma StepInSmall(c: Circle, v: int, supply: int, now: int, step: Step, fee: int)
    requires Shape(c) && c.asset == ORP && c.members[0] == Key(1)
    ensures var s, tx := Small(Key(1), v, map[0 := c], map[], supply, now), StepTx(step, fee);
      && Shaped(s) && Index(c.members, Key(1)) == 0
      && Cost(s, tx) == Stake(c, 0, step) + fee && Available(s, tx) == v + (if step.Claim? then c.balance else 0)
      && Rule(s, tx) == StepCheck(c, 0, step, Key(1), now, v)
      && (fee >= 0 ==> Check(s, tx) == if Available(s, tx) < Cost(s, tx) then Some(Insufficient) else Rule(s, tx))
  {
    HasMembers(c);
    FirstIndex(c.members, Key(1));
    hide Shape, StepCheck, Stake;
    var s := Small(Key(1), v, map[0 := c], map[], supply, now);
    assert s.pools[0] == c;
    assert Balance(s.accounts, Key(1), ORP) == v;
  }

  lemma EffectInSmall(sha: Sha, c: Circle, v: int, supply: int, now: int, step: Step, fee: int)
    requires Shape(c) && c.asset == ORP && c.members[0] == Key(1)
      && Shaped(Small(Key(1), v, map[0 := c], map[], supply, now))
    requires GoodTx(StepTx(step, fee)) && Check(Small(Key(1), v, map[0 := c], map[], supply, now), StepTx(step, fee))
      == None
    requires StepCheck(c, 0, step, Key(1), now, v) == None
    ensures Effect(sha, Small(Key(1), v, map[0 := c], map[], supply, now), StepTx(step, fee)).pools
      == map[0 := StepEffect(sha, c, 0, step, Key(1), now, v).circle]
  {
    HasMembers(c);
    FirstIndex(c.members, Key(1));
    hide Shape, Shaped, StepCheck, Stake, StepEffect, Check, Rule, GoodTx;
    var s := Small(Key(1), v, map[0 := c], map[], supply, now);
    assert s.pools[0] == c;
    assert Balance(s.accounts, Key(1), ORP) == v;
    var r := StepEffect(sha, c, 0, step, Key(1), now, v);
    assert map[0 := c][0 := r.circle] == map[0 := r.circle];
  }

  /** A step that the circle allows and the account can pay for is an accepted transaction on a sound ledger. */
  lemma StepAccepted(c: Circle, v: int, now: int, step: Step, fee: int)
    requires CircleInv(c) && c.asset == ORP && c.members[0] == Key(1) && 0 <= v && v + Holdings(c) < TWO64
    requires GoodStep(step) && 0 <= fee < TWO64 && StepCheck(c, 0, step, Key(1), now, v) == None
    ensures var s, tx := Small(Key(1), v, map[0 := c], map[], v + Holdings(c), now), StepTx(step, fee);
      && LedgerInv(s) && Shaped(s) && GoodTx(tx) && Rule(s, tx) == None
      && Cost(s, tx) == Stake(c, 0, step) + fee && Available(s, tx) == v + (if step.Claim? then c.balance else 0)
      && Check(s, tx) == if Available(s, tx) < Cost(s, tx) then Some(Insufficient) else None
  {
    hide Amounts, Books, Seats, Phase, Pledges, Shape, Holdings, StepCheck, Stake, LedgerInv, Shaped, GoodStep;
    SmallWithCircle(Key(1), v, c, map[], now);
    StepInSmall(c, v, v + Holdings(c), now, step, fee);
  }

  // ---------------------------------------------------------------- a fee that the pot does not cover

  /** An insured circle of two with both contributions of 5 in. */
  function Insured(): Circle {
    Circle(0, ORP, Key(1), Terms(5, 0, 0, Rotation, 1000, 0), [Key(1), Key(2)], [true, true], Active, 0,
           [true, true], [false, false], 10, 1, [], [], [], [], 0, [], [], [], [], [])
  }

  lemma InsuredBooks()
    ensures Shape(Insured()) && RoundBooks(Insured())
  {
    var c := Insured();
    assert PaidList(c) == [5, 5];
    assert SumTo([5, 5], 0) == 0 && SumTo([5, 5], 1) == 5;
  }

  lemma InsuredSound()
    ensures CircleInv(Insured()) && Holdings(Insured()) == 10
  {
    InsuredBooks();
    InsuredMoney();
    InsuredSeats();
    hide Shape, RoundBooks, Holdings, Seats, Phase, Amounts;
  }

  lemma InsuredMoney()
    ensures Amounts(Insured()) && Holdings(Insured()) == 10
  {}

  lemma InsuredSeats()
    ensures Shape(Insured()) && Distinct(Insured().members) && NoAddress !in Insured().members && Seats(Insured())
      && Phase(Insured())
  {
    InsuredBooks();
    hide Shape, RoundBooks, Holdings;
  }

  lemma InsuredTurn()
    ensures Shape(Insured()) && Recipient(Insured()) == 0 && AllPaid(Insured())
  {}

  lemma InsuredReceipt()
    ensures Shape(Insured()) && ClaimReceipt(Insured(), 0) == 9
  {
    var c := Insured();
    CoverNothing(c, 2);
    assert CoverTo(c, 2) == c;
    assert BasisPoints(10, 1000) == 1;
    assert Winnings(c, 0) == 9;
  }

  lemma InsuredAllows(bal: int)
    requires 0 <= bal < 100
    ensures Shape(Insured()) && StepCheck(Insured(), 0, Step.Claim, Key(1), 1, bal) == None
      && Stake(Insured(), 0, Step.Claim) == 0
  {
    InsuredTurn();
    hide Recipient, AllPaid;
  }

  /**
    The funds check counts the whole pot of 10 for a claim with a fee of 10 by a member without a balance; the claim
    brings in 9, so the debit after it takes more than the account holds.
   */
  lemma InsuredClaimFallsShort(sha: Sha) returns (s: State, tx: Tx)
    ensures LedgerInv(s) && Shaped(s) && GoodTx(tx) && Check(s, tx) == None && tx.body.CircleStep?
      && tx.body.step.Claim?
    ensures Balance(Effect(sha, s, tx).accounts, tx.from, tx.asset) < Cost(s, tx) == 10
  {
    hide CircleInv, Holdings, Recipient, ClaimReceipt, StepCheck, Stake, Check, Cost, Available, Rule, Effect,
      LedgerInv, Shaped, Shape, GoodTx, AllPaid, LedgerSafety.Covered, Balance, Discounted;
    var c := Insured();
    InsuredSound();
    InsuredAllows(0);
    InsuredReceipt();
    StepAccepted(c, 0, 1, Step.Claim, 10);
    s, tx := Small(Key(1), 0, map[0 := c], map[], 10, 1), StepTx(Step.Claim, 10);
    FirstIndex(c.members, Key(1));
    EmptyAccount(map[0 := c], map[], 10, 1);
    ClaimCovered(sha, s, tx);
    InvParts(s);
    DebitCovered(sha, s, tx);
  }

  lemma EmptyAccount(pools: map<Hash, Circle>, guards: map<Address, Guardianship>, supply: int, now: int)
    ensures Balance(Small(Key(1), 0, pools, guards, supply, now).accounts, Key(1), ORP) == 0
  {}

  // ---------------------------------------------------------------- a recovery that leaves its fee unpaid

  /**
    A recovered account may finish its own recovery and offer a fee: the funds check finds 5, the move takes them
    away, and the debit of 5 meets an empty account.
   */
  lemma OwnFinishFallsShort(sha: Sha) returns (s: State, tx: Tx)
    ensures LedgerInv(s) && Shaped(s) && GoodTx(tx) && Check(s, tx) == None && FinishesFor(tx, tx.from)
    ensures Balance(Effect(sha, s, tx).accounts, tx.from, tx.asset) == 0 < 5 == Cost(s, tx)
  {
    s, tx := Small(Key(1), 5, map[], map[Key(1) := ReadyToMove()], 5, 3600000),
      Tx(0, Key(1), 5, 0, ORP, Guard(Finish(Key(1))));
    SmallSound(Key(1), 5, map[Key(1) := ReadyToMove()], 3600000);
    FinishChecks(Key(1), 5, map[], 5, 5);
    RecoveredHoldsNothing(s, Key(1), Key(1), ORP);
  }

  // ---------------------------------------------------------------- a seat that stays behind

  /** A forming circle of Key(1), whose deposit is in, and Key(3). */
  function TwoSeats(): Circle {
    Circle(0, ORP, Key(1), Terms(5, 3600, 5, Rotation, 0, 0), [Key(1), Key(3)], [true, false], Forming, 0,
           [false, false], [false, false], 0, 0, [5, 0], [0, 0], [0, 0], [], 0, [], [], [], [], [])
  }

  lemma TwoSeatsSound()
    ensures CircleInv(TwoSeats()) && Holdings(TwoSeats()) == 5
  {
    var c := TwoSeats();
    assert PaidList(c) == [0, 0];
    assert SumTo([0, 0], 0) == 0 && SumTo([0, 0], 1) == 0;
    assert SumTo([5, 0], 0) == 0 && SumTo([5, 0], 1) == 5;
  }

  /**
    A recovery to a key that already sits in the same circle leaves the old key's seat and deposit with the old key.
   */
  lemma OldSeatStays(sha: Sha) returns (s: State, tx: Tx)
    ensures LedgerInv(s) && Shaped(s) && GoodTx(tx) && Check(s, tx) == None && FinishesFor(tx, Key(1))
    ensures Effect(sha, s, tx).pools == s.pools == map[0 := TwoSeats()]
    ensures TwoSeats().members[0] == Key(1) && TwoSeats().deposits[0] == 5
  {
    hide CircleInv, Holdings, LedgerInv, Shape, Shaped, MoveAccount, Check, Effect;
    var c := TwoSeats();
    TwoSeatsSound();
    SmallWithCircle(Key(2), 0, c, map[Key(1) := ReadyToMove()], 3600000);
    s, tx := Small(Key(2), 0, map[0 := c], map[Key(1) := ReadyToMove()], 5, 3600000),
      Tx(0, Key(2), 0, 0, ORP, Guard(Finish(Key(1))));
    FinishChecks(Key(2), 0, map[0 := c], 5, 0);
    OldSeatKept(s, tx, sha);
  }

  /** Key(1)'s guardian approved Key(3), and the delay is over at 3600000. */
  function ReadyToMove(): Guardianship { Guardianship([Key(2)], 1, 3600, Some(Recovery(Key(3), [Key(2)], 0, 3600000))) }

  lemma FinishChecks(a: Address, v: int, pools: map<Hash, Circle>, supply: int, fee: int)
    requires a.Key? && 0 <= fee <= v < TWO64
      && Shaped(Small(a, v, pools, map[Key(1) := ReadyToMove()], supply, 3600000))
    ensures var s, tx := Small(a, v, pools, map[Key(1) := ReadyToMove()], supply, 3600000),
      Tx(0, a, fee, 0, ORP, Guard(Finish(Key(1))));
      GoodTx(tx) && Check(s, tx) == None && Cost(s, tx) == fee && GuardCheck(s, a, Finish(Key(1))) == None
  {
    hide Shape;
  }

  lemma OldSeatKept(s: State, tx: Tx, sha: Sha)
    requires Shaped(s) && GoodTx(tx) && Check(s, tx) == None && tx.body == Guard(Finish(Key(1)))
      && GuardCheck(s, tx.from, Finish(Key(1))) == None
    requires s.pools == map[0 := TwoSeats()] && Key(1) in s.guards && s.guards[Key(1)] == ReadyToMove()
    ensures Effect(sha, s, tx).pools == s.pools
  {
    hide MoveHoldings, RenameEscrow, Shape, Shaped, ReplaceMember, Check, GuardCheck;
    assert TwoSeats().members[1] == Key(3);
    assert RenameCircle(TwoSeats(), Key(1), Key(3)) == TwoSeats();
  }

  // ---------------------------------------------------------------- guardians that nobody chose

  /** Key(3) asked for two guardians and two hours, and one of them has started a recovery. */
  function OwnChoice(): Guardianship {
    Guardianship([Key(4), Key(5)], 2, 7200, Some(Recovery(Key(6), [Key(4)], 0, 0)))
  }

  function TwoSetups(): map<Address, Guardianship> { map[Key(1) := ReadyToMove(), Key(3) := OwnChoice()] }

  /**
    Key(2), the only guardian of Key(1), moves Key(1) to Key(3) without a transaction of Key(3): the guardians that
    Key(3) had chosen and the recovery that was pending are gone, and Key(2) is its only guardian.
   */
  lemma ChoiceReplaced(sha: Sha) returns (s: State, tx: Tx)
    ensures LedgerInv(s) && Shaped(s) && GoodTx(tx) && Check(s, tx) == None && FinishesFor(tx, Key(1))
    ensures tx.from == Key(2) && s.guards == TwoSetups()
    ensures Effect(sha, s, tx).guards == map[Key(3) := Guardianship([Key(2)], 1, 3600, None)]
  {
    s, tx := Small(Key(2), 0, map[], TwoSetups(), 0, 3600000), Tx(0, Key(2), 0, 0, ORP, Guard(Finish(Key(1))));
    SmallSound(Key(2), 0, TwoSetups(), 3600000);
    var g := Guardianship([Key(2)], 1, 3600, None);
    assert TwoSetups()[Key(3) := g] - {Key(1)} == map[Key(3) := g];
  }

  // ---------------------------------------------------------------- autopay beyond a signed 64-bit count

  function TinyTerms(): Terms { Terms(1, 0, 0, Rotation, 0, 0) }

  function Tiny(): Circle { NewCircle(0, ORP, Key(1), [Key(1), Key(2)], TinyTerms()) }

  lemma TinySound()
    ensures CircleInv(Tiny()) && Holdings(Tiny()) == 0 && Reserved(Tiny())
  {
    NewCircleInv(0, ORP, Key(1), [Key(1), Key(2)], TinyTerms());
    NoPrepaidReserved(Tiny());
  }

  /**
    A funded member of a circle of two sets aside 2^63 rounds: the guard's count turns negative, and nothing else
    objects.
   */
  lemma HugeAutopayAccepted(sha: Sha) returns (s: State, tx: Tx)
    ensures LedgerInv(s) && Shaped(s) && GoodTx(tx) && Check(s, tx) == None
      && tx.body == CircleStep(0, Step.Autopay(TWO64 / 2))
    ensures 0 in s.pools && Reserved(s.pools[0]) && |s.pools[0].members| == 2
    ensures Shape(Effect(sha, s, tx).pools[0]) && !Reserved(Effect(sha, s, tx).pools[0])
  {
    hide CircleInv, Holdings, StepCheck, Stake, Check, Cost, Available, Rule, Effect, LedgerInv, Shaped, Shape,
      GoodTx, Reserved, AddAutopay, Tiny;
    var c, v := Tiny(), TWO64 / 2;
    TinySound();
    TinyAllows(v, v);
    StepAccepted(c, v, 1, Step.Autopay(v), 0);
    s, tx := Small(Key(1), v, map[0 := c], map[], v, 1), StepTx(Step.Autopay(v), 0);
    HugeOverReserves(c, 0, v);
    EffectInSmall(sha, c, v, v, 1, Step.Autopay(v), 0);
  }

  /** The same circle with one round set aside by Key(1). */
  function TinyPrepaid(): Circle
    requires Shape(Tiny())
  {
    Reserve(Tiny(), 0, 1)
  }

  lemma TinyPrepaidSound()
    ensures Shape(Tiny()) && Shape(TinyPrepaid()) && CircleInv(TinyPrepaid())
    ensures Holdings(TinyPrepaid()) == 1 && Reserved(TinyPrepaid()) && TinyPrepaid().round == 0
    ensures TinyPrepaid().prepaid == [1, 0] && TinyPrepaid().paidAmt == [] && TinyPrepaid().asset == ORP
      && TinyPrepaid().members == [Key(1), Key(2)] && TinyPrepaid().status == Forming
      && TinyPrepaid().terms == TinyTerms()
  {
    TinySound();
    TinyFields();
    hide CircleInv, Holdings, Reserved, Tiny;
    ReserveKeeps(Tiny(), 0, 1);
    AddReserved(Tiny(), 0, 1);
    assert AddAutopay(Tiny(), 0, 1) == TinyPrepaid();
  }

  lemma TinyFields()
    ensures Shape(Tiny()) && Tiny().members == [Key(1), Key(2)] && Tiny().asset == ORP && Tiny().round == 0
    ensures Tiny().paidAmt == [] == Tiny().prepaid && Tiny().status == Forming && Tiny().terms == TinyTerms()
  {
    TinySound();
    hide CircleInv, Holdings, Reserved;
  }

  lemma TinyPrepaidAllows(bal: int)
    requires Shape(Tiny())
    ensures StepCheck(TinyPrepaid(), 0, Step.Autopay(TWO64 / 2 - 1), Key(1), 1, bal) == None
      && Stake(TinyPrepaid(), 0, Step.Autopay(TWO64 / 2 - 1)) == TWO64 / 2 - 1
      && RoundsWith(TinyPrepaid(), 0, TWO64 / 2 - 1) == TWO64 / 2
  {
    TinyPrepaidSound();
    hide CircleInv, Holdings, Reserved, TinyPrepaid;
    var c, v := TinyPrepaid(), TWO64 / 2 - 1;
    assert At(c.prepaid, 0) == 1 && v % 1 == 0 && v / 1 == v && 1 / 1 == 1;
  }

  /**
    A funded member with one round set aside sets aside 2^63 - 1 more: each count fits a signed 64-bit int, but their
    sum turns negative, and nothing else objects.
   */
  lemma SumAutopayAccepted(sha: Sha) returns (s: State, tx: Tx)
    ensures LedgerInv(s) && Shaped(s) && GoodTx(tx) && Check(s, tx) == None
      && tx.body == CircleStep(0, Step.Autopay(TWO64 / 2 - 1))
    ensures 0 in s.pools && Reserved(s.pools[0]) && s.pools[0].prepaid == [1, 0]
    ensures Shape(Effect(sha, s, tx).pools[0]) && !Reserved(Effect(sha, s, tx).pools[0])
  {
    hide CircleInv, Holdings, StepCheck, Stake, Check, Cost, Available, Rule, Effect, LedgerInv, Shaped, Shape,
      GoodTx, Reserved, AddAutopay, TinyPrepaid, RoundsWith;
    var v := TWO64 / 2 - 1;
    TinyPrepaidSound();
    var c := TinyPrepaid();
    TinyPrepaidAllows(v);
    StepAccepted(c, v, 1, Step.Autopay(v), 0);
    s, tx := Small(Key(1), v, map[0 := c], map[], v + 1, 1), StepTx(Step.Autopay(v), 0);
    HugeOverReserves(c, 0, v);
    EffectInSmall(sha, c, v, v + 1, 1, Step.Autopay(v), 0);
  }

  /** Any number of rounds beyond 2^63 passes the rules of this circle. */
  lemma TinyAllows(amount: int, bal: int)
    requires TWO64 / 2 <= amount < TWO64
    ensures Shape(Tiny()) && Tiny().members == [Key(1), Key(2)] && Tiny().asset == ORP
    ensures Tiny().paidAmt == [] == Tiny().prepaid
    ensures Tiny().status == Forming && Tiny().terms == TinyTerms()
    ensures StepCheck(Tiny(), 0, Step.Autopay(amount), Key(1), 1, bal) == None
      && Stake(Tiny(), 0, Step.Autopay(amount)) == amount
  {
    TinySound();
    hide CircleInv, Holdings, Reserved;
    assert amount % 1 == 0 && amount / 1 == amount;
  }
}
