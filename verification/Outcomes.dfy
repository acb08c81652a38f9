/**
  Who ends up with what: the members' parts of a payout, what a cancelled circle returns, who can move an escrow's
  money, and what one transaction does to every single balance.
 */
module Outcomes {
  import opened Arithmetic
  import opened Core
  import opened Sequences
  import opened Circles
  import opened CircleBooks
  import opened ClaimFunding
  import opened Escrows
  import opened Ledger
  import opened Conservation
  import opened LedgerSafety
  import opened LedgerRuns

  // ---------------------------------------------------------------- missed payments

  /** What the first k members still owe this round. */
  function OwedTo(c: Circle, k: nat): int
    requires Shape(c) && k <= |c.members|
  {
    if k == 0 then 0 else OwedTo(c, k - 1) + Need(c, k - 1)
  }

  /** A missed payment that the member's own deposit cannot cover. */
  predicate Lacks(c: Circle, j: nat)
    requires Shape(c) && j < |c.members|
  {
    !c.paid[j] && (c.deposits == [] || c.deposits[j] < Need(c, j))
  }

  /** The missed payments among the first k members that only insurance can cover. */
  function LackingTo(c: Circle, k: nat): int
    requires Shape(c) && k <= |c.members|
  {
    if k == 0 then 0 else LackingTo(c, k - 1) + if Lacks(c, k - 1) then Need(c, k - 1) else 0
  }

  /** The books after covering the first k members, member by member. */
  ghost predicate CoveredEach(c: Circle, k: nat, r: Circle)
    requires Shape(c) && Shape(r) && k <= |c.members|
  {
    && |r.members| == |c.members| && r.paid == c.paid && r.paidAmt == c.paidAmt && r.terms == c.terms
    && |r.deposits| == |c.deposits| && |r.defaults| == |c.defaults|
    && (forall j :: 0 <= j < |c.deposits| ==>
          r.deposits[j] == c.deposits[j] - if j < k && !c.paid[j] && !Lacks(c, j) then Need(c, j) else 0)
    && (forall j :: 0 <= j < |c.defaults| ==> r.defaults[j] == c.defaults[j] + if j < k && !c.paid[j] then 1 else 0)
  }

  /**
    How far insurance reaches: the needs of the first k members are met in full exactly while it covers all that lack.
   */
  ghost predicate MetTo(c: Circle, k: nat, r: Circle)
    requires Shape(c) && k <= |c.members|
  {
    && r.balance <= c.balance + OwedTo(c, k)
    && (r.balance == c.balance + OwedTo(c, k) <==> LackingTo(c, k) <= c.insurance)
    && (LackingTo(c, k) <= c.insurance ==> r.insurance == c.insurance - LackingTo(c, k))
  }

  /** The two slices one covering step writes. */
  lemma CoverStepLines(m: Circle, j: nat)
    requires Shape(m) && m.terms.mode != Goal && j < |m.members|
    ensures var r := CoverStep(m, j); var drawn := !m.paid[j] && m.deposits != [] && m.deposits[j] >= Need(m, j);
      && r == m.(defaults := r.defaults, deposits := r.deposits, insurance := r.insurance, balance := r.balance)
      && r.deposits == (if drawn then m.deposits[j := m.deposits[j] - Need(m, j)] else m.deposits)
      && r.defaults == if !m.paid[j] && m.defaults != [] then m.defaults[j := m.defaults[j] + 1] else m.defaults
  {}

  lemma LinesShape(c: Circle, j: nat)
    requires Shape(c) && j < |c.members|
    ensures j < |c.paid| && (c.deposits == [] || j < |c.deposits|) && (c.defaults == [] || j < |c.defaults|)
  {}

  lemma CoverStepEach(c: Circle, j: nat, m: Circle)
    requires Shape(c) && Shape(m) && c.terms.mode != Goal && j < |c.members| && CoveredEach(c, j, m)
    ensures CoveredEach(c, j + 1, CoverStep(m, j))
  {
    NeedSame(c, j, m);
    CoverStepLines(m, j);
    LinesShape(c, j);
    hide CoverStep, Need, Shape;
  }

  lemma NeedSame(c: Circle, j: nat, m: Circle)
    requires Shape(c) && Shape(m) && j < |c.members| == |m.members| && m.paid == c.paid && m.paidAmt == c.paidAmt
      && m.terms == c.terms
    ensures Need(m, j) == Need(c, j)
  {}

  lemma CoverStepMet(c: Circle, j: nat, m: Circle)
    requires Shape(c) && Shape(m) && c.terms.mode != Goal && j < |c.members| && CoveredEach(c, j, m) && MetTo(c, j, m)
    requires if c.paid[j] then Need(c, j) == 0 else Need(c, j) > 0
    ensures MetTo(c, j + 1, CoverStep(m, j))
  {
    assert Need(m, j) == Need(c, j);
    if c.deposits != [] {
      assert m.deposits[j] == c.deposits[j];
    }
  }

  lemma NeedSign(c: Circle, j: nat)
    requires Shape(c) && c.terms.mode != Goal && RoundBooks(c) && j < |c.members|
    ensures if c.paid[j] then Need(c, j) == 0 else Need(c, j) > 0
  {
    assert PaidSoFar(c, j) == PaidList(c)[j];
  }

  lemma CoverNone(c: Circle)
    requires Shape(c) && c.terms.mode != Goal && 0 <= c.insurance
    ensures CoverTo(c, 0) == c && CoveredEach(c, 0, c) && MetTo(c, 0, c)
  {}

  lemma CoverNext(c: Circle, k: nat, m: Circle)
    requires Shape(c) && Shape(m) && c.terms.mode != Goal && RoundBooks(c) && k < |c.members| && m.terms.mode != Goal
      && k < |m.members|
    requires CoveredEach(c, k, m) && MetTo(c, k, m)
    ensures CoveredEach(c, k + 1, CoverStep(m, k)) && MetTo(c, k + 1, CoverStep(m, k))
  {
    NeedSign(c, k);
    hide RoundBooks, Shape, CoverStep, CoveredEach, MetTo, Need;
    CoverStepEach(c, k, m);
    CoverStepMet(c, k, m);
  }

  lemma {:induction false} CoverToEach(c: Circle, k: nat)
    requires Shape(c) && c.terms.mode != Goal && RoundBooks(c) && 0 <= c.insurance && k <= |c.members|
    ensures CoveredEach(c, k, CoverTo(c, k)) && MetTo(c, k, CoverTo(c, k))
  {
    hide RoundBooks, Shape, CoverStep, CoveredEach, MetTo;
    if k == 0 {
      CoverNone(c);
    } else {
      CoverToEach(c, k - 1);
      CoverNext(c, k - 1, CoverTo(c, k - 1));
    }
  }

  lemma {:induction false} OwedRest(c: Circle, k: nat)
    requires Shape(c) && c.terms.mode != Goal && k <= |c.members|
    ensures OwedTo(c, k) + SumTo(PaidList(c), k) == c.terms.contribution * k
  {
    if k > 0 {
      OwedRest(c, k - 1);
      MulStep(c.terms.contribution, k);
      assert PaidSoFar(c, k - 1) == PaidList(c)[k - 1];
    }
  }

  /**
    Missed payments: each one counts as one default, is taken whole from the member's deposit where that suffices and
    never in part, and the winner's pot is the full pot if and only if insurance covers every payment that deposits do
    not.
   */
  lemma PotWhole(c: Circle, j: nat)
    requires CircleInv(c) && c.terms.mode != Goal && c.status == Active && j < |c.members|
    ensures var n := |c.members|; var k := CoverTo(c, n);
      && (k.balance == Pot(c) <==> LackingTo(c, n) <= c.insurance) && k.balance <= Pot(c)
      && |k.deposits| == |c.deposits| && |k.defaults| == |c.defaults|
      && (c.deposits != [] ==> k.deposits[j] == c.deposits[j] - if !c.paid[j] && !Lacks(c, j) then Need(c, j) else 0)
      && (c.defaults != [] ==> k.defaults[j] == c.defaults[j] + if c.paid[j] then 0 else 1)
  {
    hide CoverTo, Seats, Phase, Pledges, Lacks, LackingTo, Need;
    CoverToEach(c, |c.members|);
    OwedRest(c, |c.members|);
  }

  // ---------------------------------------------------------------- the pot, member by member

  lemma {:induction false} ShareReceived(members: seq<Address>, i: nat, share: int, j: nat, k: nat)
    requires Distinct(members) && i < |members| && j < |members| && i != j && k <= |members|
    ensures ReceivedAll(SharesTo(members, i, share, k), members[j]) == if j < k then share else 0
  {
    if k > 0 {
      ShareReceived(members, i, share, j, k - 1);
      var last := if k - 1 != i then [Credit(members[k - 1], share)] else [];
      ReceivedAppend(SharesTo(members, i, share, k - 1), last, members[j]);
      ReceivedOne(members[k - 1], share, members[j]);
    }
  }

  lemma OtherReceived(k: Circle, i: nat, j: nat)
    requires Shape(k) && Distinct(k.members) && i < |k.members| && j < |k.members| && i != j
    ensures ReceivedAll(PotCredits(k, i), k.members[j])
      == if Discounted(k, i) then DiscountShare(k, i, k.balance - BasisPoints(k.balance, k.terms.insuranceBps)) else 0
  {
    hide Winnings, DiscountShare;
    var pot := k.balance - BasisPoints(k.balance, k.terms.insuranceBps);
    var share := DiscountShare(k, i, pot);
    var shares := if Discounted(k, i) then SharesTo(k.members, i, share, |k.members|) else [];
    ShareReceived(k.members, i, share, j, |k.members|);
    ReceivedAppend(shares, [Credit(k.members[i], Winnings(k, i))], k.members[j]);
    ReceivedOne(k.members[i], Winnings(k, i), k.members[j]);
  }

  /**
    Dividing the pot of a round, what each member gets from it: the cut is the insurance rate rounded down; without a
    bid the winner takes the rest; with one, everyone else gets an equal part of the bid rounded down, never more than
    the pot allows, and what rounding leaves over, less than one unit a head, stays with the winner.
   */
  lemma PotDivided(k: Circle, i: nat, j: nat)
    requires Shape(k) && Distinct(k.members) && i < |k.members| && j < |k.members| && 0 <= k.balance
    requires k.terms.mode == Bidding ==> 0 <= k.bids[i]
    ensures var cut := BasisPoints(k.balance, k.terms.insuranceBps); var pot := k.balance - cut;
      var others := |k.members| - 1;
      var bid := if k.terms.mode == Bidding then Min(k.bids[i], pot) else 0;
      var got := ReceivedAll(PotCredits(k, i), k.members[j]);
      && 0 <= pot && cut * 10000 <= k.balance * k.terms.insuranceBps < (cut + 1) * 10000
      && (j == i ==> pot - bid <= got < pot - bid + others)
      && (j != i ==> got * others <= bid < (got + 1) * others)
  {
    hide PotCredits, BasisPoints, Winnings, DiscountShare, Discounted;
    BasisPointsBounds(k.balance, k.terms.insuranceBps);
    CutRounded(k.balance, k.terms.insuranceBps);
    if j == i {
      PotReceived(k, i);
    } else {
      OtherReceived(k, i, j);
    }
    WinnerPart(k, i);
  }

  /** An insurance cut is the exact rate rounded down. */
  lemma CutRounded(x: int, bps: int)
    requires 0 <= x && 0 <= bps <= 10000
    ensures var cut := BasisPoints(x, bps); cut * 10000 <= x * bps < (cut + 1) * 10000
  {
    MulNonNeg(x, bps);
    DivFacts(x * bps, 10000);
  }

  lemma ShareOfBid(d: int, others: int)
    requires 0 <= d && 0 < others
    ensures var share := d / others; share * others <= d < (share + 1) * others && d - others < share * others
  {
    DivFacts(d, others);
    Distribute(d / others, 1, others);
  }

  lemma WinnerPart(k: Circle, i: nat)
    requires Shape(k) && i < |k.members| && 0 <= k.balance && (k.terms.mode == Bidding ==> 0 <= k.bids[i])
    requires BasisPoints(k.balance, k.terms.insuranceBps) <= k.balance
    ensures var pot := k.balance - BasisPoints(k.balance, k.terms.insuranceBps); var others := |k.members| - 1;
      var bid := if k.terms.mode == Bidding then Min(k.bids[i], pot) else 0; var share := DiscountShare(k, i, pot);
      && pot - bid <= Winnings(k, i) < pot - bid + others
      && share * others <= bid < (share + 1) * others && (!Discounted(k, i) ==> share == 0)
  {
    hide BasisPoints;
    var pot := k.balance - BasisPoints(k.balance, k.terms.insuranceBps);
    if Discounted(k, i) {
      ShareOfBid(Min(k.bids[i], pot), |k.members| - 1);
    }
  }

  // ---------------------------------------------------------------- what a circle returns

  lemma {:induction false} CancelledReceived(c: Circle, i: nat, k: nat)
    requires Shape(c) && Distinct(c.members) && i < |c.members| && k <= |c.members| && NonNeg(c.prepaid)
      && NonNeg(c.deposits)
    ensures ReceivedAll(CancelReturnsTo(c, k), c.members[i]) == if i < k then At(c.prepaid, i) + At(c.deposits, i)
      else 0
  {
    hide Shape;
    if k > 0 {
      assert Shape(c);
      CancelledReceived(c, i, k - 1);
      LinesAt(c, k - 1);
      var m := c.members[k - 1];
      ReceivedRefund(m, At(c.deposits, k - 1), c.members[i]);
      ReceivedRefund(m, At(c.prepaid, k - 1), c.members[i]);
      ReceivedAppend(CancelReturnsTo(c, k - 1), Circles.Refund(m, At(c.deposits, k - 1)), c.members[i]);
      ReceivedAppend(CancelReturnsTo(c, k - 1) + Circles.Refund(m, At(c.deposits, k - 1)),
        Circles.Refund(m, At(c.prepaid, k - 1)), c.members[i]);
    }
  }

  /**
    Deleting a forming circle gives every member back their own deposit and autopay money, whatever order they joined
    in.
   */
  lemma CancelReturnsOwn(c: Circle, i: nat)
    requires CircleInv(c) && c.status == Forming && i < |c.members|
    ensures ReceivedAll(CancelCircle(c).credits, c.members[i]) == At(c.prepaid, i) + At(c.deposits, i)
  {
    hide Books, Seats, Phase, Pledges;
    CancelledReceived(c, i, |c.members|);
  }

  /**
    The end of a circle: every member gets back what is left of their own deposit and autopay money and, of the
    insurance, an equal part rounded down, the last member also the remainder.
   */
  lemma ClosingReturns(c: Circle, i: nat)
    requires Shape(c) && Distinct(c.members) && i < |c.members| && NonNeg(c.prepaid) && NonNeg(c.deposits)
      && 0 <= c.insurance
    ensures var n := |c.members|;
      var part := ReceivedAll(Close(c).credits, c.members[i]) - At(c.prepaid, i) - At(c.deposits, i);
      && (i < n - 1 ==> part * n <= c.insurance < (part + 1) * n)
      && (i == n - 1 ==> c.insurance <= part * n && (part - n + 1) * n <= c.insurance)
  {
    hide Close, Shape;
    CloseReceived(c, i);
    EvenParts(c.insurance, |c.members|, i);
  }

  lemma EvenParts(x: int, n: nat, i: nat)
    requires 0 <= x && i < n
    ensures var part := InsurancePart(x, n, i);
      && (i < n - 1 ==> part * n <= x < (part + 1) * n)
      && (i == n - 1 ==> x <= part * n && (part - n + 1) * n <= x)
      && (x == 0 ==> part == 0)
  {
    DivFacts(x, n);
    var q := x / n;
    Distribute(q, 1, n);
    if i == n - 1 {
      LastPart(x, q, n);
    }
  }

  lemma Distribute(a: int, b: int, n: int)
    ensures (a + b) * n == a * n + b * n
  {}

  /** The remainder of dividing x into n parts goes to the last one: it is at least an even part, and by less than n. */
  lemma LastPart(x: int, q: int, n: int)
    requires 0 < n && q * n <= x < q * n + n
    ensures x <= (x - q * (n - 1)) * n && (x - q * (n - 1) - n + 1) * n <= x
  {
    var e := x - q * n;
    MulStep(q, n);
    assert x - q * (n - 1) == q + e;
    Distribute(q, e, n);
    MulMonotone(1, n, e);
    Distribute(q, e - n + 1, n);
    MulMonotone(e - n + 1, 0, n);
  }

  // ---------------------------------------------------------------- who can move an escrow's money

  /**
    The seller is paid by the buyer's release of the next milestone, by the arbiter of a dispute, or by a claim after
    the review.
   */
  predicate SellerMayBePaid(e: Escrow, who: Address, op: EscrowStep, now: int, amount: int)
    requires 0 <= e.released < |e.milestones|
  {
    match op
    case Release => who == e.buyer && e.status != Disputed && amount == e.milestones[e.released]
    case Resolve(toSeller) => who == e.arbiter && e.status == Disputed && amount == toSeller
    case ClaimRest =>
      who == e.seller && e.status == Dispatched && now >= e.dispatchedAt + e.reviewSecs * 1000
      && amount == e.balance
    case _ => false
  }

  /**
    The buyer is paid back by the seller, by themselves when nothing was dispatched in time, or by the arbiter of a
    dispute.
   */
  predicate BuyerMayBePaid(e: Escrow, who: Address, op: EscrowStep, now: int, amount: int) {
    match op
    case Refund => (who == e.seller || (who == e.buyer && e.status == Funded && now > e.shipBy)) && amount == e.balance
    case Resolve(toSeller) => who == e.arbiter && e.status == Disputed && amount == e.balance - ArbiterCut(e) - toSeller
    case _ => false
  }

  lemma ReceivedPay(e: Escrow, to: Address, amt: int, x: Address)
    requires 0 <= amt
    ensures ReceivedAll(Escrows.Pay(e, to, amt).credits, x) == if x == to then amt else 0
  {
    ReceivedOne(to, amt, x);
  }

  lemma ResolveReceived(e: Escrow, toSeller: int, x: Address)
    requires EscrowInv(e) && Open(e) && 0 <= toSeller <= e.balance - ArbiterCut(e)
    ensures ReceivedAll(ResolveSplit(e, toSeller).credits, x)
      == (if x == e.arbiter then ArbiterCut(e) else 0) + (if x == e.seller then toSeller else 0)
         + if x == e.buyer then e.balance - ArbiterCut(e) - toSeller else 0
  {
    OpenHoldsMoney(e);
    BasisPointsBounds(e.balance, e.arbiterBps);
    hide EscrowInv;
    var a := PayArbiter(e);
    var b := Escrows.Pay(a.escrow, e.seller, toSeller);
    var rest := e.balance - ArbiterCut(e) - toSeller;
    var c := Escrows.Pay(b.escrow, e.buyer, rest);
    ReceivedOne(e.arbiter, ArbiterCut(e), x);
    ReceivedPay(a.escrow, e.seller, toSeller, x);
    ReceivedPay(b.escrow, e.buyer, rest, x);
    ReceivedAppend(a.credits, b.credits, x);
    ReceivedAppend(a.credits + b.credits, c.credits, x);
  }

  /**
    Authority over an escrow: whatever an allowed step brings anyone is brought to the seller, the buyer or the arbiter,
    each in the situation and by the amount that is theirs; nobody else receives anything.
   */
  lemma EscrowAuthority(e: Escrow, who: Address, op: EscrowStep, now: int, x: Address)
      returns (toSeller: int, toBuyer: int, fee: int)
    requires EscrowInv(e) && GoodEscrowStep(op) && EscrowCheck(e, who, op, now) == None
    ensures ReceivedAll(EscrowEffect(e, op, now).credits, x)
      == (if x == e.seller then toSeller else 0) + (if x == e.buyer then toBuyer else 0) + if x == e.arbiter then fee
        else 0
    ensures toSeller != 0 ==> SellerMayBePaid(e, who, op, now, toSeller)
    ensures toBuyer != 0 ==> BuyerMayBePaid(e, who, op, now, toBuyer)
    ensures fee != 0 ==> who == e.arbiter && op.Resolve? && e.status == Disputed && fee == ArbiterCut(e)
  {
    OpenHoldsMoney(e);
    hide EscrowInv;
    toSeller, toBuyer, fee := 0, 0, 0;
    match op {
      case Release =>
        toSeller := e.milestones[e.released];
        ReceivedPay(e, e.seller, toSeller, x);
      case Resolve(amount) =>
        ResolveReceived(e, amount, x);
        toSeller, toBuyer, fee := amount, e.balance - ArbiterCut(e) - amount, ArbiterCut(e);
      case Refund =>
        ReceivedPay(e, e.buyer, e.balance, x);
        toBuyer := e.balance;
      case ClaimRest =>
        ReceivedPay(e, e.seller, e.balance, x);
        toSeller := e.balance;
      case _ =>
    }
  }

  /**
    The three roles have to be different keys for this to protect anyone: a buyer who is also the arbiter, as a
    recovery can bring about, may dispute and then resolve the whole balance to themselves.
   */
  lemma BuyerAsArbiter(e: Escrow, now: int)
    requires EscrowInv(e) && Open(e) && e.status != Disputed && e.buyer == e.arbiter != e.seller
    ensures EscrowCheck(e, e.buyer, Dispute, now) == None
    ensures var d := EscrowEffect(e, Dispute, now).escrow;
      && EscrowCheck(d, e.buyer, Resolve(0), now) == None
      && ReceivedAll(EscrowEffect(d, Resolve(0), now).credits, e.buyer) == e.balance > 0
  {
    OpenHoldsMoney(e);
    var d := EscrowEffect(e, Dispute, now).escrow;
    BasisPointsBounds(e.balance, e.arbiterBps);
    ResolveReceived(d, 0, e.buyer);
  }

  // ---------------------------------------------------------------- one transaction, every balance

  /** What the operation itself brings address b of asset y. */
  function Brought(sha: Sha, s: State, tx: Tx, b: Address, y: Asset): int
    requires Shaped(s) && GoodTx(tx) && Check(s, tx) == None
  {
    match tx.body
    case Transfer(to, amount) => if b == to && y == tx.asset then amount else 0
    case Mint(to, amount) => if b == to && y == tx.asset then amount else 0
    case CircleStep(pool, step) =>
      var c := s.pools[pool];
      var r := StepEffect(sha, c, Index(c.members, tx.from), step, tx.from, s.now,
        Balance(s.accounts, tx.from, c.asset));
      if y == c.asset then ReceivedAll(r.credits, b) else 0
    case EscrowAct(id, act) =>
      if y == s.escrows[id].asset then ReceivedAll(EscrowEffect(s.escrows[id], act, s.now).credits, b) else 0
    case Guard(op) =>
      if !op.Finish? then 0
      else if b == op.account then -Balance(s.accounts, b, y)
      else if b == s.guards[op.account].pending.value.newOwner then Balance(s.accounts, op.account, y)
      else 0
    case _ => 0
  }

  lemma FinishBrings(s: State, from: Address, account: Address, b: Address, y: Asset)
    requires AccountsOk(s.accounts) && TargetsOk(s.guards) && GuardCheck(s, from, Finish(account)) == None
    ensures var n := s.guards[account].pending.value.newOwner;
      Balance(GuardEffect(s, from, Finish(account)).accounts, b, y)
        == if b == account then 0 else Balance(s.accounts, b, y) + if b == n then Balance(s.accounts, account, y) else 0
  {
    hide RenameCircle, RenameEscrow, MoveHoldings, AccountsOk;
    assert TargetOk(account, s.guards[account]);
    MoveRead(s.accounts, account, s.guards[account].pending.value.newOwner, b, y);
  }

  lemma PaymentBrings(sha: Sha, s: State, tx: Tx, b: Address, y: Asset)
    requires Shaped(s) && GoodTx(tx) && Check(s, tx) == None && (tx.body.Transfer? || tx.body.Mint?)
    ensures Balance(Effect(sha, s, tx).accounts, b, y) == Balance(s.accounts, b, y) + Brought(sha, s, tx, b, y)
  {
    hide Shape, Shaped, SetBalance, Rule, Check, Balance, IssuedOf, GoodTx, GuardCheck;
    CreditRead(s.accounts, tx.body.to, tx.asset, tx.body.amount, b, y);
  }

  lemma OpeningBrings(sha: Sha, s: State, tx: Tx, b: Address, y: Asset)
    requires Shaped(s) && GoodTx(tx) && Check(s, tx) == None
      && (tx.body.Burn? || tx.body.OpenCircle? || tx.body.OpenEscrow?)
    ensures Balance(Effect(sha, s, tx).accounts, b, y) == Balance(s.accounts, b, y) + Brought(sha, s, tx, b, y)
  {
    hide Shape, Shaped, NewCircle, NewEscrow, Balance;
  }

  lemma EffectBrings(sha: Sha, s: State, tx: Tx, b: Address, y: Asset)
    requires AccountsOk(s.accounts) && TargetsOk(s.guards) && Shaped(s) && GoodTx(tx) && Check(s, tx) == None
    ensures Balance(Effect(sha, s, tx).accounts, b, y) == Balance(s.accounts, b, y) + Brought(sha, s, tx, b, y)
  {
    hide Shaped, AccountsOk, TargetsOk, Effect, Brought, Balance, Check, GoodTx;
    match tx.body {
      case CircleStep(_, _) => StepBrings(sha, s, tx, b, y);
      case EscrowAct(_, _) => ActBrings(sha, s, tx, b, y);
      case Guard(_) => GuardBrings(sha, s, tx, b, y);
      case Transfer(_, _) => PaymentBrings(sha, s, tx, b, y);
      case Mint(_, _) => PaymentBrings(sha, s, tx, b, y);
      case _ => OpeningBrings(sha, s, tx, b, y);
    }
  }

  lemma StepBrings(sha: Sha, s: State, tx: Tx, b: Address, y: Asset)
    requires Shaped(s) && GoodTx(tx) && Check(s, tx) == None && tx.body.CircleStep?
    ensures Balance(Effect(sha, s, tx).accounts, b, y) == Balance(s.accounts, b, y) + Brought(sha, s, tx, b, y)
  {
    hide Shape, StepEffect, StepCheck, Balance;
    var c := s.pools[tx.body.pool];
    var r := StepEffect(sha, c, Index(c.members, tx.from), tx.body.step, tx.from, s.now,
      Balance(s.accounts, tx.from, c.asset));
    CreditsRead(s.accounts, c.asset, r.credits, |r.credits|, b, y);
  }

  lemma ActBrings(sha: Sha, s: State, tx: Tx, b: Address, y: Asset)
    requires Shaped(s) && GoodTx(tx) && Check(s, tx) == None && tx.body.EscrowAct?
    ensures Balance(Effect(sha, s, tx).accounts, b, y) == Balance(s.accounts, b, y) + Brought(sha, s, tx, b, y)
  {
    hide Shape, EscrowEffect, Balance;
    var e := s.escrows[tx.body.escrow];
    var r := EscrowEffect(e, tx.body.act, s.now);
    CreditsRead(s.accounts, e.asset, r.credits, |r.credits|, b, y);
  }

  lemma GuardBrings(sha: Sha, s: State, tx: Tx, b: Address, y: Asset)
    requires AccountsOk(s.accounts) && TargetsOk(s.guards) && Shaped(s) && GoodTx(tx) && Check(s, tx) == None
      && tx.body.Guard?
    ensures Balance(Effect(sha, s, tx).accounts, b, y) == Balance(s.accounts, b, y) + Brought(sha, s, tx, b, y)
  {
    hide Shape, Shaped, AccountsOk, TargetsOk, Balance, MoveAccount;
    GuardAllowed(s, tx);
    if tx.body.op.Finish? {
      FinishBrings(s, tx.from, tx.body.op.account, b, y);
    }
  }

  lemma SettleRead(s: State, tx: Tx, cost: int, b: Address, y: Asset)
    requires (tx.asset != ORP ==> tx.asset in s.defs) && 0 <= tx.fee
    ensures Balance(Settle(s, tx, cost).accounts, b, y) == Balance(s.accounts, b, y)
      - (if b == tx.from && y == tx.asset then cost else 0)
      + if tx.asset != ORP && y == tx.asset && b == s.defs[tx.asset].issuer then tx.fee else 0
  {
    hide SetBalance, Balance, CreditTo;
    DebitedRead(s, tx, cost, b, y);
    if tx.asset != ORP {
      CreditRead(Debited(s, tx, cost), s.defs[tx.asset].issuer, tx.asset, tx.fee, b, y);
    }
  }

  lemma DebitedRead(s: State, tx: Tx, cost: int, b: Address, y: Asset)
    ensures Balance(Debited(s, tx, cost), b, y) == Balance(s.accounts, b, y) - if b == tx.from && y == tx.asset
      then cost else 0
  {
    SetRead(s.accounts, tx.from, tx.asset, Balance(s.accounts, tx.from, tx.asset) - cost, b, y);
  }

  /**
    What one transaction does to every balance there is: what its operation brings, less the cost for the sender, plus
    the fee for the issuer of an issued asset, and nothing else to anyone.
   */
  lemma BalancesAfter(sha: Sha, s: State, tx: Tx, b: Address, y: Asset)
    requires AccountsOk(s.accounts) && TargetsOk(s.guards) && Shaped(s) && GoodTx(tx) && Check(s, tx) == None
    ensures Balance(Apply(sha, s, tx).state.accounts, b, y)
      == Balance(s.accounts, b, y) + Brought(sha, s, tx, b, y)
         - (if b == tx.from && y == tx.asset then Cost(s, tx) else 0)
         + if tx.asset != ORP && y == tx.asset && b == s.defs[tx.asset].issuer then tx.fee else 0
  {
    CheckedAsset(s, tx);
    FeeNonNeg(tx);
    hide Shape, Shaped, AccountsOk, TargetsOk, Balance, Settle, Effect, Brought, Rule, GoodTx;
    EffectBrings(sha, s, tx, b, y);
    SettleRead(Effect(sha, s, tx), tx, Cost(s, tx), b, y);
  }

  /**
    A transfer moves its amount from the sender to the recipient, costs the sender the fee on top, hands the fee to the
    issuer or burns it, uses up one nonce of the sender, and touches nothing else in the ledger.
   */
  lemma TransferExact(sha: Sha, s: State, tx: Tx, b: Address, y: Asset)
    requires AccountsOk(s.accounts) && TargetsOk(s.guards) && Shaped(s) && GoodTx(tx) && Check(s, tx) == None
      && tx.body.Transfer?
    ensures var t := Apply(sha, s, tx).state;
      && Balance(t.accounts, b, y) == Balance(s.accounts, b, y)
           + (if y != tx.asset then 0 else
                (if b == tx.body.to then tx.body.amount else 0) - (if b == tx.from then tx.body.amount + tx.fee else 0)
                + if y != ORP && b == s.defs[y].issuer then tx.fee else 0)
      && Get(t.accounts, b).nonce == Get(s.accounts, b).nonce + (if b == tx.from then 1 else 0)
      && t.supply == s.supply - (if tx.asset == ORP then tx.fee else 0) && t.supply + t.burned == s.supply + s.burned
      && t == s.(accounts := t.accounts, supply := t.supply, burned := t.burned)
  {
    BalancesAfter(sha, s, tx, b, y);
    EffectNonce(sha, s, tx, b);
    SettleNonce(Effect(sha, s, tx), tx, Cost(s, tx), b);
    TransferElsewhere(sha, s, tx);
    CheckedAsset(s, tx);
    hide Shape, Shaped, AccountsOk, TargetsOk, Balance, Apply, Check;
  }

  lemma TransferElsewhere(sha: Sha, s: State, tx: Tx)
    requires Shaped(s) && GoodTx(tx) && Check(s, tx) == None && tx.body.Transfer?
    ensures var t := Apply(sha, s, tx).state;
      && t.supply == s.supply - (if tx.asset == ORP then tx.fee else 0) && t.supply + t.burned == s.supply + s.burned
      && t == s.(accounts := t.accounts, supply := t.supply, burned := t.burned)
  {
    CheckedAsset(s, tx);
    FeeNonNeg(tx);
    hide Shape, Shaped, Balance, CreditTo, Check, GoodTx, Settle;
    SettleElsewhere(Effect(sha, s, tx), tx, Cost(s, tx));
  }

  lemma SettleElsewhere(s: State, tx: Tx, cost: int)
    requires (tx.asset != ORP ==> tx.asset in s.defs) && 0 <= tx.fee
    ensures var t := Settle(s, tx, cost); var fee := if tx.asset == ORP then tx.fee else 0;
      t == s.(accounts := t.accounts, supply := s.supply - fee, burned := s.burned + fee)
  {
    hide SetBalance, Balance, CreditTo;
  }

  // ---------------------------------------------------------------- exactly when the ledger stays sound

  /** The fee an issuer pays in its own asset comes straight back, so its debit may dip below zero in between. */
  predicate PaysItself(s: State, tx: Tx)
    requires tx.asset != ORP ==> tx.asset in s.defs
  {
    tx.asset != ORP && tx.from == s.defs[tx.asset].issuer
  }

  lemma UncoveredCost(sha: Sha, s: State, tx: Tx)
    requires Shaped(s) && GoodTx(tx) && Check(s, tx) == None && !Covered(sha, s, tx)
    ensures Cost(s, tx) == tx.fee
  {
    hide Shape, StepEffect, StepCheck, GuardCheck, Balance, GoodStep;
  }

  lemma IssuerSettles(s: State, tx: Tx, cost: int)
    requires AccountsOk(s.accounts) && tx.asset != ORP && tx.asset in s.defs && PaysItself(s, tx) && 0 < tx.fee == cost
    ensures AccountsOk(Settle(s, tx, cost).accounts)
  {
    var acc, x := Get(s.accounts, tx.from), tx.asset;
    GetOk(s.accounts, tx.from);
    BalanceNonNeg(s.accounts, tx.from, x);
    hide AccountsOk, AccountOk;
    TwiceSet(acc, x, Ledger.Held(acc, x) - cost, Ledger.Held(acc, x));
    var back := WithBalance(acc, x, Ledger.Held(acc, x)).(nonce := acc.nonce + 1);
    PutOk(s.accounts, tx.from, back);
    IssuerAccounts(s, tx, cost, back);
  }

  lemma IssuerAccounts(s: State, tx: Tx, cost: int, back: Account)
    requires tx.asset != ORP && tx.asset in s.defs && PaysItself(s, tx) && 0 < tx.fee == cost
    requires var acc, x := Get(s.accounts, tx.from), tx.asset;
      WithBalance(WithBalance(acc, x, Ledger.Held(acc, x) - cost).(nonce := acc.nonce + 1), x, Ledger.Held(acc, x))
        == back
    ensures Settle(s, tx, cost).accounts == s.accounts[tx.from := back]
  {
    var acc, x := Get(s.accounts, tx.from), tx.asset;
    var low := WithBalance(acc, x, Ledger.Held(acc, x) - cost);
    HeldWith(acc, x, Ledger.Held(acc, x) - cost, x);
    assert low.nonce == acc.nonce;
    hide WithBalance;
    assert Debited(s, tx, cost) == s.accounts[tx.from := low.(nonce := acc.nonce + 1)];
  }

  lemma GetOk(m: Accounts, a: Address)
    requires AccountsOk(m)
    ensures AccountOk(Get(m, a))
  {}

  lemma PutOk(m: Accounts, a: Address, acc: Account)
    requires AccountsOk(m) && AccountOk(acc)
    ensures AccountsOk(m[a := acc])
  {}

  lemma TwiceSet(acc: Account, x: Asset, u: int, v: int)
    requires x != ORP && AccountOk(acc) && v == Ledger.Held(acc, x)
    ensures WithBalance(WithBalance(acc, x, u).(nonce := acc.nonce + 1), x, v)
      == WithBalance(acc, x, v).(nonce := acc.nonce + 1)
    ensures AccountOk(WithBalance(acc, x, v).(nonce := acc.nonce + 1))
  {
    assert acc.assets[x := u][x := v] == acc.assets[x := v];
    assert acc.assets[x := u] - {x} == acc.assets - {x};
    assert (acc.assets - {x})[x := v] == acc.assets[x := v];
    assert acc.assets - {x} - {x} == acc.assets - {x};
  }

  lemma NotCoveredBreaks(sha: Sha, s: State, tx: Tx)
    requires LedgerInv(s) && Shaped(s) && GoodTx(tx) && Check(s, tx) == None && !Covered(sha, s, tx)
    requires (tx.asset != ORP ==> tx.asset in s.defs) && !PaysItself(s, tx)
    ensures !AccountsOk(Apply(sha, s, tx).state.accounts)
  {
    hide Shape, Shaped, Parts, Conserved, Bounded, Covered, Brought, Balance, Check, Effect, GoodTx, TargetsOk, Settle;
    InvParts(s);
    DebitCovered(sha, s, tx);
    PartsTargets(s);
    EffectBrings(sha, s, tx, tx.from, tx.asset);
    BalancesAfter(sha, s, tx, tx.from, tx.asset);
    if AccountsOk(Apply(sha, s, tx).state.accounts) {
      BalanceNonNeg(Apply(sha, s, tx).state.accounts, tx.from, tx.asset);
    }
  }

  lemma PartsTargets(s: State)
    requires Parts(s)
    ensures TargetsOk(s.guards)
  {}

  lemma IssuerKeeps(sha: Sha, s: State, tx: Tx)
    requires LedgerInv(s) && Shaped(s) && GoodTx(tx) && Check(s, tx) == None && !Covered(sha, s, tx)
    requires tx.asset != ORP && tx.asset in s.defs && PaysItself(s, tx)
    ensures LedgerInv(Apply(sha, s, tx).state)
  {
    FeeNonNeg(tx);
    hide Shape, CirclesOk, EscrowsOk, TargetsOk, Conserved, Bounded, Covered, Effect, Check, GoodTx, Settle, Brought,
      AccountsOk;
    EffectKept(sha, s, tx);
    UncoveredCost(sha, s, tx);
    InvParts(s);
    PartsTargets(s);
    EffectBrings(sha, s, tx, tx.from, tx.asset);
    BalanceNonNeg(Effect(sha, s, tx).accounts, tx.from, tx.asset);
    IssuerSettles(Effect(sha, s, tx), tx, Cost(s, tx));
    SettleElsewhere(Effect(sha, s, tx), tx, Cost(s, tx));
    EffectBounded(sha, s, tx);
    ApplyConserves(sha, s, tx);
    SettleDefs(Effect(sha, s, tx), tx, Cost(s, tx));
  }

  /**
    Being Covered is exactly what keeps the ledger sound: a transaction that passes its checks leads to a sound ledger
    if and only if it is Covered, or its sender is the issuer of its asset, to whom the fee comes straight back.
   */
  lemma KeptExactly(sha: Sha, s: State, tx: Tx)
    requires LedgerInv(s) && Shaped(s) && GoodTx(tx) && Check(s, tx) == None
    ensures (tx.asset != ORP ==> tx.asset in s.defs)
    ensures LedgerInv(Apply(sha, s, tx).state) <==> Covered(sha, s, tx) || PaysItself(s, tx)
  {
    CheckedAsset(s, tx);
    hide Shape, Shaped, Parts, Conserved, Bounded, AccountsOk, Covered, Apply, Check, GoodTx;
    if Covered(sha, s, tx) {
      ApplyKeeps(sha, s, tx);
    } else if PaysItself(s, tx) {
      IssuerKeeps(sha, s, tx);
    } else {
      NotCoveredBreaks(sha, s, tx);
    }
  }
}
