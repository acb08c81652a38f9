/**
  Savings circles as values: what a pool holds, and the rules of circle.go and poolOp as functions.
  A nil slice is the empty sequence: a circle has at least two members, so a slice that was made is never empty.
 */
module Circles {
  import opened Core
  import opened Sequences

  datatype Mode = Rotation | Lottery | Bidding | Goal

  datatype Status = Forming | Active | Done | Cancelled

  /** What a create fixes for the circle's life. */
  datatype Terms = Terms(contribution: int, roundSecs: int, deposit: Amount, mode: Mode, insuranceBps: int, target: int)

  datatype Circle = Circle(
    id: Hash, asset: Asset, creator: Address, terms: Terms, members: seq<Address>,
    joined: seq<bool>, status: Status, round: int, paid: seq<bool>, claimed: seq<bool>, balance: int, startedAt: int,
    deposits: seq<int>, defaults: seq<int>, paidOut: seq<int>, prepaid: seq<int>, insurance: int,
    paidAmt: seq<int>, bids: seq<int>, saved: seq<int>, withdrawn: seq<bool>, swapWith: seq<Address>)

  /** The operations on an existing circle; the circle's id travels beside them. */
  datatype Step =
    | Join
    | Contribute(amount: int)
    | Claim
    | Bid(discount: int)
    | Swap(other: Address)
    | Withdraw
    | Autopay(amount: int)
    | StopAutopay
    | Cancel

  datatype Payment = Payment(circle: Circle, credits: seq<Credit>)

  // ---------------------------------------------------------------- shape

  predicate NilOr<T>(s: seq<T>, n: nat) { s == [] || |s| == n }

  /** Lengths and constants every circle has from its creation on. */
  predicate Shape(c: Circle) {
    var n := |c.members|;
    && 2 <= n <= 50
    && |c.joined| == n && |c.paid| == n && |c.claimed| == n
    && NilOr(c.paidAmt, n) && NilOr(c.prepaid, n) && NilOr(c.swapWith, n)
    && |c.deposits| == |c.defaults| == |c.paidOut| == (if c.terms.roundSecs > 0 && c.terms.mode != Goal then n else 0)
    && |c.bids| == (if c.terms.mode == Bidding then n else 0)
    && |c.saved| == |c.withdrawn| == (if c.terms.mode == Goal then n else 0)
    && 0 < c.terms.contribution && 0 <= c.terms.deposit && 0 <= c.terms.roundSecs && 0 <= c.terms.insuranceBps <= 1000
    && c.terms.contribution * n < TWO64
    && (c.deposits == [] ==> c.terms.deposit == 0)
    && (c.terms.mode == Goal ==> c.prepaid == [] && c.paidAmt == [] && c.terms.insuranceBps == 0 && c.insurance == 0)
  }

  predicate Scheduled(c: Circle) { c.terms.roundSecs > 0 }

  /** When round r's contributions are due. */
  function DueAt(c: Circle, r: int): int { c.startedAt + (r + 1) * c.terms.roundSecs * 1000 }

  function Pot(c: Circle): int { c.terms.contribution * |c.members| }

  /** Money held besides this round's pot. */
  function Held(c: Circle): int { Sum(c.deposits) + Sum(c.prepaid) + c.insurance }

  function Holdings(c: Circle): int { c.balance + Held(c) }

  /** Entry j of a slice that may be nil. */
  function At(s: seq<int>, j: nat): int
    requires s == [] || j < |s|
  {
    if s == [] then 0 else s[j]
  }

  // ---------------------------------------------------------------- instalments and autopay

  /** What each member has paid this round, whether or not instalments are in use. */
  function PaidList(c: Circle): (r: seq<int>)
    requires Shape(c)
    ensures |r| == |c.members|
  {
    if c.paidAmt != [] then c.paidAmt
    else seq(|c.paid|, j requires 0 <= j < |c.paid| => if c.paid[j] then c.terms.contribution else 0)
  }

  function PaidSoFar(c: Circle, j: nat): int
    requires Shape(c) && j < |c.members|
  {
    if c.paidAmt != [] then c.paidAmt[j] else if c.paid[j] then c.terms.contribution else 0
  }

  function Need(c: Circle, j: nat): int
    requires Shape(c) && j < |c.members|
  {
    c.terms.contribution - PaidSoFar(c, j)
  }

  function PayIn(c: Circle, j: nat, amt: int): (r: Circle)
    requires Shape(c) && c.terms.mode != Goal && j < |c.members|
    ensures Shape(r)
  {
    var table := if c.paidAmt == [] && amt < c.terms.contribution then PaidList(c) else c.paidAmt;
    if table != [] then
      var t := table[j := table[j] + amt];
      c.(paidAmt := t, paid := c.paid[j := t[j] == c.terms.contribution], balance := c.balance + amt)
    else
      c.(paid := c.paid[j := true], balance := c.balance + amt)
  }

  function AutopayStep(c: Circle, j: nat): (r: Circle)
    requires Shape(c) && c.prepaid != [] && j < |c.members|
    ensures Shape(r) && r.prepaid != [] && |r.members| == |c.members|
  {
    var need := Need(c, j);
    if !c.paid[j] && c.prepaid[j] >= need
    then PayIn(c.(prepaid := c.prepaid[j := c.prepaid[j] - need]), j, need)
    else c
  }

  /** Autopay for the first k members. */
  function AutopayTo(c: Circle, k: nat): (r: Circle)
    requires Shape(c) && c.prepaid != [] && k <= |c.members|
    ensures Shape(r) && r.prepaid != [] && |r.members| == |c.members|
  {
    if k == 0 then c else AutopayStep(AutopayTo(c, k - 1), k - 1)
  }

  function RunAutopay(c: Circle): (r: Circle)
    requires Shape(c)
    ensures Shape(r)
  {
    if c.prepaid == [] || c.status != Active then c else AutopayTo(c, |c.members|)
  }

  function RoundsLeft(c: Circle, i: nat): int
    requires Shape(c) && i < |c.members|
  {
    |c.members| - c.round - if c.status == Active && c.paid[i] then 1 else 0
  }

  /** The rounds a member would have set aside after an autopay, by the guard's own division. */
  function RoundsWith(c: Circle, i: nat, amount: int): int
    requires Shape(c) && i < |c.members|
  {
    At(c.prepaid, i) / c.terms.contribution + amount / c.terms.contribution
  }

  // ---------------------------------------------------------------- who collects

  /** The scan of Recipient over members j.., with the best bidder and first candidate found so far. */
  function Scan(c: Circle, j: nat, best: int, first: int): int
    requires Shape(c) && c.terms.mode == Bidding && j <= |c.members| && best < |c.members|
    decreases |c.members| - j
  {
    if j == |c.members| then if best >= 0 then best else first
    else if c.claimed[j] then Scan(c, j + 1, best, first)
    else
      Scan(c, j + 1,
           if c.bids[j] > 0 && (best < 0 || c.bids[j] > c.bids[best]) then j else best,
           if first < 0 then j else first)
  }

  function Recipient(c: Circle): int
    requires Shape(c)
  {
    if c.terms.mode != Bidding then c.round else Scan(c, 0, -1, -1)
  }

  // ---------------------------------------------------------------- payout

  /** One missed payment: recorded, then covered from the member's deposit or the insurance. */
  function CoverStep(c: Circle, j: nat): (r: Circle)
    requires Shape(c) && c.terms.mode != Goal && j < |c.members|
    ensures Shape(r) && r.terms.mode != Goal && |r.members| == |c.members|
  {
    if c.paid[j] then c
    else
      var missing := Need(c, j);
      var d := if c.defaults != [] then c.(defaults := c.defaults[j := c.defaults[j] + 1]) else c;
      if c.deposits != [] && c.deposits[j] >= missing then
        d.(deposits := c.deposits[j := c.deposits[j] - missing], balance := c.balance + missing)
      else if c.insurance >= missing then
        d.(insurance := c.insurance - missing, balance := c.balance + missing)
      else d
  }

  function CoverTo(c: Circle, k: nat): (r: Circle)
    requires Shape(c) && c.terms.mode != Goal && k <= |c.members|
    ensures Shape(r) && r.terms.mode != Goal && |r.members| == |c.members|
  {
    if k == 0 then c else CoverStep(CoverTo(c, k - 1), k - 1)
  }

  /** Each other member's part of the winner's discount. */
  function DiscountShare(c: Circle, i: nat, pot: int): int
    requires Shape(c) && i < |c.members|
  {
    if c.terms.mode == Bidding && c.bids[i] > 0 then Min(c.bids[i], pot) / (|c.members| - 1) else 0
  }

  predicate Discounted(c: Circle, i: nat)
    requires Shape(c) && i < |c.members|
  {
    c.terms.mode == Bidding && c.bids[i] > 0
  }

  /** Credits of share to the first k members, leaving out member i. */
  function SharesTo(members: seq<Address>, i: nat, share: int, k: nat): seq<Credit>
    requires k <= |members|
  {
    if k == 0 then []
    else SharesTo(members, i, share, k - 1) + if k - 1 != i then [Credit(members[k - 1], share)] else []
  }

  function Refund(to: Address, v: int): seq<Credit> { if v > 0 then [Credit(to, v)] else [] }

  /** Autopay money, then deposit, back to each of the first k members. */
  function ReturnsTo(c: Circle, k: nat): seq<Credit>
    requires Shape(c) && k <= |c.members|
  {
    if k == 0 then []
    else
      ReturnsTo(c, k - 1)
      + Refund(c.members[k - 1], At(c.prepaid, k - 1)) + Refund(c.members[k - 1], At(c.deposits, k - 1))
  }

  /** The same money on a cancelled circle, deposit first. */
  function CancelReturnsTo(c: Circle, k: nat): seq<Credit>
    requires Shape(c) && k <= |c.members|
  {
    if k == 0 then []
    else
      CancelReturnsTo(c, k - 1)
      + Refund(c.members[k - 1], At(c.deposits, k - 1)) + Refund(c.members[k - 1], At(c.prepaid, k - 1))
  }

  function InsurancePart(total: int, n: nat, j: nat): int
    requires n > 0
  {
    if j == n - 1 then total - total / n * (n - 1) else total / n
  }

  function InsuranceTo(members: seq<Address>, total: int, k: nat): seq<Credit>
    requires k <= |members|
  {
    if k == 0 then []
    else InsuranceTo(members, total, k - 1) + [Credit(members[k - 1], InsurancePart(total, |members|, k - 1))]
  }

  /** The last round is over: everything left goes back. */
  function Close(c: Circle): (r: Payment)
    requires Shape(c)
    ensures Shape(r.circle)
  {
    var n := |c.members|;
    Payment(
      c.(status := Done, prepaid := Cleared(c.prepaid), deposits := Cleared(c.deposits),
        insurance := if c.insurance > 0 then 0 else c.insurance),
      ReturnsTo(c, n) + if c.insurance > 0 then InsuranceTo(c.members, c.insurance, n) else [])
  }

  /** What member i receives when the round's pot is k.balance (k after covering missed payments). */
  function Winnings(k: Circle, i: nat): int
    requires Shape(k) && i < |k.members|
  {
    var pot := k.balance - BasisPoints(k.balance, k.terms.insuranceBps);
    pot - DiscountShare(k, i, pot) * (|k.members| - 1)
  }

  function PotCredits(k: Circle, i: nat): seq<Credit>
    requires Shape(k) && i < |k.members|
  {
    var pot := k.balance - BasisPoints(k.balance, k.terms.insuranceBps);
    (if Discounted(k, i) then SharesTo(k.members, i, DiscountShare(k, i, pot), |k.members|) else [])
    + [Credit(k.members[i], Winnings(k, i))]
  }

  /** The books after the pot left: next round, nothing paid, no bids. */
  function NextRound(k: Circle, i: nat): (r: Circle)
    requires Shape(k) && k.terms.mode != Goal && i < |k.members|
    ensures Shape(r)
  {
    k.(balance := 0,
       insurance := k.insurance + BasisPoints(k.balance, k.terms.insuranceBps),
       paidOut := if k.paidOut != [] then k.paidOut[i := Winnings(k, i)] else [],
       claimed := k.claimed[i := true],
       round := k.round + 1,
       paid := Falses(|k.paid|), paidAmt := Cleared(k.paidAmt), bids := Cleared(k.bids))
  }

  function Payout(c: Circle, i: nat): (r: Payment)
    requires Shape(c) && c.terms.mode != Goal && i < |c.members|
    ensures Shape(r.circle)
  {
    var k := CoverTo(c, |c.members|);
    var next := NextRound(k, i);
    if next.round < |c.members| then Payment(RunAutopay(next), PotCredits(k, i))
    else
      var end := Close(next);
      Payment(end.circle, PotCredits(k, i) + end.credits)
  }

  // ---------------------------------------------------------------- turns

  predicate CanSwap<T>(s: seq<T>, i: nat, j: nat) { s == [] || (i < |s| && j < |s|) }

  /** Entries i and j of a slice exchanged; a nil slice stays nil. */
  function Sw<T>(s: seq<T>, i: nat, j: nat): (t: seq<T>)
    requires CanSwap(s, i, j)
    ensures |t| == |s|
  {
    if s == [] then [] else Swapped(s, i, j)
  }

  /** Members i and j exchanged with everything tracked per member. */
  function SwapIdx(c: Circle, i: nat, j: nat): (r: Circle)
    requires Shape(c) && i < |c.members| && j < |c.members|
    ensures Shape(r) && |r.members| == |c.members| && r.terms.mode == c.terms.mode
  {
    c.(members := Sw(c.members, i, j), joined := Sw(c.joined, i, j), paid := Sw(c.paid, i, j),
       claimed := Sw(c.claimed, i, j), deposits := Sw(c.deposits, i, j), defaults := Sw(c.defaults, i, j),
       paidOut := Sw(c.paidOut, i, j), prepaid := Sw(c.prepaid, i, j), paidAmt := Sw(c.paidAmt, i, j),
       bids := Sw(c.bids, i, j), saved := Sw(c.saved, i, j), withdrawn := Sw(c.withdrawn, i, j),
       swapWith := Sw(c.swapWith, i, j))
  }

  /** The place position k trades with, drawn from a seed's first eight bytes. */
  function Pick(sha: Sha, seed: Hash, k: nat): (r: nat)
    ensures r <= k
  {
    sha.word(seed) % (k + 1)
  }

  /** The shuffle from position k down to 1, with the seed left by the earlier positions. */
  function DrawFrom(sha: Sha, c: Circle, k: nat, seed: Hash): (r: Circle)
    requires Shape(c) && k < |c.members|
    ensures Shape(r) && |r.members| == |c.members| && r.terms.mode == c.terms.mode
    decreases k
  {
    if k == 0 then c
    else
      var next := sha.next(seed);
      DrawFrom(sha, SwapIdx(c, k, Pick(sha, next, k)), k - 1, next)
  }

  function DrawOrder(sha: Sha, c: Circle): (r: Circle)
    requires Shape(c)
    ensures Shape(r) && r.terms.mode == c.terms.mode
  {
    DrawFrom(sha, c, |c.members| - 1, sha.start(c.id, c.startedAt))
  }

  // ---------------------------------------------------------------- operations

  /** The stateless rules on a create (for the other operations they mostly fix which fields are present). */
  predicate GoodTerms(members: seq<Address>, t: Terms, from: Address) {
    var n := |members|;
    && 2 <= n <= 50
    && Distinct(members) && NoAddress !in members && from in members
    && 0 < t.contribution && t.contribution <= (TWO64 - 1) / n
    && (t.roundSecs == 0 || 3600 <= t.roundSecs <= 366 * 24 * 3600)
    && 0 <= t.deposit <= t.contribution * n
    && (t.deposit != 0 ==> t.roundSecs != 0)
    && 0 <= t.target < TWO64
    && (if t.mode == Goal then t.target != 0 && t.deposit == 0 && t.insuranceBps == 0 else t.target == 0)
    && 0 <= t.insuranceBps <= 1000
  }

  /** The stateless rules on a step. */
  predicate GoodStep(op: Step) {
    match op
    case Contribute(amount) => 0 <= amount < TWO64
    case Bid(discount) => 0 < discount < TWO64
    case Swap(other) => other.Key?
    case Autopay(amount) => 0 < amount < TWO64
    case _ => true
  }

  function NewCircle(id: Hash, asset: Asset, from: Address, members: seq<Address>, t: Terms): (c: Circle)
    requires from in members
  {
    var n := |members|;
    var i := Index(members, from);
    var kept := t.roundSecs > 0 && t.mode != Goal;
    Circle(id, asset, from, t, members,
           Falses(n)[i := true], Forming, 0, Falses(n), Falses(n), 0, 0,
           if kept then Zeros(n)[i := t.deposit] else [], if kept then Zeros(n) else [],
             if kept then Zeros(n) else [], [], 0,
           [], if t.mode == Bidding then Zeros(n) else [],
           if t.mode == Goal then Zeros(n) else [], if t.mode == Goal then Falses(n) else [], [])
  }

  /**
    Go's conversion of a uint64 to a signed 64-bit int. The sum of two converted numbers wraps around as well, so it is
    the conversion of their sum modulo 2^64.
   */
  function AsInt(x: int): int { if x < TWO64 / 2 then x else x - TWO64 }

  /** Would adding v to a balance b wrap around? */
  predicate Wraps(b: int, v: int) { b + v >= TWO64 }

  predicate AllPaid(c: Circle) { false !in c.paid }

  /** Savings of a goal circle unlock at the goal, or when a scheduled circle's deadline has passed. */
  predicate Unlocked(c: Circle, now: int) {
    c.status == Done || (Scheduled(c) && c.startedAt > 0 && now >= c.startedAt + c.terms.roundSecs * 1000)
  }

  /** Error of an operation by member i whose account holds bal of the circle's asset, or None when allowed. */
  function StepCheck(c: Circle, i: nat, op: Step, from: Address, now: int, bal: int): Option<Error>
    requires Shape(c) && i < |c.members|
  {
    match op
    case Join =>
      if c.status != Forming || c.joined[i] then Some(PoolRule) else None
    case Contribute(amount) =>
      if c.status != Active then Some(PoolRule)
      else if c.terms.mode == Goal then
        if amount == 0 then Some(PoolRule) else if Wraps(c.balance, amount) then Some(Overflow) else None
      else if c.paid[i] then Some(PoolRule)
      else if amount > Need(c, i) then Some(PoolRule)
      else None
    case Claim =>
      if c.terms.mode == Goal || c.status != Active then Some(PoolRule)
      else if i != Recipient(c) then Some(PoolRule)
      else if !AllPaid(c) && !(Scheduled(c) && now >= DueAt(c, c.round)) then Some(PoolRule)
      else if Wraps(bal, Pot(c)) then Some(Overflow)
      else None
    case Bid(discount) =>
      if c.terms.mode != Bidding || c.status != Active || c.claimed[i] then Some(PoolRule)
      else if discount > Pot(c) / 2 then Some(PoolRule)
      else None
    case Swap(other) =>
      if c.terms.mode == Goal || c.terms.mode == Bidding then Some(PoolRule)
      else if c.status != Forming && c.status != Active then Some(PoolRule)
      else
        var j := Index(c.members, other);
        if j < 0 || j == i then Some(PoolRule)
        else if c.claimed[i] || c.claimed[j] then Some(PoolRule)
        else if c.status == Active && (i == c.round || j == c.round) then Some(PoolRule)
        else None
    case Withdraw =>
      if c.terms.mode != Goal then Some(PoolRule)
      else if !Unlocked(c, now) then Some(PoolRule)
      else if c.saved[i] == 0 then Some(PoolRule)
      else if Wraps(bal, c.saved[i]) then Some(Overflow)
      else None
    case Autopay(amount) =>
      if c.terms.mode == Goal || (c.status != Forming && c.status != Active) then Some(PoolRule)
      else if amount % c.terms.contribution != 0 then Some(PoolRule)
      else if AsInt(RoundsWith(c, i, amount) % TWO64) > RoundsLeft(c, i) then Some(PoolRule)
      else None
    case StopAutopay =>
      if At(c.prepaid, i) == 0 then Some(PoolRule) else None
    case Cancel =>
      if from != c.creator || c.status != Forming then Some(PoolRule) else None
  }

  /** Member i is in, deposit down. */
  function Admit(c: Circle, i: nat): (r: Circle)
    requires Shape(c) && i < |c.members|
    ensures Shape(r) && r.members == c.members
  {
    c.(joined := c.joined[i := true], deposits := if c.deposits != [] then c.deposits[i := c.terms.deposit] else [])
  }

  /** Everyone is in: the clock starts, a lottery draws its order and autopay runs. */
  function Start(sha: Sha, c: Circle, now: int): (r: Circle)
    requires Shape(c)
    ensures Shape(r)
  {
    var a := c.(status := Active, startedAt := now);
    RunAutopay(if a.terms.mode == Lottery then DrawOrder(sha, a) else a)
  }

  function JoinCircle(sha: Sha, c: Circle, i: nat, now: int): (r: Circle)
    requires Shape(c) && i < |c.members|
    ensures Shape(r)
  {
    var d := Admit(c, i);
    if false in d.joined then d else Start(sha, d, now)
  }

  function ContributeTo(c: Circle, i: nat, amount: int): (r: Circle)
    requires Shape(c) && i < |c.members|
    ensures Shape(r)
  {
    if c.terms.mode == Goal then
      var d := c.(saved := c.saved[i := c.saved[i] + amount], balance := c.balance + amount);
      if d.balance >= d.terms.target then d.(status := Done) else d
    else PayIn(c, i, if amount == 0 then Need(c, i) else amount)
  }

  function SwapTurns(c: Circle, i: nat, from: Address, other: Address): (r: Circle)
    requires Shape(c) && i < |c.members| && other in c.members
    ensures Shape(r)
  {
    var n := |c.members|;
    var j := Index(c.members, other);
    var asked := if c.swapWith == [] then seq(n, _ => NoAddress) else c.swapWith;
    if asked[j] == from then SwapIdx(c, i, j).(swapWith := seq(n, _ => NoAddress))
    else c.(swapWith := asked[i := other])
  }

  function WithdrawFrom(c: Circle, i: nat, from: Address): (r: Payment)
    requires Shape(c) && c.terms.mode == Goal && i < |c.members|
    ensures Shape(r.circle)
  {
    var d := c.(balance := c.balance - c.saved[i], saved := c.saved[i := 0], withdrawn := c.withdrawn[i := true]);
    Payment(if d.status != Done && false !in d.withdrawn then d.(status := Done) else d, [Credit(from, c.saved[i])])
  }

  /** Money set aside for member i, before autopay runs. */
  function Reserve(c: Circle, i: nat, amount: int): (r: Circle)
    requires Shape(c) && c.terms.mode != Goal && i < |c.members|
    ensures Shape(r)
  {
    var set0 := if c.prepaid == [] then Zeros(|c.members|) else c.prepaid;
    c.(prepaid := set0[i := set0[i] + amount])
  }

  function AddAutopay(c: Circle, i: nat, amount: int): (r: Circle)
    requires Shape(c) && c.terms.mode != Goal && i < |c.members|
    ensures Shape(r)
  {
    RunAutopay(Reserve(c, i, amount))
  }

  function CancelCircle(c: Circle): (r: Payment)
    requires Shape(c)
    ensures Shape(r.circle)
  {
    Payment(c.(status := Cancelled, deposits := Cleared(c.deposits), prepaid := Cleared(c.prepaid)),
            CancelReturnsTo(c, |c.members|))
  }

  /** The state change of an allowed operation by member i. */
  function StepEffect(sha: Sha, c: Circle, i: nat, op: Step, from: Address, now: int, bal: int): (r: Payment)
    requires Shape(c) && i < |c.members|
    requires StepCheck(c, i, op, from, now, bal) == None
    ensures Shape(r.circle)
  {
    match op
    case Join => Payment(JoinCircle(sha, c, i, now), [])
    case Contribute(amount) => Payment(ContributeTo(c, i, amount), [])
    case Claim => Payout(c, i)
    case Bid(discount) => Payment(c.(bids := c.bids[i := discount]), [])
    case Swap(other) => Payment(SwapTurns(c, i, from, other), [])
    case Withdraw => WithdrawFrom(c, i, from)
    case Autopay(amount) => Payment(AddAutopay(c, i, amount), [])
    case StopAutopay => Payment(c.(prepaid := c.prepaid[i := 0]), [Credit(from, c.prepaid[i])])
    case Cancel => CancelCircle(c)
  }

  /** The part of a transaction's cost that goes into the circle, as Cost computes it before the operation runs. */
  function Stake(c: Circle, i: int, op: Step): int
    requires Shape(c) && -1 <= i < |c.members|
  {
    match op
    case Join => c.terms.deposit
    case Contribute(amount) => if amount > 0 then amount else if i >= 0 then Need(c, i) else c.terms.contribution
    case Autopay(amount) => amount
    case _ => 0
  }
}
