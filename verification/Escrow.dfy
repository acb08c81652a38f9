/**
  Escrows: funds locked between a buyer and a seller, moved only by the escrow rules of ledger.go.
 */
module Escrows {
  import opened Arithmetic
  import opened Core
  import opened Sequences

  datatype EscrowStatus = Funded | Dispatched | Disputed | Completed | Refunded | Resolved

  datatype Escrow = Escrow(
    asset: Asset, buyer: Address, seller: Address, arbiter: Address, milestones: seq<int>, released: int, balance: int,
    status: EscrowStatus, createdAt: int, shipBy: int, reviewSecs: int, dispatchedAt: int,
    paidSeller: int, paidBuyer: int, arbiterBps: int, arbiterFee: int)

  /** What a create carries. */
  datatype EscrowTerms = EscrowTerms(
    seller: Address, arbiter: Address, milestones: seq<int>, shipBy: int, reviewSecs: int, arbiterBps: int)

  /** The operations on an existing escrow; its id travels beside them. */
  datatype EscrowStep = Dispatch | Release | Dispute | Resolve(toSeller: int) | Refund | ClaimRest

  datatype Settlement = Settlement(escrow: Escrow, credits: seq<Credit>)

  predicate Open(e: Escrow) { e.status == Funded || e.status == Dispatched || e.status == Disputed }

  function ArbiterCut(e: Escrow): int { BasisPoints(e.balance, e.arbiterBps) }

  /** The stateless rules on a create. */
  predicate GoodEscrowTerms(t: EscrowTerms, from: Address) {
    && t.seller.Key? && t.arbiter.Key? && t.seller != from && t.arbiter != from && t.arbiter != t.seller
    && 1 <= |t.milestones| <= 10 && 0 < t.shipBy && 3600 <= t.reviewSecs <= 90 * 24 * 3600
    && 0 <= t.arbiterBps <= 500
    && (forall j :: 0 <= j < |t.milestones| ==> 0 < t.milestones[j] < TWO64)
    && Sum(t.milestones) < TWO64
  }

  predicate GoodEscrowStep(op: EscrowStep) { op.Resolve? ==> 0 <= op.toSeller < TWO64 }

  function NewEscrow(asset: Asset, buyer: Address, t: EscrowTerms, now: int): Escrow {
    Escrow(asset, buyer, t.seller, t.arbiter, t.milestones, 0, Sum(t.milestones), Funded, now, t.shipBy, t.reviewSecs,
           0, 0, 0, t.arbiterBps, 0)
  }

  function EscrowCheck(e: Escrow, who: Address, op: EscrowStep, now: int): Option<Error> {
    if !Open(e) then Some(EscrowRule)
    else
      match op
      case Dispatch => if who != e.seller || e.status != Funded then Some(EscrowRule) else None
      case Release => if who != e.buyer || e.status == Disputed then Some(EscrowRule) else None
      case Dispute => if (who != e.buyer && who != e.seller) || e.status == Disputed then Some(EscrowRule) else None
      case Resolve(toSeller) =>
        if who != e.arbiter || e.status != Disputed then Some(EscrowRule)
        else if toSeller > e.balance - ArbiterCut(e) then Some(EscrowRule)
        else None
      case Refund =>
        if who == e.seller || (who == e.buyer && e.status == Funded && now > e.shipBy) then None else Some(EscrowRule)
      case ClaimRest =>
        if who != e.seller || e.status != Dispatched || now < e.dispatchedAt + e.reviewSecs * 1000
          then Some(EscrowRule) else None
  }

  /**
    Pays amt out of the escrow: nothing at all when amt is 0, and to the seller's tally whenever the payee is the
    seller.
   */
  function Pay(e: Escrow, to: Address, amt: int): Settlement {
    if amt == 0 then Settlement(e, [])
    else if to == e.seller then
      Settlement(e.(balance := e.balance - amt, paidSeller := e.paidSeller + amt), [Credit(to, amt)])
    else Settlement(e.(balance := e.balance - amt, paidBuyer := e.paidBuyer + amt), [Credit(to, amt)])
  }

  function PayArbiter(e: Escrow): Settlement {
    var fee := ArbiterCut(e);
    if fee > 0 then Settlement(e.(balance := e.balance - fee, arbiterFee := fee), [Credit(e.arbiter, fee)])
      else Settlement(e, [])
  }

  function ResolveSplit(e: Escrow, toSeller: int): Settlement {
    var rest := e.balance - ArbiterCut(e) - toSeller;
    var a := PayArbiter(e);
    var b := Pay(a.escrow, e.seller, toSeller);
    var c := Pay(b.escrow, e.buyer, rest);
    Settlement(c.escrow.(status := Resolved), a.credits + b.credits + c.credits)
  }

  function ReleaseNext(e: Escrow): Settlement
    requires 0 <= e.released < |e.milestones|
  {
    var p := Pay(e, e.seller, e.milestones[e.released]);
    var d := p.escrow.(released := e.released + 1);
    Settlement(if d.released == |d.milestones| then d.(status := Completed) else d, p.credits)
  }

  function EscrowEffect(e: Escrow, op: EscrowStep, now: int): Settlement
    requires 0 <= e.released < |e.milestones|
  {
    match op
    case Dispatch => Settlement(e.(status := Dispatched, dispatchedAt := now), [])
    case Release => ReleaseNext(e)
    case Dispute => Settlement(e.(status := Disputed), [])
    case Resolve(toSeller) => ResolveSplit(e, toSeller)
    case Refund =>
      var p := Pay(e, e.buyer, e.balance);
      Settlement(p.escrow.(status := Refunded), p.credits)
    case ClaimRest =>
      var p := Pay(e, e.seller, e.balance);
      Settlement(p.escrow.(released := |e.milestones|, status := Completed), p.credits)
  }

  // ---------------------------------------------------------------- accounting

  /** The milestones still to be released. */
  function Unreleased(e: Escrow): int
    requires 0 <= e.released <= |e.milestones|
  {
    Sum(e.milestones) - SumTo(e.milestones, e.released)
  }

  /**
    Escrow accounting: what is held and what was paid out always adds up to the milestones; while open exactly the
    unreleased milestones are held and there is at least one; once closed nothing is.
   */
  ghost predicate EscrowInv(e: Escrow) {
    && 1 <= |e.milestones| && (forall j :: 0 <= j < |e.milestones| ==> 0 < e.milestones[j])
    && 0 <= e.released <= |e.milestones|
    && Sum(e.milestones) < TWO64 && 0 <= e.arbiterBps <= 500
    && 0 <= e.paidSeller && 0 <= e.paidBuyer && 0 <= e.arbiterFee
    && e.balance + e.paidSeller + e.paidBuyer + e.arbiterFee == Sum(e.milestones)
    && (Open(e) ==> e.released < |e.milestones| && e.balance == Unreleased(e) && e.arbiterFee == 0)
    && (!Open(e) ==> e.balance == 0)
  }

  lemma {:induction false} SumToMonotone(s: seq<int>, i: nat, j: nat)
    requires i <= j <= |s| && forall k :: 0 <= k < |s| ==> 0 < s[k]
    ensures SumTo(s, i) + (j - i) <= SumTo(s, j)
  {
    if i < j {
      SumToMonotone(s, i, j - 1);
    }
  }

  /** An open escrow always holds money, and any escrow holds a non-negative amount. */
  lemma OpenHoldsMoney(e: Escrow)
    requires EscrowInv(e)
    ensures 0 <= e.balance <= Sum(e.milestones) && (Open(e) <==> 0 < e.balance)
  {
    SumToMonotone(e.milestones, e.released, |e.milestones|);
    SumToMonotone(e.milestones, 0, e.released);
  }

  lemma NewEscrowInv(asset: Asset, buyer: Address, t: EscrowTerms, now: int)
    requires GoodEscrowTerms(t, buyer)
    ensures EscrowInv(NewEscrow(asset, buyer, t, now)) && NewEscrow(asset, buyer, t, now).balance == Sum(t.milestones)
  {
    SumNonNeg(t.milestones);
  }

  /** Every credit is a positive amount to the buyer, the seller or the arbiter. */
  ghost predicate CreditsParties(e: Escrow, cs: seq<Credit>) {
    forall k :: 0 <= k < |cs| ==> cs[k].to in {e.buyer, e.seller, e.arbiter} && 0 < cs[k].amount
  }

  lemma PayAdds(e: Escrow, to: Address, amt: int)
    requires 0 <= amt && to in {e.buyer, e.seller, e.arbiter}
    ensures var p := Pay(e, to, amt);
      && p.escrow == e.(balance := e.balance - amt, paidSeller := p.escrow.paidSeller, paidBuyer := p.escrow.paidBuyer)
      && p.escrow.paidSeller + p.escrow.paidBuyer == e.paidSeller + e.paidBuyer + amt
      && e.paidSeller <= p.escrow.paidSeller && e.paidBuyer <= p.escrow.paidBuyer
      && SumCredits(p.credits) == amt && CreditsParties(e, p.credits)
  {
    assert SumCreditsTo([Credit(to, amt)], 0) == 0;
  }

  lemma ResolveAdds(e: Escrow, toSeller: int)
    requires EscrowInv(e) && Open(e) && 0 <= toSeller <= e.balance - ArbiterCut(e)
    ensures var r := ResolveSplit(e, toSeller);
      && EscrowInv(r.escrow) && SumCredits(r.credits) == e.balance && CreditsParties(e, r.credits)
      && r.escrow.arbiterFee == ArbiterCut(e) && r.escrow.milestones == e.milestones
      && r.escrow.asset == e.asset && r.escrow.released == e.released && r.escrow.balance == 0
  {
    OpenHoldsMoney(e);
    BasisPointsBounds(e.balance, e.arbiterBps);
    var rest := e.balance - ArbiterCut(e) - toSeller;
    var a := PayArbiter(e);
    assert SumCreditsTo(a.credits, 0) == 0;
    assert SumCredits(a.credits) == ArbiterCut(e);
    PayAdds(a.escrow, e.seller, toSeller);
    var b := Pay(a.escrow, e.seller, toSeller);
    PayAdds(b.escrow, e.buyer, rest);
    var c := Pay(b.escrow, e.buyer, rest);
    SumCreditsAppend(a.credits, b.credits);
    SumCreditsAppend(a.credits + b.credits, c.credits);
  }

  /**
    Every escrow step that is allowed keeps the accounting and pays out, to the parties only, exactly what leaves the
    balance; and a step on a closed escrow is never allowed.
   */
  lemma EscrowStepKeeps(e: Escrow, who: Address, op: EscrowStep, now: int)
    requires EscrowInv(e) && GoodEscrowStep(op)
    ensures EscrowCheck(e, who, op, now) == None ==>
      var r := EscrowEffect(e, op, now);
      && Open(e) && EscrowInv(r.escrow) && r.escrow.asset == e.asset && r.escrow.milestones == e.milestones
        && e.released <= r.escrow.released
      && r.escrow.balance + SumCredits(r.credits) == e.balance && CreditsParties(e, r.credits)
  {
    hide Pay, ResolveSplit, ArbiterCut;
    if EscrowCheck(e, who, op, now) == None {
      OpenHoldsMoney(e);
      match op
      case Release => PayAdds(e, e.seller, e.milestones[e.released]);
      case Resolve(toSeller) => ResolveAdds(e, toSeller);
      case Refund => PayAdds(e, e.buyer, e.balance);
      case ClaimRest => PayAdds(e, e.seller, e.balance);
      case _ =>
    }
  }

  /** The new name of an address after a recovery of old to new. */
  function Renamed(a: Address, old0: Address, new0: Address): Address { if a == old0 then new0 else a }

  function RenameEscrow(e: Escrow, old0: Address, new0: Address): Escrow {
    e.(buyer := Renamed(e.buyer, old0, new0), seller := Renamed(e.seller, old0, new0),
      arbiter := Renamed(e.arbiter, old0, new0))
  }

  /** One thing that can happen to an escrow: a step by someone, or a recovery renaming a party. */
  datatype EscrowEvent = Acted(who: Address, op: EscrowStep, now: int) | Recovered(old0: Address, new0: Address)

  function After(e: Escrow, ev: EscrowEvent): Escrow
    requires Open(e) ==> 0 <= e.released < |e.milestones|
  {
    match ev
    case Recovered(o, n) => RenameEscrow(e, o, n)
    case Acted(who, op, now) =>
      if GoodEscrowStep(op) && EscrowCheck(e, who, op, now) == None
      then EscrowEffect(e, op, now).escrow else e
  }

  /** An escrow after a history of attempted steps and recoveries. */
  ghost predicate Reaches(e: Escrow, evs: seq<EscrowEvent>, r: Escrow)
    decreases |evs|
  {
    if |evs| == 0 then r == e
    else (Open(e) ==> 0 <= e.released < |e.milestones|) && Reaches(After(e, evs[0]), evs[1..], r)
  }

  lemma AfterKeeps(e: Escrow, ev: EscrowEvent)
    requires EscrowInv(e)
    ensures EscrowInv(After(e, ev)) && After(e, ev).milestones == e.milestones && e.released <= After(e, ev).released
    ensures !Open(e) ==>
      var r := After(e, ev);
      r.paidSeller == e.paidSeller && r.paidBuyer == e.paidBuyer && r.arbiterFee == e.arbiterFee && r.status == e.status
  {
    if ev.Acted? && GoodEscrowStep(ev.op) {
      EscrowStepKeeps(e, ev.who, ev.op, ev.now);
    }
  }

  /**
    Over every history, whoever acts and whoever is renamed, the accounting holds; and once an escrow is closed
    no further history changes any of its amounts.
   */
  lemma {:induction false} EscrowHistory(e: Escrow, evs: seq<EscrowEvent>, r: Escrow)
    requires EscrowInv(e) && Reaches(e, evs, r)
    ensures EscrowInv(r) && r.milestones == e.milestones && e.released <= r.released
    ensures !Open(e) ==>
      && r.balance == 0 && r.paidSeller == e.paidSeller && r.paidBuyer == e.paidBuyer && r.arbiterFee == e.arbiterFee
      && r.status == e.status
    decreases |evs|
  {
    if |evs| > 0 {
      var m := After(e, evs[0]);
      AfterKeeps(e, evs[0]);
      EscrowHistory(m, evs[1..], r);
    }
  }
}
