/**
  Autopay reserves as their 64-bit fields keep them: exactly when a step leaves more set aside than there are rounds.
 */
module WrappedReserves {
  import opened Arithmetic
  import opened Core
  import opened Sequences
  import opened Circles
  import opened CircleBooks
  import opened CircleAutopay
  import opened Ledger
  import opened MachineFacts

  /** Where the reserve wraps around, the contribution is 1 or 2, and fewer rounds are left set aside than before. */
  lemma WrappedReserve(c: Circle, i: nat, amount: int)
    requires CircleInv(c) && Reserved(c) && c.paidAmt == [] && c.terms.mode != Goal
      && (c.status == Forming || c.status == Active)
    requires i < |c.members| && 0 < amount < TWO64 && amount % c.terms.contribution == 0
    requires RoundsWith(c, i, amount) >= TWO64 / 2 && At(c.prepaid, i) + amount >= TWO64
    ensures Reserved(AddAutopay(c, i, Gain(At(c.prepaid, i), amount)))
  {
    hide RunAutopay, Amounts, Books, Seats, Pledges, Reserved;
    FewRounds(c, i);
    var con := c.terms.contribution;
    var ks := SetAside(c);
    Multiple(ks[i], con);
    WrappedRounds(At(c.prepaid, i), amount, con);
    var more := amount / con - TWO64 / con;
    hide Gain;
    ReserveOwed(c, i, more, ks);
    RunAutopayReserved(Reserve(c, i, more * con), ks[i := ks[i] + more]);
  }

  lemma WrappedRounds(have: int, amount: int, con: int)
    requires 0 < con && 0 <= have && have == have / con * con && have / con <= 50
    requires 0 < amount < TWO64 && amount % con == 0
    requires have / con + amount / con >= TWO64 / 2 && have + amount >= TWO64
    ensures var more := amount / con - TWO64 / con;
      Gain(have, amount) == more * con && 0 <= have / con + more <= have / con
  {
    if con > 2 {
      DivFacts(amount, con);
      MulMonotone(3, con, amount / con);
      assert false;
    }
  }

  /**
    The step as the program makes it keeps Reserved if and only if it is no autopay that brings the rounds set aside to
    2^63 or more within a 64-bit reserve.
   */
  lemma ReservedIn64(sha: Sha, c: Circle, i: nat, op: Step, from: Address, now: int, bal: int)
    requires CircleInv(c) && Reserved(c) && c.paidAmt == [] && i < |c.members| && c.members[i] == from && GoodStep(op)
    requires StepCheck(c, i, op, from, now, bal) == None
    ensures Reserved(StepIn64(sha, c, i, op, from, now, bal).circle)
      <==> (op.Autopay? ==> RoundsWith(c, i, op.amount) < TWO64 / 2 || At(c.prepaid, i) + op.amount >= TWO64)
  {
    hide Reserved, Amounts, Books, Seats, Pledges, RoundsWith, StepCheck, StepEffect, AddAutopay;
    StepReserved(sha, c, i, op, from, now, bal);
    if op.Autopay? {
      AutopayGuard(c, i, op.amount, from, now, bal);
      FewRounds(c, i);
      if RoundsWith(c, i, op.amount) < TWO64 / 2 {
        SmallFits(c, i, op.amount, from, now, bal);
      }
      if At(c.prepaid, i) + op.amount < TWO64 {
        GainSame(sha, c, i, op, from, now, bal);
      } else {
        WrappedReserve(c, i, op.amount);
      }
    } else {
      GainSame(sha, c, i, op, from, now, bal);
    }
  }

  lemma AutopayGuard(c: Circle, i: nat, amount: int, from: Address, now: int, bal: int)
    requires CircleInv(c) && i < |c.members| && StepCheck(c, i, Step.Autopay(amount), from, now, bal) == None
    ensures c.terms.mode != Goal && (c.status == Forming || c.status == Active)
      && amount % c.terms.contribution == 0
    ensures Shape(c) && 0 <= c.round <= |c.members| && (c.status == Active ==> c.round < |c.members|)
  {
    hide Books, Seats, Pledges, RoundsLeft, AsInt;
  }

  /** Rounds that pass the guard in exact numbers fit in 64 bits with their contributions. */
  lemma SmallFits(c: Circle, i: nat, amount: int, from: Address, now: int, bal: int)
    requires CircleInv(c) && Reserved(c) && c.paidAmt == [] && i < |c.members| && 0 < amount
    requires RoundsWith(c, i, amount) < TWO64 / 2 && StepCheck(c, i, Step.Autopay(amount), from, now, bal) == None
    ensures At(c.prepaid, i) + amount < TWO64
  {
    hide Reserved, Books, Seats, Pledges, StepCheck;
    GuardExact(c, i, amount, from, now, bal);
    FewRounds(c, i);
    WholeRounds(At(c.prepaid, i), amount, c.terms.contribution, |c.members|);
  }

  lemma WholeRounds(have: int, amount: int, con: int, n: int)
    requires 0 < con && 0 <= have && 0 <= amount && have == have / con * con && amount % con == 0
    requires have / con + amount / con <= n && con * n < TWO64
    ensures have + amount < TWO64
  {
    var k, m := have / con, amount / con;
    assert amount == m * con;
    AddsUp(k, m, con);
    MulMonotone(k + m, n, con);
  }
}
