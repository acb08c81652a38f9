/**
  The ledger as a value: accounts, circles, escrows and recovery setups, and the one rule that applies a transaction.
  Amounts are exact integers here; LedgerMachine shows that Go's 64-bit arithmetic computes the same values.
 */
module Ledger {
  import opened Core
  import opened Sequences
  import opened Circles
  import opened Escrows

  // ---------------------------------------------------------------- accounts

  /** Assets never maps a symbol to 0: setting a balance to 0 removes the entry. */
  datatype Account = Account(balance: int, nonce: int, assets: map<Asset, int>)

  const NoAccount := Account(0, 0, map[])

  type Accounts = map<Address, Account>

  function Get(m: Accounts, a: Address): Account { if a in m then m[a] else NoAccount }

  function Held(acc: Account, asset: Asset): int {
    if asset == ORP then acc.balance else if asset in acc.assets then acc.assets[asset] else 0
  }

  function Balance(m: Accounts, a: Address, asset: Asset): int { Held(Get(m, a), asset) }

  function WithBalance(acc: Account, asset: Asset, v: int): Account {
    if asset == ORP then acc.(balance := v)
    else if v == 0 then acc.(assets := acc.assets - {asset})
    else acc.(assets := acc.assets[asset := v])
  }

  function SetBalance(m: Accounts, a: Address, asset: Asset, v: int): Accounts {
    m[a := WithBalance(Get(m, a), asset, v)]
  }

  function CreditTo(m: Accounts, a: Address, asset: Asset, v: int): Accounts {
    SetBalance(m, a, asset, Balance(m, a, asset) + v)
  }

  /** The first k credits, in order. */
  function CreditsApplied(m: Accounts, asset: Asset, cs: seq<Credit>, k: nat): Accounts
    requires k <= |cs|
  {
    if k == 0 then m else CreditTo(CreditsApplied(m, asset, cs, k - 1), cs[k - 1].to, asset, cs[k - 1].amount)
  }

  // ---------------------------------------------------------------- recovery setups

  datatype Recovery = Recovery(newOwner: Address, approvals: seq<Address>, startedAt: int, readyAt: int)

  datatype Guardianship = Guardianship(guardians: seq<Address>, threshold: int, delaySecs: int,
    pending: Option<Recovery>)

  datatype GuardOp =
    | SetGuards(guardians: seq<Address>, threshold: int, delaySecs: int)
    | StartRecovery(account: Address, newOwner: Address)
    | Approve(account: Address, newOwner: Address)
    | CancelRecovery(account: Address)
    | Finish(account: Address)

  // ---------------------------------------------------------------- state and transactions

  datatype AssetDef = AssetDef(issuer: Address, minFee: int)

  datatype State = State(
    accounts: Accounts, pools: map<Hash, Circle>, escrows: map<Hash, Escrow>,
    guards: map<Address, Guardianship>, recoveredTo: map<Address, Address>,
    supply: int, burned: int, minFee: int, defs: map<Asset, AssetDef>, issued: map<Asset, int>, now: int)

  /** The one thing a transaction does, after its stateless check. */
  datatype Body =
    | Transfer(to: Address, amount: int)
    | Mint(to: Address, amount: int)
    | Burn(amount: int)
    | OpenCircle(members: seq<Address>, terms: Terms)
    | CircleStep(pool: Hash, step: Step)
    | OpenEscrow(agreed: EscrowTerms)
    | EscrowAct(escrow: Hash, act: EscrowStep)
    | Guard(op: GuardOp)

  /** The id is the hash of the signed content. */
  datatype Tx = Tx(id: Hash, from: Address, fee: int, nonce: int, asset: Asset, body: Body)

  datatype Outcome = Fail(error: Error) | Ok(state: State)

  // ---------------------------------------------------------------- stateless rules

  predicate GoodGuardOp(op: GuardOp, from: Address) {
    match op
    case SetGuards(gs, threshold, delay) =>
      && 1 <= |gs| <= 5 && Distinct(gs) && from !in gs && NoAddress !in gs
      && 1 <= threshold <= |gs| && 3600 <= delay <= 30 * 24 * 3600
    case StartRecovery(a, n) => a.Key? && n.Key? && n != a
    case Approve(a, n) => a.Key? && n.Key? && n != a
    case CancelRecovery(a) => a.Key?
    case Finish(a) => a.Key?
  }

  /** CheckStateless, apart from the chain id, the memo length and the signature. */
  predicate GoodTx(tx: Tx) {
    && tx.from.Key? && 0 <= tx.fee < TWO64 && 0 <= tx.nonce < TWO64
    && match tx.body
       case Transfer(to, amount) => to.Key? && to != tx.from && 0 < amount && amount + tx.fee < TWO64
       case Mint(to, amount) => tx.asset != ORP && to.Key? && 0 < amount < TWO64 && tx.fee == 0
       case Burn(amount) => tx.asset != ORP && 0 < amount && amount + tx.fee < TWO64
       case OpenCircle(members, terms) => GoodTerms(members, terms, tx.from)
       case CircleStep(_, step) => GoodStep(step)
       case OpenEscrow(agreed) => GoodEscrowTerms(agreed, tx.from)
       case EscrowAct(_, act) => GoodEscrowStep(act)
       case Guard(op) => GoodGuardOp(op, tx.from)
  }

  // ---------------------------------------------------------------- recovery rules

  function GuardCheck(s: State, from: Address, op: GuardOp): Option<Error> {
    if op.SetGuards? then
      if from in s.guards && s.guards[from].pending.Some? then Some(GuardRule)
      else if from in s.recoveredTo then Some(GuardRule)
      else None
    else if op.account !in s.guards then Some(GuardRule)
    else
      var g := s.guards[op.account];
      match op
      case StartRecovery(_, _) => if from !in g.guardians || g.pending.Some? then Some(GuardRule) else None
      case Approve(_, newOwner) =>
        if from !in g.guardians || g.pending.None? then Some(GuardRule)
        else if g.pending.value.newOwner != newOwner || from in g.pending.value.approvals then Some(GuardRule)
        else None
      case CancelRecovery(account) => if from != account || g.pending.None? then Some(GuardRule) else None
      case Finish(_) =>
        if g.pending.None? then Some(GuardRule)
        else if |g.pending.value.approvals| < g.threshold || s.now < g.pending.value.readyAt then Some(GuardRule)
        else None
  }

  function Started(g: Guardianship, from: Address, newOwner: Address, now: int): Guardianship {
    g.(pending := Some(Recovery(newOwner, [from], now, if g.threshold <= 1 then now + g.delaySecs * 1000 else 0)))
  }

  function Approved(g: Guardianship, from: Address, now: int): Guardianship
    requires g.pending.Some?
  {
    var p := g.pending.value;
    var more := p.approvals + [from];
    g.(pending := Some(p.(approvals := more,
      readyAt := if |more| >= g.threshold && p.readyAt == 0 then now + g.delaySecs * 1000 else p.readyAt)))
  }

  /** What acc holds after everything src holds was added to it. */
  function Merged(acc: Account, src: Account): Account {
    Account(acc.balance + src.balance, acc.nonce,
            map x | x in acc.assets.Keys + src.assets.Keys && (x in src.assets ==> Held(acc, x) + src.assets[x] != 0) ::
              (if x in acc.assets then acc.assets[x] else 0) + if x in src.assets then src.assets[x] else 0)
  }

  function MoveHoldings(m: Accounts, old0: Address, new0: Address): Accounts {
    var src := Get(m, old0);
    (if src.balance > 0 || src.assets != map[] then m[new0 := Merged(Get(m, new0), src)] else m)
      [old0 := Account(0, src.nonce, map[])]
  }

  function ReplaceMember(members: seq<Address>, old0: Address, new0: Address): (r: seq<Address>)
    ensures |r| == |members|
  {
    seq(|members|, j requires 0 <= j < |members| => Renamed(members[j], old0, new0))
  }

  /** A circle after a recovery; one that already seats the new key is left alone. */
  function RenameCircle(c: Circle, old0: Address, new0: Address): Circle {
    if new0 in c.members then c
    else c.(members := ReplaceMember(c.members, old0, new0), creator := Renamed(c.creator, old0, new0))
  }

  function MoveAccount(s: State, old0: Address, new0: Address): (r: State)
    requires old0 in s.guards
    ensures r.defs == s.defs && r.now == s.now && r.supply == s.supply && r.burned == s.burned && r.minFee == s.minFee
      && r.issued == s.issued
  {
    var g := s.guards[old0];
    s.(accounts := MoveHoldings(s.accounts, old0, new0),
       pools := map id | id in s.pools :: RenameCircle(s.pools[id], old0, new0),
       escrows := map id | id in s.escrows :: RenameEscrow(s.escrows[id], old0, new0),
       guards := s.guards[new0 := g.(pending := None)] - {old0},
       recoveredTo := s.recoveredTo[old0 := new0])
  }

  function GuardEffect(s: State, from: Address, op: GuardOp): (r: State)
    requires GuardCheck(s, from, op) == None
    ensures r.defs == s.defs && r.now == s.now && r.supply == s.supply && r.burned == s.burned && r.minFee == s.minFee
      && r.issued == s.issued
  {
    match op
    case SetGuards(gs, threshold, delay) => s.(guards := s.guards[from := Guardianship(gs, threshold, delay, None)])
    case StartRecovery(account, newOwner) =>
      s.(guards := s.guards[account := Started(s.guards[account], from, newOwner, s.now)])
    case Approve(account, _) => s.(guards := s.guards[account := Approved(s.guards[account], from, s.now)])
    case CancelRecovery(account) => s.(guards := s.guards[account := s.guards[account].(pending := None)])
    case Finish(account) => MoveAccount(s, account, s.guards[account].pending.value.newOwner)
  }

  // ---------------------------------------------------------------- the transaction frame

  /** Every circle has its lengths right and every open escrow a milestone to release. */
  ghost predicate Shaped(s: State) {
    && (forall id :: id in s.pools ==> Shape(s.pools[id]))
    && (forall id :: id in s.escrows ==> Open(s.escrows[id]) ==>
      0 <= s.escrows[id].released < |s.escrows[id].milestones|)
  }

  function MinFeeFor(s: State, asset: Asset): int {
    if asset == ORP then s.minFee else if asset in s.defs then s.defs[asset].minFee else 0
  }

  /** What a transaction puts into a circle, an escrow or another account. */
  function Spent(s: State, tx: Tx): int
    requires Shaped(s)
  {
    match tx.body
    case Transfer(_, amount) => amount
    case Mint(_, _) => 0
    case Burn(amount) => amount
    case OpenCircle(_, terms) => terms.deposit
    case CircleStep(pool, step) =>
      if pool in s.pools then Stake(s.pools[pool], Index(s.pools[pool].members, tx.from), step)
      else if step.Contribute? || step.Autopay? then step.amount else 0
    case OpenEscrow(agreed) => Sum(agreed.milestones)
    case EscrowAct(_, _) => 0
    case Guard(_) => 0
  }

  /** What the sender is debited: a mint costs nothing, everything else its amount plus the fee. */
  function Cost(s: State, tx: Tx): int
    requires Shaped(s)
  {
    if tx.body.Mint? then 0 else Spent(s, tx) + tx.fee
  }

  predicate FeeFree(tx: Tx) { tx.body.Mint? || tx.body.EscrowAct? || (tx.body.Guard? && !tx.body.op.SetGuards?) }

  /** A claimer may pay the fee out of the pot. */
  function Available(s: State, tx: Tx): int {
    Balance(s.accounts, tx.from, tx.asset)
    + if tx.body.CircleStep? && tx.body.step.Claim? && tx.body.pool in s.pools
      && s.pools[tx.body.pool].asset == tx.asset
      then s.pools[tx.body.pool].balance else 0
  }

  /** The rules of the operation itself. */
  function Rule(s: State, tx: Tx): Option<Error>
    requires Shaped(s) && (tx.asset != ORP ==> tx.asset in s.defs)
  {
    match tx.body
    case Transfer(to, amount) => if Wraps(Balance(s.accounts, to, tx.asset), amount) then Some(Overflow) else None
    case Mint(_, amount) =>
      if tx.asset == ORP || tx.from != s.defs[tx.asset].issuer then Some(AssetRule)
      else if Wraps(IssuedOf(s, tx.asset), amount) then Some(Overflow)
      else None
    case Burn(_) => None
    case OpenCircle(_, _) => if tx.id in s.pools then Some(PoolRule) else None
    case CircleStep(pool, step) =>
      if pool !in s.pools then Some(PoolRule)
      else
        var c := s.pools[pool];
        var i := Index(c.members, tx.from);
        if i < 0 || tx.asset != c.asset then Some(PoolRule)
        else StepCheck(c, i, step, tx.from, s.now, Balance(s.accounts, tx.from, c.asset))
    case OpenEscrow(agreed) => if tx.id in s.escrows || agreed.shipBy <= s.now then Some(EscrowRule) else None
    case EscrowAct(id, act) =>
      if id !in s.escrows || tx.asset != s.escrows[id].asset then Some(EscrowRule)
      else EscrowCheck(s.escrows[id], tx.from, act, s.now)
    case Guard(op) => GuardCheck(s, tx.from, op)
  }

  function IssuedOf(s: State, asset: Asset): int { if asset in s.issued then s.issued[asset] else 0 }

  /** The transaction's asset is known and its operation is allowed, whoever pays for it. */
  predicate Allowed(s: State, tx: Tx)
    requires Shaped(s)
  {
    (tx.asset != ORP ==> tx.asset in s.defs) && Rule(s, tx) == None
  }

  /** The first rule a transaction breaks when it is taken to cost this much, or None. */
  function CheckAt(s: State, tx: Tx, cost: int): (e: Option<Error>)
    requires Shaped(s)
    ensures e == None ==> Allowed(s, tx) && Available(s, tx) >= cost && tx.nonce == Get(s.accounts, tx.from).nonce
  {
    var nonce := Get(s.accounts, tx.from).nonce;
    if tx.asset != ORP && tx.asset !in s.defs then Some(AssetRule)
    else if !FeeFree(tx) && tx.fee < MinFeeFor(s, tx.asset) then Some(FeeTooLow)
    else if tx.nonce < nonce then Some(NonceTooLow)
    else if tx.nonce > nonce then Some(NonceTooHigh)
    else if Available(s, tx) < cost then Some(Insufficient)
    else Rule(s, tx)
  }

  /** Check, with the cost in exact numbers. */
  function Check(s: State, tx: Tx): (e: Option<Error>)
    requires Shaped(s)
    ensures e == None ==> Allowed(s, tx)
  {
    CheckAt(s, tx, Cost(s, tx))
  }

  /** The cost as the program adds it up, in 64 bits. */
  function CostIn64(s: State, tx: Tx): int
    requires Shaped(s)
  {
    Cost(s, tx) % TWO64
  }

  /** Check as the program runs it, with that cost. */
  function CheckIn64(s: State, tx: Tx): (e: Option<Error>)
    requires Shaped(s)
    ensures e == None ==> Allowed(s, tx)
  {
    CheckAt(s, tx, CostIn64(s, tx))
  }

  /** The operation's own state change, before the sender pays. */
  function Effect(sha: Sha, s: State, tx: Tx): (r: State)
    requires Shaped(s) && GoodTx(tx) && Allowed(s, tx)
    ensures r.defs == s.defs && r.now == s.now && r.supply == s.supply && r.burned == s.burned && r.minFee == s.minFee
  {
    match tx.body
    case Transfer(to, amount) => s.(accounts := CreditTo(s.accounts, to, tx.asset, amount))
    case Mint(to, amount) =>
      s.(accounts := CreditTo(s.accounts, to, tx.asset, amount),
        issued := s.issued[tx.asset := IssuedOf(s, tx.asset) + amount])
    case Burn(amount) => s.(issued := s.issued[tx.asset := IssuedOf(s, tx.asset) - amount])
    case OpenCircle(members, terms) =>
      s.(pools := s.pools[tx.id := NewCircle(tx.id, tx.asset, tx.from, members, terms)])
    case CircleStep(pool, step) => CircleEffect(sha, s, tx, pool, step)
    case OpenEscrow(agreed) => s.(escrows := s.escrows[tx.id := NewEscrow(tx.asset, tx.from, agreed, s.now)])
    case EscrowAct(id, act) => ActEffect(s, tx, id, act)
    case Guard(op) => GuardEffect(s, tx.from, op)
  }

  function CircleEffect(sha: Sha, s: State, tx: Tx, pool: Hash, step: Step): (r: State)
    requires Shaped(s) && tx.body == CircleStep(pool, step) && Allowed(s, tx)
    ensures r.defs == s.defs && r.now == s.now && r.supply == s.supply && r.burned == s.burned && r.minFee == s.minFee
      && r.issued == s.issued
  {
    var c := s.pools[pool];
    var r := StepEffect(sha, c, Index(c.members, tx.from), step, tx.from, s.now, Balance(s.accounts, tx.from, c.asset));
    s.(pools := s.pools[pool := r.circle], accounts := CreditsApplied(s.accounts, c.asset, r.credits, |r.credits|))
  }

  function ActEffect(s: State, tx: Tx, id: Hash, act: EscrowStep): (r: State)
    requires Shaped(s) && tx.body == EscrowAct(id, act) && Allowed(s, tx)
    ensures r.defs == s.defs && r.now == s.now && r.supply == s.supply && r.burned == s.burned && r.minFee == s.minFee
      && r.issued == s.issued
  {
    var e := s.escrows[id];
    var r := EscrowEffect(e, act, s.now);
    s.(escrows := s.escrows[id := r.escrow], accounts := CreditsApplied(s.accounts, e.asset, r.credits, |r.credits|))
  }

  /** After the effect: the debit, the next nonce, and the fee burned or handed to the asset's issuer. */
  function Settle(s: State, tx: Tx, cost: int): State
    requires tx.asset != ORP ==> tx.asset in s.defs
  {
    var paid := SetBalance(s.accounts, tx.from, tx.asset, Balance(s.accounts, tx.from, tx.asset) - cost);
    var next := paid[tx.from := paid[tx.from].(nonce := paid[tx.from].nonce + 1)];
    if tx.fee <= 0 then s.(accounts := next)
    else if tx.asset == ORP then s.(accounts := next, supply := s.supply - tx.fee, burned := s.burned + tx.fee)
    else s.(accounts := CreditTo(next, s.defs[tx.asset].issuer, tx.asset, tx.fee))
  }

  /** Apply: validate, run the effect, settle; a transaction that fails changes nothing. */
  function Apply(sha: Sha, s: State, tx: Tx): Outcome
    requires Shaped(s) && GoodTx(tx)
  {
    match Check(s, tx)
    case Some(e) => Fail(e)
    case None => Ok(Settle(Effect(sha, s, tx), tx, Cost(s, tx)))
  }

  // ---------------------------------------------------------------- the same in 64 bits

  /** What an autopay of this amount adds to a 64-bit line. */
  function Gain(line: int, amount: int): int { (line + amount) % TWO64 - line }

  /** A step as the program makes it: of a sound circle only the reserve of a huge autopay can wrap. */
  function StepIn64(sha: Sha, c: Circle, i: nat, op: Step, from: Address, now: int, bal: int): (r: Payment)
    requires Shape(c) && i < |c.members| && StepCheck(c, i, op, from, now, bal) == None
    ensures Shape(r.circle)
  {
    if op.Autopay? then Payment(AddAutopay(c, i, Gain(At(c.prepaid, i), op.amount)), [])
    else StepEffect(sha, c, i, op, from, now, bal)
  }

  function EffectIn64(sha: Sha, s: State, tx: Tx): (r: State)
    requires Shaped(s) && GoodTx(tx) && Allowed(s, tx)
    ensures r.defs == s.defs && r.now == s.now && r.supply == s.supply && r.burned == s.burned && r.minFee == s.minFee
  {
    if tx.body.CircleStep? then
      var c := s.pools[tx.body.pool];
      var r := StepIn64(sha, c, Index(c.members, tx.from), tx.body.step, tx.from, s.now,
        Balance(s.accounts, tx.from, c.asset));
      s.(pools := s.pools[tx.body.pool := r.circle],
        accounts := CreditsApplied(s.accounts, c.asset, r.credits, |r.credits|))
    else Effect(sha, s, tx)
  }

  /** The debit and the nonce, with the balance as its field keeps it. */
  function DebitedIn64(s: State, tx: Tx, cost: int): Accounts {
    var paid := SetBalance(s.accounts, tx.from, tx.asset, (Balance(s.accounts, tx.from, tx.asset) - cost) % TWO64);
    paid[tx.from := paid[tx.from].(nonce := paid[tx.from].nonce + 1)]
  }

  /** Settle, with every sum and difference as its field keeps it. */
  function SettleIn64(s: State, tx: Tx, cost: int): State
    requires tx.asset != ORP ==> tx.asset in s.defs
  {
    var next := DebitedIn64(s, tx, cost);
    if tx.fee <= 0 then s.(accounts := next)
    else if tx.asset == ORP then
      s.(accounts := next, supply := (s.supply - tx.fee) % TWO64, burned := (s.burned + tx.fee) % TWO64)
    else
      var issuer := s.defs[tx.asset].issuer;
      s.(accounts := SetBalance(next, issuer, tx.asset, (Balance(next, issuer, tx.asset) + tx.fee) % TWO64))
  }

  /** Apply as the program runs it on a sound ledger. */
  function ApplyIn64(sha: Sha, s: State, tx: Tx): Outcome
    requires Shaped(s) && GoodTx(tx)
  {
    match CheckIn64(s, tx)
    case Some(e) => Fail(e)
    case None => Ok(SettleIn64(EffectIn64(sha, s, tx), tx, CostIn64(s, tx)))
  }
}
