/**
  The ledger as the program runs it: objects whose 64-bit fields are updated in place. Every method is tied to the
  exact value-level rules, so each assignment to an Amount is also a proof that Go's uint64 arithmetic did not wrap.
 */
module LedgerMachine {
  import opened Arithmetic
  import opened Core
  import opened Sequences
  import opened Circles
  import opened CircleBooks
  import opened LotteryDraw
  import opened Escrows
  import opened Ledger
  import opened LedgerSafety
  import opened MachineFacts

  class LedgerState {
    var accounts: Accounts
    var pools: map<Hash, Pool>
    var escrows: map<Hash, LockedEscrow>
    var guards: map<Address, RecoverySetup>
    var recoveredTo: map<Address, Address>
    var supply: Amount
    var burned: Amount
    var minFee: Amount
    var defs: map<Asset, AssetDef>
    var issued: map<Asset, Amount>
    var now: int

    /** A ledger without accounts. */
    constructor New(minFee0: Amount)
      ensures V() == EmptyState(minFee0) && Separate()
    {
      accounts, pools, escrows, guards, recoveredTo := map[], map[], map[], map[], map[];
      supply, burned, minFee, defs, issued, now := 0, 0, minFee0, map[], map[], 0;
    }

    /** The same ledger over its own objects. */
    constructor Over(s: LedgerState, pools0: map<Hash, Pool>, escrows0: map<Hash, LockedEscrow>,
        guards0: map<Address, RecoverySetup>)
      ensures SameFields(s) && pools == pools0 && escrows == escrows0 && guards == guards0
    {
      accounts, pools, escrows, guards, recoveredTo := s.accounts, pools0, escrows0, guards0, s.recoveredTo;
      supply, burned, minFee, defs, issued, now := s.supply, s.burned, s.minFee, s.defs, s.issued, s.now;
    }

    predicate SameFields(s: LedgerState)
      reads this, s
    {
      && accounts == s.accounts && recoveredTo == s.recoveredTo && supply == s.supply && burned == s.burned
      && minFee == s.minFee && defs == s.defs && issued == s.issued && now == s.now
    }

    lemma SameLedger(s: LedgerState)
      requires SameFields(s) && PoolViews() == s.PoolViews() && EscrowViews() == s.EscrowViews()
        && GuardViews() == s.GuardViews()
      ensures V() == s.V()
    {}

    ghost function PoolViews(): map<Hash, Circle>
      reads this`pools, pools.Values
    {
      map id | id in pools :: pools[id].V()
    }

    ghost function EscrowViews(): map<Hash, Escrow>
      reads this`escrows, escrows.Values
    {
      map id | id in escrows :: escrows[id].V()
    }

    ghost function GuardViews(): map<Address, Guardianship>
      reads this`guards, guards.Values
    {
      map a | a in guards :: guards[a].V()
    }

    /** The ledger this object holds. */
    ghost function V(): State
      reads this, pools.Values, escrows.Values, guards.Values
    {
      State(accounts, PoolViews(), EscrowViews(), GuardViews(), recoveredTo, supply, burned, minFee, defs, issued, now)
    }

    /** No two entries share an object. */
    ghost predicate Separate()
      reads this`pools, this`escrows, this`guards
    {
      && (forall a, b :: a in pools && b in pools && a != b ==> pools[a] != pools[b])
      && (forall a, b :: a in escrows && b in escrows && a != b ==> escrows[a] != escrows[b])
      && (forall a, b :: a in guards && b in guards && a != b ==> guards[a] != guards[b])
    }

    method PutBalance(a: Address, asset: Asset, v: Amount)
      modifies this`accounts
      ensures accounts == SetBalance(old(accounts), a, asset, v)
    {
      var acc := Get(accounts, a);
      if asset == ORP {
        acc := acc.(balance := v);
      } else if v == 0 {
        acc := acc.(assets := acc.assets - {asset});
      } else {
        acc := acc.(assets := acc.assets[asset := v]);
      }
      accounts := accounts[a := acc];
    }

    /** Credits never wrap while the room lasts. */
    method Credit(a: Address, asset: Asset, v: Amount, ghost room: int)
      requires Room(accounts, asset, room) && v <= room
      modifies this`accounts
      ensures accounts == CreditTo(old(accounts), a, asset, v) && Room(accounts, asset, room - v)
    {
      CreditRoom(accounts, a, asset, v, room);
      PutBalance(a, asset, Balance(accounts, a, asset) + v);
    }

    // -------------------------------------------------------------- the rules

    method CostOf(tx: Tx) returns (cost: Amount)
      requires LedgerInv(V()) && Shaped(V()) && GoodTx(tx)
      ensures cost == CostIn64(V(), tx)
    {
      hide LedgerInv, Shape, Shaped, GoodTx, GoodStep, CostIn64, Need, Sum, PoolViews, EscrowViews, GuardViews;
      CostFacts(V(), tx);
      if tx.body.CircleStep? {
        cost := StepCost(tx, tx.body.pool, tx.body.step);
        return;
      }
      CostIs(V(), tx);
      cost := tx.fee;
      match tx.body
      case Mint(_, _) => cost := 0;
      case Transfer(_, amount) => cost := (amount + tx.fee) % TWO64;
      case Burn(amount) => cost := (amount + tx.fee) % TWO64;
      case OpenCircle(_, terms) => cost := (terms.deposit + tx.fee) % TWO64;
      case OpenEscrow(agreed) =>
        var total := TotalOf(agreed.milestones);
        cost := (total + tx.fee) % TWO64;
      case _ =>
    }

    method StepCost(tx: Tx, id: Hash, step: Step) returns (cost: Amount)
      requires Shaped(V()) && tx.body == CircleStep(id, step) && GoodStep(step) && 0 <= tx.fee < TWO64
      requires id in V().pools ==>
        var c := V().pools[id]; var i := Index(c.members, tx.from);
        Shape(c) && (i >= 0 ==> 0 <= Need(c, i))
      ensures cost == CostIn64(V(), tx)
    {
      hide Shaped, Shape, Need, EscrowViews, GuardViews;
      if step.Autopay? || (step.Contribute? && step.amount > 0) {
        cost := (step.amount + tx.fee) % TWO64;
        return;
      }
      cost := tx.fee;
      if id in pools && (step.Contribute? || step.Join?) {
        var p := pools[id];
        assert p.V() == V().pools[id];
        if step.Join? {
          cost := (p.terms.deposit + tx.fee) % TWO64;
        } else {
          var i := Index(p.members, tx.from);
          cost := ((if i >= 0 then p.Owed(i) else p.terms.contribution) + tx.fee) % TWO64;
        }
      }
    }

    /** What the sender can pay with: its balance, and for a claim also the pot it is about to receive. */
    method AvailableTo(tx: Tx) returns (have: Amount)
      requires LedgerInv(V()) && Shaped(V())
      ensures have == Available(V(), tx)
    {
      AvailableFits(V(), tx);
      hide LedgerInv, Shape;
      have := Balance(accounts, tx.from, tx.asset);
      if tx.body.CircleStep? && tx.body.step.Claim? && tx.body.pool in pools {
        var p := pools[tx.body.pool];
        assert p.V() == V().pools[tx.body.pool];
        if p.asset == tx.asset {
          have := have + p.balance;
        }
      }
    }

    /** Every rule of a transaction, in order; nothing changes. */
    method Check(tx: Tx) returns (e: Option<Error>)
      requires LedgerInv(V()) && Shaped(V()) && GoodTx(tx)
      ensures e == CheckIn64(V(), tx)
    {
      hide Pool.V, LockedEscrow.V, RecoverySetup.V, PoolViews, EscrowViews, GuardViews;
      hide LedgerInv, Shape, GoodTx, CostIn64, Rule, Available;
      if tx.asset != ORP && tx.asset !in defs {
        return Some(AssetRule);
      }
      var feeFree := tx.body.Mint? || tx.body.EscrowAct? || (tx.body.Guard? && !tx.body.op.SetGuards?);
      if !feeFree && tx.fee < (if tx.asset == ORP then minFee else defs[tx.asset].minFee) {
        return Some(FeeTooLow);
      }
      var nonce := Get(accounts, tx.from).nonce;
      if tx.nonce < nonce {
        return Some(NonceTooLow);
      }
      if tx.nonce > nonce {
        return Some(NonceTooHigh);
      }
      var cost := CostOf(tx);
      var have := AvailableTo(tx);
      if have < cost {
        return Some(Insufficient);
      }
      e := CheckRule(tx);
    }

    method CheckRule(tx: Tx) returns (e: Option<Error>)
      requires LedgerInv(V()) && Shaped(V()) && GoodTx(tx) && (tx.asset != ORP ==> tx.asset in defs)
      ensures e == Rule(V(), tx)
    {
      hide LedgerInv, Shape, GoodTx, StepCheck, EscrowCheck, GuardCheck, Wraps, Pool.V, LockedEscrow.V,
        RecoverySetup.V, GuardViews, GoodStep;
      RuleFacts(V(), tx);
      match tx.body
      case Transfer(to, amount) =>
        e := if Overflows(Balance(accounts, to, tx.asset), amount) then Some(Error.Overflow) else None;
      case Mint(_, amount) =>
        if tx.asset == ORP || tx.from != defs[tx.asset].issuer { return Some(AssetRule); }
        e := if Overflows(if tx.asset in issued then issued[tx.asset] else 0, amount) then Some(Error.Overflow)
          else None;
      case Burn(_) => e := None;
      case OpenCircle(_, _) => e := if tx.id in pools then Some(PoolRule) else None;
      case CircleStep(id, step) =>
        if id !in pools { return Some(PoolRule); }
        var asset := pools[id].asset;
        e := CheckStep(tx, id, step, Balance(accounts, tx.from, asset));
      case OpenEscrow(agreed) => e := if tx.id in escrows || agreed.shipBy <= now then Some(EscrowRule) else None;
      case EscrowAct(id, act) =>
        if id !in escrows { return Some(EscrowRule); }
        e := CheckAct(tx, id, act);
      case Guard(op) => e := CheckGuard(tx.from, op);
    }

    method CheckStep(tx: Tx, id: Hash, step: Step, bal: int) returns (e: Option<Error>)
      requires id in pools && Shape(V().pools[id]) && GoodStep(step) && 0 <= bal < TWO64
      ensures var c := V().pools[id]; var i := Index(c.members, tx.from);
        c.asset == pools[id].asset && Shape(c) && e == if i < 0 || tx.asset != c.asset then Some(PoolRule)
          else StepCheck(c, i, step, tx.from, now, bal)
    {
      hide Shape, StepCheck, GoodStep, EscrowViews, GuardViews;
      var p := pools[id];
      assert p.V() == V().pools[id];
      var i := Index(p.members, tx.from);
      if i < 0 || tx.asset != p.asset { return Some(PoolRule); }
      e := p.Check(i, step, tx.from, now, bal);
    }

    method CheckAct(tx: Tx, id: Hash, act: EscrowStep) returns (e: Option<Error>)
      requires id in escrows && 0 <= V().escrows[id].arbiterBps <= 500
      ensures var x := V().escrows[id]; e == if tx.asset != x.asset then Some(EscrowRule)
        else EscrowCheck(x, tx.from, act, now)
    {
      hide EscrowCheck, PoolViews, GuardViews;
      var x := escrows[id];
      assert x.V() == V().escrows[id];
      if tx.asset != x.asset { return Some(EscrowRule); }
      e := x.Check(tx.from, act, now);
    }

    method CheckGuard(from: Address, op: GuardOp) returns (e: Option<Error>)
      ensures e == GuardCheck(V(), from, op)
    {
      if op.SetGuards? {
        if from in guards && guards[from].pending.Some? { return Some(GuardRule); }
        return if from in recoveredTo then Some(GuardRule) else None;
      }
      if op.account !in guards {
        return Some(GuardRule);
      }
      var g := guards[op.account];
      assert g.V() == V().guards[op.account];
      match op
      case StartRecovery(_, _) => e := if from !in g.guardians || g.pending.Some? then Some(GuardRule) else None;
      case Approve(_, newOwner) =>
        if from !in g.guardians || g.pending.None? { return Some(GuardRule); }
        e := if g.pending.value.newOwner != newOwner || from in g.pending.value.approvals then Some(GuardRule)
          else None;
      case CancelRecovery(account) => e := if from != account || g.pending.None? then Some(GuardRule) else None;
      case Finish(_) =>
        if g.pending.None? { return Some(GuardRule); }
        e := if |g.pending.value.approvals| < g.threshold || now < g.pending.value.readyAt then Some(GuardRule)
          else None;
    }

    // -------------------------------------------------------------- the effects

    method StepPool(sha: Sha, id: Hash, i: nat, step: Step, from: Address, ghost bal: int)
      requires Separate() && id in pools
      requires var c := pools[id].V();
        && CircleInv(c) && i < |c.members| && c.members[i] == from && GoodStep(step)
          && StepCheck(c, i, step, from, now, bal) == None
        && Room(accounts, c.asset, Holdings(c))
      modifies this`accounts, pools.Values
      ensures var r := StepIn64(sha, old(pools[id].V()), i, step, from, now, bal);
        V() == old(V()).(pools := old(V()).pools[id := r.circle],
          accounts := PaidOut(old(accounts), old(pools[id].V()).asset, r.credits))
    {
      hide EscrowViews, GuardViews, LockedEscrow.V, RecoverySetup.V, CircleInv, StepCheck, StepIn64, Holdings, Room,
        PaidOut, Shape;
      ghost var was := PoolViews();
      pools[id].Perform(sha, this, i, step, from, now, bal);
      assert PoolViews() == was[id := pools[id].V()];
    }

    method ActOnPool(sha: Sha, tx: Tx)
      requires LedgerInv(V()) && Shaped(V()) && GoodTx(tx) && CheckIn64(V(), tx) == None && tx.body.CircleStep?
        && Separate()
      modifies this`accounts, pools.Values
      ensures V() == EffectIn64(sha, old(V()), tx)
    {
      hide EscrowViews, GuardViews, LockedEscrow.V, RecoverySetup.V, LedgerInv, Shape, Shaped, GoodTx, CheckIn64,
        CircleInv, StepCheck, StepIn64, Holdings, Room, PaidOut, EffectIn64, GoodStep;
      ghost var s := V();
      CircleAction(sha, s, tx);
      var p := pools[tx.body.pool];
      assert p.V() == s.pools[tx.body.pool];
      StepPool(sha, tx.body.pool, Index(p.members, tx.from), tx.body.step, tx.from,
        Balance(s.accounts, tx.from, p.asset));
    }

    method StepEscrow(id: Hash, act: EscrowStep, who: Address)
      requires Separate() && id in escrows
      requires 0 <= escrows[id].released < |escrows[id].milestones|
      requires var e := escrows[id].V();
        EscrowInv(e) && GoodEscrowStep(act) && EscrowCheck(e, who, act, now) == None
          && Room(accounts, e.asset, e.balance)
      modifies this`accounts, escrows.Values
      ensures var r := EscrowEffect(old(escrows[id].V()), act, now);
        V() == old(V()).(escrows := old(V()).escrows[id := r.escrow],
          accounts := PaidOut(old(accounts), old(escrows[id].V()).asset, r.credits))
    {
      hide PoolViews, GuardViews, Pool.V, RecoverySetup.V, EscrowInv, EscrowCheck, EscrowEffect, Room, PaidOut;
      ghost var was := EscrowViews();
      escrows[id].Perform(this, act, now, who);
      assert EscrowViews() == was[id := escrows[id].V()];
    }

    method ActOnEscrow(sha: Sha, tx: Tx)
      requires LedgerInv(V()) && Shaped(V()) && GoodTx(tx) && CheckIn64(V(), tx) == None && tx.body.EscrowAct?
        && Separate()
      modifies this`accounts, escrows.Values
      ensures V() == Effect(sha, old(V()), tx)
    {
      hide PoolViews, GuardViews, Pool.V, RecoverySetup.V, LedgerInv, Shaped, GoodTx, CheckIn64, EscrowInv,
        EscrowCheck, EscrowEffect, Room, PaidOut, Effect, GoodEscrowStep;
      EscrowAction(sha, V(), tx);
      assert escrows[tx.body.escrow].V() == V().escrows[tx.body.escrow];
      StepEscrow(tx.body.escrow, tx.body.act, tx.from);
    }

    method AddUnits(to: Address, asset: Asset, v: Amount)
      requires 0 <= Balance(accounts, to, asset) && Balance(accounts, to, asset) + v < TWO64
      modifies this`accounts
      ensures V() == old(V()).(accounts := CreditTo(old(accounts), to, asset, v))
    {
      hide PoolViews, EscrowViews, GuardViews, Pool.V, LockedEscrow.V, RecoverySetup.V;
      hide SetBalance;
      PutBalance(to, asset, Balance(accounts, to, asset) + v);
    }

    method SetIssued(asset: Asset, v: Amount)
      modifies this`issued
      ensures V() == old(V()).(issued := old(issued)[asset := v])
    {
      hide PoolViews, EscrowViews, GuardViews, Pool.V, LockedEscrow.V, RecoverySetup.V;
      issued := issued[asset := v];
    }

    function Issuance(asset: Asset): (r: Amount)
      reads this`issued
      ensures r == if asset in issued then issued[asset] else 0
    {
      if asset in issued then issued[asset] else 0
    }

    /** Transfers, mints and burns. */
    method MoveUnits(sha: Sha, tx: Tx)
      requires LedgerInv(V()) && Shaped(V()) && GoodTx(tx) && CheckIn64(V(), tx) == None
        && (tx.body.Transfer? || tx.body.Mint? || tx.body.Burn?)
      modifies this`accounts, this`issued
      ensures V() == Effect(sha, old(V()), tx)
    {
      hide PoolViews, EscrowViews, GuardViews, Pool.V, LockedEscrow.V, RecoverySetup.V, LedgerInv, Shaped, GoodTx,
        CheckIn64, CreditTo, Balance, Effect;
      UnitsAction(sha, V(), tx);
      var units: Amount := tx.body.amount;
      match tx.body
      case Transfer(to, _) => AddUnits(to, tx.asset, units);
      case Mint(to, _) =>
        AddUnits(to, tx.asset, units);
        SetIssued(tx.asset, Issuance(tx.asset) + units);
      case Burn(_) => SetIssued(tx.asset, Issuance(tx.asset) - units);
    }

    method AddPool(id: Hash, p: Pool)
      requires Separate() && id !in pools && p !in pools.Values
      modifies this`pools
      ensures Separate() && pools == old(pools)[id := p]
      ensures V() == old(V()).(pools := old(V()).pools[id := p.V()])
    {
      hide EscrowViews, GuardViews, Pool.V, LockedEscrow.V, RecoverySetup.V;
      ghost var pv := PoolViews();
      pools := pools[id := p];
      assert PoolViews() == pv[id := p.V()];
    }

    method AddEscrow(id: Hash, e: LockedEscrow)
      requires Separate() && id !in escrows && e !in escrows.Values
      modifies this`escrows
      ensures Separate() && escrows == old(escrows)[id := e]
      ensures V() == old(V()).(escrows := old(V()).escrows[id := e.V()])
    {
      hide PoolViews, GuardViews, Pool.V, LockedEscrow.V, RecoverySetup.V;
      ghost var ev := EscrowViews();
      escrows := escrows[id := e];
      assert EscrowViews() == ev[id := e.V()];
    }

    method OpenPool(sha: Sha, tx: Tx)
      requires LedgerInv(V()) && Shaped(V()) && GoodTx(tx) && CheckIn64(V(), tx) == None && tx.body.OpenCircle?
        && Separate()
      modifies this`pools
      ensures V() == Effect(sha, old(V()), tx) && Separate() && fresh(pools.Values - old(pools.Values))
    {
      hide EscrowViews, GuardViews, Pool.V, LockedEscrow.V, RecoverySetup.V, LedgerInv, Shaped, GoodTx, CheckIn64,
        Effect, GoodTerms, NewCircle;
      OpenAction(sha, V(), tx);
      var p := new Pool.Open(tx.id, tx.asset, tx.from, tx.body.members, tx.body.terms);
      AddPool(tx.id, p);
    }

    method FundEscrow(sha: Sha, tx: Tx)
      requires LedgerInv(V()) && Shaped(V()) && GoodTx(tx) && CheckIn64(V(), tx) == None && tx.body.OpenEscrow?
        && Separate()
      modifies this`escrows
      ensures V() == Effect(sha, old(V()), tx) && Separate() && fresh(escrows.Values - old(escrows.Values))
    {
      hide PoolViews, GuardViews, Pool.V, LockedEscrow.V, RecoverySetup.V, LedgerInv, Shaped, GoodTx, CheckIn64,
        Effect, GoodEscrowTerms, NewEscrow;
      OpenAction(sha, V(), tx);
      var e := new LockedEscrow.Fund(tx.asset, tx.from, tx.body.agreed, now);
      AddEscrow(tx.id, e);
    }

    // -------------------------------------------------------------- recovery

    /** Everything in the old account is credited to the new one, asset by asset in any order. */
    method MoveBalances(old0: Address, new0: Address)
      requires old0 != new0 && CanMove(accounts, old0, new0)
      modifies this`accounts
      ensures accounts == MoveHoldings(old(accounts), old0, new0)
    {
      ghost var m := accounts;
      hide SetBalance, CanMove, PartMoved, PartMerged, Balance, MoveHoldings;
      var src := Get(accounts, old0);
      HoldingsFit(m, old0, new0);
      if src.balance > 0 {
        PutBalance(new0, ORP, Balance(accounts, new0, ORP) + src.balance);
      }
      MoveAssets(m, old0, new0, src);
      AllMoved(m, old0, new0);
      accounts := accounts[old0 := Account(0, src.nonce, map[])];
    }

    method MoveAssets(ghost m: Accounts, ghost old0: Address, new0: Address, src: Account)
      requires old0 != new0 && CanMove(m, old0, new0) && src == Get(m, old0) && accounts == PartMoved(m, old0, new0, {})
      modifies this`accounts
      ensures accounts == PartMoved(m, old0, new0, src.assets.Keys)
    {
      hide CanMove, PartMoved, Get;
      var todo := src.assets.Keys;
      assert src.assets.Keys - todo == {};
      while todo != {}
        invariant todo <= src.assets.Keys
        invariant accounts == PartMoved(m, old0, new0, src.assets.Keys - todo)
        decreases |todo|
      {
        var x :| x in todo;
        MoveAsset(m, old0, new0, src.assets.Keys - todo, x, src.assets[x]);
        assert src.assets.Keys - todo + {x} == src.assets.Keys - (todo - {x});
        todo := todo - {x};
      }
      assert src.assets.Keys - {} == src.assets.Keys;
    }

    method MoveAsset(ghost m: Accounts, ghost old0: Address, new0: Address, ghost done: set<Asset>, x: Asset, v: int)
      requires old0 != new0 && CanMove(m, old0, new0) && done <= Get(m, old0).assets.Keys
      requires x in Get(m, old0).assets && x !in done && v == Get(m, old0).assets[x]
      requires accounts == PartMoved(m, old0, new0, done)
      modifies this`accounts
      ensures accounts == PartMoved(m, old0, new0, done + {x})
    {
      hide SetBalance, CanMove, PartMoved, Balance;
      NextMoved(m, old0, new0, done, x);
      PutBalance(new0, x, Balance(accounts, new0, x) + v);
    }

    method RenameOnePool(id: Hash, old0: Address, new0: Address)
      requires Separate() && id in pools
      modifies pools[id]
      ensures V() == old(V()).(pools := old(V()).pools[id := RenameCircle(old(V()).pools[id], old0, new0)])
    {
      hide EscrowViews, GuardViews, Pool.V, LockedEscrow.V, RecoverySetup.V, RenameCircle;
      ghost var was := PoolViews();
      pools[id].Rename(old0, new0);
      assert PoolViews() == was[id := pools[id].V()];
    }

    method RenameNextPool(id: Hash, old0: Address, new0: Address, ghost v: State, ghost todo: set<Hash>)
      requires Separate() && id in todo && todo <= v.pools.Keys
        && V() == v.(pools := PoolsRenamed(v.pools, todo, old0, new0))
      modifies pools.Values
      ensures V() == v.(pools := PoolsRenamed(v.pools, todo - {id}, old0, new0))
    {
      hide EscrowViews, GuardViews, Pool.V, LockedEscrow.V, RecoverySetup.V;
      PoolsNext(v.pools, todo, id, old0, new0);
      hide RenameCircle, PoolsRenamed;
      RenameOnePool(id, old0, new0);
    }

    method RenamePools(old0: Address, new0: Address)
      requires Separate()
      modifies pools.Values
      ensures V() == old(V()).(pools := PoolsRenamed(old(V()).pools, {}, old0, new0))
    {
      hide RenameCircle, PoolsRenamed, Pool.V, EscrowViews, GuardViews;
      ghost var v := V();
      var todo := pools.Keys;
      assert v.pools.Keys == pools.Keys;
      PoolsUntouched(v.pools, old0, new0);
      while todo != {}
        invariant todo <= pools.Keys && Separate()
        invariant V() == v.(pools := PoolsRenamed(v.pools, todo, old0, new0))
        decreases |todo|
      {
        var id :| id in todo;
        RenameNextPool(id, old0, new0, v, todo);
        todo := todo - {id};
      }
    }

    method RenameOneEscrow(id: Hash, old0: Address, new0: Address)
      requires Separate() && id in escrows
      modifies escrows[id]
      ensures V() == old(V()).(escrows := old(V()).escrows[id := RenameEscrow(old(V()).escrows[id], old0, new0)])
    {
      hide PoolViews, GuardViews, Pool.V, LockedEscrow.V, RecoverySetup.V, RenameEscrow;
      ghost var was := EscrowViews();
      escrows[id].Rename(old0, new0);
      assert EscrowViews() == was[id := escrows[id].V()];
    }

    method RenameNextEscrow(id: Hash, old0: Address, new0: Address, ghost v: State, ghost todo: set<Hash>)
      requires Separate() && id in todo && todo <= v.escrows.Keys && V()
        == v.(escrows := EscrowsRenamed(v.escrows, todo, old0, new0))
      modifies escrows.Values
      ensures V() == v.(escrows := EscrowsRenamed(v.escrows, todo - {id}, old0, new0))
    {
      hide PoolViews, GuardViews, Pool.V, LockedEscrow.V, RecoverySetup.V;
      EscrowsNext(v.escrows, todo, id, old0, new0);
      hide RenameEscrow, EscrowsRenamed;
      RenameOneEscrow(id, old0, new0);
    }

    method RenameEscrows(old0: Address, new0: Address)
      requires Separate()
      modifies escrows.Values
      ensures V() == old(V()).(escrows := EscrowsRenamed(old(V()).escrows, {}, old0, new0))
    {
      hide PoolViews, GuardViews, Pool.V, LockedEscrow.V, RecoverySetup.V, RenameEscrow, EscrowsRenamed;
      ghost var v := V();
      var todo := escrows.Keys;
      assert v.escrows.Keys == escrows.Keys;
      EscrowsUntouched(v.escrows, old0, new0);
      while todo != {}
        invariant todo <= escrows.Keys && Separate()
        invariant V() == v.(escrows := EscrowsRenamed(v.escrows, todo, old0, new0))
        decreases |todo|
      {
        var id :| id in todo;
        RenameNextEscrow(id, old0, new0, v, todo);
        todo := todo - {id};
      }
    }

    method MoveSetup(old0: Address, new0: Address)
      requires Separate() && old0 in guards && old0 != new0
      modifies this`guards
      ensures V() == old(V()).(guards := old(V()).guards[new0 := old(V()).guards[old0].(pending := None)] - {old0})
      ensures Separate() && fresh(guards.Values - old(guards.Values))
    {
      hide PoolViews, EscrowViews, Pool.V, LockedEscrow.V;
      ghost var was := GuardViews();
      var g := guards[old0];
      var moved := new RecoverySetup(g.guardians, g.threshold, g.delaySecs, None);
      guards := guards[new0 := moved] - {old0};
      assert GuardViews() == was[new0 := moved.V()] - {old0};
    }

    method MoveMoney(old0: Address, new0: Address)
      requires old0 != new0 && CanMove(accounts, old0, new0)
      modifies this`accounts
      ensures V() == old(V()).(accounts := MoveHoldings(old(accounts), old0, new0))
    {
      hide PoolViews, EscrowViews, GuardViews, Pool.V, LockedEscrow.V, RecoverySetup.V;
      hide MoveHoldings, CanMove;
      MoveBalances(old0, new0);
    }

    method MoveRoles(old0: Address, new0: Address)
      requires Separate()
      modifies pools.Values, escrows.Values
      ensures V() == old(V()).(pools := PoolsRenamed(old(V()).pools, {}, old0, new0),
        escrows := EscrowsRenamed(old(V()).escrows, {}, old0, new0))
    {
      hide PoolViews, EscrowViews, GuardViews, Pool.V, LockedEscrow.V, RecoverySetup.V, PoolsRenamed, EscrowsRenamed;
      RenamePools(old0, new0);
      RenameEscrows(old0, new0);
    }

    method MoveKey(old0: Address, new0: Address)
      requires Separate() && old0 in guards && old0 != new0
      modifies this`guards, this`recoveredTo
      ensures V() == old(V()).(guards := old(V()).guards[new0 := old(V()).guards[old0].(pending := None)] - {old0},
                               recoveredTo := old(recoveredTo)[old0 := new0])
      ensures Separate() && fresh(guards.Values - old(guards.Values))
    {
      hide PoolViews, EscrowViews, Pool.V, LockedEscrow.V, RecoverySetup.V;
      MoveSetup(old0, new0);
      SetRecovered(old0, new0);
    }

    method SetRecovered(old0: Address, new0: Address)
      modifies this`recoveredTo
      ensures V() == old(V()).(recoveredTo := old(recoveredTo)[old0 := new0])
    {
      hide PoolViews, EscrowViews, GuardViews, Pool.V, LockedEscrow.V, RecoverySetup.V;
      recoveredTo := recoveredTo[old0 := new0];
    }

    /** Everything the old key holds moves to the new key: money, seats, escrow roles and the recovery setup. */
    method MoveAccount(old0: Address, new0: Address)
      requires Separate() && old0 in guards && old0 != new0 && CanMove(accounts, old0, new0)
      modifies this`accounts, this`guards, this`recoveredTo, pools.Values, escrows.Values
      ensures V() == Ledger.MoveAccount(old(V()), old0, new0) && Separate()
      ensures fresh(guards.Values - old(guards.Values))
    {
      hide PoolViews, EscrowViews, Pool.V, LockedEscrow.V, RecoverySetup.V;
      MoveAccountIs(V(), old0, new0);
      hide MoveHoldings, CanMove, Ledger.MoveAccount, PoolsRenamed, EscrowsRenamed;
      MoveMoney(old0, new0);
      MoveRoles(old0, new0);
      MoveKey(old0, new0);
    }

    method PutSetup(a: Address, g: RecoverySetup)
      requires Separate() && g !in guards.Values
      modifies this`guards
      ensures V() == old(V()).(guards := old(V()).guards[a := g.V()])
      ensures Separate() && guards == old(guards)[a := g]
    {
      hide PoolViews, EscrowViews, Pool.V, LockedEscrow.V, RecoverySetup.V;
      ghost var was := GuardViews();
      guards := guards[a := g];
      assert GuardViews() == was[a := g.V()];
    }

    /** A start, an approval or a cancellation, on the account's setup. */
    method StepSetup(op: GuardOp, from: Address)
      requires Separate() && !op.SetGuards? && !op.Finish? && op.account in guards
      requires op.Approve? ==> guards[op.account].pending.Some?
      modifies guards.Values
      ensures V() == old(V()).(guards :=
        old(V()).guards[op.account := SetupAfter(old(guards[op.account].V()), op, from, now)])
    {
      hide PoolViews, EscrowViews, Pool.V, LockedEscrow.V, SetupAfter;
      ghost var was := GuardViews();
      guards[op.account].Act(op, from, now);
      assert GuardViews() == was[op.account := guards[op.account].V()];
    }

    method NewSetup(a: Address, gs: seq<Address>, threshold: int, delay: int)
      requires Separate()
      modifies this`guards
      ensures V() == old(V()).(guards := old(V()).guards[a := Guardianship(gs, threshold, delay, None)])
      ensures Separate() && fresh(guards.Values - old(guards.Values))
    {
      hide PoolViews, EscrowViews, GuardViews, Pool.V, LockedEscrow.V, RecoverySetup.V;
      var g := new RecoverySetup(gs, threshold, delay, None);
      PutSetup(a, g);
    }

    lemma SetupView(a: Address)
      requires a in V().guards
      ensures a in guards && V().guards[a] == guards[a].V()
    {}

    method ActOnSetup(from: Address, op: GuardOp)
      requires Separate() && GuardCheck(V(), from, op) == None
      requires op.Finish? ==>
        op.account != V().guards[op.account].pending.value.newOwner
          && CanMove(accounts, op.account, V().guards[op.account].pending.value.newOwner)
      modifies this`accounts, this`guards, this`recoveredTo, pools.Values, escrows.Values, guards.Values
      ensures V() == GuardEffect(old(V()), from, op) && Separate() && fresh(guards.Values - old(guards.Values))
    {
      hide CanMove, GuardCheck, GuardEffect, PoolViews, EscrowViews, GuardViews, Pool.V, LockedEscrow.V,
        RecoverySetup.V;
      if op.Finish? {
        FinishMove(from, op.account);
      } else {
        ChangeSetup(from, op);
      }
    }

    method FinishMove(from: Address, account: Address)
      requires Separate() && GuardCheck(V(), from, Finish(account)) == None
      requires account != V().guards[account].pending.value.newOwner
        && CanMove(accounts, account, V().guards[account].pending.value.newOwner)
      modifies this`accounts, this`guards, this`recoveredTo, pools.Values, escrows.Values
      ensures V() == GuardEffect(old(V()), from, Finish(account)) && Separate()
      ensures fresh(guards.Values - old(guards.Values))
    {
      SetupAction(V(), from, Finish(account));
      SetupView(account);
      hide CanMove, Ledger.MoveAccount, GuardCheck, GuardEffect, PoolViews, EscrowViews, GuardViews, Pool.V,
        LockedEscrow.V;
      MoveAccount(account, guards[account].pending.value.newOwner);
    }

    method ChangeSetup(from: Address, op: GuardOp)
      requires Separate() && GuardCheck(V(), from, op) == None && !op.Finish?
      modifies this`guards, guards.Values
      ensures V() == GuardEffect(old(V()), from, op) && Separate() && fresh(guards.Values - old(guards.Values))
    {
      SetupAction(V(), from, op);
      if !op.SetGuards? {
        SetupView(op.account);
      }
      hide GuardCheck, SetupAfter, GuardEffect, PoolViews, EscrowViews, GuardViews, Pool.V, LockedEscrow.V;
      if op.SetGuards? {
        NewSetup(from, op.guardians, op.threshold, op.delaySecs);
      } else {
        StepSetup(op, from);
      }
    }

    // -------------------------------------------------------------- the transaction frame

    /** The debit, the nonce and the fee, each in 64 bits. */
    method Settle(tx: Tx, cost: Amount)
      requires (tx.asset != ORP ==> tx.asset in defs) && 0 <= tx.fee < TWO64
      modifies this`accounts, this`supply, this`burned
      ensures V() == SettleIn64(old(V()), tx, cost)
    {
      hide PoolViews, EscrowViews, GuardViews, Pool.V, LockedEscrow.V, RecoverySetup.V, SetBalance, Balance,
        DebitedIn64;
      Debit(tx, cost);
      if tx.fee > 0 {
        if tx.asset == ORP {
          BurnFee(tx.fee);
        } else {
          PayFee(defs[tx.asset].issuer, tx.asset, tx.fee);
        }
      }
    }

    method Debit(tx: Tx, cost: Amount)
      modifies this`accounts
      ensures V() == old(V()).(accounts := DebitedIn64(old(V()), tx, cost))
    {
      hide PoolViews, EscrowViews, GuardViews, SetBalance, Balance, DebitedIn64, Pool.V, LockedEscrow.V,
        RecoverySetup.V;
      DebitedIs(V(), tx, cost);
      PutBalance(tx.from, tx.asset, (Balance(accounts, tx.from, tx.asset) - cost) % TWO64);
      accounts := accounts[tx.from := accounts[tx.from].(nonce := accounts[tx.from].nonce + 1)];
    }

    method BurnFee(fee: int)
      modifies this`supply, this`burned
      ensures V() == old(V()).(supply := (old(supply) - fee) % TWO64, burned := (old(burned) + fee) % TWO64)
    {
      hide PoolViews, EscrowViews, GuardViews, Pool.V, LockedEscrow.V, RecoverySetup.V;
      supply, burned := (supply - fee) % TWO64, (burned + fee) % TWO64;
    }

    method PayFee(issuer: Address, asset: Asset, fee: int)
      modifies this`accounts
      ensures V() == old(V()).(accounts :=
        SetBalance(old(accounts), issuer, asset, (Balance(old(accounts), issuer, asset) + fee) % TWO64))
    {
      hide PoolViews, EscrowViews, GuardViews, Pool.V, LockedEscrow.V, RecoverySetup.V, SetBalance;
      PutBalance(issuer, asset, (Balance(accounts, issuer, asset) + fee) % TWO64);
    }

    method RunGuard(sha: Sha, tx: Tx)
      requires LedgerInv(V()) && Shaped(V()) && GoodTx(tx) && CheckIn64(V(), tx) == None && tx.body.Guard?
        && Separate()
      modifies this`accounts, this`guards, this`recoveredTo, pools.Values, escrows.Values, guards.Values
      ensures V() == Effect(sha, old(V()), tx) && Separate() && fresh(guards.Values - old(guards.Values))
    {
      hide PoolViews, EscrowViews, GuardViews, Pool.V, LockedEscrow.V, RecoverySetup.V, LedgerInv, Shaped, GoodTx,
        CheckIn64, Effect, GuardEffect, GuardCheck, CanMove;
      GuardAction(sha, V(), tx);
      ActOnSetup(tx.from, tx.body.op);
    }

    /** A new circle or a new escrow. */
    method OpenNew(sha: Sha, tx: Tx)
      requires LedgerInv(V()) && Shaped(V()) && GoodTx(tx) && CheckIn64(V(), tx) == None && Separate()
        && (tx.body.OpenCircle? || tx.body.OpenEscrow?)
      modifies this`pools, this`escrows
      ensures V() == Effect(sha, old(V()), tx) && Separate()
      ensures fresh(pools.Values - old(pools.Values)) && fresh(escrows.Values - old(escrows.Values))
    {
      hide PoolViews, EscrowViews, GuardViews, Pool.V, LockedEscrow.V, RecoverySetup.V, LedgerInv, Shaped, GoodTx,
        CheckIn64, Effect;
      if tx.body.OpenCircle? {
        OpenPool(sha, tx);
      } else {
        FundEscrow(sha, tx);
      }
    }

    /** A step of a circle or of an escrow that is already there. */
    method ActOn(sha: Sha, tx: Tx)
      requires LedgerInv(V()) && Shaped(V()) && GoodTx(tx) && CheckIn64(V(), tx) == None && Separate()
        && (tx.body.CircleStep? || tx.body.EscrowAct?)
      modifies this`accounts, pools.Values, escrows.Values
      ensures V() == EffectIn64(sha, old(V()), tx) && Separate()
    {
      hide PoolViews, EscrowViews, GuardViews, Pool.V, LockedEscrow.V, RecoverySetup.V, LedgerInv, Shaped, GoodTx,
        CheckIn64, Effect, EffectIn64, Allowed;
      PlainEffect(sha, V(), tx);
      if tx.body.CircleStep? {
        ActOnPool(sha, tx);
      } else {
        ActOnEscrow(sha, tx);
      }
    }

    /** The operation's own state change. */
    method RunEffect(sha: Sha, tx: Tx)
      requires LedgerInv(V()) && Shaped(V()) && GoodTx(tx) && CheckIn64(V(), tx) == None && Separate()
      modifies this, pools.Values, escrows.Values, guards.Values
      ensures V() == EffectIn64(sha, old(V()), tx) && Separate()
      ensures fresh(pools.Values - old(pools.Values)) && fresh(escrows.Values - old(escrows.Values))
        && fresh(guards.Values - old(guards.Values))
    {
      hide PoolViews, EscrowViews, GuardViews, Pool.V, LockedEscrow.V, RecoverySetup.V, LedgerInv, Shaped, GoodTx,
        CheckIn64, Effect, EffectIn64, Allowed;
      PlainEffect(sha, V(), tx);
      if tx.body.CircleStep? || tx.body.EscrowAct? {
        ActOn(sha, tx);
      } else if tx.body.OpenCircle? || tx.body.OpenEscrow? {
        OpenNew(sha, tx);
      } else if tx.body.Guard? {
        RunGuard(sha, tx);
      } else {
        MoveUnits(sha, tx);
      }
    }

    /**
      A transaction as the program runs it, on a sound ledger. One that the program refuses changes nothing; one that it
      accepts makes exactly the state of ApplyIn64, whatever wraps around. If the exact rules accept it and it is
      Covered, nothing wraps: the state is the one the rules say, sound again and with the same total of supply and
      burned.
     */
    method Apply(sha: Sha, tx: Tx) returns (e: Option<Error>)
      requires LedgerInv(V()) && Shaped(V()) && GoodTx(tx) && Separate()
      modifies this, pools.Values, escrows.Values, guards.Values
      ensures e == CheckIn64(old(V()), tx)
      ensures e.Some? ==> V() == old(V())
      ensures e.None? ==> ApplyIn64(sha, old(V()), tx) == Ok(V())
      ensures AgreesWhenPayable(sha, old(V()), tx, V())
      ensures Separate()
      ensures fresh(pools.Values - old(pools.Values)) && fresh(escrows.Values - old(escrows.Values))
        && fresh(guards.Values - old(guards.Values))
    {
      hide PoolViews, EscrowViews, GuardViews, Pool.V, LockedEscrow.V, RecoverySetup.V, LedgerInv, Shaped, GoodTx,
        CheckIn64, Payable, Ledger.Apply, ApplyIn64, Separate;
      ghost var s := V();
      e := Check(tx);
      if e.None? {
        Execute(sha, tx);
      }
      PayableApply(sha, s, tx, V());
    }

    /** A transaction that passed its checks: its effect, then the payment. */
    method Execute(sha: Sha, tx: Tx)
      requires LedgerInv(V()) && Shaped(V()) && GoodTx(tx) && Separate() && CheckIn64(V(), tx) == None
      modifies this, pools.Values, escrows.Values, guards.Values
      ensures ApplyIn64(sha, old(V()), tx) == Ok(V()) && Separate()
      ensures fresh(pools.Values - old(pools.Values)) && fresh(escrows.Values - old(escrows.Values))
        && fresh(guards.Values - old(guards.Values))
    {
      hide PoolViews, EscrowViews, GuardViews, Pool.V, LockedEscrow.V, RecoverySetup.V, LedgerInv, Shaped, GoodTx,
        CheckIn64, EffectIn64, CostIn64, SettleIn64, ApplyIn64, Separate;
      AppliedIs(sha, V(), tx);
      var cost := CostOf(tx);
      RunEffect(sha, tx);
      Settle(tx, cost);
    }

    // -------------------------------------------------------------- copies and the first accounts

    method CopyPools() returns (m: map<Hash, Pool>)
      ensures fresh(m.Values) && (map k | k in m :: m[k].V()) == PoolViews()
      ensures forall a, b :: a in m && b in m && a != b ==> m[a] != m[b]
    {
      hide Pool.V, EscrowViews, GuardViews;
      m := map[];
      var todo := pools.Keys;
      while todo != {}
        invariant todo <= pools.Keys && m.Keys == pools.Keys - todo
        invariant forall k :: k in m ==> fresh(m[k]) && m[k].V() == pools[k].V()
        invariant forall a, b :: a in m && b in m && a != b ==> m[a] != m[b]
        decreases |todo|
      {
        var k :| k in todo;
        var c := new Pool.Copy(pools[k]);
        m := m[k := c];
        todo := todo - {k};
      }
    }

    method CopyEscrows() returns (m: map<Hash, LockedEscrow>)
      ensures fresh(m.Values) && (map k | k in m :: m[k].V()) == EscrowViews()
      ensures forall a, b :: a in m && b in m && a != b ==> m[a] != m[b]
    {
      hide LockedEscrow.V, PoolViews, GuardViews;
      m := map[];
      var todo := escrows.Keys;
      while todo != {}
        invariant todo <= escrows.Keys && m.Keys == escrows.Keys - todo
        invariant forall k :: k in m ==> fresh(m[k]) && m[k].V() == escrows[k].V()
        invariant forall a, b :: a in m && b in m && a != b ==> m[a] != m[b]
        decreases |todo|
      {
        var k :| k in todo;
        var c := new LockedEscrow.Copy(escrows[k]);
        m := m[k := c];
        todo := todo - {k};
      }
    }

    method CopySetups() returns (m: map<Address, RecoverySetup>)
      ensures fresh(m.Values) && (map k | k in m :: m[k].V()) == GuardViews()
      ensures forall a, b :: a in m && b in m && a != b ==> m[a] != m[b]
    {
      m := map[];
      var todo := guards.Keys;
      while todo != {}
        invariant todo <= guards.Keys && m.Keys == guards.Keys - todo
        invariant forall k :: k in m ==> fresh(m[k]) && m[k].V() == guards[k].V()
        invariant forall a, b :: a in m && b in m && a != b ==> m[a] != m[b]
        decreases |todo|
      {
        var k :| k in todo;
        var c := new RecoverySetup(guards[k].guardians, guards[k].threshold, guards[k].delaySecs, guards[k].pending);
        m := m[k := c];
        todo := todo - {k};
      }
    }

    /**
      An independent copy: the same ledger, sharing no object with this one, so that executing a block on it leaves
      this one alone.
     */
    method Clone() returns (c: LedgerState)
      ensures fresh(c) && fresh(c.pools.Values) && fresh(c.escrows.Values) && fresh(c.guards.Values)
      ensures c.V() == V() && c.Separate()
    {
      hide Pool.V, LockedEscrow.V, RecoverySetup.V, PoolViews, EscrowViews, GuardViews;
      var p := CopyPools();
      var e := CopyEscrows();
      var g := CopySetups();
      c := Assemble(p, e, g);
    }

    method SetDefs(table: map<Asset, AssetDef>)
      modifies this`defs
      ensures V() == old(V()).(defs := table)
    {
      hide PoolViews, EscrowViews, GuardViews, Pool.V, LockedEscrow.V, RecoverySetup.V;
      defs := table;
    }

    method Assemble(p: map<Hash, Pool>, e: map<Hash, LockedEscrow>, g: map<Address, RecoverySetup>)
        returns (c: LedgerState)
      requires (map k | k in p :: p[k].V()) == PoolViews() && (map k | k in e :: e[k].V()) == EscrowViews()
      requires (map k | k in g :: g[k].V()) == GuardViews()
      ensures fresh(c) && c.pools == p && c.escrows == e && c.guards == g && c.V() == V()
    {
      hide Pool.V, LockedEscrow.V, RecoverySetup.V;
      c := new LedgerState.Over(this, p, e, g);
      c.SameLedger(this);
    }

    /** A genesis allocation, refused when the balance or the supply would wrap around. */
    method Endow(a: Address, amt: Amount) returns (ok: bool)
      requires 0 <= Get(accounts, a).balance < TWO64
      modifies this`accounts, this`supply
      ensures ok == CanEndow(old(V()), a, amt)
      ensures V() == if ok then Endowed(old(V()), a, amt) else old(V())
    {
      hide PoolViews, EscrowViews, GuardViews, Pool.V, LockedEscrow.V, RecoverySetup.V;
      var acc := Get(accounts, a);
      if Overflows(acc.balance, amt) || Overflows(supply, amt) {
        return false;
      }
      Grant(a, acc.(balance := acc.balance + amt), supply + amt);
      ok := true;
    }

    method Grant(a: Address, acc: Account, total: Amount)
      modifies this`accounts, this`supply
      ensures V() == old(V()).(accounts := old(accounts)[a := acc], supply := total)
    {
      hide PoolViews, EscrowViews, GuardViews, Pool.V, LockedEscrow.V, RecoverySetup.V;
      accounts := accounts[a := acc];
      supply := total;
    }
  }

  class Pool {
    const id: Hash
    const asset: Asset
    const terms: Terms
    var creator: Address
    var members: seq<Address>
    var joined: seq<bool>
    var status: Status
    var round: int
    var paid: seq<bool>
    var claimed: seq<bool>
    var balance: Amount
    var startedAt: int
    var deposits: seq<Amount>
    var defaults: seq<int>
    var paidOut: seq<Amount>
    var prepaid: seq<Amount>
    var insurance: Amount
    var paidAmt: seq<Amount>
    var bids: seq<Amount>
    var saved: seq<Amount>
    var withdrawn: seq<bool>
    var swapWith: seq<Address>

    /** The circle this object holds. */
    function V(): Circle
      reads this
    {
      Circle(id, asset, creator, terms, members, joined, status, round, paid, claimed, balance, startedAt, deposits,
             defaults, paidOut, prepaid, insurance, paidAmt, bids, saved, withdrawn, swapWith)
    }

    constructor Open(id0: Hash, asset0: Asset, from: Address, members0: seq<Address>, t: Terms)
      requires GoodTerms(members0, t, from)
      ensures V() == NewCircle(id0, asset0, from, members0, t)
    {
      DepositFits(members0, t, from);
      var n := |members0|;
      var i := Index(members0, from);
      var kept := t.roundSecs > 0 && t.mode != Goal;
      id, asset, terms, creator, members := id0, asset0, t, from, members0;
      joined, paid, claimed := Falses(n)[i := true], Falses(n), Falses(n);
      status, round, balance, startedAt, insurance := Forming, 0, 0, 0, 0;
      deposits := if kept then Zeros(n)[i := t.deposit] else [];
      defaults, paidOut := if kept then Zeros(n) else [], if kept then Zeros(n) else [];
      prepaid, paidAmt, swapWith := [], [], [];
      bids := if t.mode == Bidding then Zeros(n) else [];
      saved, withdrawn := if t.mode == Goal then Zeros(n) else [], if t.mode == Goal then Falses(n) else [];
    }

    /** An independent copy. */
    constructor Copy(p: Pool)
      ensures V() == p.V()
    {
      id, asset, terms, creator, members := p.id, p.asset, p.terms, p.creator, p.members;
      joined, paid, claimed := p.joined, p.paid, p.claimed;
      status, round, balance, startedAt, insurance := p.status, p.round, p.balance, p.startedAt, p.insurance;
      deposits, defaults, paidOut := p.deposits, p.defaults, p.paidOut;
      prepaid, paidAmt, swapWith := p.prepaid, p.paidAmt, p.swapWith;
      bids, saved, withdrawn := p.bids, p.saved, p.withdrawn;
    }

    /** A recovery gives the old key's seat to the new key, unless the new key already has one. */
    method Rename(old0: Address, new0: Address)
      modifies this`members, this`creator
      ensures V() == RenameCircle(old(V()), old0, new0)
    {
      if new0 in members {
        return;
      }
      ghost var was := members;
      var i := 0;
      while i < |members|
        invariant 0 <= i <= |members| == |was|
        invariant V() == old(V()).(members := members)
        invariant forall j :: 0 <= j < |was| ==> members[j] == if j < i then Renamed(was[j], old0, new0) else was[j]
      {
        if members[i] == old0 {
          members := members[i := new0];
        }
        i := i + 1;
      }
      assert members == ReplaceMember(was, old0, new0);
      if creator == old0 {
        creator := new0;
      }
    }

    // -------------------------------------------------------------- instalments and autopay

    function Owed(j: nat): (r: int)
      requires Shape(V()) && j < |members|
      reads this
      ensures r == Need(V(), j)
    {
      terms.contribution - if paidAmt != [] then paidAmt[j] else if paid[j] then terms.contribution else 0
    }

    /** The first instalment of a round: what everyone has paid so far, written out. */
    method SpreadPaid()
      requires Shape(V()) && paidAmt == []
      modifies this`paidAmt
      ensures paidAmt == PaidList(old(V()))
    {
      ContributionFits(V());
      var table: seq<Amount> := Zeros(|members|);
      var k := 0;
      while k < |paid|
        invariant 0 <= k <= |paid| == |table|
        invariant forall q :: 0 <= q < |table| ==> table[q] == if q < k && paid[q] then terms.contribution else 0
      {
        if paid[k] {
          table := table[k := terms.contribution];
        }
        k := k + 1;
      }
      paidAmt := table;
      assert paidAmt == PaidList(old(V()));
    }

    method PayIn(j: nat, amt: Amount)
      requires Shape(V()) && terms.mode != Goal && j < |members|
      requires amt <= Need(V(), j) && balance + amt < TWO64
      modifies this
      ensures V() == Circles.PayIn(old(V()), j, amt)
    {
      hide PaidList, Shape, Circles.PayIn, Need;
      PayInLines(V(), j, amt);
      if paidAmt == [] && amt < terms.contribution {
        SpreadPaid();
      }
      if paidAmt != [] {
        PayLine(j, amt);
      } else {
        paid := paid[j := true];
      }
      balance := balance + amt;
    }

    /** An instalment on member j's line. */
    method PayLine(j: nat, amt: Amount)
      requires j < |paidAmt| && j < |paid| && paidAmt[j] + amt < TWO64
      modifies this`paidAmt, this`paid
      ensures paidAmt == old(paidAmt)[j := old(paidAmt)[j] + amt] && paid
        == old(paid)[j := paidAmt[j] == terms.contribution]
    {
      var line: Amount := paidAmt[j] + amt;
      paidAmt, paid := paidAmt[j := line], paid[j := line == terms.contribution];
    }

    method AutopayFor(j: nat)
      requires Shape(V()) && terms.mode != Goal && prepaid != [] && j < |members|
      requires 0 <= Need(V(), j) && AutopayStep(V(), j).balance < TWO64
      modifies this
      ensures V() == AutopayStep(old(V()), j)
    {
      var need := Owed(j);
      if !paid[j] && prepaid[j] >= need {
        prepaid := prepaid[j := prepaid[j] - need];
        PayIn(j, need);
      }
    }

    method Autopay()
      requires Shape(V()) && (prepaid != [] ==> terms.mode != Goal && RoundBooks(V()))
      modifies this
      ensures V() == RunAutopay(old(V()))
    {
      hide RoundBooks, AutopayStep;
      if prepaid == [] || status != Active {
        return;
      }
      ghost var c := V();
      var j := 0;
      while j < |members|
        invariant 0 <= j <= |members| == |c.members|
        invariant V() == AutopayTo(c, j)
      {
        AutopayFits(c, j);
        AutopayFor(j);
        j := j + 1;
      }
    }

    // -------------------------------------------------------------- payout

    method Recipient() returns (r: int)
      requires Shape(V())
      ensures r == Circles.Recipient(V())
    {
      if terms.mode != Bidding {
        return round;
      }
      var best, first, j := -1, -1, 0;
      while j < |members|
        invariant 0 <= j <= |members| && -1 <= best < |members|
        invariant Scan(V(), j, best, first) == Scan(V(), 0, -1, -1)
      {
        if !claimed[j] {
          if first < 0 {
            first := j;
          }
          if bids[j] > 0 && (best < 0 || bids[j] > bids[best]) {
            best := j;
          }
        }
        j := j + 1;
      }
      r := if best >= 0 then best else first;
    }

    method CoverFor(j: nat)
      requires Shape(V()) && terms.mode != Goal && j < |members|
      requires 0 <= Need(V(), j) && CoverStep(V(), j).balance < TWO64
      modifies this
      ensures V() == CoverStep(old(V()), j)
    {
      CoverParts(V(), j);
      hide Need, Shape, CoverStep, Noted, Drawn;
      if paid[j] {
        return;
      }
      var missing := Owed(j);
      NoteDefault(j);
      DrawMissing(j, missing);
    }

    method NoteDefault(j: nat)
      requires defaults == [] || j < |defaults|
      modifies this
      ensures V() == Noted(old(V()), j)
    {
      if defaults != [] {
        defaults := defaults[j := defaults[j] + 1];
      }
    }

    method DrawMissing(j: nat, missing: int)
      requires (deposits == [] || j < |deposits|) && 0 <= missing && Drawn(V(), j, missing).balance < TWO64
      modifies this
      ensures V() == Drawn(old(V()), j, missing)
    {
      if deposits != [] && deposits[j] >= missing {
        deposits, balance := deposits[j := deposits[j] - missing], balance + missing;
      } else if insurance >= missing {
        insurance, balance := insurance - missing, balance + missing;
      }
    }

    /** The missed payments of the first j members of c are dealt with. */
    ghost predicate CoveredTo(c: Circle, j: nat)
      reads this
    {
      Shape(c) && c.terms.mode != Goal && j <= |members| == |c.members| && terms == c.terms && V() == CoverTo(c, j)
    }

    /** Missed payments of the round: recorded, and covered from deposit or insurance. */
    method CoverMissed()
      requires CircleInv(V()) && terms.mode != Goal && Holdings(V()) < TWO64
      modifies this
      ensures V() == CoverTo(old(V()), |old(members)|)
    {
      hide CircleInv, Holdings, CoveredTo, CoverTo, Shape;
      ghost var c := V();
      CoverNone();
      var j, n := 0, |members|;
      while j < n
        invariant 0 <= j <= n == |members| && CoveredTo(c, j)
      {
        CoverNext(j, c);
        j := j + 1;
      }
      CoverDone(c);
    }

    lemma CoverDone(c: Circle)
      requires CoveredTo(c, |members|)
      ensures |members| == |c.members| && Shape(c) && c.terms.mode != Goal && V() == CoverTo(c, |c.members|)
    {}

    lemma CoverNone()
      requires CircleInv(V()) && terms.mode != Goal
      ensures CoveredTo(V(), 0)
    {
      hide CircleInv, CoverTo, Shape;
      CoverStart(V());
    }

    /** Member j's missed payment, after those of the members before. */
    method CoverNext(j: nat, ghost c: Circle)
      requires CircleInv(c) && Holdings(c) < TWO64 && CoveredTo(c, j) && j < |members|
      modifies this
      ensures CoveredTo(c, j + 1) && |members| == |old(members)|
    {
      hide CircleInv, CoverStep, CoverTo, Shape, Need, Holdings;
      CoverFits(c, j);
      CoverSize(c, j + 1);
      CoverFor(j);
    }

    /** The round's pot leaves the balance, less the cut kept as insurance, worked out in two 64-bit steps. */
    method TakePot() returns (pot: Amount)
      requires 0 <= terms.insuranceBps <= 1000 && balance + insurance < TWO64
      modifies this`balance, this`insurance
      ensures balance == 0 && insurance == old(insurance) + BasisPoints(old(balance), terms.insuranceBps)
      ensures pot == old(balance) - BasisPoints(old(balance), terms.insuranceBps)
    {
      NoCut(balance);
      hide BasisPoints;
      BasisPointsBounds(balance, terms.insuranceBps);
      pot := balance;
      balance := 0;
      if terms.insuranceBps > 0 {
        var cut := CutOf(pot, terms.insuranceBps);
        insurance := insurance + cut;
        pot := pot - cut;
      }
    }

    /** Of the pot, left and the share of the first j members but i add up, and those shares are paid. */
    ghost predicate SharedTo(s: LedgerState, m: Accounts, i: nat, share: int, pot: int, rest: int, j: nat, left: int)
      reads this, s
    {
      && i < |members| && j <= |members| && 0 <= share && share * (|members| - 1) <= pot && 0 <= rest
      && left == pot - SumCredits(SharesTo(members, i, share, j))
      && s.accounts == PaidOut(m, asset, SharesTo(members, i, share, j)) && Room(s.accounts, asset, left + rest)
    }

    /** The winner's discount, shared equally by everyone else; what is left of the pot is the winner's. */
    method ShareDiscount(s: LedgerState, i: nat, pot: Amount, ghost rest: int) returns (left: Amount)
      requires Shape(V()) && terms.mode == Bidding && i < |members| && bids[i] > 0
      requires 0 <= rest && Room(s.accounts, asset, pot + rest)
      modifies s`accounts
      ensures left == pot - DiscountShare(V(), i, pot) * (|members| - 1)
      ensures s.accounts == PaidOut(old(s.accounts), asset, SharesTo(members, i, DiscountShare(V(), i, pot), |members|))
      ensures Room(s.accounts, asset, left + rest)
    {
      SharesStart(s, i, pot, rest);
      assert |members| == |bids| > 1;
      hide Room, PaidOut, DiscountShare, SharesTo, Shape, SharedTo, V;
      var share: Amount := Min(bids[i], pot) / (|members| - 1);
      left := pot;
      var j := 0;
      while j < |members|
        invariant 0 <= j <= |members| && SharedTo(s, old(s.accounts), i, share, pot, rest, j, left)
      {
        if j != i {
          left := PayShare(s, i, share, pot, rest, j, left, old(s.accounts));
        } else {
          NoShare(s, old(s.accounts), i, share, pot, rest, left);
        }
        j := j + 1;
      }
      SharesDone(s, old(s.accounts), i, pot, rest, left);
    }

    lemma SharesStart(s: LedgerState, i: nat, pot: Amount, rest: int)
      requires Shape(V()) && terms.mode == Bidding && i < |members| && bids[i] > 0
      requires 0 <= rest && Room(s.accounts, asset, pot + rest)
      ensures var share := Min(bids[i], pot) / (|members| - 1);
        0 <= share <= pot && share == DiscountShare(V(), i, pot)
          && SharedTo(s, s.accounts, i, share, pot, rest, 0, pot)
    {
      ShareStart(V(), i, pot);
      PaidOutNothing(s.accounts, asset);
    }

    lemma SharesDone(s: LedgerState, m: Accounts, i: nat, pot: Amount, rest: int, left: int)
      requires Shape(V()) && terms.mode == Bidding && i < |members| && bids[i] > 0
      requires SharedTo(s, m, i, DiscountShare(V(), i, pot), pot, rest, |members|, left)
      ensures left == pot - DiscountShare(V(), i, pot) * (|members| - 1)
      ensures s.accounts == PaidOut(m, asset, SharesTo(members, i, DiscountShare(V(), i, pot), |members|))
      ensures Room(s.accounts, asset, left + rest)
    {
      ShareStart(V(), i, pot);
      hide DiscountShare, Room, PaidOut, SharesTo;
    }

    lemma NoShare(s: LedgerState, m: Accounts, i: nat, share: int, pot: int, rest: int, left: int)
      requires i < |members| && SharedTo(s, m, i, share, pot, rest, i, left)
      ensures SharedTo(s, m, i, share, pot, rest, i + 1, left)
    {
      hide Room, PaidOut, SumCredits, SharesTo;
      ShareNext(members, i, share, i, pot);
    }

    method PayShare(s: LedgerState, ghost i: nat, share: Amount, ghost pot: int, ghost rest: int, j: nat, left: Amount,
        ghost m: Accounts) returns (less: Amount)
      requires j < |members| && j != i && SharedTo(s, m, i, share, pot, rest, j, left)
      modifies s`accounts
      ensures SharedTo(s, m, i, share, pot, rest, j + 1, less)
    {
      hide Room, PaidOut, CreditTo, SumCredits, SharesTo;
      ShareNext(members, i, share, j, pot);
      s.Credit(members[j], asset, share, left + rest);
      PaidOutSnoc(m, asset, SharesTo(members, i, share, j), Credit(members[j], share));
      less := left - share;
    }

    method ReturnPrepaid(s: LedgerState, j: nat, ghost room: int)
      requires j < |members| && (prepaid == [] || j < |prepaid|)
      requires Room(s.accounts, asset, room) && At(prepaid, j) <= room
      modifies this`prepaid, s`accounts
      ensures prepaid == ZeroedAt(old(prepaid), j)
      ensures s.accounts == PaidOut(old(s.accounts), asset, Circles.Refund(members[j], At(old(prepaid), j)))
      ensures Room(s.accounts, asset, room - At(old(prepaid), j))
    {
      RefundApplied(s.accounts, asset, members[j], At(prepaid, j));
      hide Room, PaidOut, CreditTo;
      if prepaid != [] && prepaid[j] > 0 {
        s.Credit(members[j], asset, prepaid[j], room);
        prepaid := prepaid[j := 0];
      }
    }

    method ReturnDeposit(s: LedgerState, j: nat, ghost room: int)
      requires j < |members| && (deposits == [] || j < |deposits|)
      requires Room(s.accounts, asset, room) && At(deposits, j) <= room
      modifies this`deposits, s`accounts
      ensures deposits == ZeroedAt(old(deposits), j)
      ensures s.accounts == PaidOut(old(s.accounts), asset, Circles.Refund(members[j], At(old(deposits), j)))
      ensures Room(s.accounts, asset, room - At(old(deposits), j))
    {
      RefundApplied(s.accounts, asset, members[j], At(deposits, j));
      hide Room, PaidOut, CreditTo;
      if deposits != [] && deposits[j] > 0 {
        s.Credit(members[j], asset, deposits[j], room);
        deposits := deposits[j := 0];
      }
    }

    /** Member j's autopay money and deposit, in this order. */
    method ReturnOne(s: LedgerState, j: nat, ghost c: Circle, ghost m: Accounts)
      requires j < |c.members| && members == c.members && asset == c.asset && insurance == c.insurance
      requires ReturnedTo(c, m, j, prepaid, deposits, s.accounts)
      modifies this`prepaid, this`deposits, s`accounts
      ensures ReturnedTo(c, m, j + 1, prepaid, deposits, s.accounts)
    {
      hide Pool.V, Room, PaidOut, Circles.Refund, ClearedTo, ReturnsTo;
      HeldNext(c, j, m);
      ReturnPrepaid(s, j, HeldFrom(c, j));
      ReturnDeposit(s, j, HeldFrom(c, j) - At(c.prepaid, j));
    }

    /** Autopay money and deposits go back, member by member. */
    method ReturnHeld(s: LedgerState)
      requires Shape(V()) && Room(s.accounts, asset, Circles.Held(V()))
      modifies this`prepaid, this`deposits, s`accounts
      ensures prepaid == Cleared(old(prepaid)) && deposits == Cleared(old(deposits))
      ensures s.accounts == PaidOut(old(s.accounts), asset, ReturnsTo(old(V()), |members|))
      ensures Room(s.accounts, asset, insurance)
    {
      hide Room, PaidOut, Shape, ClearedTo, ReturnsTo, Cleared, Circles.Held;
      HeldStart(V(), s.accounts);
      HeldEnd(V());
      ReturnEach(s, V(), s.accounts);
    }

    method ReturnEach(s: LedgerState, ghost c: Circle, ghost m: Accounts)
      requires members == c.members && asset == c.asset && insurance == c.insurance
      requires ReturnedTo(c, m, 0, prepaid, deposits, s.accounts)
      modifies this`prepaid, this`deposits, s`accounts
      ensures ReturnedTo(c, m, |c.members|, prepaid, deposits, s.accounts)
    {
      hide Pool.V, ReturnedTo;
      var j := 0;
      while j < |members|
        invariant 0 <= j <= |members| && ReturnedTo(c, m, j, prepaid, deposits, s.accounts)
      {
        ReturnOne(s, j, c, m);
        j := j + 1;
      }
    }

    /** What is left of the insurance, in equal parts, the last member taking the remainder. */
    method ReturnInsurance(s: LedgerState)
      requires 0 < |members| && Room(s.accounts, asset, insurance)
      modifies this`insurance, s`accounts
      ensures insurance == 0
      ensures s.accounts == PaidOut(old(s.accounts), asset, if old(insurance) > 0
        then InsuranceTo(members, old(insurance), |members|) else [])
    {
      PaidOutNothing(s.accounts, asset);
      if insurance <= 0 {
        return;
      }
      hide Room, PaidOut, InsuranceTo;
      PayParts(s);
      insurance := 0;
    }

    /** Equal parts, the last member taking the remainder. */
    method PayParts(s: LedgerState)
      requires 0 < |members| && 0 < insurance && Room(s.accounts, asset, insurance)
      modifies s`accounts
      ensures s.accounts == PaidOut(old(s.accounts), asset, InsuranceTo(members, insurance, |members|))
    {
      ghost var m := s.accounts;
      PaidOutNothing(s.accounts, asset);
      InsuranceStart(members, insurance);
      PartBounds(insurance, |members|);
      var share: Amount := insurance / |members|;
      var last: Amount := insurance - share * (|members| - 1);
      forall j | 0 <= j < |members|
        ensures InsurancePart(insurance, |members|, j) == if j == |members| - 1 then last else share
      {}
      hide Room, PaidOut, CreditTo, InsuranceTo, SumCredits, InsurancePart;
      var j := 0;
      while j < |members|
        invariant 0 <= j <= |members|
        invariant s.accounts == PaidOut(m, asset, InsuranceTo(members, insurance, j))
        invariant Room(s.accounts, asset, insurance - SumCredits(InsuranceTo(members, insurance, j)))
      {
        var v := if j == |members| - 1 then last else share;
        InsuranceNext(members, insurance, j);
        s.Credit(members[j], asset, v, insurance - SumCredits(InsuranceTo(members, insurance, j)));
        PaidOutSnoc(m, asset, InsuranceTo(members, insurance, j), Credit(members[j], v));
        j := j + 1;
      }
    }

    method ReturnAll(s: LedgerState)
      requires Shape(V()) && Room(s.accounts, asset, Circles.Held(V()))
      modifies this`prepaid, this`deposits, this`insurance, s`accounts
      ensures prepaid == Cleared(old(prepaid)) && deposits == Cleared(old(deposits)) && insurance == 0
      ensures s.accounts == PaidOut(old(s.accounts), asset, ReturnsTo(old(V()), |members|)
        + if old(insurance) > 0 then InsuranceTo(members, old(insurance), |members|) else [])
    {
      PaidOutAppend(s.accounts, asset, ReturnsTo(V(), |members|), if insurance > 0
        then InsuranceTo(members, insurance, |members|) else []);
      assert 0 < |members|;
      hide PaidOut, Room, ReturnsTo, InsuranceTo, Cleared, Shape;
      ReturnHeld(s);
      ReturnInsurance(s);
    }

    /** The last round is over. */
    method CloseOut(s: LedgerState)
      requires Shape(V()) && Room(s.accounts, asset, Circles.Held(V()))
      modifies this, s`accounts
      ensures V() == Close(old(V())).circle
      ensures s.accounts == PaidOut(old(s.accounts), asset, Close(old(V())).credits)
    {
      ghost var c := V();
      ClosingParts(c);
      hide PaidOut, Room, ReturnsTo, InsuranceTo, Cleared, Shape, Close, Circles.Held;
      status := Done;
      assert V() == c.(status := Done);
      ReturnAll(s);
    }

    /** The pot goes out: the discount to the others, the rest to the winner. */
    method DeliverPot(s: LedgerState, i: nat, pot: Amount, ghost rest: int) returns (won: Amount)
      requires Shape(V()) && i < |members| && 0 <= rest && Room(s.accounts, asset, pot + rest)
      modifies s`accounts
      ensures won == Won(V(), i, pot)
      ensures s.accounts == PaidOut(old(s.accounts), asset, Shares(V(), i, pot) + [Credit(members[i], won)])
      ensures Room(s.accounts, asset, rest)
    {
      hide Room, PaidOut, CreditTo, SharesTo;
      ghost var m := s.accounts;
      won := pot;
      PaidOutNothing(m, asset);
      if terms.mode == Bidding && bids[i] > 0 {
        won := ShareDiscount(s, i, pot, rest);
      }
      PaidOutSnoc(m, asset, Shares(V(), i, pot), Credit(members[i], won));
      s.Credit(members[i], asset, won, won + rest);
    }

    /** The books turn to the next round. */
    method TurnRound(i: nat, won: Amount)
      requires i < |claimed| && (paidOut == [] || i < |paidOut|)
      modifies this
      ensures V() == Turned(old(V()), i, won)
    {
      hide Cleared, Falses;
      if paidOut != [] {
        paidOut := paidOut[i := won];
      }
      claimed := claimed[i := true];
      round := round + 1;
      ClearRound();
    }

    method ClearRound()
      modifies this
      ensures V() == old(V()).(paid := Falses(|old(paid)|), paidAmt := Cleared(old(paidAmt)),
        bids := Cleared(old(bids)))
    {
      hide Cleared, Falses;
      paid := Falses(|paid|);
      paidAmt := Blank(paidAmt);
      bids := Blank(bids);
    }

    /** The pot of the round goes out. */
    method SendPot(s: LedgerState, i: nat, ghost rest: int) returns (won: Amount)
      requires Shape(V()) && terms.mode != Goal && i < |members|
      requires balance + insurance < TWO64 && 0 <= rest
      requires Room(s.accounts, asset, balance - BasisPoints(balance, terms.insuranceBps) + rest)
      modifies this`balance, this`insurance, s`accounts
      ensures balance == 0 && insurance == old(insurance) + BasisPoints(old(balance), terms.insuranceBps)
      ensures won == Winnings(old(V()), i)
      ensures s.accounts == PaidOut(old(s.accounts), asset, PotCredits(old(V()), i))
      ensures Room(s.accounts, asset, rest)
    {
      ghost var k := V();
      PotLeaves(k, i);
      hide PaidOut, Room, BasisPoints, Shape, Won, Shares, Winnings, PotCredits;
      var pot := TakePot();
      assert V() == k.(balance := 0, insurance := k.insurance + BasisPoints(k.balance, k.terms.insuranceBps));
      won := DeliverPot(s, i, pot, rest);
    }

    /** The pot of the round goes out and the next round begins. */
    method SettleRound(s: LedgerState, i: nat, ghost rest: int)
      requires Shape(V()) && terms.mode != Goal && i < |members|
      requires balance + insurance < TWO64 && 0 <= rest
      requires Room(s.accounts, asset, balance - BasisPoints(balance, terms.insuranceBps) + rest)
      modifies this, s`accounts
      ensures V() == NextRound(old(V()), i)
      ensures s.accounts == PaidOut(old(s.accounts), asset, PotCredits(old(V()), i))
      ensures Room(s.accounts, asset, rest)
    {
      ghost var k := V();
      PotLeaves(k, i);
      hide PaidOut, Room, BasisPoints, Turned, Shape, Winnings, PotCredits, NextRound;
      var won := SendPot(s, i, rest);
      assert V() == k.(balance := 0, insurance := k.insurance + BasisPoints(k.balance, k.terms.insuranceBps));
      TurnRound(i, won);
    }

    method Payout(s: LedgerState, i: nat)
      requires CircleInv(V()) && terms.mode != Goal && status == Active && i < |members|
      requires if terms.mode == Bidding then !claimed[i] else i == round
      requires Room(s.accounts, asset, Holdings(V()))
      modifies this, s`accounts
      ensures V() == Circles.Payout(old(V()), i).circle
      ensures s.accounts == PaidOut(old(s.accounts), asset, Circles.Payout(old(V()), i).credits)
    {
      hide CircleInv, CoverTo, PotCredits, Winnings, NextRound, RunAutopay, Close, PaidOut, Room, Holdings,
        RoundBooks, BasisPoints, Circles.Held, Shape, Circles.Payout;
      ghost var c, m := V(), s.accounts;
      PayoutFacts(c, i);
      PayoutIs(c, i);
      RoomLimit(m, asset, Holdings(c));
      CoverMissed();
      ghost var k := V();
      ghost var next := NextRound(k, i);
      SettleRound(s, i, Circles.Held(next));
      PaidOutAppend(m, asset, PotCredits(k, i), if round < |members| then [] else Close(next).credits);
      PaidOutNone(s.accounts, asset);
      EndRound(s);
    }

    /** The circle goes on with autopay, or closes after its last round. */
    method EndRound(s: LedgerState)
      requires Shape(V()) && terms.mode != Goal && RoundBooks(V()) && balance == 0
      requires 0 <= Sum(prepaid) <= Circles.Held(V()) && Room(s.accounts, asset, Circles.Held(V()))
      modifies this, s`accounts
      ensures V() == if old(round) < |old(members)| then RunAutopay(old(V())) else Close(old(V())).circle
      ensures s.accounts == if old(round) < |old(members)| then old(s.accounts)
        else PaidOut(old(s.accounts), asset, Close(old(V())).credits)
    {
      hide RunAutopay, Close, PaidOut, Room, RoundBooks, Circles.Held, Shape;
      if round < |members| {
        RoomLimit(s.accounts, asset, Circles.Held(V()));
        Autopay();
      } else {
        CloseOut(s);
      }
    }

    // -------------------------------------------------------------- turns

    method SwapIdx(i: nat, j: nat)
      requires Shape(V()) && i < |members| && j < |members|
      modifies this
      ensures V() == Circles.SwapIdx(old(V()), i, j)
    {
      Swappable(V(), i, j);
      hide Shape, Circles.SwapIdx, SeatsSwappable, SeatsSwapped, MarksSwappable, MarksSwapped, HeldSwappable,
        HeldSwapped, LinesSwappable, LinesSwapped;
      SwapSeats(i, j);
      SwapMarks(i, j);
      SwapHeld(i, j);
      SwapLines(i, j);
    }

    method SwapSeats(i: nat, j: nat)
      requires SeatsSwappable(V(), i, j)
      modifies this
      ensures V() == SeatsSwapped(old(V()), i, j)
    {
      hide CanSwap;
      members := Sw(members, i, j);
      joined := Sw(joined, i, j);
      paid := Sw(paid, i, j);
      claimed := Sw(claimed, i, j);
    }

    method SwapMarks(i: nat, j: nat)
      requires MarksSwappable(V(), i, j)
      modifies this
      ensures V() == MarksSwapped(old(V()), i, j)
    {
      hide CanSwap;
      defaults := Sw(defaults, i, j);
      withdrawn := Sw(withdrawn, i, j);
      swapWith := Sw(swapWith, i, j);
    }

    method SwapHeld(i: nat, j: nat)
      requires HeldSwappable(V(), i, j)
      modifies this
      ensures V() == HeldSwapped(old(V()), i, j)
    {
      hide CanSwap;
      deposits := Exchanged(deposits, i, j);
      paidOut := Exchanged(paidOut, i, j);
      prepaid := Exchanged(prepaid, i, j);
    }

    method SwapLines(i: nat, j: nat)
      requires LinesSwappable(V(), i, j)
      modifies this
      ensures V() == LinesSwapped(old(V()), i, j)
    {
      hide CanSwap;
      paidAmt := Exchanged(paidAmt, i, j);
      bids := Exchanged(bids, i, j);
      saved := Exchanged(saved, i, j);
    }

    /** The lottery's shuffle, from the last seat down; the seed is hashed once per seat. */
    method DrawOrder(sha: Sha)
      requires Shape(V())
      modifies this
      ensures V() == Circles.DrawOrder(sha, old(V()))
      ensures members == InOrder(LotsOf(sha, sha.start(id, old(startedAt)), |old(members)|), old(members))
    {
      DrawIsLots(sha, V());
      hide Shape, Circles.DrawOrder, InOrder, LotsOf, Lots, Without;
      Shuffle(sha);
    }

    method Shuffle(sha: Sha)
      requires Shape(V())
      modifies this
      ensures V() == Circles.DrawOrder(sha, old(V()))
    {
      hide Circles.SwapIdx, Pick;
      ghost var c := V();
      assert 2 <= |members|;
      var seed, k := sha.start(id, startedAt), |members| - 1;
      while k > 0
        invariant Shape(V()) && 0 <= k < |members|
        invariant DrawFrom(sha, V(), k, seed) == Circles.DrawOrder(sha, c)
      {
        seed := sha.next(seed);
        SwapIdx(k, Pick(sha, seed, k));
        k := k - 1;
      }
    }

    // -------------------------------------------------------------- the other operations

    method Join(sha: Sha, i: nat, now: int)
      requires CircleInv(V()) && i < |members| && status == Forming && !joined[i]
      modifies this
      ensures V() == JoinCircle(sha, old(V()), i, now)
    {
      ghost var c := V();
      AdmitKeeps(c, i);
      joined := joined[i := true];
      if deposits != [] {
        deposits := deposits[i := terms.deposit];
      }
      assert V() == Admit(c, i);
      hide Admit, CircleInv, RunAutopay, Circles.DrawOrder, Start;
      if false !in joined {
        Begin(sha, now);
      }
    }

    /** Everyone is in. */
    method Begin(sha: Sha, now: int)
      requires CircleInv(V()) && status == Forming
      modifies this
      ensures V() == Start(sha, old(V()), now)
    {
      ghost var c := V();
      ActivateKeeps(c, now);
      StartFacts(sha, c, now);
      hide CircleInv, RunAutopay, Circles.DrawOrder, RoundBooks, Sum, Shape;
      status, startedAt := Active, now;
      assert V() == c.(status := Active, startedAt := now);
      if terms.mode == Lottery {
        DrawOrder(sha);
      }
      Autopay();
    }

    method Contribute(i: nat, amount: Amount)
      requires CircleInv(V()) && i < |members| && status == Active
      requires if terms.mode == Goal then amount > 0 && balance + amount < TWO64
        else !paid[i] && amount <= Need(V(), i)
      modifies this
      ensures V() == ContributeTo(old(V()), i, amount)
    {
      ContributeFacts(V(), i);
      hide CircleInv, Circles.PayIn, Need, Shape;
      if terms.mode == Goal {
        Save(i, amount);
      } else {
        var amt := if amount == 0 then Owed(i) else amount;
        PayInFits(V(), i, amt);
        PayIn(i, amt);
      }
    }

    /** Savings toward the goal, which is reached as soon as the circle holds it. */
    method Save(i: nat, amount: Amount)
      requires Shape(V()) && terms.mode == Goal && i < |members| && saved[i] + amount < TWO64
        && balance + amount < TWO64
      modifies this
      ensures V() == ContributeTo(old(V()), i, amount)
    {
      saved := saved[i := saved[i] + amount];
      balance := balance + amount;
      if balance >= terms.target {
        status := Done;
      }
    }

    method PlaceBid(i: nat, discount: Amount)
      requires i < |bids|
      modifies this
      ensures V() == old(V()).(bids := old(bids)[i := discount])
    {
      bids := bids[i := discount];
    }

    method SwapTurn(i: nat, from: Address, other: Address)
      requires Shape(V()) && i < |members| && other in members
      modifies this
      ensures V() == SwapTurns(old(V()), i, from, other)
    {
      var j := Index(members, other);
      assert i < |members| && NilOr(swapWith, |members|);
      hide Circles.SwapIdx, Shape;
      if swapWith == [] {
        swapWith := seq(|members|, _ => NoAddress);
      }
      if swapWith[j] == from {
        SwapIdx(i, j);
        swapWith := seq(|members|, _ => NoAddress);
      } else {
        swapWith := swapWith[i := other];
      }
    }

    method Withdraw(s: LedgerState, i: nat, from: Address)
      requires CircleInv(V()) && i < |members| && terms.mode == Goal && (status == Active || status == Done)
      requires Room(s.accounts, asset, Holdings(V()))
      modifies this, s`accounts
      ensures V() == WithdrawFrom(old(V()), i, from).circle
      ensures s.accounts == PaidOut(old(s.accounts), asset, WithdrawFrom(old(V()), i, from).credits)
    {
      ghost var c := V();
      WithdrawFacts(c, i);
      PaidOutOne(s.accounts, asset, from, saved[i]);
      hide CircleInv, Room, PaidOut, CreditTo;
      s.Credit(from, asset, saved[i], Holdings(c));
      TakeSavings(i);
    }

    /** Member i's savings leave the books. */
    method TakeSavings(i: nat)
      requires i < |saved| == |withdrawn| && saved[i] <= balance
      modifies this
      ensures V() == SavingsTaken(old(V()), i)
    {
      DropSavings(i);
      MarkWithdrawn(i);
    }

    method DropSavings(i: nat)
      requires i < |saved| && saved[i] <= balance
      modifies this`balance, this`saved
      ensures balance == old(balance) - old(saved)[i] && saved == old(saved)[i := 0]
    {
      balance := balance - saved[i];
      saved := saved[i := 0];
    }

    /** The circle is done when the last member has taken their savings. */
    method MarkWithdrawn(i: nat)
      requires i < |withdrawn|
      modifies this`withdrawn, this`status
      ensures withdrawn == old(withdrawn)[i := true]
      ensures status == if old(status) != Done && false !in withdrawn then Done else old(status)
    {
      withdrawn := withdrawn[i := true];
      if status != Done && false !in withdrawn {
        status := Done;
      }
    }

    /** The reserve grows in 64 bits. */
    method SetAside(i: nat, amount: Amount)
      requires CircleInv(V()) && i < |members| && terms.mode != Goal
      modifies this
      ensures V() == AddAutopay(old(V()), i, Gain(At(old(prepaid), i), amount))
    {
      hide Amounts, Books, Seats, Phase, Pledges, RunAutopay, RoundBooks, Reserve;
      ReserveFacts(V(), i, Gain(At(prepaid, i), amount));
      GrowReserve(i, amount);
      Autopay();
    }

    method GrowReserve(i: nat, amount: Amount)
      requires Shape(V()) && i < |members| && terms.mode != Goal
      modifies this`prepaid
      ensures V() == Reserve(old(V()), i, Gain(At(old(prepaid), i), amount))
    {
      if prepaid == [] {
        prepaid := Zeros(|members|);
      }
      prepaid := prepaid[i := (prepaid[i] + amount) % TWO64];
    }

    method StopAutopay(s: LedgerState, i: nat, from: Address)
      requires CircleInv(V()) && i < |prepaid| && Room(s.accounts, asset, Holdings(V()))
      modifies this, s`accounts
      ensures V() == old(V()).(prepaid := old(prepaid)[i := 0])
      ensures s.accounts == PaidOut(old(s.accounts), asset, [Credit(from, old(prepaid)[i])])
    {
      StopFacts(V(), i);
      PaidOutOne(s.accounts, asset, from, prepaid[i]);
      hide CircleInv, Room, PaidOut, CreditTo;
      s.Credit(from, asset, prepaid[i], Holdings(V()));
      prepaid := prepaid[i := 0];
    }

    method Cancel(s: LedgerState)
      requires CircleInv(V()) && Room(s.accounts, asset, Holdings(V()))
      modifies this, s`accounts
      ensures V() == CancelCircle(old(V())).circle
      ensures s.accounts == PaidOut(old(s.accounts), asset, CancelCircle(old(V())).credits)
    {
      ghost var c := V();
      CancelFacts(c, s.accounts);
      hide Room, PaidOut, CreditTo, CircleInv, Circles.Refund, CancelReturnsTo, Cleared;
      CancelReturns(s);
      status := Cancelled;
    }

    /** Member j's deposit and autopay money, in this order. */
    method CancelOne(s: LedgerState, j: nat, ghost c: Circle, ghost m: Accounts)
      requires j < |c.members| && members == c.members && asset == c.asset && insurance == c.insurance
      requires CancelledTo(c, m, j, prepaid, deposits, s.accounts)
      modifies this`prepaid, this`deposits, s`accounts
      ensures CancelledTo(c, m, j + 1, prepaid, deposits, s.accounts)
    {
      hide Pool.V, Room, PaidOut, Circles.Refund, ClearedTo, CancelReturnsTo;
      HeldNext(c, j, m);
      ReturnDeposit(s, j, HeldFrom(c, j));
      ReturnPrepaid(s, j, HeldFrom(c, j) - At(c.deposits, j));
    }

    method CancelReturns(s: LedgerState)
      requires Shape(V()) && 0 <= balance && Room(s.accounts, asset, Circles.Held(V()))
      modifies this`prepaid, this`deposits, s`accounts
      ensures prepaid == Cleared(old(prepaid)) && deposits == Cleared(old(deposits))
      ensures s.accounts == PaidOut(old(s.accounts), asset, CancelReturnsTo(old(V()), |members|))
    {
      hide Room, PaidOut, Shape, ClearedTo, CancelReturnsTo, Cleared, Circles.Held;
      HeldStart(V(), s.accounts);
      HeldEnd(V());
      CancelEach(s, V(), s.accounts);
    }

    method CancelEach(s: LedgerState, ghost c: Circle, ghost m: Accounts)
      requires members == c.members && asset == c.asset && insurance == c.insurance
      requires CancelledTo(c, m, 0, prepaid, deposits, s.accounts)
      modifies this`prepaid, this`deposits, s`accounts
      ensures CancelledTo(c, m, |c.members|, prepaid, deposits, s.accounts)
    {
      hide Pool.V, CancelledTo;
      var j := 0;
      while j < |members|
        invariant 0 <= j <= |members| && CancelledTo(c, m, j, prepaid, deposits, s.accounts)
      {
        CancelOne(s, j, c, m);
        j := j + 1;
      }
    }

    // -------------------------------------------------------------- one pool operation

    /** The rules of an operation by member i; nothing changes. */
    method Check(i: nat, op: Step, from: Address, now: int, bal: Amount) returns (e: Option<Error>)
      requires Shape(V()) && i < |members| && GoodStep(op)
      ensures e == StepCheck(V(), i, op, from, now, bal)
    {
      hide Circles.Recipient;
      ContributionFits(V());
      match op
      case Join => e := if status != Forming || joined[i] then Some(PoolRule) else None;
      case Contribute(amount) =>
        if status != Active { return Some(PoolRule); }
        if terms.mode == Goal {
          e := if amount == 0 then Some(PoolRule) else if Overflows(balance, amount) then Some(Error.Overflow)
            else None;
        } else {
          e := if paid[i] || amount > Owed(i) then Some(PoolRule) else None;
        }
      case Claim =>
        if terms.mode == Goal || status != Active { return Some(PoolRule); }
        var who := Recipient();
        if i != who { return Some(PoolRule); }
        if false in paid && !(terms.roundSecs > 0
          && now >= startedAt + (round + 1) * terms.roundSecs * 1000) { return Some(PoolRule); }
        e := if Overflows(bal, terms.contribution * |members|) then Some(Error.Overflow) else None;
      case Bid(discount) =>
        if terms.mode != Bidding || status != Active || claimed[i] { return Some(PoolRule); }
        e := if discount > terms.contribution * |members| / 2 then Some(PoolRule) else None;
      case Swap(other) =>
        if terms.mode == Goal || terms.mode == Bidding
          || (status != Forming && status != Active) { return Some(PoolRule); }
        var j := Index(members, other);
        if j < 0 || j == i || claimed[i] || claimed[j] { return Some(PoolRule); }
        e := if status == Active && (i == round || j == round) then Some(PoolRule) else None;
      case Withdraw =>
        if terms.mode != Goal { return Some(PoolRule); }
        var deadline := terms.roundSecs > 0 && startedAt > 0 && now >= startedAt + terms.roundSecs * 1000;
        if (status != Done && !deadline) || saved[i] == 0 { return Some(PoolRule); }
        e := if Overflows(bal, saved[i]) then Some(Error.Overflow) else None;
      case Autopay(amount) =>
        if terms.mode == Goal || (status != Forming && status != Active)
          || amount % terms.contribution != 0 { return Some(PoolRule); }
        var have: Amount := if prepaid != [] then prepaid[i] else 0;
        var left := |members| - round - if status == Active && paid[i] then 1 else 0;
        var rounds := AsInt((have / terms.contribution + amount / terms.contribution) % TWO64);
        e := if rounds > left then Some(PoolRule) else None;
      case StopAutopay => e := if prepaid == [] || prepaid[i] == 0 then Some(PoolRule) else None;
      case Cancel => e := if from != creator || status != Forming then Some(PoolRule) else None;
    }

    /** The state change of an allowed operation: the circle's and the accounts' exact new values. */
    method Perform(sha: Sha, s: LedgerState, i: nat, op: Step, from: Address, now: int, ghost bal: int)
      requires CircleInv(V()) && i < |members| && members[i] == from && GoodStep(op)
      requires StepCheck(V(), i, op, from, now, bal) == None
      requires Room(s.accounts, asset, Holdings(V()))
      modifies this, s`accounts
      ensures V() == StepIn64(sha, old(V()), i, op, from, now, bal).circle
      ensures s.accounts == PaidOut(old(s.accounts), asset, StepIn64(sha, old(V()), i, op, from, now, bal).credits)
    {
      hide CircleInv, Room, PaidOut, CreditTo, JoinCircle, ContributeTo, Circles.Payout, SwapTurns, WithdrawFrom,
        AddAutopay, CancelCircle, Circles.Recipient, Holdings, Need, AllPaid, Unlocked, Wraps, RoundsLeft;
      ghost var c := V();
      AllowedFacts(c, i, op, from, now, bal);
      PaidOutNothing(s.accounts, asset);
      match op
      case Join => Join(sha, i, now);
      case Contribute(amount) => Contribute(i, amount);
      case Claim => Payout(s, i);
      case Bid(discount) => PlaceBid(i, discount);
      case Swap(other) => SwapTurn(i, from, other);
      case Withdraw => Withdraw(s, i, from);
      case Autopay(amount) => SetAside(i, amount);
      case StopAutopay => StopAutopay(s, i, from);
      case Cancel => Cancel(s);
    }
  }

  class LockedEscrow {
    const asset: Asset
    const milestones: seq<Amount>
    const createdAt: int
    const shipBy: int
    const reviewSecs: int
    const arbiterBps: int
    var buyer: Address
    var seller: Address
    var arbiter: Address
    var released: int
    var balance: Amount
    var status: EscrowStatus
    var dispatchedAt: int
    var paidSeller: Amount
    var paidBuyer: Amount
    var arbiterFee: Amount

    function V(): Escrow
      reads this
    {
      Escrow(asset, buyer, seller, arbiter, milestones, released, balance, status, createdAt, shipBy, reviewSecs,
             dispatchedAt, paidSeller, paidBuyer, arbiterBps, arbiterFee)
    }

    constructor Fund(asset0: Asset, from: Address, t: EscrowTerms, now: int)
      requires GoodEscrowTerms(t, from)
      ensures V() == NewEscrow(asset0, from, t, now)
    {
      asset, buyer, seller, arbiter := asset0, from, t.seller, t.arbiter;
      milestones, released, status := t.milestones, 0, Funded;
      createdAt, shipBy, reviewSecs, dispatchedAt, arbiterBps := now, t.shipBy, t.reviewSecs, 0, t.arbiterBps;
      paidSeller, paidBuyer, arbiterFee := 0, 0, 0;
      new;
      var total := TotalOf(t.milestones);
      balance := total;
    }

    constructor Copy(e: LockedEscrow)
      ensures V() == e.V()
    {
      asset, buyer, seller, arbiter, milestones, released, balance := e.asset, e.buyer, e.seller, e.arbiter,
        e.milestones, e.released, e.balance;
      status, createdAt, shipBy, reviewSecs, dispatchedAt := e.status, e.createdAt, e.shipBy, e.reviewSecs,
        e.dispatchedAt;
      arbiterBps, paidSeller, paidBuyer, arbiterFee := e.arbiterBps, e.paidSeller, e.paidBuyer, e.arbiterFee;
    }

    method Rename(old0: Address, new0: Address)
      modifies this`buyer, this`seller, this`arbiter
      ensures V() == RenameEscrow(old(V()), old0, new0)
    {
      if buyer == old0 { buyer := new0; }
      if seller == old0 { seller := new0; }
      if arbiter == old0 { arbiter := new0; }
    }

    function Fee(): Amount
      requires 0 <= arbiterBps <= 500
      reads this
    {
      CutOf(balance, arbiterBps)
    }

    /** The rules of an escrow step; nothing changes. */
    method Check(who: Address, op: EscrowStep, now: int) returns (e: Option<Error>)
      requires 0 <= arbiterBps <= 500
      ensures e == EscrowCheck(V(), who, op, now)
    {
      hide BasisPoints;
      if status != Funded && status != Dispatched && status != Disputed {
        return Some(EscrowRule);
      }
      match op
      case Dispatch => e := if who != seller || status != Funded then Some(EscrowRule) else None;
      case Release => e := if who != buyer || status == Disputed then Some(EscrowRule) else None;
      case Dispute => e := if (who != buyer && who != seller) || status == Disputed then Some(EscrowRule) else None;
      case Resolve(toSeller) =>
        if who != arbiter || status != Disputed { return Some(EscrowRule); }
        e := if toSeller > balance - Fee() then Some(EscrowRule) else None;
      case Refund =>
        if who == seller { return None; }
        e := if who == buyer && status == Funded && now > shipBy then None else Some(EscrowRule);
      case ClaimRest =>
        e := if who != seller || status != Dispatched || now < dispatchedAt + reviewSecs * 1000 then Some(EscrowRule)
          else None;
    }

    /** Pays a party out of the escrow. */
    method Pay(s: LedgerState, to: Address, amt: Amount)
      requires amt <= balance && paidSeller + amt < TWO64 && paidBuyer + amt < TWO64 && Room(s.accounts, asset, balance)
      modifies this, s`accounts
      ensures V() == Escrows.Pay(old(V()), to, amt).escrow
      ensures s.accounts == PaidOut(old(s.accounts), asset, Escrows.Pay(old(V()), to, amt).credits)
      ensures Room(s.accounts, asset, balance)
    {
      PaidOutNothing(s.accounts, asset);
      PaidOutOne(s.accounts, asset, to, amt);
      hide Room, PaidOut, CreditTo;
      if amt == 0 {
        return;
      }
      s.Credit(to, asset, amt, balance);
      balance := balance - amt;
      if to == seller {
        paidSeller := paidSeller + amt;
      } else {
        paidBuyer := paidBuyer + amt;
      }
    }

    method PayArbiter(s: LedgerState)
      requires 0 <= arbiterBps <= 500 && Room(s.accounts, asset, balance)
      modifies this, s`accounts
      ensures V() == Escrows.PayArbiter(old(V())).escrow
      ensures s.accounts == PaidOut(old(s.accounts), asset, Escrows.PayArbiter(old(V())).credits)
      ensures Room(s.accounts, asset, balance)
    {
      var fee := Fee();
      PaidOutNothing(s.accounts, asset);
      PaidOutOne(s.accounts, asset, arbiter, fee);
      hide Room, PaidOut, CreditTo, BasisPoints;
      if fee > 0 {
        s.Credit(arbiter, asset, fee, balance);
        balance := balance - fee;
        arbiterFee := fee;
      }
    }

    /** Seller, then buyer, out of a resolved dispute. */
    method PayBoth(s: LedgerState, toSeller: Amount, rest: Amount)
      requires toSeller + rest <= balance && paidSeller + balance < TWO64 && paidBuyer + balance < TWO64
        && Room(s.accounts, asset, balance)
      modifies this, s`accounts
      ensures var b := Escrows.Pay(old(V()), old(seller), toSeller); var c := Escrows.Pay(b.escrow, old(buyer), rest);
        V() == c.escrow && s.accounts == PaidOut(PaidOut(old(s.accounts), asset, b.credits), asset, c.credits)
    {
      PayRoom(V(), seller, toSeller, rest);
      hide Room, PaidOut, Escrows.Pay;
      Pay(s, seller, toSeller);
      Pay(s, buyer, rest);
    }

    method Resolve(s: LedgerState, toSeller: Amount)
      requires EscrowInv(V()) && Open(V()) && toSeller <= balance - ArbiterCut(V()) && Room(s.accounts, asset, balance)
      modifies this, s`accounts
      ensures V() == ResolveSplit(old(V()), toSeller).escrow
      ensures s.accounts == PaidOut(old(s.accounts), asset, ResolveSplit(old(V()), toSeller).credits)
    {
      hide Room, PaidOut, BasisPoints, Escrows.Pay, Escrows.PayArbiter, EscrowInv, ResolveSplit;
      ArbiterPaid(V(), toSeller);
      ResolveOrder(V(), toSeller, s.accounts);
      var rest: Amount := balance - Fee() - toSeller;
      PayArbiter(s);
      PayBoth(s, toSeller, rest);
      status := Resolved;
    }

    /** The state change of an allowed step: the escrow's and the accounts' exact new values. */
    method Perform(s: LedgerState, op: EscrowStep, now: int, ghost who: Address)
      requires EscrowInv(V()) && GoodEscrowStep(op) && EscrowCheck(V(), who, op, now) == None
        && Room(s.accounts, asset, balance)
      modifies this, s`accounts
      ensures V() == EscrowEffect(old(V()), op, now).escrow
      ensures s.accounts == PaidOut(old(s.accounts), asset, EscrowEffect(old(V()), op, now).credits)
    {
      ghost var e := V();
      PaidOutNothing(s.accounts, asset);
      StepAmounts(e);
      hide Room, PaidOut, Escrows.Pay, ResolveSplit, EscrowInv, BasisPoints;
      match op
      case Dispatch => status, dispatchedAt := Dispatched, now;
      case Release =>
        Pay(s, seller, milestones[released]);
        released := released + 1;
        if released == |milestones| {
          status := Completed;
        }
      case Dispute => status := Disputed;
      case Resolve(toSeller) => Resolve(s, toSeller);
      case Refund =>
        Pay(s, buyer, balance);
        status := Refunded;
      case ClaimRest =>
        Pay(s, seller, balance);
        released := |milestones|;
        status := Completed;
    }
  }

  class RecoverySetup {
    const guardians: seq<Address>
    const threshold: int
    const delaySecs: int
    var pending: Option<Recovery>

    function V(): Guardianship
      reads this
    {
      Guardianship(guardians, threshold, delaySecs, pending)
    }

    constructor (guardians0: seq<Address>, threshold0: int, delaySecs0: int, pending0: Option<Recovery>)
      ensures V() == Guardianship(guardians0, threshold0, delaySecs0, pending0)
    {
      guardians, threshold, delaySecs, pending := guardians0, threshold0, delaySecs0, pending0;
    }

    method Start(from: Address, newOwner: Address, now: int)
      modifies this
      ensures V() == Started(old(V()), from, newOwner, now)
    {
      pending := Some(Recovery(newOwner, [from], now, 0));
      if threshold <= 1 {
        pending := Some(pending.value.(readyAt := now + delaySecs * 1000));
      }
    }

    method Approve(from: Address, now: int)
      requires pending.Some?
      modifies this
      ensures V() == Approved(old(V()), from, now)
    {
      pending := Some(pending.value.(approvals := pending.value.approvals + [from]));
      if |pending.value.approvals| >= threshold && pending.value.readyAt == 0 {
        pending := Some(pending.value.(readyAt := now + delaySecs * 1000));
      }
    }

    method Drop()
      modifies this
      ensures V() == old(V()).(pending := None)
    {
      pending := None;
    }

    method Act(op: GuardOp, from: Address, now: int)
      requires !op.SetGuards? && !op.Finish? && (op.Approve? ==> pending.Some?)
      modifies this
      ensures V() == SetupAfter(old(V()), op, from, now)
    {
      match op
      case StartRecovery(_, newOwner) => Start(from, newOwner, now);
      case Approve(_, _) => Approve(from, now);
      case CancelRecovery(_) => Drop();
    }
  }

  /** The escrowed amount, added up in 64 bits. */
  method TotalOf(milestones: seq<Amount>) returns (total: Amount)
    requires Sum(milestones) < TWO64
    ensures total == Sum(milestones)
  {
    total := 0;
    var j := 0;
    while j < |milestones|
      invariant 0 <= j <= |milestones| && total == SumTo(milestones, j)
    {
      PrefixFits(milestones, j + 1);
      total := total + milestones[j];
      j := j + 1;
    }
  }
}
