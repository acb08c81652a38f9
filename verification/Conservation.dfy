/**
  Conservation of money: for every asset, what accounts, circles and escrows hold always adds up to its supply,
  and ORP supply plus what was burned never changes.
 */
module Conservation {
  import opened Core
  import opened Sequences
  import opened MapSums
  import opened Circles
  import opened Escrows
  import opened Ledger

  // ---------------------------------------------------------------- money by place

  ghost function AccountLines(m: Accounts, x: Asset): map<Address, int> { map a | a in m :: Ledger.Held(m[a], x) }

  ghost function CircleLines(pools: map<Hash, Circle>, x: Asset): map<Hash, int> {
    map id | id in pools :: if pools[id].asset == x then Holdings(pools[id]) else 0
  }

  ghost function EscrowLines(escrows: map<Hash, Escrow>, x: Asset): map<Hash, int> {
    map id | id in escrows :: if escrows[id].asset == x then escrows[id].balance else 0
  }

  ghost function InAccounts(m: Accounts, x: Asset): int { Total(AccountLines(m, x)) }

  ghost function InCircles(pools: map<Hash, Circle>, x: Asset): int { Total(CircleLines(pools, x)) }

  ghost function InEscrows(escrows: map<Hash, Escrow>, x: Asset): int { Total(EscrowLines(escrows, x)) }

  /** All money of an asset, wherever it is held. */
  ghost function Money(s: State, x: Asset): int {
    InAccounts(s.accounts, x) + InCircles(s.pools, x) + InEscrows(s.escrows, x)
  }

  function SupplyOf(s: State, x: Asset): int { if x == ORP then s.supply else IssuedOf(s, x) }

  // ---------------------------------------------------------------- accounts

  lemma HeldWith(acc: Account, x: Asset, v: int, y: Asset)
    ensures Ledger.Held(WithBalance(acc, x, v), y) == if x == y then v else Ledger.Held(acc, y)
  {}

  lemma AccountPut(m: Accounts, a: Address, acc: Account, x: Asset)
    ensures InAccounts(m[a := acc], x) == InAccounts(m, x) - Balance(m, a, x) + Ledger.Held(acc, x)
  {
    assert AccountLines(m[a := acc], x) == AccountLines(m, x)[a := Ledger.Held(acc, x)];
    TotalPut(AccountLines(m, x), a, Ledger.Held(acc, x));
  }

  lemma SetMoney(m: Accounts, a: Address, x: Asset, v: int, y: Asset)
    ensures InAccounts(SetBalance(m, a, x, v), y) == InAccounts(m, y) + if x == y then v - Balance(m, a, x) else 0
  {
    HeldWith(Get(m, a), x, v, y);
    AccountPut(m, a, WithBalance(Get(m, a), x, v), y);
  }

  /** Credits add their sum to the accounts' money in that asset and leave every other asset alone. */
  lemma {:induction false} CreditsMoney(m: Accounts, x: Asset, cs: seq<Credit>, k: nat, y: Asset)
    requires k <= |cs|
    ensures InAccounts(CreditsApplied(m, x, cs, k), y) == InAccounts(m, y) + if x == y then SumCreditsTo(cs, k) else 0
  {
    if k > 0 {
      CreditsMoney(m, x, cs, k - 1, y);
      var p := CreditsApplied(m, x, cs, k - 1);
      SetMoney(p, cs[k - 1].to, x, Balance(p, cs[k - 1].to, x) + cs[k - 1].amount, y);
    }
  }

  /** What an address receives from the first k credits. */
  function Received(cs: seq<Credit>, a: Address, k: nat): int
    requires k <= |cs|
  {
    if k == 0 then 0 else Received(cs, a, k - 1) + if cs[k - 1].to == a then cs[k - 1].amount else 0
  }

  lemma SetRead(m: Accounts, a: Address, x: Asset, v: int, b: Address, y: Asset)
    ensures Balance(SetBalance(m, a, x, v), b, y) == if a == b && x == y then v else Balance(m, b, y)
    ensures Get(SetBalance(m, a, x, v), b).nonce == Get(m, b).nonce
  {
    HeldWith(Get(m, a), x, v, y);
  }

  lemma {:induction false} CreditsRead(m: Accounts, x: Asset, cs: seq<Credit>, k: nat, b: Address, y: Asset)
    requires k <= |cs|
    ensures Balance(CreditsApplied(m, x, cs, k), b, y) == Balance(m, b, y) + if x == y then Received(cs, b, k) else 0
    ensures Get(CreditsApplied(m, x, cs, k), b).nonce == Get(m, b).nonce
  {
    if k > 0 {
      CreditsRead(m, x, cs, k - 1, b, y);
      var p := CreditsApplied(m, x, cs, k - 1);
      SetRead(p, cs[k - 1].to, x, Balance(p, cs[k - 1].to, x) + cs[k - 1].amount, b, y);
    }
  }

  // ---------------------------------------------------------------- circles and escrows

  lemma CirclePut(pools: map<Hash, Circle>, id: Hash, c: Circle, x: Asset)
    ensures InCircles(pools[id := c], x) ==
      InCircles(pools, x) - (if id in pools && pools[id].asset == x then Holdings(pools[id]) else 0)
      + (if c.asset == x then Holdings(c) else 0)
  {
    var v := if c.asset == x then Holdings(c) else 0;
    assert CircleLines(pools[id := c], x) == CircleLines(pools, x)[id := v];
    TotalPut(CircleLines(pools, x), id, v);
  }

  lemma EscrowPut(escrows: map<Hash, Escrow>, id: Hash, e: Escrow, x: Asset)
    ensures InEscrows(escrows[id := e], x) ==
      InEscrows(escrows, x) - (if id in escrows && escrows[id].asset == x then escrows[id].balance else 0)
      + (if e.asset == x then e.balance else 0)
  {
    var v := if e.asset == x then e.balance else 0;
    assert EscrowLines(escrows[id := e], x) == EscrowLines(escrows, x)[id := v];
    TotalPut(EscrowLines(escrows, x), id, v);
  }

  // ---------------------------------------------------------------- recovery

  lemma MergedHeld(acc: Account, src: Account, x: Asset)
    requires ORP !in acc.assets && ORP !in src.assets
    ensures Ledger.Held(Merged(acc, src), x) == Ledger.Held(acc, x) + Ledger.Held(src, x)
  {}

  lemma MoveLines(m: Accounts, old0: Address, new0: Address, src: Account, into: Account, x: Asset)
    requires old0 != new0 && src == Get(m, old0) && Ledger.Held(into, x) == Balance(m, new0, x) + Ledger.Held(src, x)
    ensures InAccounts(m[new0 := into][old0 := Account(0, src.nonce, map[])], x) == InAccounts(m, x)
  {
    hide InAccounts;
    AccountPut(m, new0, into, x);
    AccountPut(m[new0 := into], old0, Account(0, src.nonce, map[]), x);
  }

  /** Moving an account's holdings to its new key creates and loses nothing, in any asset. */
  lemma MoveMoney(m: Accounts, old0: Address, new0: Address, x: Asset)
    requires old0 != new0 && ORP !in Get(m, old0).assets && ORP !in Get(m, new0).assets && 0 <= Get(m, old0).balance
    ensures InAccounts(MoveHoldings(m, old0, new0), x) == InAccounts(m, x)
  {
    hide InAccounts, Merged;
    var src := Get(m, old0);
    if src.balance > 0 || src.assets != map[] {
      MergedHeld(Get(m, new0), src, x);
      MoveLines(m, old0, new0, src, Merged(Get(m, new0), src), x);
    } else {
      AccountPut(m, old0, Account(0, src.nonce, map[]), x);
    }
  }

  lemma RenamedLine(c: Circle, old0: Address, new0: Address)
    ensures RenameCircle(c, old0, new0).asset == c.asset && Holdings(RenameCircle(c, old0, new0)) == Holdings(c)
  {}

  lemma RenamedCircles(pools: map<Hash, Circle>, old0: Address, new0: Address, x: Asset)
    ensures InCircles(map id | id in pools :: RenameCircle(pools[id], old0, new0), x) == InCircles(pools, x)
  {
    hide RenameCircle, Holdings;
    var renamed := map id | id in pools :: RenameCircle(pools[id], old0, new0);
    forall id | id in pools ensures CircleLines(renamed, x)[id] == CircleLines(pools, x)[id] {
      RenamedLine(pools[id], old0, new0);
    }
    assert CircleLines(renamed, x) == CircleLines(pools, x);
  }

  lemma RenamedEscrows(escrows: map<Hash, Escrow>, old0: Address, new0: Address, x: Asset)
    ensures InEscrows(map id | id in escrows :: RenameEscrow(escrows[id], old0, new0), x) == InEscrows(escrows, x)
  {
    assert EscrowLines(map id | id in escrows :: RenameEscrow(escrows[id], old0, new0), x) == EscrowLines(escrows, x);
  }
}
