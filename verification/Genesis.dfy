/**
  The first ledger: assets and allocations of a genesis document. It is the base case of every run theorem.
 */
module Genesis {
  import opened Core
  import opened MapSums
  import opened CircleBooks
  import opened Escrows
  import opened Ledger
  import opened Conservation
  import opened LedgerSafety
  import opened RecoverySafety
  import opened MachineFacts
  import opened LedgerMachine

  datatype AssetRow = AssetRow(symbol: string, issuer: Address, minFee: Amount)

  datatype Allocation = Allocation(to: Address, amount: Amount)

  /** What of a genesis document the ledger is built from; malformed addresses are NoAddress. */
  datatype Document = Document(minFee: Amount, assets: seq<AssetRow>, allocations: seq<Allocation>)

  /** Two to ten capital letters, and not the native symbol. */
  predicate ValidSymbol(s: string) {
    2 <= |s| <= 10 && s != "ORP" && forall j :: 0 <= j < |s| ==> 'A' <= s[j] <= 'Z'
  }

  predicate GoodAssets(rows: seq<AssetRow>) {
    && (forall j :: 0 <= j < |rows| ==> ValidSymbol(rows[j].symbol) && rows[j].issuer.Key?)
    && (forall i, j :: 0 <= i < j < |rows| ==> rows[i].symbol != rows[j].symbol)
  }

  function AllocatedTo(rows: seq<Allocation>, k: nat): int
    requires k <= |rows|
  {
    if k == 0 then 0 else AllocatedTo(rows, k - 1) + rows[k - 1].amount
  }

  /** The money the document creates. */
  function Allocated(d: Document): int { AllocatedTo(d.allocations, |d.allocations|) }

  function DefsTo(rows: seq<AssetRow>, k: nat): map<Asset, AssetDef>
    requires k <= |rows|
  {
    if k == 0 then map[]
    else DefsTo(rows, k - 1)[Issued(rows[k - 1].symbol) := AssetDef(rows[k - 1].issuer, rows[k - 1].minFee)]
  }

  function EndowedTo(s: State, rows: seq<Allocation>, k: nat): State
    requires k <= |rows|
  {
    if k == 0 then s else Endowed(EndowedTo(s, rows, k - 1), rows[k - 1].to, rows[k - 1].amount)
  }

  /** The ledger a document describes. */
  function First(d: Document): State {
    EndowedTo(EmptyState(d.minFee).(defs := DefsTo(d.assets, |d.assets|)), d.allocations, |d.allocations|)
  }

  /** A ledger that has only been endowed: money in accounts alone, one unit of supply for each. */
  ghost predicate Young(s: State) {
    && s.pools == map[] && s.escrows == map[] && s.guards == map[] && s.recoveredTo == map[] && s.issued == map[]
      && s.burned == 0
    && ORP !in s.defs && AccountsOk(s.accounts)
    && (forall a :: a in s.accounts ==> s.accounts[a].nonce == 0 && s.accounts[a].assets == map[])
    && InAccounts(s.accounts, ORP) == s.supply
  }

  /** x is the symbol of one of the first k rows. */
  ghost predicate Named(rows: seq<AssetRow>, k: nat, x: Asset)
    requires k <= |rows|
  {
    exists j :: 0 <= j < k && Issued(rows[j].symbol) == x
  }

  lemma NamedNext(rows: seq<AssetRow>, k: nat, x: Asset)
    requires 0 < k <= |rows|
    ensures Named(rows, k, x) <==> Named(rows, k - 1, x) || x == Issued(rows[k - 1].symbol)
  {
    if x == Issued(rows[k - 1].symbol) {
      assert Issued(rows[k - 1].symbol) == x;
    }
  }

  /** The table holds exactly the symbols of the rows, and never the native asset. */
  lemma {:induction false} DefsNamed(rows: seq<AssetRow>, k: nat, x: Asset)
    requires k <= |rows|
    ensures x in DefsTo(rows, k) <==> Named(rows, k, x)
  {
    hide Named;
    if k > 0 {
      DefsNamed(rows, k - 1, x);
      NamedNext(rows, k, x);
    } else {
      NamedNone(rows, x);
    }
  }

  lemma NamedNone(rows: seq<AssetRow>, x: Asset)
    ensures !Named(rows, 0, x)
  {}

  lemma DefsWithoutOrp(rows: seq<AssetRow>, k: nat)
    requires k <= |rows|
    ensures ORP !in DefsTo(rows, k)
  {
    hide DefsTo;
    DefsNamed(rows, k, ORP);
  }

  lemma EndowedYoung(s: State, a: Address, amt: int)
    requires Young(s) && 0 <= amt
    ensures Young(Endowed(s, a, amt)) && Endowed(s, a, amt).supply == s.supply + amt
  {
    hide InAccounts;
    var acc := Get(s.accounts, a);
    AccountPut(s.accounts, a, acc.(balance := acc.balance + amt), ORP);
  }

  lemma {:induction false} EndowedToYoung(s: State, rows: seq<Allocation>, k: nat)
    requires Young(s) && k <= |rows|
    ensures Young(EndowedTo(s, rows, k)) && EndowedTo(s, rows, k).supply == s.supply + AllocatedTo(rows, k)
    ensures EndowedTo(s, rows, k).defs == s.defs
  {
    hide Young;
    if k > 0 {
      EndowedToYoung(s, rows, k - 1);
      EndowedYoung(EndowedTo(s, rows, k - 1), rows[k - 1].to, rows[k - 1].amount);
    }
  }

  /** In a ledger that has only been endowed the supply bounds every balance, so checking the supply is enough. */
  lemma YoungBounded(s: State, a: Address)
    requires Young(s)
    ensures 0 <= Get(s.accounts, a).balance <= s.supply
  {
    BalanceWithin(s.accounts, a, ORP);
    assert Balance(s.accounts, a, ORP) == Get(s.accounts, a).balance;
  }

  lemma YoungSound(s: State)
    requires Young(s) && s.supply < TWO64
    ensures LedgerInv(s) && Shaped(s) && SetupsOk(s)
  {
    hide CircleInv, EscrowInv, AccountOk;
    forall x ensures Money(s, x) == SupplyOf(s, x) && SupplyOf(s, x) < TWO64 {
      assert CircleLines(s.pools, x) == map[] && EscrowLines(s.escrows, x) == map[];
      if x != ORP {
        TotalZero(AccountLines(s.accounts, x));
      }
    }
  }

  lemma FirstYoung(d: Document)
    ensures Young(First(d)) && First(d).supply == Allocated(d)
  {
    StartYoung(d);
    EndowedToYoung(EmptyState(d.minFee).(defs := DefsTo(d.assets, |d.assets|)), d.allocations, |d.allocations|);
  }

  /**
    The base case of every run: whenever the allocations fit in 64 bits, the first ledger satisfies the whole
    invariant, owns exactly what was allocated, has burned nothing and has no recovery setup.
   */
  lemma FirstSound(d: Document)
    requires Allocated(d) < TWO64
    ensures var s := First(d);
      && LedgerInv(s) && Shaped(s) && SetupsOk(s) && s.guards == map[] && s.burned == 0 && s.supply == Allocated(d)
      && forall a :: Get(s.accounts, a).nonce == 0
  {
    hide LedgerInv, Shaped;
    FirstYoung(d);
    YoungSound(First(d));
  }

  /** What the first k rows allocate to one address. */
  function AllottedTo(rows: seq<Allocation>, k: nat, a: Address): int
    requires k <= |rows|
  {
    if k == 0 then 0 else AllottedTo(rows, k - 1, a) + if rows[k - 1].to == a then rows[k - 1].amount else 0
  }

  lemma {:induction false} EndowedHolds(s: State, rows: seq<Allocation>, k: nat, a: Address)
    requires k <= |rows|
    ensures var t := EndowedTo(s, rows, k);
      && Get(t.accounts, a) == Get(s.accounts, a).(balance := Get(s.accounts, a).balance + AllottedTo(rows, k, a))
      && t == s.(accounts := t.accounts, supply := t.supply)
  {
    if k > 0 {
      EndowedHolds(s, rows, k - 1, a);
    }
  }

  /** The first ledger gives every address what its own rows allocate, and no other asset or nonce. */
  lemma FirstOwns(d: Document, a: Address)
    ensures Get(First(d).accounts, a) == Account(AllottedTo(d.allocations, |d.allocations|, a), 0, map[])
    ensures First(d).minFee == d.minFee && First(d).pools == map[] && First(d).escrows == map[]
  {
    EndowedHolds(EmptyState(d.minFee).(defs := DefsTo(d.assets, |d.assets|)), d.allocations, |d.allocations|, a);
  }

  lemma {:induction false} DefsHold(rows: seq<AssetRow>, k: nat, j: nat)
    requires j < k <= |rows| && forall i :: j < i < k ==> rows[i].symbol != rows[j].symbol
    ensures var x := Issued(rows[j].symbol);
      x in DefsTo(rows, k) && DefsTo(rows, k)[x] == AssetDef(rows[j].issuer, rows[j].minFee)
  {
    if j < k - 1 {
      DefsHold(rows, k - 1, j);
    }
  }

  /** The first ledger defines exactly the assets of the rows, each with its own row's issuer and least fee. */
  lemma FirstDefines(d: Document)
    requires GoodAssets(d.assets)
    ensures forall j :: 0 <= j < |d.assets| ==> DefinesRow(First(d), d.assets[j])
    ensures forall x :: x in First(d).defs <==> exists j :: 0 <= j < |d.assets| && Issued(d.assets[j].symbol) == x
  {
    EndowedHolds(EmptyState(d.minFee).(defs := DefsTo(d.assets, |d.assets|)), d.allocations, |d.allocations|,
      NoAddress);
    hide EndowedTo, ValidSymbol;
    forall j | 0 <= j < |d.assets| ensures DefinesRow(First(d), d.assets[j]) {
      DefsHold(d.assets, |d.assets|, j);
    }
    forall x ensures x in First(d).defs <==> Named(d.assets, |d.assets|, x) {
      DefsNamed(d.assets, |d.assets|, x);
    }
  }

  predicate DefinesRow(s: State, row: AssetRow) {
    && Issued(row.symbol) in s.defs
    && s.defs[Issued(row.symbol)].issuer == row.issuer && s.defs[Issued(row.symbol)].minFee == row.minFee
  }

  lemma {:induction false} AllocatedGrows(rows: seq<Allocation>, i: nat, j: nat)
    requires i <= j <= |rows|
    ensures 0 <= AllocatedTo(rows, i) <= AllocatedTo(rows, j)
    decreases j
  {
    if i < j {
      AllocatedGrows(rows, i, j - 1);
    } else if i > 0 {
      AllocatedGrows(rows, i - 1, i - 1);
    }
  }

  /** One more row is good exactly when it is itself good and its symbol is new. */
  lemma GoodNext(rows: seq<AssetRow>, k: nat)
    requires k < |rows| && GoodAssets(rows[..k])
    ensures GoodAssets(rows[..k + 1]) <==>
      ValidSymbol(rows[k].symbol) && rows[k].issuer.Key? && !Named(rows, k, Issued(rows[k].symbol))
  {
    hide ValidSymbol;
    var more := rows[..k + 1];
    assert forall j :: 0 <= j < k ==> more[j] == rows[..k][j] == rows[j];
    assert more[k] == rows[k];
    if Named(rows, k, Issued(rows[k].symbol)) {
      var j :| 0 <= j < k && Issued(rows[j].symbol) == Issued(rows[k].symbol);
      assert more[j].symbol == more[k].symbol;
    }
  }

  lemma GoodPrefix(rows: seq<AssetRow>, k: nat)
    requires k <= |rows| && !GoodAssets(rows[..k])
    ensures !GoodAssets(rows)
  {
    hide ValidSymbol;
    assert forall j :: 0 <= j < k ==> rows[..k][j] == rows[j];
  }

  /** The asset table, row by row; None when a row is refused. */
  method BuildAssets(rows: seq<AssetRow>) returns (defs: Option<map<Asset, AssetDef>>)
    ensures defs.Some? <==> GoodAssets(rows)
    ensures defs.Some? ==> defs.value == DefsTo(rows, |rows|)
  {
    var table: map<Asset, AssetDef> := map[];
    var k := 0;
    while k < |rows|
      invariant 0 <= k <= |rows| && table == DefsTo(rows, k)
      invariant GoodAssets(rows[..k])
    {
      var row := rows[k];
      DefsNamed(rows, k, Issued(row.symbol));
      GoodNext(rows, k);
      if !ValidSymbol(row.symbol) || Issued(row.symbol) in table || !row.issuer.Key? {
        GoodPrefix(rows, k + 1);
        return None;
      }
      table := table[Issued(row.symbol) := AssetDef(row.issuer, row.minFee)];
      k := k + 1;
    }
    assert rows[..k] == rows;
    defs := Some(table);
  }

  /**
    Builds the first ledger. It is refused exactly when an asset row is bad or defined twice, or when the allocations
    together exceed 64 bits; otherwise it is the described one.
   */
  method Build(d: Document) returns (s: Option<LedgerState>)
    ensures s.Some? <==> GoodAssets(d.assets) && Allocated(d) < TWO64
    ensures s.Some? ==> fresh(s.value) && s.value.V() == First(d) && s.value.Separate()
  {
    hide EndowedTo, DefsTo, Young, LedgerState.Separate, AllocatedTo;
    var defs := BuildAssets(d.assets);
    if defs.None? {
      return None;
    }
    var st := new LedgerState.New(d.minFee);
    st.SetDefs(defs.value);
    StartYoung(d);
    var ok := Allocate(st, d.allocations);
    s := if ok then Some(st) else None;
  }

  /** The allocations, in order, until one is refused. */
  method Allocate(st: LedgerState, rows: seq<Allocation>) returns (ok: bool)
    requires Young(st.V()) && st.supply == 0 && st.Separate()
    modifies st`accounts, st`supply
    ensures ok <==> AllocatedTo(rows, |rows|) < TWO64
    ensures ok ==> st.V() == EndowedTo(old(st.V()), rows, |rows|)
    ensures st.Separate()
  {
    hide Young, Endowed, CanEndow;
    ghost var start := st.V();
    var k := 0;
    while k < |rows|
      invariant 0 <= k <= |rows| && st.Separate()
      invariant st.V() == EndowedTo(start, rows, k) && AllocatedTo(rows, k) < TWO64
    {
      AllocateNext(start, rows, k);
      ok := st.Endow(rows[k].to, rows[k].amount);
      if !ok {
        return;
      }
      k := k + 1;
    }
    ok := true;
  }

  lemma AllocateNext(start: State, rows: seq<Allocation>, k: nat)
    requires Young(start) && start.supply == 0 && k < |rows| && AllocatedTo(rows, k) < TWO64
    ensures var s := EndowedTo(start, rows, k);
      && 0 <= Get(s.accounts, rows[k].to).balance < TWO64
      && (CanEndow(s, rows[k].to, rows[k].amount) <==> AllocatedTo(rows, k + 1) < TWO64)
    ensures AllocatedTo(rows, k + 1) <= AllocatedTo(rows, |rows|)
  {
    EndowedToYoung(start, rows, k);
    EndowOrNot(EndowedTo(start, rows, k), rows[k].to, rows[k].amount);
    AllocatedGrows(rows, k + 1, |rows|);
  }

  lemma StartYoung(d: Document)
    ensures Young(EmptyState(d.minFee).(defs := DefsTo(d.assets, |d.assets|)))
  {
    DefsWithoutOrp(d.assets, |d.assets|);
    assert AccountLines(map[], ORP) == map[];
  }

  /** Since the supply bounds every balance, an allocation is refused exactly when the supply would not fit. */
  lemma EndowOrNot(s: State, a: Address, amt: Amount)
    requires Young(s) && s.supply < TWO64
    ensures 0 <= Get(s.accounts, a).balance < TWO64 && (CanEndow(s, a, amt) <==> s.supply + amt < TWO64)
  {
    YoungBounded(s, a);
  }
}
