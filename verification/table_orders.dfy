/**
 * The table order (billing) list: the entries of the chosen table's
 * orders, merged by name with their counts summed, and the "Mark as Paid"
 * button that is enabled only when every merged entry is served.
 */
module TableOrders {
  import opened Common
  import opened CartRecords

  const UnexpectedShape: string := "Unexpected data structure."
  const FetchFailed: string := "Error fetching data."

  /**
   * The value of the table select: "" (all tables) or a table number. The
   * select only offers "" and "1" to "10", so `parseInt` of a chosen value
   * is exactly that number.
   */
  datatype Selection = AllTables | Table(number: int)

  /** The body of `GET /cart/items`: a list of records, or anything else. */
  datatype CartBody = Records(records: seq<CartRecord>) | NotAList

  /** What `POST /bills/paid` carries (the clock and price parsing aside). */
  datatype PaidRequest = PaidRequest(tableNumber: int, items: seq<Entry>)

  // ---------------------------------------------------------------------
  // aggregateItems, specified

  /** An entry `aggregateItems` keeps: present, with a non-empty name. */
  predicate Named(o: Option<Entry>) {
    o.Some? && o.value.name != ""
  }

  predicate NamedAs(o: Option<Entry>, n: string) {
    Named(o) && o.value.name == n
  }

  /** The distinct names of the kept entries, in order of first occurrence. */
  function Names(items: seq<Option<Entry>>): seq<string>
    decreases |items|
  {
    if items == [] then []
    else
      var before := Names(items[..|items| - 1]);
      var o := items[|items| - 1];
      if Named(o) && o.value.name !in before then before + [o.value.name] else before
  }

  function Contribution(o: Option<Entry>, n: string): int {
    if NamedAs(o, n) then o.value.count else 0
  }

  /** The sum of the counts of the kept entries named `n`. */
  function Total(items: seq<Option<Entry>>, n: string): int
    decreases |items|
  {
    if items == [] then 0
    else Total(items[..|items| - 1], n) + Contribution(items[|items| - 1], n)
  }

  /** The sum of the counts of all kept entries. */
  function NamedCount(items: seq<Option<Entry>>): int
    decreases |items|
  {
    if items == [] then 0
    else
      var o := items[|items| - 1];
      NamedCount(items[..|items| - 1]) + (if Named(o) then o.value.count else 0)
  }

  /** The first kept entry named `n`. */
  function First(items: seq<Option<Entry>>, n: string): (e: Entry)
    requires n in Names(items)
    ensures e.name == n
    decreases |items|
  {
    var before := items[..|items| - 1];
    if n in Names(before) then First(before, n) else items[|items| - 1].value
  }

  /** The merged entry for `n`: the first occurrence, with the total count. */
  function Merged(items: seq<Option<Entry>>, n: string): Entry
    requires n in Names(items)
  {
    First(items, n).(count := Total(items, n))
  }

  /** What `aggregateItems` returns: one merged entry per distinct name. */
  function Aggregate(items: seq<Option<Entry>>): (r: seq<Entry>)
    ensures |r| == |Names(items)|
    ensures forall k | 0 <= k < |r| :: r[k].name == Names(items)[k]
    ensures forall k | 0 <= k < |r| :: r[k].count == Total(items, r[k].name)
  {
    seq(|Names(items)|, k requires 0 <= k < |Names(items)| => Merged(items, Names(items)[k]))
  }

  function SumCounts(es: seq<Entry>): int {
    if es == [] then 0 else es[0].count + SumCounts(es[1..])
  }

  // ---------------------------------------------------------------------
  // aggregateItems, computed

  /**
   * `aggregateItems`: a `reduce` over the entries into a plain object
   * keyed by name, then `Object.values`. The object is modelled as an
   * insertion-ordered map: the keys in insertion order plus the map.
   */
  method AggregateItems(items: seq<Option<Entry>>) returns (r: seq<Entry>)
    ensures r == Aggregate(items)
  {
    var order: seq<string> := [];
    var acc: map<string, Entry> := map[];
    var i := 0;
    while i < |items|
      invariant 0 <= i <= |items|
      invariant order == Names(items[..i])
      invariant forall n :: n in acc <==> n in order
      invariant forall n | n in acc :: n in Names(items[..i]) && acc[n] == Merged(items[..i], n)
    {
      ghost var before := items[..i];
      var o := items[i];
      assert items[..i + 1][..i] == before;
      if o.Some? && o.value.name != "" {
        var e := o.value;
        if e.name in acc {
          acc := acc[e.name := acc[e.name].(count := acc[e.name].count + e.count)];
        } else {
          TotalOfAbsent(before, e.name);
          acc := acc[e.name := e];
          order := order + [e.name];
        }
      }
      i := i + 1;
    }
    assert items[..i] == items;
    r := [];
    var k := 0;
    while k < |order|
      invariant 0 <= k <= |order|
      invariant |r| == k
      invariant forall j | 0 <= j < k :: r[j] == Merged(items, order[j])
    {
      r := r + [acc[order[k]]];
      k := k + 1;
    }
  }

  // ---------------------------------------------------------------------
  // Properties of the merge

  lemma {:induction false} TotalOfAbsent(items: seq<Option<Entry>>, n: string)
    requires n !in Names(items)
    ensures Total(items, n) == 0
  {
    if items != [] {
      TotalOfAbsent(items[..|items| - 1], n);
    }
  }

  /** The merged entries have pairwise different names. */
  lemma {:induction false} NamesDistinct(items: seq<Option<Entry>>)
    ensures forall i, j | 0 <= i < j < |Names(items)| :: Names(items)[i] != Names(items)[j]
  {
    if items != [] {
      NamesDistinct(items[..|items| - 1]);
    }
  }

  /** A name is merged exactly when some kept entry carries it. */
  lemma {:induction false} NamesAreTheKeptNames(items: seq<Option<Entry>>, n: string)
    ensures n in Names(items) <==> exists i | 0 <= i < |items| :: NamedAs(items[i], n)
  {
    if items != [] {
      var before := items[..|items| - 1];
      NamesAreTheKeptNames(before, n);
      if exists i | 0 <= i < |before| :: NamedAs(before[i], n) {
        var i :| 0 <= i < |before| && NamedAs(before[i], n);
        assert items[i] == before[i];
      }
      if exists i | 0 <= i < |items| :: NamedAs(items[i], n) {
        var i :| 0 <= i < |items| && NamedAs(items[i], n);
        if i < |before| {
          assert before[i] == items[i];
        }
      }
    }
  }

  /** There are never more merged entries than input entries. */
  lemma {:induction false} NamesNoLonger(items: seq<Option<Entry>>)
    ensures |Names(items)| <= |items|
  {
    if items != [] {
      NamesNoLonger(items[..|items| - 1]);
    }
  }

  /**
   * The names merged from any prefix of the input come first, in the same
   * order: names appear in the order of their first occurrence.
   */
  lemma {:induction false} NamesOfPrefix(items: seq<Option<Entry>>, m: nat)
    requires m <= |items|
    ensures Names(items[..m]) <= Names(items)
    decreases |items| - m
  {
    if m < |items| {
      var longer := items[..m + 1];
      assert longer[..m] == items[..m];
      NamesOfPrefix(items, m + 1);
      assert items[..m + 1][..|longer| - 1] == items[..m];
    } else {
      assert items[..m] == items;
    }
  }

  lemma {:induction false} TotalAppend(a: seq<Option<Entry>>, b: seq<Option<Entry>>, n: string)
    ensures Total(a + b, n) == Total(a, n) + Total(b, n)
    decreases |b|
  {
    if b != [] {
      var b' := b[..|b| - 1];
      assert (a + b)[..|a + b| - 1] == a + b';
      TotalAppend(a, b', n);
    } else {
      assert a + b == a;
    }
  }

  /** The entry at index `i` is the first kept entry with its name. */
  predicate FirstOccurrence(items: seq<Option<Entry>>, i: int) {
    && 0 <= i < |items|
    && Named(items[i])
    && forall j | 0 <= j < i :: !NamedAs(items[j], items[i].value.name)
  }

  /** `First` is the entry at the first index that carries the name. */
  lemma {:induction false} FirstIsFirstOccurrence(items: seq<Option<Entry>>, i: int)
    requires FirstOccurrence(items, i)
    ensures items[i].value.name in Names(items)
    ensures First(items, items[i].value.name) == items[i].value
    decreases |items|
  {
    var n := items[i].value.name;
    var before := items[..|items| - 1];
    if i < |items| - 1 {
      assert FirstOccurrence(before, i);
      FirstIsFirstOccurrence(before, i);
    } else {
      NamesAreTheKeptNames(before, n);
    }
  }

  /**
   * The merged entry for a name is its first occurrence with every field
   * kept but the count, which is the first occurrence's count plus the
   * counts of all later entries of that name.
   */
  lemma MergedFromFirstOccurrence(items: seq<Option<Entry>>, i: int)
    requires FirstOccurrence(items, i)
    ensures items[i].value.name in Names(items)
    ensures Merged(items, items[i].value.name) ==
      items[i].value.(count := items[i].value.count + Total(items[i + 1..], items[i].value.name))
  {
    var n := items[i].value.name;
    var pre, here, post := items[..i], [items[i]], items[i + 1..];
    FirstIsFirstOccurrence(items, i);
    assert n !in Names(pre) by {
      NamesAreTheKeptNames(pre, n);
      forall j | 0 <= j < |pre|
        ensures !NamedAs(pre[j], n)
      {
        assert pre[j] == items[j];
      }
    }
    TotalOfAbsent(pre, n);
    assert Total(here, n) == items[i].value.count by {
      assert here[..0] == [];
    }
    assert items == pre + (here + post);
    TotalAppend(pre, here + post, n);
    TotalAppend(here, post, n);
  }

  /** Every merged entry is one of the kept input entries, its count aside. */
  lemma {:induction false} FirstOccurs(items: seq<Option<Entry>>, n: string)
    requires n in Names(items)
    ensures exists i | 0 <= i < |items| :: NamedAs(items[i], n) && items[i].value == First(items, n)
    decreases |items|
  {
    var before := items[..|items| - 1];
    if n in Names(before) {
      FirstOccurs(before, n);
      var i :| 0 <= i < |before| && NamedAs(before[i], n) && before[i].value == First(before, n);
      assert items[i] == before[i];
    }
  }

  // Count conservation

  function SumTotals(ns: seq<string>, items: seq<Option<Entry>>): int {
    if ns == [] then 0 else Total(items, ns[0]) + SumTotals(ns[1..], items)
  }

  lemma {:induction false} SumCountsOfTotals(es: seq<Entry>, ns: seq<string>, items: seq<Option<Entry>>)
    requires |es| == |ns|
    requires forall k | 0 <= k < |es| :: es[k].count == Total(items, ns[k])
    ensures SumCounts(es) == SumTotals(ns, items)
  {
    if es != [] {
      SumCountsOfTotals(es[1..], ns[1..], items);
    }
  }

  lemma {:induction false} SumTotalsSnocName(ns: seq<string>, n: string, items: seq<Option<Entry>>)
    ensures SumTotals(ns + [n], items) == SumTotals(ns, items) + Total(items, n)
  {
    if ns != [] {
      assert (ns + [n])[1..] == ns[1..] + [n];
      SumTotalsSnocName(ns[1..], n, items);
    }
  }

  lemma {:induction false} SumTotalsSnocEntry(ns: seq<string>, before: seq<Option<Entry>>, o: Option<Entry>)
    requires forall i, j | 0 <= i < j < |ns| :: ns[i] != ns[j]
    ensures SumTotals(ns, before + [o]) ==
      SumTotals(ns, before) + (if Named(o) && o.value.name in ns then o.value.count else 0)
  {
    if ns != [] {
      assert (before + [o])[..|before + [o]| - 1] == before;
      SumTotalsSnocEntry(ns[1..], before, o);
      if Named(o) && o.value.name == ns[0] {
        assert o.value.name !in ns[1..];
      }
    }
  }

  /** Merging moves counts between entries but neither loses nor invents any. */
  lemma {:induction false} AggregateConservesCount(items: seq<Option<Entry>>)
    ensures SumCounts(Aggregate(items)) == NamedCount(items)
    decreases |items|
  {
    SumCountsOfTotals(Aggregate(items), Names(items), items);
    if items != [] {
      var before := items[..|items| - 1];
      var o := items[|items| - 1];
      assert items == before + [o];
      AggregateConservesCount(before);
      SumCountsOfTotals(Aggregate(before), Names(before), before);
      NamesDistinct(before);
      SumTotalsSnocEntry(Names(before), before, o);
      if Named(o) && o.value.name !in Names(before) {
        SumTotalsSnocName(Names(before), o.value.name, items);
        TotalOfAbsent(before, o.value.name);
      }
    }
  }

  /** `[Rice x2, Rice x3]` merges into a single `Rice x5`. */
  lemma DuplicateNamesAreSummed(rice: Entry)
    requires rice.name == "Rice"
    ensures Aggregate([Some(rice.(count := 2)), Some(rice.(count := 3))]) == [rice.(count := 5)]
  {
    var items := [Some(rice.(count := 2)), Some(rice.(count := 3))];
    assert items[..1] == [Some(rice.(count := 2))];
    assert items[..1][..0] == [];
    assert Names(items[..1]) == ["Rice"];
    assert Names(items) == ["Rice"];
    assert Total(items[..1], "Rice") == 2;
    assert First(items, "Rice") == rice.(count := 2);
  }

  // ---------------------------------------------------------------------
  // Filtering and flattening

  /** The records of the selected table, or all records for "". */
  function Select(records: seq<CartRecord>, sel: Selection): seq<CartRecord> {
    if records == [] then []
    else if sel.AllTables? || records[0].tableNumber == sel.number then [records[0]] + Select(records[1..], sel)
    else Select(records[1..], sel)
  }

  /** `flatMap(t => t.items)`. */
  function ItemsOf(records: seq<CartRecord>): seq<Entry> {
    if records == [] then [] else records[0].items + ItemsOf(records[1..])
  }

  /** `flatMap(t => t.combos)`. */
  function CombosOf(records: seq<CartRecord>): seq<Entry> {
    if records == [] then [] else records[0].combos + CombosOf(records[1..])
  }

  /** `flatMap(t => [...t.items, ...t.combos])`. */
  function EntriesOf(records: seq<CartRecord>): seq<Entry> {
    if records == [] then [] else records[0].items + records[0].combos + EntriesOf(records[1..])
  }

  function Present(es: seq<Entry>): seq<Option<Entry>> {
    seq(|es|, i requires 0 <= i < |es| => Some(es[i]))
  }

  /** The list `handleFilterChange` shows: the line items only. */
  function FilterView(data: seq<CartRecord>, sel: Selection): seq<Entry> {
    Aggregate(Present(ItemsOf(Select(data, sel))))
  }

  /**
   * The list `fetchData` shows: line items and combos, all items before
   * all combos for "", record by record for one table.
   */
  function FetchView(records: seq<CartRecord>, sel: Selection): seq<Entry> {
    match sel
    case AllTables => Aggregate(Present(ItemsOf(records) + CombosOf(records)))
    case Table(_) => Aggregate(Present(EntriesOf(Select(records, sel))))
  }

  function TableNumbers(records: seq<CartRecord>): (tables: set<int>)
    ensures forall t :: t in tables <==> exists r | r in records :: r.tableNumber == t
  {
    set r | r in records :: r.tableNumber
  }

  lemma SelectAll(records: seq<CartRecord>)
    ensures Select(records, AllTables) == records
  {
  }

  /** One table's selection keeps exactly that table's records, in order. */
  lemma {:induction false} SelectTable(records: seq<CartRecord>, n: int)
    ensures forall r :: r in Select(records, Table(n)) <==> r in records && r.tableNumber == n
    ensures |Select(records, Table(n))| <= |records|
  {
    if records != [] {
      SelectTable(records[1..], n);
      assert records == [records[0]] + records[1..];
    }
  }

  /**
   * Both ways of flattening all records gather the same entries; only
   * their order differs, and with it the order of the merged list.
   */
  lemma {:induction false} AllTablesFlattenIsReordering(records: seq<CartRecord>)
    ensures multiset(ItemsOf(records) + CombosOf(records)) == multiset(EntriesOf(records))
  {
    if records != [] {
      AllTablesFlattenIsReordering(records[1..]);
    }
  }

  // ---------------------------------------------------------------------
  // The paid guard

  /** `areAllItemsFinished`. */
  predicate AllServed(es: seq<Entry>) {
    forall e | e in es :: IsServed(e)
  }

  /** When every kept entry is served, so is every merged entry. */
  lemma AllServedSurvivesMerge(items: seq<Option<Entry>>)
    requires forall i | 0 <= i < |items| :: Named(items[i]) ==> IsServed(items[i].value)
    ensures AllServed(Aggregate(items))
  {
    forall e | e in Aggregate(items)
      ensures IsServed(e)
    {
      var k :| 0 <= k < |Names(items)| && Aggregate(items)[k] == e;
      FirstOccurs(items, Names(items)[k]);
    }
  }

  /**
   * The converse fails: a merged entry carries the status of its first
   * occurrence, so a later unserved entry of the same name leaves the
   * merged list all served.
   */
  lemma LaterUnservedDuplicateIsHidden(rice: Entry)
    requires rice.name == "Rice"
    ensures var items := [Some(rice.(status := Served)), Some(rice.(status := NotServed))];
      AllServed(Aggregate(items)) && !IsServed(items[1].value)
  {
    var items := [Some(rice.(status := Served)), Some(rice.(status := NotServed))];
    assert items[..1] == [Some(rice.(status := Served))];
    assert items[..1][..0] == [];
    assert Names(items[..1]) == ["Rice"];
    assert Names(items) == ["Rice"];
    assert First(items, "Rice") == rice.(status := Served);
  }

  // ---------------------------------------------------------------------
  // The page component

  class TableOrderList {
    var data: seq<CartRecord>
    var filteredData: seq<Entry>
    var showTable: bool
    var selectedTable: Selection
    var loading: bool
    var error: Option<string>
    var tablesWithData: set<int>

    constructor ()
      ensures data == [] && filteredData == [] && !showTable && selectedTable == AllTables
      ensures loading && error == None && tablesWithData == {}
    {
      data := [];
      filteredData := [];
      showTable := false;
      selectedTable := AllTables;
      loading := true;
      error := None;
      tablesWithData := {};
    }

    /** `handleFilterChange`: choose a table and show its merged line items. */
    method HandleFilterChange(table: Selection)
      modifies this`selectedTable, this`filteredData
      ensures selectedTable == table
      ensures filteredData == FilterView(data, table)
    {
      selectedTable := table;
      var tableItems: seq<Entry>;
      if table.AllTables? {
        SelectAll(data);
        var allItems := ItemsOf(data);
        tableItems := AggregateItems(Present(allItems));
      } else {
        tableItems := ItemsOf(Select(data, table));
        tableItems := AggregateItems(Present(tableItems));
      }
      filteredData := tableItems;
    }

    /**
     * `fetchData`, given the reply to `GET /cart/items`. A list replaces
     * the records, the set of tables that have orders, and the shown list;
     * anything else only sets the error, which is never cleared.
     */
    method FetchData(response: Response<CartBody>)
      modifies this`data, this`tablesWithData, this`filteredData, this`loading, this`error
      ensures !loading
      ensures response.Success? && response.body.Records? ==>
        var records := response.body.records;
        data == records && tablesWithData == TableNumbers(records) &&
        filteredData == FetchView(records, selectedTable) && error == old(error)
      ensures response.Success? && response.body.NotAList? ==>
        data == old(data) && tablesWithData == old(tablesWithData) &&
        filteredData == old(filteredData) && error == Some(UnexpectedShape)
      ensures response.Failure? ==>
        data == old(data) && tablesWithData == old(tablesWithData) &&
        filteredData == old(filteredData) && error == Some(FetchFailed)
    {
      loading := true;
      if response.Success? {
        if response.body.Records? {
          var records := response.body.records;
          data := records;
          tablesWithData := set r | r in records :: r.tableNumber;
          var tableItems: seq<Entry>;
          if selectedTable.AllTables? {
            var allItems := ItemsOf(records);
            var allCombos := CombosOf(records);
            tableItems := AggregateItems(Present(allItems + allCombos));
          } else {
            tableItems := EntriesOf(Select(records, selectedTable));
            tableItems := AggregateItems(Present(tableItems));
          }
          filteredData := tableItems;
        } else {
          error := Some(UnexpectedShape);
        }
      } else {
        error := Some(FetchFailed);
      }
      loading := false;
    }

    method HandleToggle()
      modifies this`showTable
      ensures showTable == !old(showTable)
    {
      showTable := !showTable;
    }

    /** `areAllItemsFinished` over the shown list. */
    predicate AreAllItemsFinished()
      reads this
    {
      AllServed(filteredData)
    }

    /** The button is rendered: no load or error, the list open, a table chosen, entries shown. */
    predicate PaidButtonShown()
      reads this
    {
      !loading && error.None? && showTable && selectedTable.Table? && |filteredData| > 0
    }

    predicate PaidButtonEnabled()
      reads this
    {
      PaidButtonShown() && AreAllItemsFinished()
    }

    /**
     * A click on "Mark as Paid": nothing happens unless the button is
     * shown and enabled; otherwise the paid request is sent, `post` is its
     * reply, and on success the list is fetched again with reply `refetch`.
     */
    method ClickMarkAsPaid(post: Response<()>, refetch: Response<CartBody>) returns (request: Option<PaidRequest>)
      modifies this`data, this`tablesWithData, this`filteredData, this`loading, this`error
      ensures request.Some? <==> old(PaidButtonEnabled())
      ensures request.Some? ==>
        request.value == PaidRequest(old(selectedTable).number, old(filteredData)) &&
        forall e | e in request.value.items :: IsServed(e)
      ensures request.None? || post.Failure? ==>
        data == old(data) && tablesWithData == old(tablesWithData) &&
        filteredData == old(filteredData) && loading == old(loading) && error == old(error)
      ensures request.Some? && post.Success? ==> !loading
      ensures request.Some? && post.Success? && refetch.Success? && refetch.body.Records? ==>
        var records := refetch.body.records;
        data == records && tablesWithData == TableNumbers(records) &&
        filteredData == FetchView(records, selectedTable) && error == old(error)
      ensures request.Some? && post.Success? && refetch.Success? && refetch.body.NotAList? ==>
        data == old(data) && tablesWithData == old(tablesWithData) &&
        filteredData == old(filteredData) && error == Some(UnexpectedShape)
      ensures request.Some? && post.Success? && refetch.Failure? ==>
        data == old(data) && tablesWithData == old(tablesWithData) &&
        filteredData == old(filteredData) && error == Some(FetchFailed)
    {
      if !PaidButtonEnabled() {
        return None;
      }
      request := Some(PaidRequest(selectedTable.number, filteredData));
      if post.Success? {
        FetchData(refetch);
      }
    }
  }
}
