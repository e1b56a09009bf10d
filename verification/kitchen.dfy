/**
 * The kitchen order board: every cart record is shown as a card coloured
 * by how much of it has been served, and a selected order's entries can
 * be marked "Served" one at a time.
 */
module Kitchen {
  import opened Common
  import opened CartRecords

  /** How much of one order has been served. */
  datatype Progress = AllServed | SomeServed | NoneServed

  /** The `itemStatuses` state: order ids sorted into three lists. */
  datatype Buckets = Buckets(all: seq<string>, few: seq<string>, none: seq<string>)

  const EmptyBuckets: Buckets := Buckets([], [], [])

  const SuccessClass: string := "bg-success"
  const WarningClass: string := "bg-warning"
  const DangerClass: string := "bg-danger"

  /**
   * An order is all-served when `every` entry is served (so an order with
   * no entries at all is all-served), some-served when at least one but
   * not all are, and none-served otherwise.
   */
  function Classify(r: CartRecord): Progress {
    var es := AllEntries(r);
    if forall e | e in es :: IsServed(e) then AllServed
    else if exists e | e in es :: IsServed(e) then SomeServed
    else NoneServed
  }

  /** The ids of the records of progress `p`, in record order. */
  function IdsOf(records: seq<CartRecord>, p: Progress): seq<string> {
    if records == [] then []
    else (if Classify(records[0]) == p then [records[0].id] else []) + IdsOf(records[1..], p)
  }

  /** The three lists the bucketing effect computes from `cartItems`. */
  function Bucketed(records: seq<CartRecord>): Buckets {
    Buckets(IdsOf(records, AllServed), IdsOf(records, SomeServed), IdsOf(records, NoneServed))
  }

  function ColourOf(p: Progress): string {
    match p
    case AllServed => SuccessClass
    case SomeServed => WarningClass
    case NoneServed => DangerClass
  }

  /** The records' ids, one per record, in record order. */
  function Ids(records: seq<CartRecord>): (ids: seq<string>)
    ensures |ids| == |records|
    ensures forall i | 0 <= i < |records| :: ids[i] == records[i].id
  {
    if records == [] then [] else [records[0].id] + Ids(records[1..])
  }

  /**
   * `getCardClass`: the colour of the first list, in the order all, few,
   * none, that holds `id`; the empty class when none does.
   */
  function CardClass(b: Buckets, id: string): (c: string)
    ensures id in b.all ==> c == SuccessClass
    ensures id !in b.all && id in b.few ==> c == WarningClass
    ensures id !in b.all && id !in b.few && id in b.none ==> c == DangerClass
    ensures c == "" <==> id !in b.all && id !in b.few && id !in b.none
  {
    if id in b.all then SuccessClass
    else if id in b.few then WarningClass
    else if id in b.none then DangerClass
    else ""
  }

  // ---------------------------------------------------------------------
  // Classification

  lemma EmptyOrderIsAllServed(r: CartRecord)
    requires r.items == [] && r.combos == []
    ensures Classify(r) == AllServed
  {
  }

  /** The three classes, each characterised by the statuses alone. */
  lemma ClassifyCharacterised(r: CartRecord)
    ensures Classify(r) == AllServed <==> forall e | e in r.items + r.combos :: IsServed(e)
    ensures Classify(r) == SomeServed <==>
      (exists e | e in r.items + r.combos :: IsServed(e)) &&
      (exists e | e in r.items + r.combos :: !IsServed(e))
    ensures Classify(r) == NoneServed <==>
      r.items + r.combos != [] && forall e | e in r.items + r.combos :: !IsServed(e)
  {
    var es := r.items + r.combos;
    if es != [] && forall e | e in es :: !IsServed(e) {
      assert es[0] in es && !IsServed(es[0]);
    }
  }

  // ---------------------------------------------------------------------
  // Bucketing

  lemma {:induction false} IdsOfAppend(a: seq<CartRecord>, b: seq<CartRecord>, p: Progress)
    ensures IdsOf(a + b, p) == IdsOf(a, p) + IdsOf(b, p)
  {
    if a == [] {
      assert a + b == b;
    } else {
      assert (a + b)[1..] == a[1..] + b;
      IdsOfAppend(a[1..], b, p);
    }
  }

  /** Bucketing one more record pushes its id onto exactly one list. */
  lemma BucketedSnoc(records: seq<CartRecord>, r: CartRecord)
    ensures Bucketed(records + [r]) ==
      match Classify(r)
      case AllServed => Bucketed(records).(all := Bucketed(records).all + [r.id])
      case SomeServed => Bucketed(records).(few := Bucketed(records).few + [r.id])
      case NoneServed => Bucketed(records).(none := Bucketed(records).none + [r.id])
  {
    IdsOfAppend(records, [r], AllServed);
    IdsOfAppend(records, [r], SomeServed);
    IdsOfAppend(records, [r], NoneServed);
  }

  /**
   * The three lists partition the records' ids: together they hold every
   * id exactly as often as the records do.
   */
  lemma {:induction false} BucketsPartition(records: seq<CartRecord>)
    ensures multiset(IdsOf(records, AllServed)) + multiset(IdsOf(records, SomeServed)) +
            multiset(IdsOf(records, NoneServed)) == multiset(Ids(records))
  {
    if records != [] {
      var r, rest := records[0], records[1..];
      BucketsPartition(rest);
      MultisetOfOnePush(r.id, Classify(r), IdsOf(rest, AllServed), IdsOf(rest, SomeServed), IdsOf(rest, NoneServed));
    }
  }

  /** Pushing `x` in front of exactly one of three lists adds `x` once to their union. */
  lemma MultisetOfOnePush(x: string, p: Progress, all: seq<string>, few: seq<string>, none: seq<string>)
    ensures multiset((if p == AllServed then [x] else []) + all) +
            multiset((if p == SomeServed then [x] else []) + few) +
            multiset((if p == NoneServed then [x] else []) + none) ==
            multiset{x} + multiset(all) + multiset(few) + multiset(none)
  {
  }

  /** Every record pushes exactly one id: the list lengths sum to the number of records. */
  lemma BucketsSizes(records: seq<CartRecord>)
    ensures |Bucketed(records).all| + |Bucketed(records).few| + |Bucketed(records).none| == |records|
  {
    BucketsPartition(records);
    var b := Bucketed(records);
    calc {
      |b.all| + |b.few| + |b.none|;
      |multiset(b.all) + multiset(b.few) + multiset(b.none)|;
      |multiset(Ids(records))|;
      |records|;
    }
  }

  /** An id is in the list of progress `p` exactly when a record with that id has progress `p`. */
  lemma {:induction false} InBucketIff(records: seq<CartRecord>, p: Progress, id: string)
    ensures id in IdsOf(records, p) <==>
      exists i | 0 <= i < |records| :: records[i].id == id && Classify(records[i]) == p
  {
    if records != [] {
      InBucketIff(records[1..], p, id);
      if id in IdsOf(records[1..], p) {
        var i :| 0 <= i < |records[1..]| && records[1..][i].id == id && Classify(records[1..][i]) == p;
        assert records[i + 1] == records[1..][i];
      }
      if exists i | 0 <= i < |records| :: records[i].id == id && Classify(records[i]) == p {
        var i :| 0 <= i < |records| && records[i].id == id && Classify(records[i]) == p;
        if i > 0 {
          assert records[1..][i - 1] == records[i];
        }
      }
    }
  }

  /** With distinct order ids, an order's id is in its own list and in no other. */
  lemma OnlyOwnBucket(records: seq<CartRecord>, i: nat, p: Progress)
    requires i < |records|
    requires forall j, k | 0 <= j < k < |records| :: records[j].id != records[k].id
    ensures records[i].id in IdsOf(records, p) <==> p == Classify(records[i])
  {
    InBucketIff(records, p, records[i].id);
    if records[i].id in IdsOf(records, p) {
      var j :| 0 <= j < |records| && records[j].id == records[i].id && Classify(records[j]) == p;
      assert j == i;
    }
  }

  /**
   * When order ids are distinct, the card of each order gets the colour
   * of that order's own progress.
   */
  lemma CardClassOfRecord(records: seq<CartRecord>, i: nat)
    requires i < |records|
    requires forall j, k | 0 <= j < k < |records| :: records[j].id != records[k].id
    ensures CardClass(Bucketed(records), records[i].id) == ColourOf(Classify(records[i]))
  {
    OnlyOwnBucket(records, i, AllServed);
    OnlyOwnBucket(records, i, SomeServed);
    OnlyOwnBucket(records, i, NoneServed);
  }

  // ---------------------------------------------------------------------
  // The success patch of handleFinishClick

  function ServeIfTarget(e: Entry, target: string): Entry {
    if e.id == target then e.(status := Served) else e
  }

  function ServeIn(es: seq<Entry>, target: string): seq<Entry> {
    seq(|es|, i requires 0 <= i < |es| => ServeIfTarget(es[i], target))
  }

  /**
   * The optimistic patch: in every record whose id is `cartId`, the line
   * items and the combos whose id is `target` become "Served".
   */
  function ServeInCart(records: seq<CartRecord>, cartId: string, target: string): seq<CartRecord> {
    seq(|records|, i requires 0 <= i < |records| =>
      if records[i].id == cartId
      then records[i].(items := ServeIn(records[i].items, target), combos := ServeIn(records[i].combos, target))
      else records[i])
  }

  /**
   * Only the records with the selected id change; in them only the
   * entries with the target id change, and only their status.
   */
  lemma ServeInCartFrame(records: seq<CartRecord>, cartId: string, target: string)
    ensures var after := ServeInCart(records, cartId, target);
      |after| == |records| &&
      forall i | 0 <= i < |records| ::
        && after[i].id == records[i].id
        && after[i].tableNumber == records[i].tableNumber
        && |after[i].items| == |records[i].items|
        && |after[i].combos| == |records[i].combos|
        && (records[i].id != cartId ==> after[i] == records[i])
        && (records[i].id == cartId ==>
             && (forall j | 0 <= j < |records[i].items| ::
                  after[i].items[j] ==
                    if records[i].items[j].id == target then records[i].items[j].(status := Served)
                    else records[i].items[j])
             && (forall j | 0 <= j < |records[i].combos| ::
                  after[i].combos[j] ==
                    if records[i].combos[j].id == target then records[i].combos[j].(status := Served)
                    else records[i].combos[j]))
  {
  }

  /** Marking the same entry served twice is the same as marking it once. */
  lemma ServeInCartIdempotent(records: seq<CartRecord>, cartId: string, target: string)
    ensures ServeInCart(ServeInCart(records, cartId, target), cartId, target) ==
            ServeInCart(records, cartId, target)
  {
    var once := ServeInCart(records, cartId, target);
    var twice := ServeInCart(once, cartId, target);
    forall i | 0 <= i < |records|
      ensures twice[i] == once[i]
    {
      if records[i].id == cartId {
        assert twice[i].items == once[i].items;
        assert twice[i].combos == once[i].combos;
      }
    }
  }

  lemma ServeInEntries(es: seq<Entry>, target: string)
    ensures |ServeIn(es, target)| == |es|
    ensures forall j | 0 <= j < |es| :: IsServed(ServeIn(es, target)[j]) <==> es[j].id == target || IsServed(es[j])
  {
  }

  /**
   * After the patch an order is all-served exactly when every entry of it
   * that is not the target was already served: marking the last unserved
   * entry moves the order to `all`.
   */
  lemma ServedOrderAfterPatch(records: seq<CartRecord>, cartId: string, target: string, i: nat)
    requires i < |records| && records[i].id == cartId
    ensures Classify(ServeInCart(records, cartId, target)[i]) == AllServed <==>
      forall e | e in records[i].items + records[i].combos :: e.id == target || IsServed(e)
  {
    var r := records[i];
    var r' := ServeInCart(records, cartId, target)[i];
    ServeInEntries(r.items, target);
    ServeInEntries(r.combos, target);
    if forall e | e in r.items + r.combos :: e.id == target || IsServed(e) {
      forall e | e in r'.items + r'.combos
        ensures IsServed(e)
      {
        if e in r'.items {
          var j :| 0 <= j < |r.items| && r'.items[j] == e;
        } else {
          var j :| 0 <= j < |r.combos| && r'.combos[j] == e;
        }
      }
    }
    if forall e | e in r'.items + r'.combos :: IsServed(e) {
      forall e | e in r.items + r.combos
        ensures e.id == target || IsServed(e)
      {
        if e in r.items {
          var j :| 0 <= j < |r.items| && r.items[j] == e;
          assert r'.items[j] in r'.items + r'.combos;
        } else {
          var j :| 0 <= j < |r.combos| && r.combos[j] == e;
          assert r'.combos[j] in r'.items + r'.combos;
        }
      }
    }
  }

  function Rank(p: Progress): nat {
    match p
    case NoneServed => 0
    case SomeServed => 1
    case AllServed => 2
  }

  /** The patch never moves an order backwards: none, then few, then all. */
  lemma PatchIsMonotone(records: seq<CartRecord>, cartId: string, target: string, i: nat)
    requires i < |records|
    ensures Rank(Classify(records[i])) <= Rank(Classify(ServeInCart(records, cartId, target)[i]))
  {
    var r := records[i];
    var r' := ServeInCart(records, cartId, target)[i];
    if r.id == cartId {
      ServeInEntries(r.items, target);
      ServeInEntries(r.combos, target);
      var es, es' := r.items + r.combos, r'.items + r'.combos;
      assert |es| == |es'|;
      assert forall j | 0 <= j < |es| :: es'[j] == ServeIfTarget(es[j], target);
      if Classify(r) == AllServed {
        forall e' | e' in es'
          ensures IsServed(e')
        {
          var k :| 0 <= k < |es'| && es'[k] == e';
          assert es[k] in es;
        }
      } else if Classify(r) == SomeServed {
        var e :| e in es && IsServed(e);
        var j :| 0 <= j < |es| && es[j] == e;
        assert es'[j] in es' && IsServed(es'[j]);
      }
    }
  }

  // ---------------------------------------------------------------------
  // The page component

  /** Which branch of `handleFinishClick` was taken. */
  datatype FinishOutcome =
    | NoSelection      // no card selected: only logged
    | Threw            // the selected index is past the end: `cartItems[i]._id` throws
    | EntryNotFound    // no entry at that index of the chosen list: only logged
    | RequestFailed    // the PUT was rejected: an alert, nothing else
    | MarkedServed     // the PUT succeeded and the local state was patched

  /**
   * Computes the three lists as the effect does: one pass over the
   * records, pushing each id onto the list of its order's progress.
   */
  method ComputeBuckets(records: seq<CartRecord>) returns (b: Buckets)
    ensures b == Bucketed(records)
  {
    b := EmptyBuckets;
    var i := 0;
    while i < |records|
      invariant 0 <= i <= |records|
      invariant b == Bucketed(records[..i])
    {
      var r := records[i];
      ghost var done := Bucketed(records[..i]);
      BucketedSnoc(records[..i], r);
      assert records[..i + 1] == records[..i] + [r];
      var es := r.items + r.combos;
      assert es == AllEntries(r);
      var allFinished := forall e | e in es :: e.status == Served;
      var anyFinished := exists e | e in es :: e.status == Served;
      if allFinished {
        assert Classify(r) == AllServed;
        b := b.(all := b.all + [r.id]);
        assert b == done.(all := done.all + [r.id]);
      } else if anyFinished {
        assert Classify(r) == SomeServed;
        b := b.(few := b.few + [r.id]);
        assert b == done.(few := done.few + [r.id]);
      } else {
        assert Classify(r) == NoneServed;
        b := b.(none := b.none + [r.id]);
        assert b == done.(none := done.none + [r.id]);
      }
      i := i + 1;
    }
    assert records[..i] == records;
  }

  class KitchenPage {
    var cartItems: seq<CartRecord>
    var selectedIndex: Option<nat>
    var itemStatuses: Buckets
    var loading: bool
    var error: Option<string>

    constructor ()
      ensures cartItems == [] && selectedIndex == None && itemStatuses == EmptyBuckets
      ensures !loading && error == None
    {
      cartItems := [];
      selectedIndex := None;
      itemStatuses := EmptyBuckets;
      loading := false;
      error := None;
    }

    /**
     * The bucketing effect, run after every change of `cartItems`: the
     * lists are recomputed when there are records and kept otherwise.
     */
    method RefreshStatuses()
      modifies this`itemStatuses
      ensures |cartItems| > 0 ==> itemStatuses == Bucketed(cartItems)
      ensures |cartItems| == 0 ==> itemStatuses == old(itemStatuses)
    {
      if |cartItems| > 0 {
        itemStatuses := ComputeBuckets(cartItems);
      }
    }

    /** The fetch on mount: the records replace `cartItems`, or the error message is kept. */
    method LoadCart(response: Response<seq<CartRecord>>)
      modifies this
      ensures !loading && selectedIndex == old(selectedIndex)
      ensures response.Success? ==>
        cartItems == response.body && error == old(error) &&
        (|cartItems| > 0 ==> itemStatuses == Bucketed(cartItems)) &&
        (|cartItems| == 0 ==> itemStatuses == old(itemStatuses))
      ensures response.Failure? ==>
        cartItems == old(cartItems) && itemStatuses == old(itemStatuses) &&
        error == Some(response.message)
    {
      loading := true;
      if response.Success? {
        cartItems := response.body;
        loading := false;
        RefreshStatuses();
      } else {
        error := Some(response.message);
        loading := false;
      }
    }

    method HandleCardClick(index: nat)
      modifies this`selectedIndex
      ensures selectedIndex == Some(index)
    {
      selectedIndex := Some(index);
    }

    /**
     * `handleFinishClick`: the entry at `foodItemIndex` of the selected
     * order's combos (when `isCombo`) or items is marked served on the
     * server; `response` is the reply to that PUT. On success every entry
     * with the same id, in both lists of the order, is patched locally.
     */
    method HandleFinishClick(foodItemIndex: nat, isCombo: bool, response: Response<()>)
      returns (outcome: FinishOutcome)
      modifies this`cartItems, this`itemStatuses
      ensures selectedIndex.None? ==> outcome == NoSelection
      ensures selectedIndex.Some? && selectedIndex.value >= |cartItems| ==> outcome == Threw
      ensures selectedIndex.Some? && selectedIndex.value < |cartItems| ==>
        var list := if isCombo then cartItems[selectedIndex.value].combos else cartItems[selectedIndex.value].items;
        outcome == (if foodItemIndex >= |list| then EntryNotFound
                    else if response.Failure? then RequestFailed
                    else MarkedServed)
      ensures outcome != MarkedServed ==> cartItems == old(cartItems) && itemStatuses == old(itemStatuses)
      ensures outcome == MarkedServed ==>
        selectedIndex.Some? && selectedIndex.value < |old(cartItems)| &&
        var r := old(cartItems)[selectedIndex.value];
        var list := if isCombo then r.combos else r.items;
        foodItemIndex < |list| &&
        cartItems == ServeInCart(old(cartItems), r.id, list[foodItemIndex].id) &&
        itemStatuses == Bucketed(cartItems)
    {
      if selectedIndex.None? {
        return NoSelection;
      }
      var index := selectedIndex.value;
      if index >= |cartItems| {
        return Threw;
      }
      var cartItemId := cartItems[index].id;
      var selectedItem := cartItems[index];
      var list := if isCombo then selectedItem.combos else selectedItem.items;
      if foodItemIndex >= |list| {
        return EntryNotFound;
      }
      var foodItem := list[foodItemIndex];
      if response.Failure? {
        return RequestFailed;
      }
      cartItems := ServeInCart(cartItems, cartItemId, foodItem.id);
      RefreshStatuses();
      outcome := MarkedServed;
    }

    /** `getCardClass` over the current lists. */
    function GetCardClass(id: string): (c: string)
      reads this
      ensures c in {SuccessClass, WarningClass, DangerClass, ""}
      ensures c == SuccessClass <==> id in itemStatuses.all
    {
      CardClass(itemStatuses, id)
    }
  }
}
