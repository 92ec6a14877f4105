/** Template filters over lists of records. A record is seen the way getattr()
    sees it: a mapping from attribute names to values, which may be numbers,
    text or None. */
module TrackerFilters {
  import opened Wrappers
  import opened Sums

  datatype Value = Number(n: real) | Text(s: string) | NoneValue

  type Item = map<string, Value>

  /** getattr(item, name, default). */
  function GetAttr(item: Item, name: string, default: Value): Value
  {
    if name in item then item[name] else default
  }

  /** The weight sum() adds for one item: its numeric attribute, or 0 if it lacks it. */
  function Weight(item: Item, name: string): real
  {
    if name in item && item[name].Number? then item[name].n else 0.0
  }

  /** Whether adding the item's attribute would raise TypeError: it has the
      attribute and it is not a number. */
  predicate Breaks(item: Item, name: string)
  {
    name in item && !item[name].Number?
  }

  function AnyBreaks(items: seq<Item>, name: string): bool
  {
    exists i :: 0 <= i < |items| && Breaks(items[i], name)
  }

  /** sum_attr: sums the attribute over the items that have it. An empty or
      missing collection gives 0, and so does a sum that raises TypeError. */
  function SumAttr(queryset: Option<seq<Item>>, name: string): (r: real)
    ensures r != 0.0 ==> queryset.Some? && queryset.value != [] && !AnyBreaks(queryset.value, name)
    ensures queryset.Some? && (forall x :: x in queryset.value ==> Weight(x, name) >= 0.0) ==> r >= 0.0
  {
    if queryset.None? || queryset.value == [] then 0.0
    else if AnyBreaks(queryset.value, name) then 0.0
    else
      SumByNonNegative(queryset.value, (item: Item) => Weight(item, name));
      SumBy(queryset.value, (item: Item) => Weight(item, name))
  }

  /** filter_status: the items whose `status` attribute equals the argument,
      in input order; an empty or missing collection gives []. */
  function FilterStatus(queryset: Option<seq<Item>>, status: string): (r: seq<Item>)
    ensures queryset.None? ==> r == []
    ensures queryset.Some? ==> |r| <= |queryset.value|
  {
    if queryset.None? || queryset.value == [] then []
    else Filter(queryset.value, (item: Item) => GetAttr(item, "status", NoneValue) == Text(status))
  }

  function HasStatus(status: string): Item -> bool
  {
    (item: Item) => GetAttr(item, "status", NoneValue) == Text(status)
  }

  /** Items lacking the attribute are skipped: appending one changes nothing. */
  lemma SumAttrSkipsMissing(items: seq<Item>, name: string, item: Item)
    requires name !in item
    ensures SumAttr(Some(items + [item]), name) == SumAttr(Some(items), name)
  {
    var f := (x: Item) => Weight(x, name);
    SumByAppend(items, [item], f);
    assert [item][1..] == [];
    if AnyBreaks(items + [item], name) {
      var i :| 0 <= i < |items + [item]| && Breaks((items + [item])[i], name);
      assert i < |items| && Breaks(items[i], name);
    }
    if AnyBreaks(items, name) {
      var i :| 0 <= i < |items| && Breaks(items[i], name);
      assert Breaks((items + [item])[i], name);
    }
  }

  /** A single non-numeric value makes the whole sum 0. */
  lemma SumAttrTypeError(items: seq<Item>, name: string, i: nat)
    requires i < |items| && name in items[i] && !items[i][name].Number?
    ensures SumAttr(Some(items), name) == 0.0
  {
    assert Breaks(items[i], name);
  }

  /** With only numeric values, the result is the sum of the values present. */
  lemma SumAttrNumbers(items: seq<Item>, name: string)
    requires forall i :: 0 <= i < |items| ==> name in items[i] ==> items[i][name].Number?
    ensures SumAttr(Some(items), name) == SumBy(items, (item: Item) => Weight(item, name))
  {
    assert !AnyBreaks(items, name);
  }

  /** The order of the items does not change the sum. */
  lemma SumAttrOrderFree(xs: seq<Item>, ys: seq<Item>, name: string)
    requires multiset(xs) == multiset(ys)
    ensures SumAttr(Some(xs), name) == SumAttr(Some(ys), name)
  {
    SumByPermutation(xs, ys, (item: Item) => Weight(item, name));
    assert |xs| == |multiset(xs)| == |multiset(ys)| == |ys|;
    assert AnyBreaks(xs, name) == AnyBreaks(ys, name) by {
      forall i | 0 <= i < |xs| ensures xs[i] in multiset(ys) { assert xs[i] in multiset(xs); }
      forall i | 0 <= i < |ys| ensures ys[i] in multiset(xs) { assert ys[i] in multiset(ys); }
      if AnyBreaks(xs, name) {
        var i :| 0 <= i < |xs| && Breaks(xs[i], name);
        var j :| 0 <= j < |ys| && ys[j] == xs[i];
      }
      if AnyBreaks(ys, name) {
        var i :| 0 <= i < |ys| && Breaks(ys[i], name);
        var j :| 0 <= j < |xs| && xs[j] == ys[i];
      }
    }
  }

  /** An item is kept exactly when it is in the input and its status equals the argument. */
  lemma FilterStatusMembers(items: seq<Item>, status: string)
    ensures forall x :: x in FilterStatus(Some(items), status) <==>
      x in items && "status" in x && x["status"] == Text(status)
  {
    if items != [] { FilterMembers(items, HasStatus(status)); }
  }

  /** Each matching item is kept as often as it occurs; the others are dropped. */
  lemma FilterStatusCounts(items: seq<Item>, status: string)
    ensures forall x :: (multiset(FilterStatus(Some(items), status))[x] ==
                         if HasStatus(status)(x) then multiset(items)[x] else 0)
  {
    if items != [] { FilterMultiset(items, HasStatus(status)); }
  }

  /** Filtering keeps the input order: it distributes over concatenation. */
  lemma FilterStatusOrder(xs: seq<Item>, ys: seq<Item>, status: string)
    ensures FilterStatus(Some(xs + ys), status) ==
      FilterStatus(Some(xs), status) + FilterStatus(Some(ys), status)
  {
    FilterAppend(xs, ys, HasStatus(status));
    if xs == [] { assert xs + ys == ys; }
    if ys == [] { assert xs + ys == xs; }
  }

  /** Filtering twice with the same status equals filtering once, and the
      result has as many items as match. */
  lemma FilterStatusIdempotent(items: seq<Item>, status: string)
    ensures FilterStatus(Some(FilterStatus(Some(items), status)), status) == FilterStatus(Some(items), status)
    ensures |FilterStatus(Some(items), status)| == CountBy(items, HasStatus(status))
  {
    if items != [] {
      FilterIdempotent(items, HasStatus(status));
      FilterLength(items, HasStatus(status));
    }
  }

  /** Records without a `status` attribute, such as tenders (whose field is
      payment_status), are never kept. */
  lemma FilterStatusNeedsAttribute(items: seq<Item>, status: string)
    requires forall i :: 0 <= i < |items| ==> "status" !in items[i]
    ensures FilterStatus(Some(items), status) == []
  {
    FilterStatusMembers(items, status);
  }
}
