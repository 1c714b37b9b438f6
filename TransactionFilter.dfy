/**
 * The filtered list shown in the "All Transactions" drawer: the entries on the
 * chosen calendar day and of the chosen type. An absent criterion matches every
 * entry; a type criterion that is the empty string is absent too, since the
 * client tests it for truthiness.
 */
module TransactionFilter {
  import opened Common
  import opened Ledger

  /** JavaScript truthiness of the type criterion. */
  predicate TypeFilterSet(filterType: Option<string>)
  {
    filterType.Some? && filterType.value != ""
  }

  /** The predicate handed to `filter`: the day matches (if set) and the type matches (if set). */
  predicate Matches(t: Transaction, filterDate: Option<Day>, filterType: Option<string>)
  {
    && (filterDate.None? || t.date == filterDate.value)
    && (!TypeFilterSet(filterType) || t.kind == filterType.value)
  }

  /** The filtered view, in the order of the input. */
  function Filter(ts: seq<Transaction>, filterDate: Option<Day>, filterType: Option<string>): (r: seq<Transaction>)
    ensures |r| <= |ts|
    ensures forall t :: t in r <==> t in ts && Matches(t, filterDate, filterType)
  {
    if ts == [] then []
    else (if Matches(ts[0], filterDate, filterType) then [ts[0]] else []) + Filter(ts[1..], filterDate, filterType)
  }

  /** The entries dated on day `d`, in order: the view with only the date criterion set. */
  function OnDay(ts: seq<Transaction>, d: Day): (r: seq<Transaction>)
    ensures forall t :: t in r <==> t in ts && t.date == d
  {
    Filter(ts, Some(d), None)
  }

  /**
   * The view keeps every copy of a matching entry and no copy of any other:
   * with membership and order (`FilterIsSubsequence`) this pins the view down.
   */
  lemma {:induction false} FilterCounts(ts: seq<Transaction>, filterDate: Option<Day>, filterType: Option<string>)
    ensures forall t ::
      multiset(Filter(ts, filterDate, filterType))[t] == if Matches(t, filterDate, filterType) then multiset(ts)[t] else 0
  {
    if ts != [] {
      FilterCounts(ts[1..], filterDate, filterType);
      assert ts == [ts[0]] + ts[1..];
    }
  }

  /** The entries of one day, each with all of its copies. */
  lemma OnDayCounts(ts: seq<Transaction>, d: Day)
    ensures forall t :: multiset(OnDay(ts, d))[t] == if t.date == d then multiset(ts)[t] else 0
  {
    FilterCounts(ts, Some(d), None);
  }

  /** The filtered view keeps the order of the input: it is a subsequence of it. */
  lemma {:induction false} FilterIsSubsequence(ts: seq<Transaction>, filterDate: Option<Day>, filterType: Option<string>)
    ensures SubsequenceOf(Filter(ts, filterDate, filterType), ts)
  {
    if ts != [] {
      var r := Filter(ts, filterDate, filterType);
      FilterIsSubsequence(ts[1..], filterDate, filterType);
      if Matches(ts[0], filterDate, filterType) {
        assert r[1..] == Filter(ts[1..], filterDate, filterType);
      } else {
        assert r == Filter(ts[1..], filterDate, filterType);
        assert r != [] ==> r[0] != ts[0];
      }
    }
  }

  /** With neither criterion set, the view is the whole list. */
  lemma {:induction false} FilterWithoutCriteria(ts: seq<Transaction>, filterType: Option<string>)
    requires !TypeFilterSet(filterType)
    ensures Filter(ts, None, filterType) == ts
  {
    if ts != [] {
      FilterWithoutCriteria(ts[1..], filterType);
      assert ts == [ts[0]] + ts[1..];
    }
  }

  lemma FilterCons(t: Transaction, ts: seq<Transaction>, filterDate: Option<Day>, filterType: Option<string>)
    ensures Filter([t] + ts, filterDate, filterType)
         == (if Matches(t, filterDate, filterType) then [t] else []) + Filter(ts, filterDate, filterType)
  {
    assert ([t] + ts)[0] == t && ([t] + ts)[1..] == ts;
  }

  /** Filtering the filtered view again with the same criteria changes nothing. */
  lemma {:induction false} FilterIdempotent(ts: seq<Transaction>, filterDate: Option<Day>, filterType: Option<string>)
    ensures Filter(Filter(ts, filterDate, filterType), filterDate, filterType) == Filter(ts, filterDate, filterType)
  {
    if ts != [] {
      var rest := Filter(ts[1..], filterDate, filterType);
      FilterIdempotent(ts[1..], filterDate, filterType);
      if Matches(ts[0], filterDate, filterType) {
        FilterCons(ts[0], rest, filterDate, filterType);
      } else {
        assert Filter(ts, filterDate, filterType) == rest;
      }
    }
  }

  /** The view of one type carries the whole total of that type. */
  lemma {:induction false} TypeViewKeepsTotal(ts: seq<Transaction>, kind: string)
    requires kind != ""
    ensures TotalOf(Filter(ts, None, Some(kind)), kind) == TotalOf(ts, kind)
  {
    if ts != [] {
      var rest := Filter(ts[1..], None, Some(kind));
      TypeViewKeepsTotal(ts[1..], kind);
      if ts[0].kind == kind {
        assert Matches(ts[0], None, Some(kind));
        assert ([ts[0]] + rest)[0] == ts[0] && ([ts[0]] + rest)[1..] == rest;
      } else {
        assert Filter(ts, None, Some(kind)) == rest;
      }
    }
  }
}
