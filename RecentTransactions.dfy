/**
 * The "Recent Transactions" list: the first eight entries of the list it is
 * given, and a "View n more transactions" link when there are more than eight.
 * The dashboard renders the same slice inline.
 */
module RecentTransactions {
  import opened Common

  /** How many entries the list shows. */
  const PageSize: nat := 8

  /**
   * What the component renders: the empty-state message, or the shown entries
   * together with the number the "View … more" link announces when it appears.
   */
  datatype RecentView<T> = EmptyState | Listing(shown: seq<T>, moreCount: Option<nat>)

  /** `slice(0, 8)`: a slice past the end stops at the end. */
  function Displayed<T>(ts: seq<T>): seq<T>
  {
    if |ts| <= PageSize then ts else ts[..PageSize]
  }

  /** `hasMoreTransactions`. */
  predicate HasMore<T>(ts: seq<T>)
  {
    |ts| > PageSize
  }

  /** The hidden entries announced by the link, or 0 when there is no link. */
  function HiddenCount<T>(v: RecentView<T>): nat
  {
    if v.Listing? && v.moreCount.Some? then v.moreCount.value else 0
  }

  /**
   * The rendered view: the empty state exactly for the empty list; otherwise the
   * first min(8, n) entries in order, and a link exactly when n > 8; the shown
   * entries and the announced remainder always add up to n.
   */
  function Recent<T>(ts: seq<T>): (v: RecentView<T>)
    ensures v.EmptyState? <==> |ts| == 0
    ensures v.Listing? ==> |v.shown| == (if |ts| < PageSize then |ts| else PageSize)
    ensures v.Listing? ==> v.shown == ts[..|v.shown|]
    ensures v.Listing? ==> (v.moreCount.Some? <==> |ts| > PageSize)
    ensures |ts| == (if v.Listing? then |v.shown| else 0) + HiddenCount(v)
  {
    if |ts| == 0 then EmptyState
    else Listing(Displayed(ts), if HasMore(ts) then Some(|ts| - PageSize) else None)
  }
}
