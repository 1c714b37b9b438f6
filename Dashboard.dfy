/**
 * The finance dashboard page: the user's transaction list, the balance derived
 * from it, the draft of a new transaction, the id picked for deletion, and the
 * two view criteria. Each handler is one atomic step; the server's answer to
 * each request is a parameter.
 */
module Dashboard {
  import opened Common
  import opened Ledger
  import opened TransactionFilter
  import opened RecentTransactions
  import opened Session

  /* ---------- The date order applied after a load ---------- */

  /** Newest first: no entry is dated later than an entry before it. */
  ghost predicate DateDescending(ts: seq<Transaction>)
  {
    forall i, j :: 0 <= i < j < |ts| ==> ts[j].date <= ts[i].date
  }

  /** Places `t` in front of the first entry not dated later than it. */
  function Insert(t: Transaction, ts: seq<Transaction>): (r: seq<Transaction>)
    ensures multiset(r) == multiset(ts) + multiset{t}
  {
    if ts == [] then [t]
    else if ts[0].date <= t.date then [t] + ts
    else
      assert ts == [ts[0]] + ts[1..];
      [ts[0]] + Insert(t, ts[1..])
  }

  /**
   * The list as `sort((a, b) => date(b) - date(a))` leaves it. The engine's sort
   * is stable, so this reference definition is an insertion sort that puts each
   * entry before the later-arriving entries of the same day.
   */
  function SortByDateDesc(ts: seq<Transaction>): (r: seq<Transaction>)
    ensures multiset(r) == multiset(ts)
  {
    if ts == [] then []
    else
      assert ts == [ts[0]] + ts[1..];
      Insert(ts[0], SortByDateDesc(ts[1..]))
  }

  lemma {:induction false} InsertKeepsOrder(t: Transaction, ts: seq<Transaction>)
    requires DateDescending(ts)
    ensures DateDescending(Insert(t, ts))
  {
    if ts != [] && t.date < ts[0].date {
      var tail := Insert(t, ts[1..]);
      InsertKeepsOrder(t, ts[1..]);
      forall x | x in tail
        ensures x.date <= ts[0].date
      {
        assert x in multiset(tail);
        assert x == t || x in multiset(ts[1..]);
      }
      assert Insert(t, ts) == [ts[0]] + tail;
    }
  }

  /** The sorted list is in date order, newest first. */
  lemma {:induction false} SortIsDescending(ts: seq<Transaction>)
    ensures DateDescending(SortByDateDesc(ts))
  {
    if ts != [] {
      SortIsDescending(ts[1..]);
      InsertKeepsOrder(ts[0], SortByDateDesc(ts[1..]));
    }
  }

  lemma {:induction false} InsertOnDay(t: Transaction, ts: seq<Transaction>, d: Day)
    ensures OnDay(Insert(t, ts), d) == (if t.date == d then [t] else []) + OnDay(ts, d)
  {
    if ts == [] {
    } else if ts[0].date <= t.date {
      FilterCons(t, ts, Some(d), None);
    } else {
      var tail := Insert(t, ts[1..]);
      InsertOnDay(t, ts[1..], d);
      FilterCons(ts[0], tail, Some(d), None);
    }
  }

  /** Stability: the entries of any one day keep their arrival order. */
  lemma {:induction false} SortIsStable(ts: seq<Transaction>, d: Day)
    ensures OnDay(SortByDateDesc(ts), d) == OnDay(ts, d)
  {
    if ts != [] {
      SortIsStable(ts[1..], d);
      InsertOnDay(ts[0], SortByDateDesc(ts[1..]), d);
    }
  }

  lemma OnDayUnfold(a: seq<Transaction>, e: Day)
    requires a != []
    ensures OnDay(a, e) == (if a[0].date == e then [a[0]] else []) + OnDay(a[1..], e)
  {
  }

  lemma FirstEntryIsOnItsDay(a: seq<Transaction>)
    requires a != []
    ensures a[0] in OnDay(a, a[0].date)
  {
  }

  /** Two date-ordered lists with the same entries on every day start on the same day. */
  lemma FirstDaysAgree(a: seq<Transaction>, b: seq<Transaction>)
    requires a != [] && b != []
    requires DateDescending(a) && DateDescending(b)
    requires forall d :: OnDay(a, d) == OnDay(b, d)
    ensures a[0].date == b[0].date
  {
    assert a[0] in OnDay(a, a[0].date);
    assert a[0] in OnDay(b, a[0].date);
    assert b[0] in OnDay(b, b[0].date);
    assert b[0] in OnDay(a, b[0].date);
  }

  lemma {:induction false} SameDaysSameList(a: seq<Transaction>, b: seq<Transaction>)
    requires DateDescending(a) && DateDescending(b)
    requires forall d :: OnDay(a, d) == OnDay(b, d)
    ensures a == b
    decreases |a|
  {
    if a != [] && b != [] {
      FirstDaysAgree(a, b);
      var d := a[0].date;
      forall e
        ensures OnDay(a[1..], e) == OnDay(b[1..], e)
      {
        assert OnDay(a, e) == OnDay(b, e);
        OnDayUnfold(a, e);
        OnDayUnfold(b, e);
        if e == d {
          assert ([a[0]] + OnDay(a[1..], e))[1..] == OnDay(a[1..], e);
          assert ([b[0]] + OnDay(b[1..], e))[1..] == OnDay(b[1..], e);
        } else {
          assert a[0].date != e && b[0].date != e;
          assert OnDay(a, e) == OnDay(a[1..], e);
          assert OnDay(b, e) == OnDay(b[1..], e);
        }
      }
      OnDayUnfold(a, d);
      OnDayUnfold(b, d);
      assert OnDay(a, d)[0] == a[0] && OnDay(b, d)[0] == b[0];
      SameDaysSameList(a[1..], b[1..]);
      assert a == [a[0]] + a[1..] && b == [b[0]] + b[1..];
    } else if a != [] {
      FirstEntryIsOnItsDay(a);
      assert false;
    } else if b != [] {
      FirstEntryIsOnItsDay(b);
      assert false;
    }
  }

  /**
   * The sorted list is the only list in date order that keeps every day's
   * entries in arrival order.
   */
  lemma SortIsUnique(r: seq<Transaction>, ts: seq<Transaction>)
    requires DateDescending(r)
    requires forall d :: OnDay(r, d) == OnDay(ts, d)
    ensures r == SortByDateDesc(ts)
  {
    SortIsDescending(ts);
    forall d
      ensures OnDay(r, d) == OnDay(SortByDateDesc(ts), d)
    {
      SortIsStable(ts, d);
    }
    SameDaysSameList(r, SortByDateDesc(ts));
  }

  /* ---------- The page state ---------- */

  /** The add-transaction form; `amount` is the text of the number input. */
  datatype Draft = Draft(amount: string, kind: string, date: Day, description: string)

  /** The form as first shown and as reset after an add: dated `today`, typed INCOME. */
  function EmptyDraft(today: Day): Draft
  {
    Draft("", INCOME, today, "")
  }

  class DashboardPage {
    var transactions: seq<Transaction>
    var balance: int
    var draft: Draft
    var deleteId: Option<int>
    var isLoading: bool
    var filterDate: Option<Day>
    var filterType: Option<string>
    const session: SessionStorage

    /** The shown balance is always the balance of the shown list. */
    ghost predicate Valid()
      reads this
    {
      balance == Balance(transactions)
    }

    constructor (session: SessionStorage, today: Day)
      ensures Valid() && this.session == session
      ensures transactions == [] && balance == 0 && draft == EmptyDraft(today)
      ensures deleteId == None && !isLoading && filterDate == None && filterType == None
    {
      transactions := [];
      balance := 0;
      draft := EmptyDraft(today);
      deleteId := None;
      isLoading := false;
      filterDate := None;
      filterType := None;
      this.session := session;
    }

    /**
     * `fetchTransactions`: on success the list becomes the response in date
     * order (stable) and the balance its signed sum; on failure nothing changes.
     */
    method FetchTransactions(reply: Reply<seq<Transaction>>)
      requires Valid()
      modifies this`transactions, this`balance
      ensures Valid()
      ensures reply.Ok? ==>
        && transactions == SortByDateDesc(reply.data)
        && DateDescending(transactions)
        && multiset(transactions) == multiset(reply.data)
        && (forall d :: OnDay(transactions, d) == OnDay(reply.data, d))
        && balance == SignedSum(reply.data)
      ensures reply.Failed? ==> transactions == old(transactions) && balance == old(balance)
    {
      match reply
      case Ok(data) =>
        var sorted := SortByDateDesc(data);
        transactions := sorted;
        balance := Balance(sorted);
        SortIsDescending(data);
        forall d
          ensures OnDay(transactions, d) == OnDay(data, d)
        {
          SortIsStable(data, d);
        }
        BalancePermutation(sorted, data);
        BalanceIsSignedSum(data);
      case Failed(_) =>
    }

    /**
     * `handleAddTransaction`: an empty amount or description sends nothing; a
     * created entry goes in front of the list, unsorted, and the form resets;
     * a failed request changes nothing but the loading flag.
     */
    method AddTransaction(reply: Reply<Transaction>, today: Day) returns (requested: bool)
      requires Valid()
      modifies this`transactions, this`balance, this`draft, this`isLoading
      ensures Valid()
      ensures requested <==> old(draft).amount != "" && old(draft).description != ""
      ensures !requested ==>
        transactions == old(transactions) && balance == old(balance) && draft == old(draft) && isLoading == old(isLoading)
      ensures requested ==> !isLoading
      ensures requested && reply.Ok? ==>
        && transactions == [reply.data] + old(transactions)
        && balance == old(balance) + Signed(reply.data)
        && draft == EmptyDraft(today)
      ensures requested && reply.Failed? ==>
        transactions == old(transactions) && balance == old(balance) && draft == old(draft)
    {
      if draft.amount == "" || draft.description == "" {
        return false;
      }
      requested := true;
      isLoading := true;
      match reply {
        case Ok(created) =>
          transactions := [created] + transactions;
          balance := Balance(transactions);
          BalancePrepend(created, old(transactions));
          draft := EmptyDraft(today);
        case Failed(_) =>
      }
      isLoading := false;
    }

    /**
     * `handleDeleteTransaction`: nothing happens without a chosen id; a confirmed
     * delete drops every entry with that id and clears the choice; a failed one
     * changes nothing but the loading flag.
     */
    method DeleteTransaction(reply: Reply<()>) returns (requested: bool)
      requires Valid()
      modifies this`transactions, this`balance, this`deleteId, this`isLoading
      ensures Valid()
      ensures requested <==> old(deleteId).Some?
      ensures !requested ==>
        && transactions == old(transactions) && balance == old(balance)
        && deleteId == old(deleteId) && isLoading == old(isLoading)
      ensures requested ==> !isLoading
      ensures requested && reply.Ok? ==>
        && transactions == RemoveById(old(transactions), old(deleteId).value, TransactionId)
        && SubsequenceOf(transactions, old(transactions))
        && deleteId == None
      ensures requested && reply.Failed? ==>
        transactions == old(transactions) && balance == old(balance) && deleteId == old(deleteId)
    {
      if deleteId.None? {
        return false;
      }
      requested := true;
      isLoading := true;
      match reply {
        case Ok(_) =>
          var id := deleteId.value;
          transactions := RemoveById(transactions, id, TransactionId);
          balance := Balance(transactions);
          RemoveByIdIsSubsequence(old(transactions), id, TransactionId);
          deleteId := None;
        case Failed(_) =>
      }
      isLoading := false;
    }

    /** The trash button of one entry picks it for deletion. */
    method ChooseForDeletion(id: int)
      modifies this`deleteId
      ensures deleteId == Some(id)
    {
      deleteId := Some(id);
    }

    /** Typing an amount in the income drawer also makes the draft an income. */
    method EditIncomeAmount(value: string)
      modifies this`draft
      ensures draft == old(draft).(amount := value, kind := INCOME)
    {
      draft := draft.(amount := value, kind := INCOME);
    }

    /** Typing an amount in the expense drawer also makes the draft an expense. */
    method EditExpenseAmount(value: string)
      modifies this`draft
      ensures draft == old(draft).(amount := value, kind := EXPENSE)
    {
      draft := draft.(amount := value, kind := EXPENSE);
    }

    method EditDate(value: Day)
      modifies this`draft
      ensures draft == old(draft).(date := value)
    {
      draft := draft.(date := value);
    }

    method EditDescription(value: string)
      modifies this`draft
      ensures draft == old(draft).(description := value)
    {
      draft := draft.(description := value);
    }

    /** The date criterion; `None` is the cleared input, which the page stores as null. */
    method SetFilterDate(value: Option<Day>)
      modifies this`filterDate
      ensures filterDate == value
    {
      filterDate := value;
    }

    /** The type criterion; the empty option ("All") is stored as null. */
    method SetFilterType(value: string)
      modifies this`filterType
      ensures filterType == (if value == "" then None else Some(value))
      ensures TypeFilterSet(filterType) <==> value != ""
    {
      filterType := if value == "" then None else Some(value);
    }

    /** The "All Transactions" list: the entries meeting both criteria, in list order. */
    function FilteredTransactions(): (r: seq<Transaction>)
      reads this
      ensures SubsequenceOf(r, transactions)
      ensures forall t :: t in r <==> t in transactions && Matches(t, filterDate, filterType)
      ensures forall t :: multiset(r)[t] == if Matches(t, filterDate, filterType) then multiset(transactions)[t] else 0
      ensures filterDate.None? && filterType.None? ==> r == transactions
    {
      FilterIsSubsequence(transactions, filterDate, filterType);
      FilterCounts(transactions, filterDate, filterType);
      assert filterDate.None? && filterType.None? ==> Filter(transactions, filterDate, filterType) == transactions by {
        if filterDate.None? && filterType.None? {
          FilterWithoutCriteria(transactions, filterType);
        }
      }
      Filter(transactions, filterDate, filterType)
    }

    /**
     * The inline recent list: when the list is in date order (as after a load),
     * every shown entry is at least as new as every entry left for "View … more".
     */
    function RecentList(): (r: RecentView<Transaction>)
      reads this
      ensures DateDescending(transactions) && r.Listing? ==>
        forall i, j :: 0 <= i < |r.shown| <= j < |transactions| ==> transactions[j].date <= r.shown[i].date
    {
      Recent(transactions)
    }

    /** `handleLogout`: both session keys are removed and the browser goes to the login page. */
    method Logout() returns (navigateTo: string)
      modifies session
      ensures session.authToken.None? && session.username.None?
      ensures navigateTo == "/login"
    {
      session.authToken := None;
      session.username := None;
      navigateTo := "/login";
    }
  }
}
