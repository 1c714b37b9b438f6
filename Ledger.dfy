/**
 * The transaction entity of the finance dashboard and the two list computations
 * the dashboard applies to it: the balance (`calculateBalance`) and the removal of
 * every entry with a given id (the `filter` after a confirmed delete).
 *
 * Amounts are whole cents rather than the parsed floating-point strings of the
 * client; dates are day ordinals.
 */
module Ledger {
  import opened Common

  type Day = int

  const INCOME: string := "INCOME"
  const EXPENSE: string := "EXPENSE"

  /** A transaction as the server returns it; `kind` is the JSON field `type`. */
  datatype Transaction = Transaction(id: int, amount: int, kind: string, date: Day, description: string)

  /** What one entry adds to the total of entries of type `kind`. */
  function Contribution(t: Transaction, kind: string): int
  {
    if t.kind == kind then t.amount else 0
  }

  /** The `reduce` over the list that sums the amounts of the entries of type `kind`. */
  function TotalOf(ts: seq<Transaction>, kind: string): int
  {
    if ts == [] then 0 else Contribution(ts[0], kind) + TotalOf(ts[1..], kind)
  }

  /** `calculateBalance`: total income minus total expense. */
  function Balance(ts: seq<Transaction>): int
  {
    TotalOf(ts, INCOME) - TotalOf(ts, EXPENSE)
  }

  /** The signed value of one entry: income adds, expense subtracts, any other type counts for nothing. */
  function Signed(t: Transaction): int
  {
    if t.kind == INCOME then t.amount
    else if t.kind == EXPENSE then -t.amount
    else 0
  }

  /** The signed sum of a list, entry by entry: the reference meaning of the balance. */
  function SignedSum(ts: seq<Transaction>): int
  {
    if ts == [] then 0 else Signed(ts[0]) + SignedSum(ts[1..])
  }

  /** The balance is the signed sum of the entries; the empty list has balance 0. */
  lemma {:induction false} BalanceIsSignedSum(ts: seq<Transaction>)
    ensures Balance(ts) == SignedSum(ts)
    ensures ts == [] ==> Balance(ts) == 0
  {
    if ts != [] {
      BalanceIsSignedSum(ts[1..]);
    }
  }

  lemma {:induction false} SignedSumConcat(a: seq<Transaction>, b: seq<Transaction>)
    ensures SignedSum(a + b) == SignedSum(a) + SignedSum(b)
  {
    if a == [] {
      assert a + b == b;
    } else {
      assert (a + b)[1..] == a[1..] + b;
      SignedSumConcat(a[1..], b);
    }
  }

  /** The balance of two lists joined is the sum of their balances. */
  lemma BalanceConcat(a: seq<Transaction>, b: seq<Transaction>)
    ensures Balance(a + b) == Balance(a) + Balance(b)
  {
    BalanceIsSignedSum(a + b);
    BalanceIsSignedSum(a);
    BalanceIsSignedSum(b);
    SignedSumConcat(a, b);
  }

  /** Prepending one entry moves the balance by that entry's signed amount. */
  lemma BalancePrepend(t: Transaction, ts: seq<Transaction>)
    ensures Balance([t] + ts) == Signed(t) + Balance(ts)
  {
    BalanceConcat([t], ts);
    BalanceIsSignedSum([t]);
    assert [t][1..] == [];
  }

  /** The order of the entries does not matter: lists with the same entries have the same balance. */
  lemma {:induction false} BalancePermutation(a: seq<Transaction>, b: seq<Transaction>)
    requires multiset(a) == multiset(b)
    ensures Balance(a) == Balance(b)
  {
    BalanceIsSignedSum(a);
    BalanceIsSignedSum(b);
    SignedSumPermutation(a, b);
  }

  lemma {:induction false} SignedSumPermutation(a: seq<Transaction>, b: seq<Transaction>)
    requires multiset(a) == multiset(b)
    ensures SignedSum(a) == SignedSum(b)
    decreases |a|
  {
    if a == [] {
      assert |b| == |multiset(b)| == 0;
    } else {
      assert a[0] in multiset(b);
      var k :| 0 <= k < |b| && b[k] == a[0];
      var b' := b[..k] + b[k + 1..];
      RestIsPermutation(a, b, k);
      SignedSumPermutation(a[1..], b');
      SignedSumWithout(b, k);
    }
  }

  /** Taking the same entry out of two permutations of each other leaves permutations. */
  lemma RestIsPermutation(a: seq<Transaction>, b: seq<Transaction>, k: int)
    requires multiset(a) == multiset(b)
    requires a != [] && 0 <= k < |b| && b[k] == a[0]
    ensures multiset(a[1..]) == multiset(b[..k] + b[k + 1..])
  {
    assert a == [a[0]] + a[1..];
    assert multiset(a[1..]) == multiset(a) - multiset{a[0]};
    MultisetWithout(b, k);
  }

  lemma MultisetWithout(s: seq<Transaction>, k: int)
    requires 0 <= k < |s|
    ensures multiset(s[..k] + s[k + 1..]) == multiset(s) - multiset{s[k]}
  {
    assert s == s[..k] + [s[k]] + s[k + 1..];
  }

  lemma {:induction false} SignedSumWithout(s: seq<Transaction>, k: int)
    requires 0 <= k < |s|
    ensures SignedSum(s) == Signed(s[k]) + SignedSum(s[..k] + s[k + 1..])
  {
    var rest := s[..k] + s[k + 1..];
    if k == 0 {
      assert rest == s[1..];
    } else {
      var tail := s[1..];
      SignedSumWithout(tail, k - 1);
      assert rest == [s[0]] + (tail[..k - 1] + tail[k..]);
      assert rest[1..] == tail[..k - 1] + tail[k..];
    }
  }

  /** The id a delete compares: the entry's `id` field. */
  function TransactionId(t: Transaction): int
  {
    t.id
  }

  /** Deleting an id that no entry carries leaves the list as it was. */
  lemma {:induction false} RemoveMissingId(ts: seq<Transaction>, id: int)
    requires forall t :: t in ts ==> t.id != id
    ensures RemoveById(ts, id, TransactionId) == ts
  {
    if ts != [] {
      assert TransactionId(ts[0]) != id by { assert ts[0] in ts; }
      assert forall t :: t in ts[1..] ==> t in ts;
      RemoveMissingId(ts[1..], id);
      assert RemoveById(ts, id, TransactionId) == [ts[0]] + RemoveById(ts[1..], id, TransactionId);
      assert ts == [ts[0]] + ts[1..];
    }
  }

  /**
   * Adding an entry whose id is new and then deleting that id restores the list
   * and therefore the balance.
   */
  lemma AddThenDelete(t: Transaction, ts: seq<Transaction>)
    requires forall u :: u in ts ==> u.id != t.id
    ensures RemoveById([t] + ts, t.id, TransactionId) == ts
    ensures Balance(RemoveById([t] + ts, t.id, TransactionId)) == Balance(ts)
  {
    assert ([t] + ts)[1..] == ts;
    RemoveMissingId(ts, t.id);
  }

  /** Conversely, add then delete restores the list only when the id was new. */
  lemma AddThenDeleteNeedsFreshId(t: Transaction, ts: seq<Transaction>)
    requires RemoveById([t] + ts, t.id, TransactionId) == ts
    ensures forall u :: u in ts ==> u.id != t.id
  {
    forall u | u in ts
      ensures u.id != t.id
    {
      assert multiset(ts)[u] > 0;
      assert TransactionId(u) == t.id ==> multiset(RemoveById([t] + ts, t.id, TransactionId))[u] == 0;
    }
  }
}
