/**
 * The admin dashboard: the user list fetched on mount, four summary cards whose
 * figures unfold on a click, and the navigation buttons.
 */
module AdminDashboard {
  import opened Common
  import opened AdminUsers

  /** The figure a card shows: a count, or a fixed text. */
  datatype Figure = Count(n: nat) | Text(text: string)

  /** One card; `heading` is the source's `label`. */
  datatype Card = Card(heading: string, number: Figure, helpText: string)

  const CardCount: nat := 4

  /** `cardData`: the Users card counts the fetched users; the other three are fixed. */
  function CardData(users: seq<UserSummary>): (cards: seq<Card>)
    ensures |cards| == CardCount
    ensures cards[0] == Card("Users", Count(|users|), "Registered users")
  {
    [ Card("Users", Count(|users|), "Registered users"),
      Card("Tasks", Count(120), "Assigned tasks"),
      Card("Transactions", Text("$5,000"), "Processed"),
      Card("Revenue", Text("$10,000"), "Generated") ]
  }

  /** The cards depend on the user list only through its length. */
  lemma CardsDependOnlyOnCount(a: seq<UserSummary>, b: seq<UserSummary>)
    ensures CardData(a) == CardData(b) <==> |a| == |b|
  {
    if CardData(a) == CardData(b) {
      assert CardData(a)[0].number == CardData(b)[0].number;
    }
  }

  /** The copy with slot `i` flipped and every other slot as it was. */
  function Toggled(expanded: seq<bool>, i: nat): (r: seq<bool>)
    requires i < |expanded|
    ensures |r| == |expanded|
    ensures r[i] == !expanded[i]
    ensures forall j :: 0 <= j < |r| && j != i ==> r[j] == expanded[j]
  {
    expanded[i := !expanded[i]]
  }

  /** A second click on the same card folds it back. */
  lemma ToggleTwice(expanded: seq<bool>, i: nat)
    requires i < |expanded|
    ensures Toggled(Toggled(expanded, i), i) == expanded
  {
    assert forall j :: 0 <= j < |expanded| ==> Toggled(Toggled(expanded, i), i)[j] == expanded[j];
  }

  /** Clicks on two different cards commute. */
  lemma TogglesCommute(expanded: seq<bool>, i: nat, k: nat)
    requires i < |expanded| && k < |expanded|
    ensures Toggled(Toggled(expanded, i), k) == Toggled(Toggled(expanded, k), i)
  {
    var ik := Toggled(Toggled(expanded, i), k);
    var ki := Toggled(Toggled(expanded, k), i);
    assert forall j :: 0 <= j < |expanded| ==> ik[j] == ki[j];
  }

  class AdminDashboardPage {
    var users: seq<UserSummary>
    var expandedCards: seq<bool>

    /** One expansion flag per card. */
    ghost predicate Valid()
      reads this
    {
      |expandedCards| == CardCount
    }

    constructor ()
      ensures Valid()
      ensures users == [] && expandedCards == [false, false, false, false]
    {
      users := [];
      expandedCards := [false, false, false, false];
    }

    /** `fetchUsers`: a success replaces the list; a failure keeps it. */
    method FetchUsers(reply: Reply<seq<UserSummary>>)
      modifies this`users
      ensures users == (if reply.Ok? then reply.data else old(users))
    {
      match reply {
        case Ok(data) => users := data;
        case Failed(_) =>
      }
    }

    /** `toggleCard`: copy the flags, flip one slot of the copy, store the copy. */
    method ToggleCard(index: nat)
      requires Valid() && index < CardCount
      modifies this`expandedCards
      ensures Valid()
      ensures expandedCards == Toggled(old(expandedCards), index)
    {
      var flags := expandedCards;
      var copy := new bool[|flags|](j requires 0 <= j < |flags| => flags[j]);
      copy[index] := !copy[index];
      expandedCards := copy[..];
    }

    /** The cards rendered for the current list, each with whether its figure is unfolded. */
    function Cards(): (shown: seq<(Card, bool)>)
      requires Valid()
      reads this
      ensures |shown| == CardCount
      ensures forall i :: 0 <= i < CardCount ==> shown[i] == (CardData(users)[i], expandedCards[i])
    {
      var cards := CardData(users);
      [(cards[0], expandedCards[0]), (cards[1], expandedCards[1]),
       (cards[2], expandedCards[2]), (cards[3], expandedCards[3])]
    }

    /** The logout icon only opens the admin login page; the session is left as it is. */
    method Logout() returns (navigateTo: string)
      ensures navigateTo == "/admin/login"
    {
      navigateTo := "/admin/login";
    }

    /** The "User Transactions" button. */
    method OpenUserTransactions() returns (navigateTo: string)
      ensures navigateTo == "/admin/transactions"
    {
      navigateTo := "/admin/transactions";
    }

    /** The "User Tasks" button. */
    method OpenUserTasks() returns (navigateTo: string)
      ensures navigateTo == "/admin/tasks"
    {
      navigateTo := "/admin/tasks";
    }
  }
}
