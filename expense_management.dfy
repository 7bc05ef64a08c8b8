/** The user-expense overview: each user's expenses folded into three
    totals, the search box that filters users, and the set of users whose
    expense rows are expanded. */
module ExpenseManagement {
  import opened Wrappers
  import opened Text
  import opened Sequences

  datatype Status = Pending | Approved | Rejected

  /** One expense claim; `approvedAmount` may be absent. Amounts are whole
      rupees. */
  datatype Expense = Expense(
    id: int,
    category: string,
    amount: int,
    date: string,
    description: string,
    status: Status,
    approvedAmount: Option<int>)

  /** A user together with that user's expenses. */
  datatype UserExpenses = UserExpenses(
    userId: int,
    name: string,
    email: string,
    employeeCode: string,
    expenses: seq<Expense>)

  datatype Totals = Totals(total: int, approved: int, rejected: int)

  /** The sample users and expenses the overview lists. */
  const DummyExpenses: seq<UserExpenses> := [
    UserExpenses(1, "John Smith", "john.smith@example.com", "EMP001", [
      Expense(1, "Travel", 5000, "2024-01-15", "Client meeting in Mumbai", Approved, Some(4500)),
      Expense(2, "Food", 1200, "2024-01-20", "Team lunch", Approved, Some(1200)),
      Expense(3, "Office Supplies", 800, "2024-01-22", "Stationery items", Pending, None)]),
    UserExpenses(2, "Sarah Johnson", "sarah.j@example.com", "EMP002", [
      Expense(4, "Travel", 3000, "2024-01-18", "Conference attendance", Approved, Some(3000)),
      Expense(5, "Software", 2500, "2024-01-25", "Annual software license", Rejected, None)]),
    UserExpenses(4, "Emily Davis", "emily.d@example.com", "EMP004", [
      Expense(6, "Training", 10000, "2024-01-10", "Professional certification course", Approved, Some(8000)),
      Expense(7, "Travel", 4000, "2024-01-28", "Business trip", Pending, None),
      Expense(8, "Food", 600, "2024-01-29", "Client dinner", Pending, None)]),
    UserExpenses(6, "Lisa Anderson", "l.anderson@example.com", "EMP006", [
      Expense(9, "Office Supplies", 1500, "2024-01-12", "Desk equipment", Approved, Some(1500))])
  ]

  // ---------------------------------------------------------------------
  // calculateTotals

  /** `es.reduce((sum, e) => sum + f(e), acc)`: a left fold. */
  function SumBy(es: seq<Expense>, f: Expense -> int, acc: int): int
    decreases |es|
  {
    if es == [] then acc else SumBy(es[1..], f, acc + f(es[0]))
  }

  /** `es.filter(e => e.status === st)`: the expenses with status `st`, in
      their original order. */
  function WithStatus(es: seq<Expense>, st: Status): (r: seq<Expense>)
    ensures forall e :: e in r <==> e in es && e.status == st
    ensures IsSubsequence(r, es)
    decreases |es|
  {
    if es == [] then []
    else if es[0].status == st then [es[0]] + WithStatus(es[1..], st)
    else WithStatus(es[1..], st)
  }

  /** The status filter keeps each expense with that status as many times
      as it occurs, and no other expense. */
  lemma {:induction false} WithStatusCounts(es: seq<Expense>, st: Status)
    ensures forall e :: multiset(WithStatus(es, st))[e] == if e.status == st then multiset(es)[e] else 0
    decreases |es|
  {
    if es != [] {
      WithStatusCounts(es[1..], st);
      assert es == [es[0]] + es[1..];
    }
  }

  function Amount(e: Expense): int
  {
    e.amount
  }

  /** `e.approvedAmount || e.amount`: both a missing approved amount and an
      approved amount of 0 fall back to the requested amount. */
  function ApprovedValue(e: Expense): (v: int)
    ensures e.approvedAmount.Some? && e.approvedAmount.value != 0 ==> v == e.approvedAmount.value
    ensures e.approvedAmount == None || e.approvedAmount == Some(0) ==> v == e.amount
  {
    match e.approvedAmount
    case Some(a) => if a != 0 then a else e.amount
    case None => e.amount
  }

  /** `calculateTotals`: three reductions, the last two over filtered lists. */
  function CalculateTotals(es: seq<Expense>): Totals
  {
    Totals(SumBy(es, Amount, 0),
           SumBy(WithStatus(es, Approved), ApprovedValue, 0),
           SumBy(WithStatus(es, Rejected), Amount, 0))
  }

  function Plus(a: Totals, b: Totals): Totals
  {
    Totals(a.total + b.total, a.approved + b.approved, a.rejected + b.rejected)
  }

  /** What a single expense adds to each total: its amount to `total`; its
      approved value to `approved` only when approved; its amount to
      `rejected` only when rejected. A pending expense adds to `total` only. */
  function Contribution(e: Expense): Totals
  {
    Totals(e.amount,
           if e.status == Approved then ApprovedValue(e) else 0,
           if e.status == Rejected then e.amount else 0)
  }

  /** Reference definition of the totals, expense by expense. */
  function Tally(es: seq<Expense>): Totals
    decreases |es|
  {
    if es == [] then Totals(0, 0, 0) else Plus(Contribution(es[0]), Tally(es[1..]))
  }

  /** A left fold from `acc` is `acc` plus the fold from 0. */
  lemma {:induction false} SumByFrom(es: seq<Expense>, f: Expense -> int, acc: int)
    ensures SumBy(es, f, acc) == acc + SumBy(es, f, 0)
    decreases |es|
  {
    if es != [] {
      SumByFrom(es[1..], f, acc + f(es[0]));
      SumByFrom(es[1..], f, f(es[0]));
    }
  }

  lemma {:induction false} CalculateTotalsCons(es: seq<Expense>)
    requires es != []
    ensures CalculateTotals(es) == Plus(Contribution(es[0]), CalculateTotals(es[1..]))
  {
    var e, rest := es[0], es[1..];
    SumByFrom(rest, Amount, e.amount);
    if e.status == Approved {
      assert WithStatus(es, Approved)[1..] == WithStatus(rest, Approved);
      SumByFrom(WithStatus(rest, Approved), ApprovedValue, ApprovedValue(e));
    }
    if e.status == Rejected {
      assert WithStatus(es, Rejected)[1..] == WithStatus(rest, Rejected);
      SumByFrom(WithStatus(rest, Rejected), Amount, e.amount);
    }
  }

  /** `calculateTotals` agrees with the expense-by-expense reference on every
      list: `total` sums every amount whatever the status, `approved` sums
      the approved values of approved expenses only, `rejected` the amounts
      of rejected expenses only. */
  lemma {:induction false} CalculateTotalsIsTally(es: seq<Expense>)
    ensures CalculateTotals(es) == Tally(es)
    decreases |es|
  {
    if es != [] {
      CalculateTotalsCons(es);
      CalculateTotalsIsTally(es[1..]);
    }
  }

  /** The empty list totals to zero on all three counts. */
  lemma CalculateTotalsEmpty()
    ensures CalculateTotals([]) == Totals(0, 0, 0)
  {
  }

  lemma {:induction false} TallyAppend(a: seq<Expense>, b: seq<Expense>)
    ensures Tally(a + b) == Plus(Tally(a), Tally(b))
    decreases |a|
  {
    if a == [] {
      assert a + b == b;
    } else {
      assert (a + b)[0] == a[0];
      assert (a + b)[1..] == a[1..] + b;
      TallyAppend(a[1..], b);
      assert Tally(a + b) == Plus(Contribution(a[0]), Tally(a[1..] + b));
    }
  }

  /** Totals split over concatenation: grouping expenses differently never
      changes what they add up to. */
  lemma CalculateTotalsAppend(a: seq<Expense>, b: seq<Expense>)
    ensures CalculateTotals(a + b) == Plus(CalculateTotals(a), CalculateTotals(b))
  {
    CalculateTotalsIsTally(a);
    CalculateTotalsIsTally(b);
    CalculateTotalsIsTally(a + b);
    TallyAppend(a, b);
  }

  /** Adding one more expense: a pending one raises `total` only, a rejected
      one raises `total` and `rejected` by its amount, an approved one raises
      `total` by its amount and `approved` by its approved value. */
  lemma CalculateTotalsSnoc(es: seq<Expense>, e: Expense)
    ensures var before, after := CalculateTotals(es), CalculateTotals(es + [e]);
      && after.total == before.total + e.amount
      && after.approved == before.approved + (if e.status == Approved then ApprovedValue(e) else 0)
      && after.rejected == before.rejected + (if e.status == Rejected then e.amount else 0)
  {
    CalculateTotalsAppend(es, [e]);
    CalculateTotalsCons([e]);
  }

  /** When no amount is negative and no approved expense is approved above
      its requested amount, the approved and rejected totals together never
      exceed the overall total (pending expenses make up the difference). */
  lemma {:induction false} ApprovedAndRejectedWithinTotal(es: seq<Expense>)
    requires forall e :: e in es ==> e.amount >= 0
    requires forall e :: e in es && e.status == Approved ==> ApprovedValue(e) <= e.amount
    ensures var t := CalculateTotals(es); t.approved + t.rejected <= t.total
    ensures var t := CalculateTotals(es); 0 <= t.rejected <= t.total
    decreases |es|
  {
    CalculateTotalsIsTally(es);
    if es != [] {
      assert es[0] in es;
      ApprovedAndRejectedWithinTotal(es[1..]);
      CalculateTotalsIsTally(es[1..]);
    }
  }

  /** Expenses 1 and 5 of the sample data on their own: 5000 approved at
      4500, and 2500 rejected. */
  lemma TotalsExamples()
    ensures CalculateTotals([Expense(1, "Travel", 5000, "2024-01-15", "", Approved, Some(4500))])
         == Totals(5000, 4500, 0)
    ensures CalculateTotals([Expense(5, "Software", 2500, "2024-01-25", "", Rejected, None)])
         == Totals(2500, 0, 2500)
  {
  }

  // ---------------------------------------------------------------------
  // the search filter

  /** The search predicate: the lower-cased term occurs in the lower-cased
      name, email or employee code. */
  predicate MatchesSearch(u: UserExpenses, term: string)
  {
    var q := ToLower(term);
    Includes(ToLower(u.name), q) || Includes(ToLower(u.email), q) || Includes(ToLower(u.employeeCode), q)
  }

  /** `users.filter(u => MatchesSearch(u, term))`: exactly the matching
      users, in their original order. */
  function FilterUsers(users: seq<UserExpenses>, term: string): (r: seq<UserExpenses>)
    ensures forall u :: u in r <==> u in users && MatchesSearch(u, term)
    ensures IsSubsequence(r, users)
    decreases |users|
  {
    if users == [] then []
    else if MatchesSearch(users[0], term) then [users[0]] + FilterUsers(users[1..], term)
    else FilterUsers(users[1..], term)
  }

  /** The search keeps each matching user as many times as it occurs, and
      no other user. */
  lemma {:induction false} FilterUsersCounts(users: seq<UserExpenses>, term: string)
    ensures forall u :: multiset(FilterUsers(users, term))[u] == if MatchesSearch(u, term) then multiset(users)[u] else 0
    decreases |users|
  {
    if users != [] {
      FilterUsersCounts(users[1..], term);
      assert users == [users[0]] + users[1..];
    }
  }

  /** An empty search box keeps every user, in order. */
  lemma {:induction false} EmptySearchKeepsAll(users: seq<UserExpenses>)
    ensures FilterUsers(users, "") == users
    decreases |users|
  {
    if users != [] {
      IncludesEmpty(ToLower(users[0].name));
      EmptySearchKeepsAll(users[1..]);
    }
  }

  // ---------------------------------------------------------------------
  // the expanded-row set

  /** The set after `toggleUserExpanded(id)`: `id` flips membership, every
      other id keeps its membership. */
  function Toggled(s: set<int>, id: int): (r: set<int>)
    ensures id in r <==> id !in s
    ensures forall x :: x != id ==> (x in r <==> x in s)
  {
    if id in s then s - {id} else s + {id}
  }

  /** Toggling the same user twice restores the set. */
  lemma ToggleTwice(s: set<int>, id: int)
    ensures Toggled(Toggled(s, id), id) == s
  {
  }

  /** The overview's component state. */
  class ExpenseManagementView {
    var searchTerm: string
    var expandedUsers: set<int>
    var selectedExpense: Option<Expense>
    var isExpenseModalOpen: bool

    /** Empty search, nothing expanded, no expense selected, modal closed. */
    constructor ()
      ensures searchTerm == [] && expandedUsers == {}
      ensures selectedExpense == None && !isExpenseModalOpen
    {
      searchTerm := [];
      expandedUsers := {};
      selectedExpense := None;
      isExpenseModalOpen := false;
    }

    /** The search box's change handler. */
    method SetSearchTerm(term: string)
      modifies this`searchTerm
      ensures searchTerm == term
    {
      searchTerm := term;
    }

    /** `toggleUserExpanded`: copy the set, delete or add the id, store it. */
    method ToggleUserExpanded(userId: int)
      modifies this`expandedUsers
      ensures expandedUsers == Toggled(old(expandedUsers), userId)
    {
      var next := expandedUsers;
      if userId in next {
        next := next - {userId};
      } else {
        next := next + {userId};
      }
      expandedUsers := next;
    }

    /** `handleViewExpense`: select the expense and open the modal. */
    method HandleViewExpense(e: Expense)
      modifies this`selectedExpense, this`isExpenseModalOpen
      ensures selectedExpense == Some(e) && isExpenseModalOpen
    {
      selectedExpense := Some(e);
      isExpenseModalOpen := true;
    }

    /** The modal's open-change callback; the selection is kept. */
    method SetExpenseModalOpen(open: bool)
      modifies this`isExpenseModalOpen
      ensures isExpenseModalOpen == open
    {
      isExpenseModalOpen := open;
    }

    /** `filteredUsers`: the sample users the current search keeps. */
    function FilteredUsers(): (r: seq<UserExpenses>)
      reads this
      ensures forall u :: u in r <==> u in DummyExpenses && MatchesSearch(u, searchTerm)
      ensures IsSubsequence(r, DummyExpenses)
    {
      FilterUsers(DummyExpenses, searchTerm)
    }

    /** `expandedUsers.has(userId)`: whether that user's rows are shown. */
    method IsExpanded(userId: int) returns (b: bool)
      ensures b <==> userId in expandedUsers
    {
      b := userId in expandedUsers;
    }
  }
}
