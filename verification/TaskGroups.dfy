/** How open Tasks are read: four due-date groups, and one order that they cut into pieces. */
module TaskGroups {
  import opened Prelude
  import opened Sorting
  import opened Strings

  datatype Priority = High | Medium | Low | NoPriority

  /** Dates and times are text, ordered as text. `rest` is everything grouping does not look at. */
  datatype Task<+R> = Task(id: string, dueDate: Option<string>, priority: Priority, createdAt: string, rest: R)

  datatype Group = Overdue | Today | Upcoming | NoDueDate

  datatype Groups<R> = Groups(overdue: seq<Task<R>>, today: seq<Task<R>>, upcoming: seq<Task<R>>, noDueDate: seq<Task<R>>)

  function TaskGroupOf<R>(task: Task<R>, today: string): Group {
    if task.dueDate.None? then NoDueDate
    else if Before(task.dueDate.value, today) then Overdue
    else if task.dueDate.value == today then Today
    else Upcoming
  }

  function Rank(p: Priority): int {
    match p
    case High => 0
    case Medium => 1
    case Low => 2
    case NoPriority => 3
  }

  /** A comparison of ids: its sign says which id goes first. */
  type Collation = (string, string) -> int

  /** The collation is a strict total order of the ids. */
  ghost predicate OrdersIds(collate: Collation) {
    && (forall a, b :: collate(a, b) == 0 <==> a == b)
    && (forall a, b :: collate(a, b) < 0 <==> collate(b, a) > 0)
    && (forall a, b, c :: collate(a, b) < 0 && collate(b, c) < 0 ==> collate(a, c) < 0)
  }

  function CompareTasks<R>(l: Task<R>, r: Task<R>, collate: Collation): int {
    if l.dueDate != r.dueDate then
      if l.dueDate.None? then 1
      else if r.dueDate.None? then -1
      else if Before(l.dueDate.value, r.dueDate.value) then -1
      else 1
    else if l.priority != r.priority then Rank(l.priority) - Rank(r.priority)
    else if l.createdAt != r.createdAt then (if Before(l.createdAt, r.createdAt) then -1 else 1)
    else collate(l.id, r.id)
  }

  function Order<R>(collate: Collation): (Task<R>, Task<R>) -> bool {
    (l: Task<R>, r: Task<R>) => CompareTasks(l, r, collate) <= 0
  }

  // ---- The order ---------------------------------------------------------------------------------------

  /** Swapping the sides turns the sign, and only Tasks of one id tie. */
  lemma CompareFlips<R>(l: Task<R>, r: Task<R>, collate: Collation)
    requires OrdersIds(collate)
    ensures CompareTasks(l, r, collate) < 0 <==> CompareTasks(r, l, collate) > 0
    ensures CompareTasks(l, r, collate) == 0
            <==> (l.dueDate, l.priority, l.createdAt, l.id) == (r.dueDate, r.priority, r.createdAt, r.id)
  {
    if l.dueDate.Some? && r.dueDate.Some? { BeforeTotal(l.dueDate.value, r.dueDate.value); }
    BeforeTotal(l.createdAt, r.createdAt);
  }

  /** High before medium before low before none. */
  predicate MoreUrgent(p: Priority, q: Priority) {
    p != q && (p == High || q == NoPriority || (p == Medium && q == Low))
  }

  predicate DueEarlier(d: Option<string>, e: Option<string>) {
    d.Some? && (e.None? || Before(d.value, e.value))
  }

  /** The earlier due date first and none last, then the more urgent, then the older, then by id. */
  lemma CompareExactly<R>(l: Task<R>, r: Task<R>, collate: Collation)
    ensures CompareTasks(l, r, collate) < 0 <==>
            || DueEarlier(l.dueDate, r.dueDate)
            || (l.dueDate == r.dueDate && MoreUrgent(l.priority, r.priority))
            || (l.dueDate == r.dueDate && l.priority == r.priority && Before(l.createdAt, r.createdAt))
            || (l.dueDate == r.dueDate && l.priority == r.priority && l.createdAt == r.createdAt && collate(l.id, r.id) < 0)
  {
    if l.dueDate.Some? && r.dueDate.Some? { BeforeTotal(l.dueDate.value, r.dueDate.value); }
    BeforeTotal(l.createdAt, r.createdAt);
  }

  lemma CompareTransitive<R>(a: Task<R>, b: Task<R>, c: Task<R>, collate: Collation)
    requires OrdersIds(collate)
    requires CompareTasks(a, b, collate) <= 0 && CompareTasks(b, c, collate) <= 0
    ensures CompareTasks(a, c, collate) <= 0
    ensures CompareTasks(a, b, collate) < 0 || CompareTasks(b, c, collate) < 0 ==> CompareTasks(a, c, collate) < 0
  {
    if a.dueDate.Some? && b.dueDate.Some? && c.dueDate.Some? {
      ChainText(a.dueDate.value, b.dueDate.value, c.dueDate.value);
    }
    ChainText(a.createdAt, b.createdAt, c.createdAt);
    assert collate(a.id, c.id) == 0 <==> a.id == c.id;
  }

  lemma ChainText(a: string, b: string, c: string)
    ensures Before(a, b) && Before(b, c) ==> Before(a, c)
    ensures !(Before(a, b) && Before(b, a))
  {
    BeforeTotal(a, b);
    if Before(a, b) && Before(b, c) { BeforeTransitive(a, b, c); }
  }

  lemma OrderIsTotal<R(!new)>(collate: Collation)
    requires OrdersIds(collate)
    ensures TotalPreorder(Order<R>(collate))
  {
    forall l: Task<R>, r: Task<R> ensures Order(collate)(l, r) || Order(collate)(r, l) { CompareFlips(l, r, collate); }
    forall a: Task<R>, b: Task<R>, c: Task<R> | Order(collate)(a, b) && Order(collate)(b, c) ensures Order(collate)(a, c) {
      CompareTransitive(a, b, c, collate);
    }
  }

  ghost predicate DistinctIds<R>(tasks: seq<Task<R>>) {
    forall x, y :: x in tasks && y in tasks && x.id == y.id ==> x == y
  }

  lemma DistinctDoNotTie<R>(tasks: seq<Task<R>>, collate: Collation)
    requires OrdersIds(collate) && DistinctIds(tasks)
    ensures NoTies(tasks, Order(collate))
  {
    forall x, y | x in tasks && y in tasks && Order(collate)(x, y) && Order(collate)(y, x) ensures x == y {
      CompareFlips(x, y, collate);
    }
  }

  // ---- The groups -----------------------------------------------------------------------------------------

  function InGroup<R>(tasks: seq<Task<R>>, g: Group, today: string): seq<Task<R>> {
    if tasks == [] then []
    else
      var n := |tasks| - 1;
      InGroup(tasks[..n], g, today) + if TaskGroupOf(tasks[n], today) == g then [tasks[n]] else []
  }

  function Grouped<R>(tasks: seq<Task<R>>, today: string): Groups<R> {
    Groups(InGroup(tasks, Overdue, today), InGroup(tasks, Today, today),
           InGroup(tasks, Upcoming, today), InGroup(tasks, NoDueDate, today))
  }

  function Joined<R>(g: Groups<R>): seq<Task<R>> { g.overdue + g.today + g.upcoming + g.noDueDate }

  method GroupTasks<R>(tasks: seq<Task<R>>, today: string, collate: Collation) returns (groups: Groups<R>)
    ensures groups == Grouped(Sort(tasks, Order(collate)), today)
  {
    var sorted := Sort(tasks, Order(collate));
    groups := Groups([], [], [], []);
    var i := 0;
    while i < |sorted|
      invariant i <= |sorted|
      invariant groups == Grouped(sorted[..i], today)
    {
      var task := sorted[i];
      assert sorted[..i + 1][..i] == sorted[..i];
      match TaskGroupOf(task, today) {
        case Overdue => groups := groups.(overdue := groups.overdue + [task]);
        case Today => groups := groups.(today := groups.today + [task]);
        case Upcoming => groups := groups.(upcoming := groups.upcoming + [task]);
        case NoDueDate => groups := groups.(noDueDate := groups.noDueDate + [task]);
      }
      i := i + 1;
    }
    assert sorted[..i] == sorted;
  }

  function Place(g: Group): nat {
    match g
    case Overdue => 0
    case Today => 1
    case Upcoming => 2
    case NoDueDate => 3
  }

  /** The order never goes back to an earlier group. */
  lemma OrderFollowsGroups<R>(l: Task<R>, r: Task<R>, today: string, collate: Collation)
    requires Order(collate)(l, r)
    ensures Place(TaskGroupOf(l, today)) <= Place(TaskGroupOf(r, today))
  {
    if l.dueDate.Some? && r.dueDate.Some? {
      var d, e := l.dueDate.value, r.dueDate.value;
      BeforeTotal(d, e);
      BeforeTotal(d, today);
      BeforeTotal(e, today);
      ChainText(d, e, today);
      ChainText(today, d, e);
    }
  }

  ghost predicate FollowsGroups<R>(tasks: seq<Task<R>>, today: string) {
    forall i, j :: 0 <= i < j < |tasks| ==> Place(TaskGroupOf(tasks[i], today)) <= Place(TaskGroupOf(tasks[j], today))
  }

  lemma {:induction false} NoneInGroup<R>(tasks: seq<Task<R>>, g: Group, today: string)
    requires forall t :: t in tasks ==> TaskGroupOf(t, today) != g
    ensures InGroup(tasks, g, today) == []
  {
    if tasks != [] { NoneInGroup(tasks[..|tasks| - 1], g, today); }
  }

  lemma {:induction false} GroupsRejoin<R>(tasks: seq<Task<R>>, today: string)
    requires FollowsGroups(tasks, today)
    ensures Joined(Grouped(tasks, today)) == tasks
  {
    if tasks != [] {
      var n := |tasks| - 1;
      var before, last := tasks[..n], tasks[n];
      GroupsRejoin(before, today);
      forall g: Group | Place(g) > Place(TaskGroupOf(last, today)) ensures InGroup(before, g, today) == [] {
        NoneInGroup(before, g, today);
      }
      assert tasks == before + [last];
      LastJoins(Grouped(before, today), last, TaskGroupOf(last, today), Grouped(tasks, today), today);
    }
  }

  /** Adding one Task to its group, with the later groups empty, adds it at the end of them all. */
  lemma LastJoins<R>(was: Groups<R>, last: Task<R>, g: Group, now: Groups<R>, today: string)
    requires now.overdue == was.overdue + if g == Overdue then [last] else []
    requires now.today == was.today + if g == Today then [last] else []
    requires now.upcoming == was.upcoming + if g == Upcoming then [last] else []
    requires now.noDueDate == was.noDueDate + if g == NoDueDate then [last] else []
    requires Place(g) < 1 ==> was.today == []
    requires Place(g) < 2 ==> was.upcoming == []
    requires Place(g) < 3 ==> was.noDueDate == []
    ensures Joined(now) == Joined(was) + [last]
  {
  }

  /** The four groups, one after the other, are the whole list in its one order: no Task lost, added or moved. */
  lemma GroupsCutTheOrder<R(!new)>(tasks: seq<Task<R>>, today: string, collate: Collation)
    requires OrdersIds(collate)
    ensures var sorted := Sort(tasks, Order(collate));
      && Ordered(sorted, Order(collate))
      && Joined(Grouped(sorted, today)) == sorted
      && multiset(Joined(Grouped(sorted, today))) == multiset(tasks)
  {
    var sorted := Sort(tasks, Order(collate));
    OrderIsTotal<R>(collate);
    SortOrders(tasks, Order(collate));
    forall i, j | 0 <= i < j < |sorted|
      ensures Place(TaskGroupOf(sorted[i], today)) <= Place(TaskGroupOf(sorted[j], today))
    {
      OrderFollowsGroups(sorted[i], sorted[j], today, collate);
    }
    GroupsRejoin(sorted, today);
  }

  /** Due before today, today, later, or not at all. */
  predicate BelongsIn<R>(task: Task<R>, g: Group, today: string) {
    match g
    case Overdue => task.dueDate.Some? && Before(task.dueDate.value, today)
    case Today => task.dueDate == Some(today)
    case Upcoming => task.dueDate.Some? && Before(today, task.dueDate.value)
    case NoDueDate => task.dueDate == None
  }

  lemma GroupOfDate<R>(task: Task<R>, g: Group, today: string)
    ensures TaskGroupOf(task, today) == g <==> BelongsIn(task, g, today)
  {
    if task.dueDate.Some? { BeforeTotal(task.dueDate.value, today); }
  }

  lemma {:induction false} GroupMembers<R>(tasks: seq<Task<R>>, g: Group, today: string, task: Task<R>)
    ensures task in InGroup(tasks, g, today) <==> task in tasks && BelongsIn(task, g, today)
  {
    GroupOfDate(task, g, today);
    if tasks != [] {
      var n := |tasks| - 1;
      assert tasks == tasks[..n] + [tasks[n]];
      GroupMembers(tasks[..n], g, today, task);
    }
  }

  /** The order the list arrived in is forgotten. */
  lemma GroupsIndependent<R(!new)>(tasks: seq<Task<R>>, shuffled: seq<Task<R>>, today: string, collate: Collation)
    requires OrdersIds(collate) && DistinctIds(tasks) && multiset(tasks) == multiset(shuffled)
    ensures Grouped(Sort(tasks, Order(collate)), today) == Grouped(Sort(shuffled, Order(collate)), today)
  {
    OrderIsTotal<R>(collate);
    DistinctDoNotTie(tasks, collate);
    SortIndependent(tasks, shuffled, Order(collate));
  }
}
