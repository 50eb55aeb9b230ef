/**
 * The intern's task board, as values: orders with their review tasks, the per-order counters
 * the page derives, the filters and figures it shows, and the row updates that claiming a task
 * and submitting its proof send to the store.
 */
module InternTasks {
  import opened Optional
  import opened Seqs
  import opened Text

  /** A review task; `commission` is in cents and may be missing, `internId` is null until claimed. */
  datatype Task = Task(
    id: string,
    status: string,
    commission: Option<int>,
    guidelines: seq<string>,
    internId: Option<string>)

  /** `!task.intern_id`: no intern, or the empty id. */
  predicate Unclaimed(t: Task) {
    t.internId.None? || t.internId.value == ""
  }

  predicate IsAvailable(t: Task) {
    t.status == "pending" && Unclaimed(t)
  }

  predicate HeldBy(t: Task, user: string) {
    t.internId == Some(user)
  }

  function HeldByUser(user: string): Task -> bool {
    t => HeldBy(t, user)
  }

  predicate AssignedTo(t: Task, user: string) {
    HeldBy(t, user) && t.status == "assigned"
  }

  function AssignedToUser(user: string): Task -> bool {
    t => AssignedTo(t, user)
  }

  /** `task.commission || 0`. */
  function CommissionOf(t: Task): int {
    t.commission.GetOr(0)
  }

  predicate HasCommission(t: Task) {
    t.commission.Some?
  }

  /** The columns of an order row the page reads. */
  datatype OrderRow = OrderRow(
    id: string,
    businessName: string,
    businessUrl: string,
    totalReviews: int,
    completedReviews: int,
    status: string,
    createdAt: string)

  /** An order as fetched, its tasks embedded (possibly null). */
  datatype FetchedOrder = FetchedOrder(row: OrderRow, reviewTasks: Option<seq<Task>>)

  /** An order as the page keeps it, with its derived counters. */
  datatype OrderView = OrderView(
    row: OrderRow,
    tasks: seq<Task>,
    availableTasksCount: nat,
    myTasksCount: nat,
    totalCommission: int)

  /** The per-order transform of the fetch. */
  function Transform(o: FetchedOrder, user: string): (v: OrderView)
    ensures v.row == o.row
    ensures v.tasks == if o.reviewTasks.Some? then o.reviewTasks.value else []
  {
    var tasks := o.reviewTasks.GetOr([]);
    OrderView(o.row, tasks, |Filter(tasks, IsAvailable)|, |Filter(tasks, HeldByUser(user))|, Sum(tasks, CommissionOf))
  }

  function TransformFor(user: string): FetchedOrder -> OrderView {
    o => Transform(o, user)
  }

  /** An order the intern can act on: a task to claim, or a task of theirs. */
  predicate Relevant(v: OrderView) {
    v.availableTasksCount > 0 || v.myTasksCount > 0
  }

  /** The orders the page keeps from a fetch (`ordersData || []`, transformed, irrelevant ones dropped). */
  function RelevantOrders(data: Option<seq<FetchedOrder>>, user: string): seq<OrderView> {
    Filter(Map(data.GetOr([]), TransformFor(user)), Relevant)
  }

  /** The counters of a view agree with its tasks, as every transformed order's do. */
  predicate CountersAgree(v: OrderView, user: string) {
    && v.availableTasksCount == |Filter(v.tasks, IsAvailable)|
    && v.myTasksCount == |Filter(v.tasks, HeldByUser(user))|
  }

  function AvailableCount(v: OrderView): int { v.availableTasksCount }
  function MyCount(v: OrderView): int { v.myTasksCount }
  function TasksOfView(v: OrderView): seq<Task> { v.tasks }

  /** The "Available Tasks" figure. */
  function TotalAvailableTasks(orders: seq<OrderView>): int {
    Sum(orders, AvailableCount)
  }

  /** The "My Active Tasks" figure: every task held by the intern, whatever its status. */
  function MyActiveTasks(orders: seq<OrderView>): int {
    Sum(orders, MyCount)
  }

  function MyCommission(user: string): OrderView -> int {
    (v: OrderView) => Sum(Filter(v.tasks, HeldByUser(user)), CommissionOf)
  }

  /** The "Potential Earnings" figure, in cents. */
  function PotentialEarnings(orders: seq<OrderView>, user: string): int {
    Sum(orders, MyCommission(user))
  }

  /** The "Available Earnings" figure: a flat $5.00 per available task, in cents. */
  function AvailableEarnings(orders: seq<OrderView>): int {
    TotalAvailableTasks(orders) * 500
  }

  predicate MatchesStatusFilter(v: OrderView, statusFilter: string) {
    || statusFilter == "all"
    || (statusFilter == "available" && v.availableTasksCount > 0)
    || (statusFilter == "claimed" && v.myTasksCount > 0)
  }

  predicate Shown(v: OrderView, term: string, statusFilter: string) {
    ContainsIgnoringCase(v.row.businessName, term) && MatchesStatusFilter(v, statusFilter)
  }

  function ShownFor(term: string, statusFilter: string): OrderView -> bool {
    v => Shown(v, term, statusFilter)
  }

  /** The orders listed for a search term and a status filter. */
  function FilteredOrders(orders: seq<OrderView>, term: string, statusFilter: string): seq<OrderView> {
    Filter(orders, ShownFor(term, statusFilter))
  }

  function HasId(orderId: string): OrderView -> bool {
    (v: OrderView) => v.row.id == orderId
  }

  /** `orders.find(o => o.id === orderId)`. */
  function FindOrder(orders: seq<OrderView>, orderId: string): Option<OrderView> {
    Find(orders, HasId(orderId))
  }

  /** The task a claim picks: the first available task of the first order with that id. */
  function ClaimTarget(orders: seq<OrderView>, orderId: string): Option<Task> {
    match FindOrder(orders, orderId)
    case None => None
    case Some(v) => Find(v.tasks, IsAvailable)
  }

  /** The order and task a submission is for: the intern's first assigned task on that order. */
  function SubmitTarget(orders: seq<OrderView>, orderId: string, user: string): Option<(OrderView, Task)> {
    match FindOrder(orders, orderId)
    case None => None
    case Some(v) =>
      match Find(v.tasks, AssignedToUser(user))
      case None => None
      case Some(t) => Some((v, t))
  }

  /** A task row of the store: the task and the order it belongs to. */
  datatype TaskRow = TaskRow(orderId: string, task: Task)

  /** The two task updates the page sends. */
  datatype TaskPatch = ClaimBy(intern: string) | MarkSubmitted

  function Patched(t: Task, p: TaskPatch): Task {
    match p
    case ClaimBy(intern) => t.(internId := Some(intern), status := "assigned")
    case MarkSubmitted => t.(status := "submitted")
  }

  /** `update(patch).eq('id', id)` over the task rows: every row with that id is patched,
      whatever it held before. */
  function UpdateTasks(rows: seq<TaskRow>, id: string, p: TaskPatch): seq<TaskRow> {
    seq(|rows|, i requires 0 <= i < |rows| =>
      if rows[i].task.id == id then rows[i].(task := Patched(rows[i].task, p)) else rows[i])
  }

  /** The same update, seen on one order's list of tasks. */
  function PatchTasks(tasks: seq<Task>, id: string, p: TaskPatch): seq<Task> {
    seq(|tasks|, i requires 0 <= i < |tasks| => if tasks[i].id == id then Patched(tasks[i], p) else tasks[i])
  }

  /** The order update of a submission, computed from the page's copy of the order. */
  function CompletionUpdate(snapshot: OrderRow): (int, string) {
    var done := snapshot.completedReviews + 1;
    (done, if done >= snapshot.totalReviews then "completed" else "in-progress")
  }

  /** `update({completed_reviews, status}).eq('id', id)` over the order rows. */
  function UpdateOrders(rows: seq<OrderRow>, id: string, change: (int, string)): seq<OrderRow> {
    seq(|rows|, i requires 0 <= i < |rows| =>
      if rows[i].id == id then rows[i].(completedReviews := change.0, status := change.1) else rows[i])
  }

  /** The statuses the fetch asks for. */
  predicate IsOpen(r: OrderRow) {
    r.status == "pending" || r.status == "in-progress"
  }

  /** The tasks of one order, in table order. */
  function TasksOf(rows: seq<TaskRow>, orderId: string): (r: seq<Task>)
    ensures |r| <= |rows|
    ensures forall i :: 0 <= i < |rows| && rows[i].orderId == orderId ==> rows[i].task in r
    ensures forall t :: t in r ==> exists i :: 0 <= i < |rows| && rows[i].orderId == orderId && rows[i].task == t
  {
    if rows == [] then []
    else
      var rest := TasksOf(rows[1..], orderId);
      assert forall i :: 1 <= i < |rows| ==> rows[i] == rows[1..][i - 1];
      (if rows[0].orderId == orderId then [rows[0].task] else []) + rest
  }

  function JoinTasks(rows: seq<TaskRow>): OrderRow -> FetchedOrder {
    (o: OrderRow) => FetchedOrder(o, Some(TasksOf(rows, o.id)))
  }

  /** The fetch against the store: open orders, each with its tasks embedded. */
  function Query(orders: seq<OrderRow>, tasks: seq<TaskRow>): seq<FetchedOrder> {
    Map(Filter(orders, IsOpen), JoinTasks(tasks))
  }

  /** The page's copy of the board after a successful fetch. */
  function Snapshot(orders: seq<OrderRow>, tasks: seq<TaskRow>, user: string): seq<OrderView> {
    RelevantOrders(Some(Query(orders, tasks)), user)
  }

  /** An order row whose counter stays within its target and whose status says whether it is met. */
  predicate Consistent(r: OrderRow) {
    && 0 <= r.completedReviews <= r.totalReviews
    && (r.status == "completed" <==> r.completedReviews == r.totalReviews)
  }

  // ---------------------------------------------------------------------------------------------
  // Aggregation

  /** The available counter is the number of positions holding a pending task without an intern;
      the own counter the number holding a task of the user, whatever its status. */
  lemma TransformCounts(o: FetchedOrder, user: string)
    ensures var v := Transform(o, user);
            && v.availableTasksCount == |set i | 0 <= i < |v.tasks| && IsAvailable(v.tasks[i])|
            && v.myTasksCount == |set i | 0 <= i < |v.tasks| && HeldBy(v.tasks[i], user)|
  {
    var tasks := Transform(o, user).tasks;
    FilterCountIsPositions(tasks, IsAvailable);
    FilterCountIsPositions(tasks, HeldByUser(user));
    assert Positions(tasks, IsAvailable) == set i | 0 <= i < |tasks| && IsAvailable(tasks[i]);
    assert Positions(tasks, HeldByUser(user)) == set i | 0 <= i < |tasks| && HeldBy(tasks[i], user);
  }

  lemma TransformedCountersAgree(o: FetchedOrder, user: string)
    ensures CountersAgree(Transform(o, user), user)
  {
  }

  /** An order's commission total is the sum over the tasks that have a commission: a task without
      one adds nothing, and one with a commission adds exactly that commission. */
  lemma MissingCommissionCountsZero(o: FetchedOrder, user: string, t: Task)
    ensures Transform(o, user).totalCommission == Sum(Filter(Transform(o, user).tasks, HasCommission), CommissionOf)
    ensures o.reviewTasks.Some? ==>
              var extended := o.(reviewTasks := Some(o.reviewTasks.value + [t]));
              Transform(extended, user).totalCommission ==
                Transform(o, user).totalCommission + (if t.commission.Some? then t.commission.value else 0)
  {
    SumDropsZeros(Transform(o, user).tasks, CommissionOf, HasCommission);
    if o.reviewTasks.Some? {
      SumConcat(o.reviewTasks.value, [t], CommissionOf);
    }
  }

  /** The kept orders are exactly the relevant ones, in fetch order. */
  lemma RelevantOrdersAreOrderedSelection(data: Option<seq<FetchedOrder>>, user: string)
    ensures IsSubsequence(RelevantOrders(data, user), Map(data.GetOr([]), TransformFor(user)))
    ensures forall v :: v in RelevantOrders(data, user) <==> v in Map(data.GetOr([]), TransformFor(user)) && Relevant(v)
    ensures var all := Map(data.GetOr([]), TransformFor(user));
            |RelevantOrders(data, user)| == |set i | 0 <= i < |all| && Relevant(all[i])|
  {
    var all := Map(data.GetOr([]), TransformFor(user));
    FilterIsSubsequence(all, Relevant);
    FilterCountIsPositions(all, Relevant);
    assert Positions(all, Relevant) == set i | 0 <= i < |all| && Relevant(all[i]);
  }

  /** Dropping irrelevant orders changes neither headline figure: both count over every fetched order,
      and "Available Tasks" is the number of available tasks across all of them. */
  lemma HeadlineFiguresIgnoreDroppedOrders(data: Option<seq<FetchedOrder>>, user: string)
    ensures TotalAvailableTasks(RelevantOrders(data, user)) == TotalAvailableTasks(Map(data.GetOr([]), TransformFor(user)))
    ensures MyActiveTasks(RelevantOrders(data, user)) == MyActiveTasks(Map(data.GetOr([]), TransformFor(user)))
    ensures TotalAvailableTasks(RelevantOrders(data, user)) ==
            |Filter(Flatten(Map(Map(data.GetOr([]), TransformFor(user)), TasksOfView)), IsAvailable)|
  {
    var all := Map(data.GetOr([]), TransformFor(user));
    SumDropsZeros(all, AvailableCount, Relevant);
    SumDropsZeros(all, MyCount, Relevant);
    SumOfCounts(all, TasksOfView, IsAvailable, AvailableCount);
  }

  /** "Available Earnings" is $5.00, in cents, for every available task of every fetched order. */
  lemma AvailableEarningsPerFreeTask(data: Option<seq<FetchedOrder>>, user: string)
    ensures AvailableEarnings(RelevantOrders(data, user)) ==
            500 * |Filter(Flatten(Map(Map(data.GetOr([]), TransformFor(user)), TasksOfView)), IsAvailable)|
  {
    HeadlineFiguresIgnoreDroppedOrders(data, user);
  }

  /** The board does not guard against an open order whose target is already met: an order row
      with no reviews to do and none done is fetched, and submitting on it writes a counter of 1
      against a target of 0. */
  lemma UnguardedOrderOverruns()
    ensures var row := OrderRow("o", "b", "", 0, 0, "pending", "");
            && IsOpen(row) && !Consistent(row)
            && CompletionUpdate(row) == (1, "completed")
            && !Consistent(row.(completedReviews := 1, status := "completed"))
  {
  }

  /** Orders dropped for having nothing for the intern hold none of the intern's tasks, so
      "Potential Earnings" is the same over the kept orders as over all fetched ones. */
  lemma PotentialEarningsIgnoreDroppedOrders(data: Option<seq<FetchedOrder>>, user: string)
    ensures PotentialEarnings(RelevantOrders(data, user), user) == PotentialEarnings(Map(data.GetOr([]), TransformFor(user)), user)
  {
    var all := Map(data.GetOr([]), TransformFor(user));
    forall v | v in all && !Relevant(v)
      ensures MyCommission(user)(v) == 0
    {
      assert |Filter(v.tasks, HeldByUser(user))| == 0;
    }
    SumDropsZeros(all, MyCommission(user), Relevant);
  }

  /** The listed orders are exactly those whose business name contains the term, ignoring case,
      and that pass the status filter; they keep their order. */
  lemma FilteredOrdersAreOrderedSelection(orders: seq<OrderView>, term: string, statusFilter: string)
    ensures IsSubsequence(FilteredOrders(orders, term, statusFilter), orders)
    ensures forall i :: 0 <= i < |orders| ==>
              (orders[i] in FilteredOrders(orders, term, statusFilter) <==>
                ContainsIgnoringCase(orders[i].row.businessName, term) &&
                (statusFilter == "all" || (statusFilter == "available" && orders[i].availableTasksCount > 0)
                 || (statusFilter == "claimed" && orders[i].myTasksCount > 0)))
    ensures |FilteredOrders(orders, term, statusFilter)| == |set i | 0 <= i < |orders| && Shown(orders[i], term, statusFilter)|
  {
    FilterIsSubsequence(orders, ShownFor(term, statusFilter));
    FilterCountIsPositions(orders, ShownFor(term, statusFilter));
    assert Positions(orders, ShownFor(term, statusFilter)) == set i | 0 <= i < |orders| && Shown(orders[i], term, statusFilter);
  }

  // ---------------------------------------------------------------------------------------------
  // Claiming

  /** A claim picks the first available task of the order, and finds one exactly when the order's
      counter says there is one. */
  lemma ClaimTargetIsFirstAvailable(orders: seq<OrderView>, orderId: string, user: string)
    requires FindOrder(orders, orderId).Some?
    requires CountersAgree(FindOrder(orders, orderId).value, user)
    ensures ClaimTarget(orders, orderId).Some? <==> FindOrder(orders, orderId).value.availableTasksCount > 0
    ensures ClaimTarget(orders, orderId).Some? ==>
              var tasks := FindOrder(orders, orderId).value.tasks;
              var k := FirstIndex(tasks, IsAvailable).value;
              ClaimTarget(orders, orderId).value == tasks[k] && IsAvailable(tasks[k])
              && forall j :: 0 <= j < k ==> !IsAvailable(tasks[j])
  {
    var tasks := FindOrder(orders, orderId).value.tasks;
    if Filter(tasks, IsAvailable) != [] {
      assert Filter(tasks, IsAvailable)[0] in tasks;
    }
  }

  /** The claim update writes over a row already held by another intern: nothing in it re-checks
      `intern_id`, so a claim from a stale copy of the board takes the task over. */
  lemma ClaimOverwritesHeldRow(rows: seq<TaskRow>, i: nat, user: string)
    requires i < |rows| && rows[i].task.internId.Some? && rows[i].task.internId != Some(user)
    ensures UpdateTasks(rows, rows[i].task.id, ClaimBy(user))[i].task.internId == Some(user)
    ensures UpdateTasks(rows, rows[i].task.id, ClaimBy(user))[i].task.status == "assigned"
  {
  }

  /** Only rows with the claimed id change, and they change only in intern and status. */
  lemma ClaimTouchesOnlyThatTask(rows: seq<TaskRow>, id: string, user: string)
    ensures |UpdateTasks(rows, id, ClaimBy(user))| == |rows|
    ensures forall i :: 0 <= i < |rows| && rows[i].task.id != id ==> UpdateTasks(rows, id, ClaimBy(user))[i] == rows[i]
    ensures forall i :: 0 <= i < |rows| && rows[i].task.id == id ==>
              var r := UpdateTasks(rows, id, ClaimBy(user))[i];
              r.orderId == rows[i].orderId && r.task.id == id && r.task.commission == rows[i].task.commission
              && r.task.guidelines == rows[i].task.guidelines && HeldBy(r.task, user) && r.task.status == "assigned"
  {
  }

  /** Updating the rows by task id and then reading one order's tasks is the same as reading
      them and then updating that list. */
  lemma {:induction false} UpdateThenRead(rows: seq<TaskRow>, orderId: string, id: string, p: TaskPatch)
    ensures TasksOf(UpdateTasks(rows, id, p), orderId) == PatchTasks(TasksOf(rows, orderId), id, p)
    decreases |rows|
  {
    if rows != [] {
      UpdateThenRead(rows[1..], orderId, id, p);
      UpdateThenReadHead(rows, orderId, id, p);
      var first := if rows[0].orderId == orderId then [rows[0].task] else [];
      PatchConcat(first, TasksOf(rows[1..], orderId), id, p);
    }
  }

  /** The first row of an update, read through `TasksOf`. */
  lemma UpdateThenReadHead(rows: seq<TaskRow>, orderId: string, id: string, p: TaskPatch)
    requires rows != []
    ensures TasksOf(UpdateTasks(rows, id, p), orderId) ==
            PatchTasks(if rows[0].orderId == orderId then [rows[0].task] else [], id, p)
            + TasksOf(UpdateTasks(rows[1..], id, p), orderId)
  {
    var after := UpdateTasks(rows, id, p);
    assert after[1..] == UpdateTasks(rows[1..], id, p);
    assert after[0].orderId == rows[0].orderId && after[0].task == PatchTasks([rows[0].task], id, p)[0];
  }

  lemma PatchConcat(a: seq<Task>, b: seq<Task>, id: string, p: TaskPatch)
    ensures PatchTasks(a + b, id, p) == PatchTasks(a, id, p) + PatchTasks(b, id, p)
  {
  }

  predicate DistinctIds(tasks: seq<Task>) {
    forall i, j :: 0 <= i < |tasks| && 0 <= j < |tasks| && tasks[i].id == tasks[j].id ==> i == j
  }

  lemma PositionsAfterClaim(tasks: seq<Task>, k: nat, user: string)
    requires k < |tasks| && DistinctIds(tasks) && IsAvailable(tasks[k]) && user != ""
    ensures Positions(PatchTasks(tasks, tasks[k].id, ClaimBy(user)), IsAvailable) == Positions(tasks, IsAvailable) - {k}
    ensures Positions(PatchTasks(tasks, tasks[k].id, ClaimBy(user)), HeldByUser(user)) == Positions(tasks, HeldByUser(user)) + {k}
    ensures k in Positions(tasks, IsAvailable) && k !in Positions(tasks, HeldByUser(user))
  {
    var after := PatchTasks(tasks, tasks[k].id, ClaimBy(user));
    assert forall i :: 0 <= i < |tasks| && i != k ==> after[i] == tasks[i];
  }

  /** Claiming one available task of an order whose task ids are distinct moves exactly one task
      from "available" to the intern's own. */
  lemma ClaimMovesOneTask(tasks: seq<Task>, k: nat, user: string)
    requires k < |tasks| && DistinctIds(tasks) && IsAvailable(tasks[k]) && user != ""
    ensures |Filter(PatchTasks(tasks, tasks[k].id, ClaimBy(user)), IsAvailable)| == |Filter(tasks, IsAvailable)| - 1
    ensures |Filter(PatchTasks(tasks, tasks[k].id, ClaimBy(user)), HeldByUser(user))| == |Filter(tasks, HeldByUser(user))| + 1
  {
    var after := PatchTasks(tasks, tasks[k].id, ClaimBy(user));
    PositionsAfterClaim(tasks, k, user);
    FilterCountIsPositions(tasks, IsAvailable);
    FilterCountIsPositions(after, IsAvailable);
    FilterCountIsPositions(tasks, HeldByUser(user));
    FilterCountIsPositions(after, HeldByUser(user));
  }

  // ---------------------------------------------------------------------------------------------
  // Submitting

  /** The order update reaches "completed" exactly when the incremented counter meets the target;
      applied to an open, consistent order it yields a consistent order. */
  lemma CompletionKeepsOrderConsistent(snapshot: OrderRow)
    requires Consistent(snapshot) && IsOpen(snapshot)
    ensures CompletionUpdate(snapshot).0 == snapshot.completedReviews + 1 <= snapshot.totalReviews
    ensures CompletionUpdate(snapshot).1 == "completed" <==> snapshot.completedReviews + 1 >= snapshot.totalReviews
    ensures CompletionUpdate(snapshot).1 != "completed" ==> CompletionUpdate(snapshot).1 == "in-progress"
    ensures Consistent(snapshot.(completedReviews := CompletionUpdate(snapshot).0, status := CompletionUpdate(snapshot).1))
  {
  }

  /** Because the new counter comes from the page's copy, repeating the order update from the same
      copy (a retry after a later step failed) does not count the review twice. */
  lemma OrderUpdateIdempotent(rows: seq<OrderRow>, id: string, snapshot: OrderRow)
    ensures UpdateOrders(UpdateOrders(rows, id, CompletionUpdate(snapshot)), id, CompletionUpdate(snapshot))
            == UpdateOrders(rows, id, CompletionUpdate(snapshot))
  {
  }

  /** The order update touches only rows with that id, and there only the counter and status. */
  lemma OrderUpdateTouchesOnlyThatOrder(rows: seq<OrderRow>, id: string, change: (int, string))
    ensures |UpdateOrders(rows, id, change)| == |rows|
    ensures forall i :: 0 <= i < |rows| ==>
              var r := UpdateOrders(rows, id, change)[i];
              r.id == rows[i].id && r.totalReviews == rows[i].totalReviews
              && (rows[i].id != id ==> r == rows[i])
              && (rows[i].id == id ==> r.completedReviews == change.0 && r.status == change.1)
  {
  }

  /** The worked example: an order of two reviews with two open $5.00 tasks. One claim leaves one
      task available and one held; submitting moves the order to 1 of 2, in progress, and a second
      submission completes it. */
  lemma TwoTaskScenario()
    ensures var tasks := [Task("t1", "pending", Some(500), [], None), Task("t2", "pending", Some(500), [], None)];
            var after := PatchTasks(tasks, "t1", ClaimBy("I1"));
            && |Filter(after, IsAvailable)| == 1
            && |Filter(after, HeldByUser("I1"))| == 1
    ensures var row := OrderRow("o1", "Cafe", "", 2, 0, "pending", "");
            && CompletionUpdate(row) == (1, "in-progress")
            && CompletionUpdate(row.(completedReviews := 1, status := "in-progress")) == (2, "completed")
  {
    var tasks := [Task("t1", "pending", Some(500), [], None), Task("t2", "pending", Some(500), [], None)];
    ClaimMovesOneTask(tasks, 0, "I1");
    assert Filter(tasks, IsAvailable) == tasks by { FilterAll(tasks, IsAvailable); }
    assert Filter(tasks, HeldByUser("I1")) == [] by { FilterNone(tasks, HeldByUser("I1")); }
  }
}
