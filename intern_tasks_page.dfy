/**
 * The intern's task page as an object: the backing store it reads and writes, and the page state
 * (the copy of the board, the loading flag, the order being submitted, the per-order drafts and
 * the error banner) that its handlers update step by step.
 */
module InternTasksPage {
  import opened Optional
  import opened Seqs
  import opened InternTasks
  import Money

  const LoadFailedMessage := "Failed to load tasks. Please try again."
  const NoAvailableMessage := "No available tasks for this order"
  const ClaimFailedMessage := "Failed to claim task"
  const IncompleteMessage := "Please provide both screenshot and review content"
  const NoAssignedMessage := "No assigned task found for this order"
  const SubmitFailedMessage := "Failed to submit proof"
  const ProofBucket := "review-proofs"

  /** How a call to the store ended: success, or a thrown error with or without a message. */
  datatype Outcome = Succeeded | Failed(message: Option<string>)

  /** The banner text for a failure: the error's message, or the handler's fallback. */
  function FailureText(o: Outcome, fallback: string): (s: string)
    ensures o.Failed? && o.message.Some? ==> s == o.message.value
    ensures (o.Succeeded? || o.message.None?) ==> s == fallback
  {
    if o.Failed? then o.message.GetOr(fallback) else fallback
  }

  /** An uploaded screenshot. */
  datatype File = File(name: string, size: nat)

  /** The draft of one order's submission. */
  datatype Draft = Draft(taskId: Option<string>, screenshot: Option<File>, reviewContent: Option<string>)

  datatype DraftField = TaskIdField(taskId: string) | ScreenshotField(file: Option<File>) | ContentField(text: string)

  /** `submissions[orderId]`, or the empty object spread when there is none yet. */
  function DraftOf(submissions: map<string, Draft>, orderId: string): Draft {
    if orderId in submissions then submissions[orderId] else Draft(None, None, None)
  }

  function WithField(d: Draft, f: DraftField): (r: Draft)
    ensures f.TaskIdField? ==>
              r.taskId == Some(f.taskId) && r.screenshot == d.screenshot && r.reviewContent == d.reviewContent
    ensures f.ScreenshotField? ==>
              r.screenshot == f.file && r.taskId == d.taskId && r.reviewContent == d.reviewContent
    ensures f.ContentField? ==>
              r.reviewContent == Some(f.text) && r.taskId == d.taskId && r.screenshot == d.screenshot
  {
    match f
    case TaskIdField(id) => d.(taskId := Some(id))
    case ScreenshotField(file) => d.(screenshot := file)
    case ContentField(text) => d.(reviewContent := Some(text))
  }

  /** A draft that can be sent: a screenshot and a non-empty review text. */
  predicate Complete(submissions: map<string, Draft>, orderId: string) {
    orderId in submissions
    && submissions[orderId].screenshot.Some?
    && submissions[orderId].reviewContent.Some? && submissions[orderId].reviewContent.value != ""
  }

  /** Choosing a screenshot and typing a non-empty review, in either order, makes the draft
      complete, whatever it held before; clearing the screenshot makes it incomplete again. */
  lemma FillingBothFieldsCompletes(submissions: map<string, Draft>, orderId: string, file: File, text: string)
    requires text != ""
    ensures var s1 := submissions[orderId := WithField(DraftOf(submissions, orderId), ScreenshotField(Some(file)))];
            var s2 := s1[orderId := WithField(DraftOf(s1, orderId), ContentField(text))];
            Complete(s2, orderId)
    ensures var s1 := submissions[orderId := WithField(DraftOf(submissions, orderId), ContentField(text))];
            var s2 := s1[orderId := WithField(DraftOf(s1, orderId), ScreenshotField(Some(file)))];
            Complete(s2, orderId)
    ensures var s1 := submissions[orderId := WithField(DraftOf(submissions, orderId), ScreenshotField(None))];
            !Complete(s1, orderId)
  {
  }

  /** A stored file. */
  datatype Blob = Blob(path: string, file: File)

  /** A row of the proof table. */
  datatype ProofRow = ProofRow(taskId: string, internId: string, screenshotUrl: string, reviewContent: string)

  /** The storage path of a proof: the task id, then the upload's timestamp. */
  function ProofPath(taskId: string, stamp: nat): string {
    taskId + "/" + Money.Decimal(stamp) + "-proof.png"
  }

  function PublicUrl(path: string): string {
    ProofBucket + "/" + path
  }

  /** A proof is stored in its task's own folder, so the proofs of two different tasks never share
      a path, as long as task ids hold no "/". */
  lemma ProofPathsSeparateTasks(a: string, b: string, stampA: nat, stampB: nat)
    requires '/' !in a && '/' !in b && a != b
    ensures ProofPath(a, stampA)[..|a| + 1] == a + "/"
    ensures ProofPath(a, stampA) != ProofPath(b, stampB)
  {
    var pa, pb := ProofPath(a, stampA), ProofPath(b, stampB);
    assert pa[..|a| + 1] == a + "/";
    assert pb[..|b| + 1] == b + "/";
    if |a| < |b| {
      assert pa[|a|] == '/' && pb[|a|] == b[|a|] && b[|a|] in b;
    } else if |b| < |a| {
      assert pb[|b|] == '/' && pa[|b|] == a[|b|] && a[|b|] in a;
    } else {
      assert exists i :: 0 <= i < |a| && a[i] != b[i];
      var i :| 0 <= i < |a| && a[i] != b[i];
      assert pa[i] == a[i] && pb[i] == b[i];
    }
  }

  predicate UniqueOrderIds(rows: seq<OrderRow>) {
    forall i, j :: 0 <= i < |rows| && 0 <= j < |rows| && rows[i].id == rows[j].id ==> i == j
  }

  /** Every stored order row with this id has the same review target as the copy. */
  predicate TargetMatches(rows: seq<OrderRow>, copy: OrderRow) {
    forall i :: 0 <= i < |rows| && rows[i].id == copy.id ==> rows[i].totalReviews == copy.totalReviews
  }

  lemma {:induction false} SnapshotRowsComeFromStore(orders: seq<OrderRow>, tasks: seq<TaskRow>, user: string, v: OrderView)
    requires v in Snapshot(orders, tasks, user)
    ensures v.row in orders && IsOpen(v.row)
    ensures CountersAgree(v, user)
  {
    var all := Map(Query(orders, tasks), TransformFor(user));
    assert v in all;
    var i :| 0 <= i < |all| && all[i] == v;
    var open := Filter(orders, IsOpen);
    var fetched := Query(orders, tasks);
    assert fetched[i] == FetchedOrder(open[i], Some(TasksOf(tasks, open[i].id)));
    assert all[i] == Transform(fetched[i], user);
    TransformedCountersAgree(fetched[i], user);
    assert v.row == open[i];
  }

  /** Every order on a board is open and consistent, carries the store's review target, and has
      the counters of its own task list. */
  ghost predicate BoardFits(rows: seq<OrderRow>, board: seq<OrderView>, user: string) {
    forall v :: v in board ==> IsOpen(v.row) && Consistent(v.row) && TargetMatches(rows, v.row) && CountersAgree(v, user)
  }

  /** The stored orders have distinct ids and consistent counters, and the board fits them. */
  ghost predicate Invariant(rows: seq<OrderRow>, board: seq<OrderView>, user: string) {
    && UniqueOrderIds(rows)
    && (forall r :: r in rows ==> Consistent(r))
    && BoardFits(rows, board, user)
  }

  /** A fetch from a store of consistent orders with distinct ids yields a board that fits it. */
  lemma SnapshotFits(orders: seq<OrderRow>, tasks: seq<TaskRow>, user: string)
    requires UniqueOrderIds(orders) && forall r :: r in orders ==> Consistent(r)
    ensures Invariant(orders, Snapshot(orders, tasks, user), user)
  {
    forall v | v in Snapshot(orders, tasks, user)
      ensures IsOpen(v.row) && Consistent(v.row) && TargetMatches(orders, v.row) && CountersAgree(v, user)
    {
      SnapshotRowsComeFromStore(orders, tasks, user, v);
    }
  }

  /** Applying the order update from an open, consistent copy that carries the store's target keeps
      the ids distinct, every counter within its target and the board fitting the store. */
  lemma UpdateKeepsStoreConsistent(rows: seq<OrderRow>, board: seq<OrderView>, user: string, copy: OrderRow)
    requires Invariant(rows, board, user)
    requires Consistent(copy) && IsOpen(copy) && TargetMatches(rows, copy)
    ensures Invariant(UpdateOrders(rows, copy.id, CompletionUpdate(copy)), board, user)
  {
    var after := UpdateOrders(rows, copy.id, CompletionUpdate(copy));
    CompletionKeepsOrderConsistent(copy);
    forall r | r in after ensures Consistent(r) {
      var i :| 0 <= i < |after| && after[i] == r;
      assert rows[i] in rows;
    }
    forall v | v in board ensures TargetMatches(after, v.row) {
      assert TargetMatches(rows, v.row);
    }
  }

  /** On a board that fits the store, a claim finds a task exactly when the order's counter shows
      a free one, and then takes its first pending task without an intern. */
  lemma BoardClaimMatchesCounter(rows: seq<OrderRow>, board: seq<OrderView>, user: string, orderId: string)
    requires Invariant(rows, board, user) && FindOrder(board, orderId).Some?
    ensures ClaimTarget(board, orderId).Some? <==> FindOrder(board, orderId).value.availableTasksCount > 0
    ensures ClaimTarget(board, orderId).Some? ==> IsAvailable(ClaimTarget(board, orderId).value)
  {
    assert FindOrder(board, orderId).value in board;
    ClaimTargetIsFirstAvailable(board, orderId, user);
  }

  class TaskBoard {
    // The backing store
    var storeOrders: seq<OrderRow>
    var storeTasks: seq<TaskRow>
    var proofs: seq<ProofRow>
    var blobs: seq<Blob>

    /** The signed-in intern, if any. */
    const user: Option<string>

    // The page state
    var orders: seq<OrderView>
    var loading: bool
    var submitting: Option<string>
    var submissions: map<string, Draft>
    var error: Option<string>

    /** Stored orders keep their counters consistent; the page's copy holds open, consistent orders
        whose review targets are those of the store. */
    ghost predicate Valid()
      reads this
    {
      Invariant(storeOrders, orders, user.GetOr(""))
    }

    constructor (orders0: seq<OrderRow>, tasks0: seq<TaskRow>, user0: Option<string>)
      requires UniqueOrderIds(orders0) && forall r :: r in orders0 ==> Consistent(r)
      ensures Valid()
      ensures storeOrders == orders0 && storeTasks == tasks0 && proofs == [] && blobs == []
      ensures user == user0 && orders == [] && loading && submitting.None? && submissions == map[] && error.None?
    {
      storeOrders, storeTasks, proofs, blobs := orders0, tasks0, [], [];
      user := user0;
      orders, loading, submitting, submissions, error := [], true, None, map[], None;
    }

    /** Reloads the board; without a signed-in intern nothing happens, not even the loading flag. */
    method FetchOrdersWithTasks(fetchOk: bool)
      requires Valid()
      modifies this
      ensures Valid()
      ensures storeOrders == old(storeOrders) && storeTasks == old(storeTasks)
      ensures proofs == old(proofs) && blobs == old(blobs)
      ensures submitting == old(submitting) && submissions == old(submissions)
      ensures user.None? ==> orders == old(orders) && loading == old(loading) && error == old(error)
      ensures user.Some? ==> !loading
      ensures user.Some? && fetchOk ==> orders == Snapshot(storeOrders, storeTasks, user.value) && error == old(error)
      ensures user.Some? && !fetchOk ==> orders == old(orders) && error == Some(LoadFailedMessage)
    {
      if user.None? {
        return;
      }
      if fetchOk {
        SnapshotFits(storeOrders, storeTasks, user.value);
        orders := Snapshot(storeOrders, storeTasks, user.value);
      } else {
        error := Some(LoadFailedMessage);
      }
      loading := false;
    }

    /** Claims the first available task of an order for the intern, then reloads. */
    method HandleClaimTask(orderId: string, update: Outcome, fetchOk: bool)
      requires Valid()
      modifies this
      ensures Valid()
      ensures storeOrders == old(storeOrders) && proofs == old(proofs) && blobs == old(blobs)
      ensures submissions == old(submissions)
      ensures user.None? ==>
                storeTasks == old(storeTasks) && orders == old(orders) && loading == old(loading)
                && submitting == old(submitting) && error == old(error)
      ensures user.Some? ==> submitting.None?
      ensures user.Some? && FindOrder(old(orders), orderId).Some? ==>
                (ClaimTarget(old(orders), orderId).Some? <==> FindOrder(old(orders), orderId).value.availableTasksCount > 0)
      ensures user.Some? && ClaimTarget(old(orders), orderId).None? ==>
                storeTasks == old(storeTasks) && orders == old(orders) && loading == old(loading)
                && error == Some(NoAvailableMessage)
      ensures user.Some? && ClaimTarget(old(orders), orderId).Some? && update.Failed? ==>
                storeTasks == old(storeTasks) && orders == old(orders) && loading == old(loading)
                && error == Some(FailureText(update, ClaimFailedMessage))
      ensures user.Some? && ClaimTarget(old(orders), orderId).Some? && update.Succeeded? ==>
                && storeTasks == UpdateTasks(old(storeTasks), ClaimTarget(old(orders), orderId).value.id, ClaimBy(user.value))
                && !loading
                && (fetchOk ==> orders == Snapshot(storeOrders, storeTasks, user.value) && error == old(error))
                && (!fetchOk ==> orders == old(orders) && error == Some(LoadFailedMessage))
    {
      if user.None? {
        return;
      }
      var target := ClaimTarget(orders, orderId);
      if FindOrder(orders, orderId).Some? {
        BoardClaimMatchesCounter(storeOrders, orders, user.value, orderId);
      }
      ClaimAndReload(orderId, target, update, fetchOk);
    }

    /** The claim of the task the board picked: the error when there is none, otherwise the claim
        update and a reload. The order is marked busy meanwhile and released on every exit. */
    method ClaimAndReload(orderId: string, target: Option<Task>, update: Outcome, fetchOk: bool)
      requires Valid() && user.Some?
      modifies this
      ensures Valid()
      ensures storeOrders == old(storeOrders) && proofs == old(proofs) && blobs == old(blobs)
      ensures submissions == old(submissions) && submitting.None?
      ensures target.None? ==>
                storeTasks == old(storeTasks) && orders == old(orders) && loading == old(loading)
                && error == Some(NoAvailableMessage)
      ensures target.Some? && update.Failed? ==>
                storeTasks == old(storeTasks) && orders == old(orders) && loading == old(loading)
                && error == Some(FailureText(update, ClaimFailedMessage))
      ensures target.Some? && update.Succeeded? ==>
                && storeTasks == UpdateTasks(old(storeTasks), target.value.id, ClaimBy(user.value))
                && !loading
                && (fetchOk ==> orders == Snapshot(storeOrders, storeTasks, user.value) && error == old(error))
                && (!fetchOk ==> orders == old(orders) && error == Some(LoadFailedMessage))
    {
      submitting := Some(orderId);
      if target.None? {
        error := Some(NoAvailableMessage);
      } else if update.Failed? {
        error := Some(FailureText(update, ClaimFailedMessage));
      } else {
        storeTasks := UpdateTasks(storeTasks, target.value.id, ClaimBy(user.value));
        FetchOrdersWithTasks(fetchOk);
      }
      submitting := None;
    }

    /** Records one field of an order's draft. */
    method HandleSubmissionChange(orderId: string, field: DraftField)
      modifies this
      ensures submissions == old(submissions)[orderId := WithField(DraftOf(old(submissions), orderId), field)]
      ensures storeOrders == old(storeOrders) && storeTasks == old(storeTasks)
      ensures proofs == old(proofs) && blobs == old(blobs)
      ensures orders == old(orders) && loading == old(loading) && submitting == old(submitting) && error == old(error)
    {
      submissions := submissions[orderId := WithField(DraftOf(submissions, orderId), field)];
    }

    /** Sends a proof: uploads the screenshot, records the proof, marks the task submitted, advances
        the order from the page's copy, then drops the draft and reloads. Each step runs only if the
        ones before it succeeded. */
    method SubmitProof(orderId: string, stamp: nat, upload: Outcome, insert: Outcome,
                       taskUpdate: Outcome, orderUpdate: Outcome, fetchOk: bool)
      requires Valid()
      modifies this
      ensures Valid()
      ensures user.None? ==>
                storeOrders == old(storeOrders) && storeTasks == old(storeTasks) && proofs == old(proofs)
                && blobs == old(blobs) && orders == old(orders) && loading == old(loading)
                && submitting == old(submitting) && submissions == old(submissions) && error == old(error)
      ensures user.Some? && !Complete(old(submissions), orderId) ==>
                storeOrders == old(storeOrders) && storeTasks == old(storeTasks) && proofs == old(proofs)
                && blobs == old(blobs) && orders == old(orders) && loading == old(loading)
                && submitting == old(submitting) && submissions == old(submissions)
                && error == Some(IncompleteMessage)
      ensures user.Some? && Complete(old(submissions), orderId) ==> submitting.None?
      ensures user.Some? && Complete(old(submissions), orderId) && SubmitTarget(old(orders), orderId, user.value).None? ==>
                storeOrders == old(storeOrders) && storeTasks == old(storeTasks) && proofs == old(proofs)
                && blobs == old(blobs) && orders == old(orders) && loading == old(loading)
                && submissions == old(submissions) && error == Some(NoAssignedMessage)
      ensures user.Some? && Complete(old(submissions), orderId) && SubmitTarget(old(orders), orderId, user.value).Some? ==>
                StepsApplied(old(storeOrders), old(storeTasks), old(proofs), old(blobs), old(orders), old(loading),
                             old(submissions), old(error), orderId, SubmitTarget(old(orders), orderId, user.value).value.0.row,
                             SubmitTarget(old(orders), orderId, user.value).value.1,
                             old(submissions)[orderId].screenshot.value, old(submissions)[orderId].reviewContent.value,
                             stamp, upload, insert, taskUpdate, orderUpdate, fetchOk)
    {
      if user.None? {
        return;
      }
      if !Complete(submissions, orderId) {
        error := Some(IncompleteMessage);
        return;
      }
      var draft := submissions[orderId];
      submitting := Some(orderId);
      var target := SubmitTarget(orders, orderId, user.value);
      if target.None? {
        error := Some(NoAssignedMessage);
        submitting := None;
        return;
      }
      assert Find(orders, HasId(orderId)).value in orders;
      SendProof(orderId, target.value.0.row, target.value.1, draft.screenshot.value, draft.reviewContent.value,
                stamp, upload, insert, taskUpdate, orderUpdate, fetchOk);
    }

    /** The store, the board, the drafts and the loading flag are exactly the given ones. */
    ghost predicate StateIs(storeOrders0: seq<OrderRow>, storeTasks0: seq<TaskRow>, proofs0: seq<ProofRow>,
                            blobs0: seq<Blob>, orders0: seq<OrderView>, loading0: bool, submissions0: map<string, Draft>)
      reads this
    {
      && storeOrders == storeOrders0 && storeTasks == storeTasks0 && proofs == proofs0 && blobs == blobs0
      && orders == orders0 && loading == loading0 && submissions == submissions0
    }

    /** The state after the steps of a submission ran against the given earlier state: the first
        failing step stops the rest and its message (or the fallback) is shown; when all succeed, the
        draft is dropped and the board reloaded. */
    ghost predicate StepsApplied(
      storeOrders0: seq<OrderRow>, storeTasks0: seq<TaskRow>, proofs0: seq<ProofRow>, blobs0: seq<Blob>,
      orders0: seq<OrderView>, loading0: bool, submissions0: map<string, Draft>, error0: Option<string>,
      orderId: string, copy: OrderRow, task: Task, screenshot: File, content: string, stamp: nat,
      upload: Outcome, insert: Outcome, taskUpdate: Outcome, orderUpdate: Outcome, fetchOk: bool)
      reads this
    {
      var path := ProofPath(task.id, stamp);
      var blobs1 := blobs0 + [Blob(path, screenshot)];
      var proofs1 := proofs0 + [ProofRow(task.id, user.GetOr(""), PublicUrl(path), content)];
      var tasks1 := UpdateTasks(storeTasks0, task.id, MarkSubmitted);
      && user.Some?
      && submitting.None?
      && if upload.Failed? then
           StateIs(storeOrders0, storeTasks0, proofs0, blobs0, orders0, loading0, submissions0)
           && error == Some(FailureText(upload, SubmitFailedMessage))
         else if insert.Failed? then
           StateIs(storeOrders0, storeTasks0, proofs0, blobs1, orders0, loading0, submissions0)
           && error == Some(FailureText(insert, SubmitFailedMessage))
         else if taskUpdate.Failed? then
           StateIs(storeOrders0, storeTasks0, proofs1, blobs1, orders0, loading0, submissions0)
           && error == Some(FailureText(taskUpdate, SubmitFailedMessage))
         else if orderUpdate.Failed? then
           StateIs(storeOrders0, tasks1, proofs1, blobs1, orders0, loading0, submissions0)
           && error == Some(FailureText(orderUpdate, SubmitFailedMessage))
         else
           && storeOrders == UpdateOrders(storeOrders0, copy.id, CompletionUpdate(copy))
           && storeTasks == tasks1 && proofs == proofs1 && blobs == blobs1
           && submissions == submissions0 - {orderId}
           && !loading
           && (fetchOk ==> orders == Snapshot(storeOrders, storeTasks, user.value) && error == error0)
           && (!fetchOk ==> orders == orders0 && error == Some(LoadFailedMessage))
    }

    /** The store steps of a submission, for an order copy the page holds. */
    method SendProof(orderId: string, copy: OrderRow, task: Task, screenshot: File, content: string, stamp: nat,
                     upload: Outcome, insert: Outcome, taskUpdate: Outcome, orderUpdate: Outcome, fetchOk: bool)
      requires Valid() && user.Some?
      requires copy.id == orderId && IsOpen(copy) && Consistent(copy) && TargetMatches(storeOrders, copy)
      modifies this
      ensures Valid()
      ensures StepsApplied(old(storeOrders), old(storeTasks), old(proofs), old(blobs), old(orders), old(loading),
                           old(submissions), old(error), orderId, copy, task, screenshot, content,
                           stamp, upload, insert, taskUpdate, orderUpdate, fetchOk)
    {
      var path := ProofPath(task.id, stamp);
      if upload.Failed? {
        error := Some(FailureText(upload, SubmitFailedMessage));
        submitting := None;
        return;
      }
      blobs := blobs + [Blob(path, screenshot)];
      if insert.Failed? {
        error := Some(FailureText(insert, SubmitFailedMessage));
        submitting := None;
        return;
      }
      proofs := proofs + [ProofRow(task.id, user.value, PublicUrl(path), content)];
      if taskUpdate.Failed? {
        error := Some(FailureText(taskUpdate, SubmitFailedMessage));
        submitting := None;
        return;
      }
      storeTasks := UpdateTasks(storeTasks, task.id, MarkSubmitted);
      if orderUpdate.Failed? {
        error := Some(FailureText(orderUpdate, SubmitFailedMessage));
        submitting := None;
        return;
      }
      FinishSubmission(orderId, copy, fetchOk);
      submitting := None;
    }

    /** The last steps of a submission once every store write succeeded: the order takes the
        completion update, the draft is dropped and the board is fetched again. */
    method FinishSubmission(orderId: string, copy: OrderRow, fetchOk: bool)
      requires Valid() && user.Some?
      requires copy.id == orderId && IsOpen(copy) && Consistent(copy) && TargetMatches(storeOrders, copy)
      modifies this
      ensures Valid()
      ensures storeOrders == UpdateOrders(old(storeOrders), copy.id, CompletionUpdate(copy))
      ensures storeTasks == old(storeTasks) && proofs == old(proofs) && blobs == old(blobs)
      ensures submissions == old(submissions) - {orderId}
      ensures !loading
      ensures fetchOk ==> orders == Snapshot(storeOrders, storeTasks, user.value) && error == old(error)
      ensures !fetchOk ==> orders == old(orders) && error == Some(LoadFailedMessage)
    {
      UpdateKeepsStoreConsistent(storeOrders, orders, user.value, copy);
      storeOrders := UpdateOrders(storeOrders, copy.id, CompletionUpdate(copy));
      submissions := submissions - {orderId};
      FetchOrdersWithTasks(fetchOk);
    }

    /** Closes the error banner. */
    method DismissError()
      modifies this
      ensures error.None?
      ensures storeOrders == old(storeOrders) && storeTasks == old(storeTasks)
      ensures proofs == old(proofs) && blobs == old(blobs)
      ensures orders == old(orders) && loading == old(loading) && submitting == old(submitting)
      ensures submissions == old(submissions)
    {
      error := None;
    }
  }
}
