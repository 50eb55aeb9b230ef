# Review marketplace front end: a verified model

The application is a three-sided marketplace for business reviews:
- clients order reviews of their businesses;
- interns claim review tasks, post the reviews and submit proof;
- admins oversee both.

This project models the decision logic of its web front end in Dafny:

- **Route guards and the route table** (`Routing`). While authentication is loading, a spinner is shown. A signed-out user is sent to `/login`. On a role mismatch, a known role is sent to its own dashboard.
- **The dashboard frame** (`Layout`). It chooses the sidebar links for the role and the header title from the path.
- **The intern's task board.**
  - `InternTasks` holds the pure part: the per-order counters computed from the fetched orders and their tasks, the relevant-order filter, the search/status filter, the headline figures, which task a claim or a submission picks, and the row updates sent to the store.
  - `InternTasksPage.TaskBoard` is a class holding the backing store and the page state. Its handlers are the fetch, the claim, the draft edit, the four-step proof submission and dismissing the error. They change that state step by step, as the page does.
- **The client's order list and payment history, and the intern's earnings** (`ClientOrders`, `ClientPayments`, `InternEarnings`). These are filters, totals and the badge, icon and amount-cell mappings.

Shared pieces:
- `Seqs`: filter, map, sum and find, with their lemmas.
- `Text`: ASCII lower-casing, substring search, capitalisation.
- `Money`: integer cents and the two-decimal rendering, with its parser.
- `Badge`: badge variants.

Money is counted in integer cents throughout.

Remote effects are parameters:
- Each store call of a handler takes an `Outcome`: success, or an error with or without a message.
- The fetch takes a success flag.

The code's JavaScript truthiness is modelled as written:
- `!task.intern_id` holds for a missing id and for the empty id.
- `paidAt ? … : '-'` shows a dash for a missing date and for the empty date.
- `commission || 0` reads a missing commission as 0.

Four behaviours of the code that its labels might hide:
- "My Active Tasks" counts every task held by the intern, whatever its status, not only assigned ones.
- "Potential Earnings" sums the commissions of all of those tasks, not only submitted ones.
- A task is available when it is pending and its intern id is falsy, which includes the empty id, not only the null id.
- The earnings page shows a dash for an empty paid date as well as for a missing one.

## Model

| member | source | states |
|---|---|---|
| Routing.DashboardOf | src/App.tsx:39-46 | models the role switch of both guards: admin, client and intern have their dashboards and no other role has one; stated by Routing.ProtectedAdmitsExactlyRequiredRoles and Routing.PublicRouteSendsKnownUsersHome |
| Routing.ProtectedRoute | src/App.tsx:18-49 | models the guard of the protected routes; its properties are stated by the lemmas below |
| Routing.PublicRoute | src/App.tsx:52-76 | models the guard of the sign-in and registration pages; stated by Routing.PublicRouteSendsKnownUsersHome |
| Routing.Lookup | src/App.tsx:82-138 | models the route table: the element each path is wired to, with the catch-all for unlisted paths |
| Routing.Render | src/App.tsx:82-138 | models what a visit to a path shows: the looked-up route through its guard; stated by the route lemmas below |
| Routing.LoadingShowsSpinner | src/App.tsx:25-62 | while authentication is loading, both guards show the spinner, whatever the role or route |
| Routing.SignedOutGoesToLogin | src/App.tsx:33-35 | a signed-out visitor of a protected route is redirected to /login |
| Routing.ProtectedAdmitsExactlyRequiredRoles | src/App.tsx:37-48 | a signed-in user with a known role sees the page iff the route admits every role or lists theirs; otherwise they go to their own dashboard |
| Routing.UnknownRoleFallsThrough | src/App.tsx:37-48 | with no user record or an unknown role, the guard shows the page, since no redirect branch applies |
| Routing.PublicRouteSendsKnownUsersHome | src/App.tsx:64-75 | the sign-in page sends a signed-in user with a known role to their dashboard and shows itself to everyone else |
| Routing.RolePrefixesAreReserved | src/App.tsx:88-129 | every path starting /client is for clients only and every path starting /intern for interns only; otherwise it redirects to /login |
| Routing.AdminAndFallbackRoutes | src/App.tsx:132-139 | /admin requires the admin role; / and every unlisted path redirect to /login |
| Routing.OnlyAuthPagesArePublic | src/App.tsx:84-85 | a route is public exactly for /login and /register |
| Routing.CrossRoleVisitRedirectsHome | src/App.tsx:37-46 | a known user opening a route reserved for another role lands on their own dashboard |
| Routing.OrderDetailLinkFallsBackToDashboard | src/pages/client/ClientOrders.tsx:205 | the order-detail link /client/orders/<id> matches no route; a client following it is sent to /login and from there to /client |
| Layout.NavLinks | src/components/layout/DashboardLayout.tsx:45-75 | models getNavLinks; stated by Layout.NavLinksShape and Layout.UnknownRoleHasNoLinks |
| Layout.PageTitle | src/components/layout/DashboardLayout.tsx:98-114 | models getPageTitle; stated by Layout.DashboardPathsTitledFirst and Layout.TitleFollowsRules |
| Layout.DashboardFrame | src/components/layout/DashboardLayout.tsx:87-91 | the frame is empty exactly when there is no user; otherwise it has that role's links and the title for the path |
| Layout.UnknownRoleHasNoLinks | src/components/layout/DashboardLayout.tsx:45-75 | the link list is empty iff the role is not admin, client or intern |
| Layout.NavLinksShape | src/components/layout/DashboardLayout.tsx:47-71 | 7 links for admin, 5 for client, 4 for intern; the first is the role's dashboard captioned "Dashboard" and every link lies under it |
| Layout.DashboardPathsTitledFirst | src/components/layout/DashboardLayout.tsx:102-104 | the three exact dashboard paths get their dashboard titles, whatever the role |
| Layout.TitleFollowsRules | src/components/layout/DashboardLayout.tsx:105-113 | away from those paths the title is that of the first matching fragment in the order profile, orders/new, orders, reviews, settings, tasks, earnings; with no match it is the capitalised role plus " Dashboard" |
| Layout.NewOrderBeatsOrders | src/components/layout/DashboardLayout.tsx:105-107 | a path containing /orders/new is never titled "Orders"; it is "New Order" unless it also contains /profile |
| Layout.FallbackTitle | src/components/layout/DashboardLayout.tsx:113 | a path matching no rule is titled with the capitalised role followed by " Dashboard", whatever the role |
| ClientOrders.FilteredOrders | src/pages/client/ClientOrders.tsx:77-83 | models the search and status filter of the order list; stated by ClientOrders.FilteredIsOrderedSelection |
| ClientOrders.CompletedCount | src/pages/client/ClientOrders.tsx:229 | models the "Completed Orders" figure; stated by ClientOrders.StatusCountsBounded |
| ClientOrders.InProgressCount | src/pages/client/ClientOrders.tsx:238 | models the "In Progress" figure; stated by ClientOrders.StatusCountsBounded |
| ClientOrders.TotalReviews | src/pages/client/ClientOrders.tsx:247 | models the "Total Reviews" figure; stated by ClientOrders.TotalReviewsPartition |
| ClientOrders.StatusBadgeOf | src/pages/client/ClientOrders.tsx:64-75 | models getStatusBadge; stated by ClientOrders.BadgeDefaultsToUnknown |
| ClientOrders.FilteredIsOrderedSelection | src/pages/client/ClientOrders.tsx:77-83 | the list is an order-preserving subsequence holding an order iff its product name, id or business name contains the term (ignoring case) and the status filter is "all" or its status; its length is the number of positions holding such an order, so the shown count is exact |
| ClientOrders.NoFilterShowsAll | src/pages/client/ClientOrders.tsx:78-81 | an empty term with the "all" filter lists every order |
| ClientOrders.StatusFilterIsExact | src/pages/client/ClientOrders.tsx:81 | any filter other than "all" lists only orders whose status equals it |
| ClientOrders.StatusCountsBounded | src/pages/client/ClientOrders.tsx:229-238 | "Completed" counts the orders whose status is exactly completed and "In Progress" those whose status is exactly in-progress; together they never exceed the number of orders |
| ClientOrders.TotalReviewsPartition | src/pages/client/ClientOrders.tsx:247 | "Total Reviews" is the reviews of the completed orders plus those of all others |
| ClientOrders.BadgeDefaultsToUnknown | src/pages/client/ClientOrders.tsx:64-75 | completed, in-progress and cancelled get their own badges; every other status shows "Unknown" |
| ClientPayments.TotalSpent | src/pages/client/ClientPayments.tsx:98-100 | models the "Total Spent" figure; stated by ClientPayments.TotalSpentCountsCompletedPayments |
| ClientPayments.TotalRefunds | src/pages/client/ClientPayments.tsx:102-104 | models the "Total Refunds" figure; stated by ClientPayments.TotalRefundsCountsCompletedRefunds |
| ClientPayments.PendingPayments | src/pages/client/ClientPayments.tsx:106-108 | models the "Pending" figure; stated by ClientPayments.PendingIsSeparate |
| ClientPayments.FilteredPayments | src/pages/client/ClientPayments.tsx:110-115 | models the search and status filter of the history; stated by ClientPayments.FilteredIsOrderedSelection |
| ClientPayments.StatusIconOf | src/pages/client/ClientPayments.tsx:117-128 | models getStatusIcon: its body is the status-to-icon mapping, grey by default; ClientPayments.IconMatchesBadge ties the grey icon to the secondary badge |
| ClientPayments.StatusBadgeOf | src/pages/client/ClientPayments.tsx:130-141 | models getStatusBadge; stated by ClientPayments.BadgeShowsUnknownStatusVerbatim |
| ClientPayments.AmountCellOf | src/pages/client/ClientPayments.tsx:394-396 | models the amount cell of a history row; stated by ClientPayments.AmountCellRoundTrip |
| ClientPayments.TotalSpentCountsCompletedPayments | src/pages/client/ClientPayments.tsx:98-100 | "Total Spent" adds the absolute amounts of completed payments and nothing else, and is never negative |
| ClientPayments.TotalRefundsCountsCompletedRefunds | src/pages/client/ClientPayments.tsx:102-104 | "Total Refunds" adds the signed amounts of completed refunds and nothing else |
| ClientPayments.PendingIsSeparate | src/pages/client/ClientPayments.tsx:106-108 | "Pending" adds the absolute amounts of pending entries of every type; no pending entry counts as spent or refunded |
| ClientPayments.FilteredIsOrderedSelection | src/pages/client/ClientPayments.tsx:110-115 | the list is an order-preserving subsequence holding an entry iff its description or reference contains the term (ignoring case) and the status filter is "all" or its status; its length is the number of positions holding such an entry |
| ClientPayments.BadgeShowsUnknownStatusVerbatim | src/pages/client/ClientPayments.tsx:130-141 | completed, pending and failed get fixed badges; any other status is shown verbatim on a secondary badge |
| ClientPayments.IconMatchesBadge | src/pages/client/ClientPayments.tsx:117-141 | the status icon is grey exactly when the badge is the secondary one |
| ClientPayments.AmountCellRoundTrip | src/pages/client/ClientPayments.tsx:394-396 | the amount cell starts with "+" and is green iff the amount is positive, and reading the cell back gives the amount in cents |
| InternEarnings.TotalEarnings | src/pages/intern/InternEarningsPage.tsx:45 | models the "Total Earnings" figure; stated by InternEarnings.TotalIsPaidPlusPending |
| InternEarnings.PaidEarnings | src/pages/intern/InternEarningsPage.tsx:46 | models the "Paid Out" figure, the sum over paid entries; stated by InternEarnings.TotalIsPaidPlusPending |
| InternEarnings.PendingEarnings | src/pages/intern/InternEarningsPage.tsx:47 | models the "Pending" figure, the sum over every entry not paid; stated by InternEarnings.TotalIsPaidPlusPending |
| InternEarnings.StatusColor | src/pages/intern/InternEarningsPage.tsx:49-60 | models getStatusColor: its body is the mapping paid to success, approved to info, pending to warning and anything else to secondary; InternEarnings.ColorAndLabelAgree ties the colour to the label |
| InternEarnings.StatusLabel | src/pages/intern/InternEarningsPage.tsx:62-73 | models getStatusLabel: its body is the mapping paid to "Paid", approved to "Approved", pending to "Under Review" and anything else to the raw status; InternEarnings.ColorAndLabelAgree ties the label to the colour |
| InternEarnings.PaidCellOf | src/pages/intern/InternEarningsPage.tsx:223 | models the paid-date cell; stated by InternEarnings.DashIffUnpaid |
| InternEarnings.TotalIsPaidPlusPending | src/pages/intern/InternEarningsPage.tsx:45-47 | total earnings are paid earnings plus pending earnings |
| InternEarnings.ColorAndLabelAgree | src/pages/intern/InternEarningsPage.tsx:49-73 | a status gets the secondary colour exactly when its label is the raw status; pending reads "Under Review" |
| InternEarnings.DashIffUnpaid | src/pages/intern/InternEarningsPage.tsx:223 | the paid column shows a dash iff the date is missing or empty, and the date otherwise |
| Money.FormatCents | src/pages/intern/InternEarningsPage.tsx:104 | models `toFixed(2)` on an amount in cents; stated by Money.FormatCentsRoundTrip |
| Money.FormatCentsRoundTrip | src/pages/intern/InternEarningsPage.tsx:104 | the two-decimal rendering of an amount in cents reads back as that amount |
| Text.Contains | src/pages/client/ClientOrders.tsx:78-80 | models `includes`; stated by Text.ContainsIffOccurs |
| Text.ContainsIffOccurs | src/pages/client/ClientOrders.tsx:78-80 | the substring test holds exactly when the term occurs at some position of the text |
| Text.Capitalize | src/components/layout/DashboardLayout.tsx:113 | `charAt(0).toUpperCase() + slice(1)`: the result has the same length, its first character is the upper-cased first character and the rest is unchanged |
| Text.ContainsIgnoringCase | src/pages/client/ClientOrders.tsx:78-80 | models `toLowerCase().includes(term.toLowerCase())`; stated by Text.SearchIgnoresCase and Text.EmptyTermMatches |
| Text.SearchIgnoresCase | src/pages/client/ClientOrders.tsx:78-80 | lower-casing either side of the search first changes nothing, so the match ignores ASCII case |
| Text.EmptyTermMatches | src/pages/client/ClientOrders.tsx:78-80 | the empty term is contained in every text |
| InternTasks.Query | src/pages/intern/InternTasksPage.tsx:61-80 | models the fetch query: the open orders with their embedded task rows; stated by InternTasksPage.SnapshotRowsComeFromStore |
| InternTasks.TasksOf | src/pages/intern/InternTasksPage.tsx:61-80 | models the embedded `review_tasks` join: every task row of the order is in the list, and every listed task comes from a row of that order |
| InternTasks.RelevantOrders | src/pages/intern/InternTasksPage.tsx:84-103 | models the transform and the relevance filter of the fetch; stated by InternTasks.RelevantOrdersAreOrderedSelection |
| InternTasks.Snapshot | src/pages/intern/InternTasksPage.tsx:61-103 | models the board a fetch produces from the store; stated by InternTasksPage.SnapshotFits |
| InternTasks.TotalAvailableTasks | src/pages/intern/InternTasksPage.tsx:311 | models the "Available Tasks" figure; stated by InternTasks.HeadlineFiguresIgnoreDroppedOrders |
| InternTasks.MyActiveTasks | src/pages/intern/InternTasksPage.tsx:320 | models the "My Active Tasks" figure; stated by InternTasks.HeadlineFiguresIgnoreDroppedOrders |
| InternTasks.PotentialEarnings | src/pages/intern/InternTasksPage.tsx:329-332 | models the "Potential Earnings" figure; stated by InternTasks.PotentialEarningsIgnoreDroppedOrders |
| InternTasks.AvailableEarnings | src/pages/intern/InternTasksPage.tsx:341 | models the "Available Earnings" figure; stated by InternTasks.AvailableEarningsPerFreeTask |
| InternTasks.FilteredOrders | src/pages/intern/InternTasksPage.tsx:231-237 | models the search and status filter of the board; stated by InternTasks.FilteredOrdersAreOrderedSelection |
| InternTasks.FindOrder | src/pages/intern/InternTasksPage.tsx:118 | models `orders.find(o => o.id === orderId)`, also used at line 167; stated by InternTasks.ClaimTargetIsFirstAvailable and InternTasksPage.BoardClaimMatchesCounter |
| InternTasks.ClaimTarget | src/pages/intern/InternTasksPage.tsx:118-119 | models the two `.find` calls of a claim; stated by InternTasks.ClaimTargetIsFirstAvailable |
| InternTasks.SubmitTarget | src/pages/intern/InternTasksPage.tsx:167-168 | models the two `.find` calls of a submission; stated by InternTasksPage.TaskBoard.SubmitProof |
| InternTasks.UpdateTasks | src/pages/intern/InternTasksPage.tsx:125-132 | models `update(...).eq('id', id)` on the task rows; stated by InternTasks.ClaimTouchesOnlyThatTask and InternTasks.UpdateThenRead |
| InternTasks.PatchTasks | src/pages/intern/InternTasksPage.tsx:125-132 | models what the id-keyed task update does to one order's task list; stated by InternTasks.UpdateThenRead and InternTasks.ClaimMovesOneTask |
| InternTasks.CompletionUpdate | src/pages/intern/InternTasksPage.tsx:208-211 | models the counter and status a submission writes; stated by InternTasks.CompletionKeepsOrderConsistent |
| InternTasks.UpdateOrders | src/pages/intern/InternTasksPage.tsx:206-212 | models `update(...).eq('id', orderId)` on the order rows; stated by InternTasks.OrderUpdateTouchesOnlyThatOrder |
| InternTasks.Transform | src/pages/intern/InternTasksPage.tsx:84-97 | an order keeps its row; its task list is the fetched one, or empty when the list is missing |
| InternTasks.TransformCounts | src/pages/intern/InternTasksPage.tsx:86-87 | the available counter is the number of positions holding a pending task without an intern; the own counter is the number of positions holding a task of the user, in any status |
| InternTasks.TransformedCountersAgree | src/pages/intern/InternTasksPage.tsx:86-87 | each transformed order's counters equal the number of its available tasks and of the user's tasks; this is what keeps the counters of every board order in step with its task list |
| InternTasks.MissingCommissionCountsZero | src/pages/intern/InternTasksPage.tsx:88 | an order's commission total is the sum over the tasks that have a commission; adding a task without one leaves the total unchanged, and adding one with a commission raises it by exactly that amount |
| InternTasks.RelevantOrdersAreOrderedSelection | src/pages/intern/InternTasksPage.tsx:99-103 | the kept orders are an order-preserving subsequence of the transformed ones, holding exactly those with an available or an own task, as many as there are such positions |
| InternTasks.HeadlineFiguresIgnoreDroppedOrders | src/pages/intern/InternTasksPage.tsx:311-320 | "Available Tasks" and "My Active Tasks" over the kept orders equal the same sums over all fetched orders; "Available Tasks" is the number of available tasks across them |
| InternTasks.AvailableEarningsPerFreeTask | src/pages/intern/InternTasksPage.tsx:341 | "Available Earnings" is 500 cents for every pending task without an intern across all fetched orders |
| InternTasks.PotentialEarningsIgnoreDroppedOrders | src/pages/intern/InternTasksPage.tsx:329-332 | "Potential Earnings" over the kept orders equals the commission of the user's tasks over all fetched orders |
| InternTasks.FilteredOrdersAreOrderedSelection | src/pages/intern/InternTasksPage.tsx:231-237 | the list is an order-preserving subsequence holding an order iff its business name contains the term (ignoring case) and the filter is all, available with a free task, or claimed with an own task; its length is the number of positions holding such an order |
| InternTasks.ClaimTargetIsFirstAvailable | src/pages/intern/InternTasksPage.tsx:118-123 | a claim finds a task iff the order's available counter is positive, and then picks the first pending task without an intern |
| InternTasks.ClaimTouchesOnlyThatTask | src/pages/intern/InternTasksPage.tsx:125-132 | the claim update leaves rows with other ids as they were and gives rows with that id the user as intern and status assigned, everything else kept |
| InternTasks.ClaimOverwritesHeldRow | src/pages/intern/InternTasksPage.tsx:125-132 | the claim update takes over a row already held by another intern, because it does not re-check the intern |
| InternTasks.UpdateThenRead | src/pages/intern/InternTasksPage.tsx:125-132 | updating the task rows by id and then reading an order's tasks equals reading them first and then updating the list |
| InternTasks.ClaimMovesOneTask | src/pages/intern/InternTasksPage.tsx:119-132 | with distinct task ids, a claim lowers the available count by one and raises the user's count by one |
| InternTasks.CompletionKeepsOrderConsistent | src/pages/intern/InternTasksPage.tsx:206-212 | the new counter is the page's copy plus one; the status is completed iff that reaches the target, else in-progress; an open, consistent order stays consistent |
| InternTasks.OrderUpdateIdempotent | src/pages/intern/InternTasksPage.tsx:208-212 | repeating the order update from the same copy does not count the review twice |
| InternTasks.OrderUpdateTouchesOnlyThatOrder | src/pages/intern/InternTasksPage.tsx:206-212 | the order update changes only the counter and status of rows with that id |
| InternTasks.UnguardedOrderOverruns | src/pages/intern/InternTasksPage.tsx:206-212 | an open order whose target of 0 reviews is already met is not rejected: submitting on it writes a counter of 1 against that target |
| InternTasks.TwoTaskScenario | src/pages/intern/InternTasksPage.tsx:119-212 | with two free tasks, one claim leaves one available and one held; two submissions on a two-review order go to 1 in-progress and then 2 completed |
| InternTasksPage.DraftOf | src/pages/intern/InternTasksPage.tsx:149 | models `...prev[orderId]`: the stored draft, or an empty one; stated by InternTasksPage.WithField and InternTasksPage.TaskBoard.HandleSubmissionChange |
| InternTasksPage.ProofPath | src/pages/intern/InternTasksPage.tsx:174 | models the storage path of a proof, with the timestamp as a parameter; stated by InternTasksPage.ProofPathsSeparateTasks |
| InternTasksPage.PublicUrl | src/pages/intern/InternTasksPage.tsx:181-183 | models `getPublicUrl` as the bucket name, "/" and the path; the storage host is left out |
| InternTasksPage.ProofPathsSeparateTasks | src/pages/intern/InternTasksPage.tsx:174 | a proof's path starts with its task id and "/", so two different tasks whose ids hold no "/" never share a path |
| InternTasksPage.Complete | src/pages/intern/InternTasksPage.tsx:158-162 | models the submit guard: a screenshot and non-empty text; stated by InternTasksPage.FillingBothFieldsCompletes |
| InternTasksPage.FailureText | src/pages/intern/InternTasksPage.tsx:139 | a failure shows the error's message if it has one, otherwise the handler's fallback text |
| InternTasksPage.WithField | src/pages/intern/InternTasksPage.tsx:145-153 | for each kind of edit, the named field takes the new value and the other two fields keep theirs |
| InternTasksPage.FillingBothFieldsCompletes | src/pages/intern/InternTasksPage.tsx:145-162 | choosing a screenshot and typing non-empty text, in either order, passes the submit guard whatever the draft held; clearing the screenshot fails it |
| InternTasksPage.SnapshotRowsComeFromStore | src/pages/intern/InternTasksPage.tsx:61-80 | every order on the board after a fetch is a stored order with status pending or in-progress, and its counters count its own tasks |
| InternTasksPage.SnapshotFits | src/pages/intern/InternTasksPage.tsx:61-103 | a fetch from a store with unique ids and consistent orders gives a board whose every order is open, consistent, has the store's review target and has counters that count its tasks |
| InternTasksPage.UpdateKeepsStoreConsistent | src/pages/intern/InternTasksPage.tsx:206-212 | applying the order update from an open, consistent copy keeps order ids unique and every stored counter within its target, and every board order still has the store's review target |
| InternTasksPage.TaskBoard.constructor | src/pages/intern/InternTasksPage.tsx:43-49 | the page starts loading, with an empty board, no drafts, nothing submitting and no error |
| InternTasksPage.TaskBoard.FetchOrdersWithTasks | src/pages/intern/InternTasksPage.tsx:57-110 | without a user nothing changes; otherwise loading ends, and the board becomes the relevant orders of the store on success or stays as it was, with the load error shown, on failure |
| InternTasksPage.BoardClaimMatchesCounter | src/pages/intern/InternTasksPage.tsx:118-123 | on a board the page keeps, a claim of a listed order finds a task exactly when the order's available counter is positive, and the task found is pending without an intern |
| InternTasksPage.TaskBoard.HandleClaimTask | src/pages/intern/InternTasksPage.tsx:112-143 | a claim of a listed order finds a task iff its available counter is positive; with no free task, the error is shown and the store is unchanged; a failed update shows its message or "Failed to claim task"; on success exactly the claim update is applied and the board is reloaded; submitting is cleared on every exit |
| InternTasksPage.TaskBoard.ClaimAndReload | src/pages/intern/InternTasksPage.tsx:116-142 | with no task picked, the "no available tasks" error is shown; a failed update shows its message or the fallback; a successful one applies exactly the claim update of that task and reloads; the busy marker is cleared on every exit |
| InternTasksPage.TaskBoard.HandleSubmissionChange | src/pages/intern/InternTasksPage.tsx:145-153 | only that order's draft changes, getting the new field |
| InternTasksPage.TaskBoard.SubmitProof | src/pages/intern/InternTasksPage.tsx:155-229 | a missing screenshot or empty text shows the error and changes nothing else, not even submitting; without an assigned task of the user the error is shown and the store is unchanged; otherwise the steps run as below |
| InternTasksPage.TaskBoard.SendProof | src/pages/intern/InternTasksPage.tsx:174-228 | upload, proof row, task update and order update run in order; the first failure stops the rest and shows its message, and the draft is kept; only full success drops that draft and reloads; submitting is cleared on every exit |
| InternTasksPage.TaskBoard.FinishSubmission | src/pages/intern/InternTasksPage.tsx:206-222 | once every write succeeded, the order row takes the completion update computed from the page's copy, that order's draft is dropped, and the board is reloaded; tasks, proofs and files are untouched |
| InternTasksPage.TaskBoard.DismissError | src/pages/intern/InternTasksPage.tsx:268 | clearing the error changes nothing else |

`TaskBoard.Valid()` is the invariant the handlers keep:
- stored order ids are unique;
- every stored order keeps `0 <= completed_reviews <= total_reviews`, and has status completed exactly when the two are equal;
- every order on the board is open and consistent, and has the review target the store holds for its id;
- every order on the board has counters that count its own available tasks and the user's tasks.

The page itself checks none of this. The constructor requires it of the initial store, and every handler then preserves it. `InternTasks.UnguardedOrderOverruns` shows what the page does to a store that breaks it.

## Left out

- Supabase I/O: the network, the storage bucket and the query builder. The store is in-memory sequences of rows. Each remote step's result is a parameter.
- The fetch returns orders in the store's row order. The descending `created_at` sort of the query is not modelled.
- The embedded `review_tasks` join is modelled as "the task rows whose order id matches, in table order".
- Timestamps: `assigned_at`, `completed_at` and the `Date.now()` part of the proof path. The path takes a caller-supplied number instead. The public URL of a proof is written as bucket plus path; the storage host is not modelled.
- Floating point:
  - the per-review rate and "My Earnings" per order (division by `total_reviews`, unguarded against zero);
  - the commission shown on the submit button;
  - "Avg. Order";
  - the `parseFloat` price total on the orders page.
  Money is integer cents, and `toFixed(2)` is modelled only on cents, not for values of 1e21 or more, which `toFixed` writes in exponent form.
- InternTasks.PotentialEarningsIgnoreDroppedOrders: a commission that is `undefined` rather than `null` would make the JavaScript sum NaN. The model reads every missing commission as 0.
- InternTasksPage.TaskBoard.constructor: requires the initial store's order ids to be unique and every order's counter to be consistent with its target and status. The page does not check this, so the handlers' contracts say nothing about a store that breaks it. An open order whose target is already met is fetched and overrun, as `InternTasks.UnguardedOrderOverruns` shows.
- InternEarnings.PaidCellOf: shows the stored date string, where the page renders it with `toLocaleDateString`, a locale-dependent conversion.
- Non-ASCII case mapping in `toLowerCase`/`toUpperCase`: only ASCII letters change case.
- Router path matching. react-router's case-insensitive and trailing-slash matching is not modelled; routes match by exact path.
- Rendering: icons, the loading spinner's markup, progress bars, the header quick stats, the sidebar toggle, and the claim and submit buttons' visibility.
- React scheduling: the asynchronous interleaving of handlers, and races between interns claiming the same task. The store decides those, and the page does not re-check them. `InternTasks.ClaimOverwritesHeldRow` documents the consequence.
- The Card component, the client profile form, and the client and intern dashboards. These lie outside the modelled logic.
