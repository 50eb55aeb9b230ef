/** The client's order history: search, status filter, summary counters and status badges. */
module ClientOrders {
  import opened Seqs
  import opened Text
  import opened Badge

  /** One row of the order history (the price text is kept but not summed). */
  datatype Order = Order(
    id: string,
    productName: string,
    status: string,
    date: string,
    totalPrice: string,
    reviewsCount: int,
    businessName: string)

  predicate MatchesSearch(o: Order, term: string) {
    ContainsIgnoringCase(o.productName, term)
    || ContainsIgnoringCase(o.id, term)
    || ContainsIgnoringCase(o.businessName, term)
  }

  predicate MatchesStatus(o: Order, statusFilter: string) {
    statusFilter == "all" || o.status == statusFilter
  }

  predicate Shown(o: Order, term: string, statusFilter: string) {
    MatchesSearch(o, term) && MatchesStatus(o, statusFilter)
  }

  /** The rows the table shows for a search term and a status filter. */
  function FilteredOrders(orders: seq<Order>, term: string, statusFilter: string): seq<Order> {
    Filter(orders, o => Shown(o, term, statusFilter))
  }

  predicate IsCompleted(o: Order) { o.status == "completed" }
  predicate IsInProgress(o: Order) { o.status == "in-progress" }

  /** The "Completed Orders" figure. */
  function CompletedCount(orders: seq<Order>): nat {
    |Filter(orders, IsCompleted)|
  }

  /** The "In Progress" figure. */
  function InProgressCount(orders: seq<Order>): nat {
    |Filter(orders, IsInProgress)|
  }

  function ReviewsOf(o: Order): int { o.reviewsCount }

  /** The "Total Reviews" figure. */
  function TotalReviews(orders: seq<Order>): int {
    Sum(orders, ReviewsOf)
  }

  function StatusBadgeOf(status: string): StatusBadge {
    if status == "completed" then StatusBadge(Success, "Completed")
    else if status == "in-progress" then StatusBadge(Primary, "In Progress")
    else if status == "cancelled" then StatusBadge(Danger, "Cancelled")
    else StatusBadge(Secondary, "Unknown")
  }

  /** The shown rows are the input rows that match, in the input's order, and only those. */
  lemma FilteredIsOrderedSelection(orders: seq<Order>, term: string, statusFilter: string)
    ensures IsSubsequence(FilteredOrders(orders, term, statusFilter), orders)
    ensures forall i :: 0 <= i < |orders| ==>
              (orders[i] in FilteredOrders(orders, term, statusFilter) <==> Shown(orders[i], term, statusFilter))
    ensures |FilteredOrders(orders, term, statusFilter)| == |set i | 0 <= i < |orders| && Shown(orders[i], term, statusFilter)|
  {
    FilterIsSubsequence(orders, o => Shown(o, term, statusFilter));
    FilterCountIsPositions(orders, o => Shown(o, term, statusFilter));
    assert Positions(orders, o => Shown(o, term, statusFilter)) ==
           set i | 0 <= i < |orders| && Shown(orders[i], term, statusFilter);
  }

  /** An empty search with the "all" filter shows every order. */
  lemma NoFilterShowsAll(orders: seq<Order>)
    ensures FilteredOrders(orders, "", "all") == orders
  {
    forall o | o in orders
      ensures Shown(o, "", "all")
    {
      EmptyTermMatches(o.productName);
    }
    FilterAll(orders, o => Shown(o, "", "all"));
  }

  /** Any filter other than "all" keeps only orders whose status is exactly the filter. */
  lemma StatusFilterIsExact(orders: seq<Order>, term: string, statusFilter: string)
    requires statusFilter != "all"
    ensures forall o :: o in FilteredOrders(orders, term, statusFilter) ==> o.status == statusFilter
  {
  }

  /** "Completed" and "In Progress" count exactly the positions with that status, and the two
      figures together never exceed the number of orders. */
  lemma StatusCountsBounded(orders: seq<Order>)
    ensures CompletedCount(orders) == |set i | 0 <= i < |orders| && orders[i].status == "completed"|
    ensures InProgressCount(orders) == |set i | 0 <= i < |orders| && orders[i].status == "in-progress"|
    ensures CompletedCount(orders) + InProgressCount(orders) <= |orders|
  {
    FilterCountIsPositions(orders, IsCompleted);
    assert Positions(orders, IsCompleted) == set i | 0 <= i < |orders| && orders[i].status == "completed";
    FilterCountIsPositions(orders, IsInProgress);
    assert Positions(orders, IsInProgress) == set i | 0 <= i < |orders| && orders[i].status == "in-progress";
    DisjointCounts(orders, IsCompleted, IsInProgress);
  }

  /** "Total Reviews" adds the completed orders' reviews to everyone else's. */
  lemma TotalReviewsPartition(orders: seq<Order>)
    ensures TotalReviews(orders) ==
            Sum(Filter(orders, IsCompleted), ReviewsOf) + Sum(Filter(orders, o => !IsCompleted(o)), ReviewsOf)
  {
    SumPartition(orders, ReviewsOf, IsCompleted, o => !IsCompleted(o));
  }

  /** Every status other than the three named ones shows as "Unknown". */
  lemma BadgeDefaultsToUnknown(status: string)
    ensures StatusBadgeOf(status).caption == "Unknown"
            <==> status != "completed" && status != "in-progress" && status != "cancelled"
  {
  }
}
