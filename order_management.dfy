/** The admin order table: search and status filter, the badge variants, and
    the item count label. */
module OrderManagement {
  import opened Collections
  import opened Text
  import opened Schema

  /** The search box: the order number contains the query, ignoring case, or
      the decimal id contains the query as typed. */
  predicate MatchesSearch(o: Order, query: string) {
    Contains(ToLower(o.orderNumber), ToLower(query)) || Contains(IntToString(o.id), query)
  }

  /** The status select: 'all', or exactly the order's status (case matters here). */
  predicate MatchesStatus(o: Order, statusFilter: string) {
    statusFilter == "all" || o.status == statusFilter
  }

  function Keep(query: string, statusFilter: string): OrderWithItems -> bool {
    (x: OrderWithItems) => MatchesSearch(x.order, query) && MatchesStatus(x.order, statusFilter)
  }

  /** `filteredOrders`: nothing before the orders load. */
  function FilteredOrders(orders: Option<seq<OrderWithItems>>, query: string, statusFilter: string): (r: Option<seq<OrderWithItems>>)
    ensures r.Some? <==> orders.Some?
    ensures r.Some? ==> forall i :: 0 <= i < |r.value| ==>
      r.value[i] in orders.value && MatchesSearch(r.value[i].order, query) && MatchesStatus(r.value[i].order, statusFilter)
    ensures r.Some? ==> forall i :: 0 <= i < |orders.value| ==>
      (MatchesSearch(orders.value[i].order, query) && MatchesStatus(orders.value[i].order, statusFilter)
       ==> orders.value[i] in r.value)
  {
    match orders
    case None => None
    case Some(os) => Some(Filter(Keep(query, statusFilter), os))
  }

  /** The table keeps the orders in the order they were fetched. */
  lemma FilteredOrdersInOrder(orders: seq<OrderWithItems>, query: string, statusFilter: string)
    ensures IsSubseq(FilteredOrders(Some(orders), query, statusFilter).value, orders)
  {
    FilterIsSubseq(Keep(query, statusFilter), orders);
  }

  /** An empty search with the 'all' filter shows every order. */
  lemma EmptySearchShowsAll(orders: seq<OrderWithItems>)
    ensures FilteredOrders(Some(orders), "", "all") == Some(orders)
  {
    forall i | 0 <= i < |orders| ensures Keep("", "all")(orders[i]) {
      ContainsEmpty(ToLower(orders[i].order.orderNumber));
    }
    FilterAll(Keep("", "all"), orders);
  }

  /** A character that `n.toString()` can produce. */
  predicate NumberChar(c: char) {
    '0' <= c <= '9' || c == '-'
  }

  lemma IntToStringChars(n: int)
    ensures forall i :: 0 <= i < |IntToString(n)| ==> NumberChar(IntToString(n)[i])
  {
    var s := IntToString(n);
    if n < 0 {
      assert s == "-" + NatToString(-n);
      forall i | 0 <= i < |s| ensures NumberChar(s[i]) {
        if i > 0 { assert s[i] == NatToString(-n)[i - 1]; }
      }
    }
  }

  /** Only strings made of the characters of `s` can occur in `s`. */
  lemma OccurrenceChars(s: string, sub: string, i: int, k: int)
    requires OccursAt(s, sub, i) && 0 <= k < |sub|
    ensures sub[k] == s[i + k]
  {
    assert s[i..i + |sub|][k] == s[i + k];
  }

  /** The search ignores the case of the query altogether: the id test cannot
      match a query with a letter in it, in either case. */
  lemma SearchCaseInsensitive(o: Order, query: string)
    ensures MatchesSearch(o, query) <==> MatchesSearch(o, ToLower(query))
  {
    ToLowerIdempotent(query);
    var id := IntToString(o.id);
    IntToStringChars(o.id);
    if exists k :: 0 <= k < |query| && 'A' <= query[k] <= 'Z' {
      var k :| 0 <= k < |query| && 'A' <= query[k] <= 'Z';
      forall i | 0 <= i <= |id| ensures !OccursAt(id, query, i) && !OccursAt(id, ToLower(query), i) {
        if OccursAt(id, query, i) {
          OccurrenceChars(id, query, i, k);
        }
        if OccursAt(id, ToLower(query), i) {
          OccurrenceChars(id, ToLower(query), i, k);
        }
      }
    } else {
      assert ToLower(query) == query;
    }
  }

  /** The variants a `Badge` takes. */
  datatype BadgeVariant = Default | Secondary | Outline | Destructive

  /** The `switch` of the admin table's `getStatusColor`, on a lower-cased status. */
  function VariantOfLower(lower: string): BadgeVariant {
    match lower
    case "pending" => Secondary
    case "processing" => Default
    case "shipped" => Outline
    case "delivered" => Default
    case "cancelled" => Destructive
    case _ => Secondary
  }

  /** The `switch` of `getPaymentStatusColor`, on a lower-cased status. */
  function PaymentVariantOfLower(lower: string): BadgeVariant {
    match lower
    case "pending" => Secondary
    case "completed" => Default
    case "failed" => Destructive
    case "refunded" => Outline
    case _ => Secondary
  }

  /** `getStatusColor` of the admin table. */
  function StatusVariant(status: string): (r: BadgeVariant)
    ensures r == Outline <==> ToLower(status) == "shipped"
    ensures r == Destructive <==> ToLower(status) == "cancelled"
    ensures r == Default <==> ToLower(status) == "processing" || ToLower(status) == "delivered"
    ensures r == Secondary <==> !(ToLower(status) in ["processing", "shipped", "delivered", "cancelled"])
  {
    VariantOfLower(ToLower(status))
  }

  /** `getPaymentStatusColor`. */
  function PaymentStatusVariant(status: string): (r: BadgeVariant)
    ensures r == Default <==> ToLower(status) == "completed"
    ensures r == Destructive <==> ToLower(status) == "failed"
    ensures r == Outline <==> ToLower(status) == "refunded"
    ensures r == Secondary <==> !(ToLower(status) in ["completed", "failed", "refunded"])
  {
    PaymentVariantOfLower(ToLower(status))
  }

  /** Both badge mappings depend on the status only up to case. */
  lemma VariantsIgnoreCase(status: string)
    ensures StatusVariant(ToLower(status)) == StatusVariant(status)
    ensures PaymentStatusVariant(ToLower(status)) == PaymentStatusVariant(status)
  {
    ToLowerIdempotent(status);
    assert StatusVariant(ToLower(status)) == VariantOfLower(ToLower(status));
    assert PaymentStatusVariant(ToLower(status)) == PaymentVariantOfLower(ToLower(status));
  }

  /** `{n} item{n !== 1 ? 's' : ''}`. */
  function ItemCountLabel(n: nat): (r: string)
    ensures |r| > |IntToString(n)| && r[..|IntToString(n)|] == IntToString(n)
  {
    IntToString(n) + " item" + (if n != 1 then "s" else "")
  }

  /** The label is plural exactly when the count is not 1. */
  lemma ItemCountLabelPlural(n: nat)
    ensures ItemCountLabel(n)[|ItemCountLabel(n)| - 1] == 's' <==> n != 1
    ensures n == 1 ==> ItemCountLabel(n) == "1 item"
  {
    var d := IntToString(n);
    if n == 1 {
      assert d == "1";
    }
  }
}
