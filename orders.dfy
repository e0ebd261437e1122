/**
 * The order database the bot writes to, seen as the sequence of its records
 * in the order a database query returns them. The three store operations the
 * bot drives are methods on `OrderStore`:
 *   - AddOrder creates one record from the five parsed fields and leaves its
 *     payment status unset;
 *   - QueryKeyword selects the records whose customer or item contains a
 *     keyword;
 *   - UpdatePaymentStatus selects the records whose customer equals a name
 *     and whose item contains a text, and sets the payment status of the
 *     first of them only.
 */
module Orders {
  import opened Wrappers
  import opened JsText
  import opened Commands

  /** One order page. `payStatus` is the single-choice payment property,
      `None` while it is still blank. */
  datatype Order = Order(customer: string, item: string, qty: string, price: string,
                         note: string, payStatus: Option<string>)

  /** The page `addOrder` writes: the five fields as given, payment blank.
      Both later queries find it by its own customer and item names. */
  function NewRecord(d: OrderData): (r: Order)
    ensures r.payStatus == None
    ensures KeywordHit(r, d.customer) && KeywordHit(r, d.item)
    ensures PaymentMatch(r, d.customer, d.item)
  {
    assert OccursAt(d.item, d.item, 0);
    Order(d.customer, d.item, d.qty, d.price, d.note, None)
  }

  /** The filter of `queryKeyword`: customer contains OR item contains. The
      empty keyword matches every order, and a hit needs a field at least as
      long as the keyword. */
  predicate KeywordHit(o: Order, keyword: string)
    ensures keyword == "" ==> KeywordHit(o, keyword)
    ensures o.customer == keyword || o.item == keyword ==> KeywordHit(o, keyword)
    ensures KeywordHit(o, keyword) ==> |keyword| <= |o.customer| || |keyword| <= |o.item|
  {
    assert OccursAt(o.customer, o.customer, 0) && OccursAt(o.item, o.item, 0);
    assert OccursAt(o.customer, "", 0);
    Contains(o.customer, keyword) || Contains(o.item, keyword)
  }

  /** The filter of `updatePaymentStatus`: customer equals AND item contains.
      Every order it accepts is also found by a keyword query on the same
      customer or item text. */
  predicate PaymentMatch(o: Order, customer: string, item: string)
    ensures PaymentMatch(o, customer, item) ==> KeywordHit(o, customer) && KeywordHit(o, item)
  {
    o.customer == customer && Contains(o.item, item)
  }

  /** The records a keyword query returns, in query order: exactly the
      records the filter accepts, each as often as it is stored. */
  function KeywordHits(records: seq<Order>, keyword: string): (r: seq<Order>)
    ensures forall o :: o in r <==> o in records && KeywordHit(o, keyword)
    ensures |r| <= |records|
    ensures |r| == |records| <==> forall i :: 0 <= i < |records| ==> KeywordHit(records[i], keyword)
  {
    if records == [] then []
    else
      var rest := KeywordHits(records[1..], keyword);
      assert forall o :: o in records <==> o == records[0] || o in records[1..];
      if KeywordHit(records[0], keyword) then [records[0]] + rest else rest
  }

  /** The query returns each matching record exactly as often as it is
      stored, and no other record. */
  lemma {:induction false} KeywordHitsMultiset(records: seq<Order>, keyword: string)
    ensures forall o :: multiset(KeywordHits(records, keyword))[o]
                        == if KeywordHit(o, keyword) then multiset(records)[o] else 0
  {
    if records != [] {
      KeywordHitsMultiset(records[1..], keyword);
      assert records == [records[0]] + records[1..];
    }
  }

  /** The query keeps query order: filtering a concatenation filters each
      side and keeps the first side's hits ahead of the second's. */
  lemma {:induction false} KeywordHitsAppend(a: seq<Order>, b: seq<Order>, keyword: string)
    ensures KeywordHits(a + b, keyword) == KeywordHits(a, keyword) + KeywordHits(b, keyword)
  {
    if a == [] {
      assert a + b == b;
    } else {
      assert (a + b)[1..] == a[1..] + b;
      KeywordHitsAppend(a[1..], b, keyword);
    }
  }

  /** The position of the first record the payment filter accepts, which is
      `result.results[0]` of the filtered query; `None` when the query comes
      back empty. */
  function FirstPaymentMatch(records: seq<Order>, customer: string, item: string): (r: Option<nat>)
    ensures r.Some? ==> r.value < |records| && PaymentMatch(records[r.value], customer, item)
    ensures forall i :: 0 <= i < |records| && (r.None? || i < r.value)
                        ==> !PaymentMatch(records[i], customer, item)
  {
    if records == [] then None
    else if PaymentMatch(records[0], customer, item) then Some(0)
    else
      match FirstPaymentMatch(records[1..], customer, item)
      case None => None
      case Some(k) => Some(k + 1)
  }

  /** The records after setting the payment status of the one at `k`. */
  function WithPayStatus(records: seq<Order>, k: nat, payStatus: string): seq<Order>
    requires k < |records|
  {
    records[k := records[k].(payStatus := Some(payStatus))]
  }

  /** The effect of `updatePaymentStatus` on the records, with its result. */
  function PaymentUpdated(records: seq<Order>, customer: string, item: string, payStatus: string)
    : (r: (bool, seq<Order>))
    ensures |r.1| == |records|
    ensures !r.0 ==> r.1 == records
    ensures r.0 <==> exists i :: 0 <= i < |records| && PaymentMatch(records[i], customer, item)
  {
    match FirstPaymentMatch(records, customer, item)
    case None => (false, records)
    case Some(k) => (true, WithPayStatus(records, k, payStatus))
  }

  /** What `updatePaymentStatus` promises: it reports failure exactly when no
      record matches, and then changes nothing; otherwise the first matching
      record gets the new payment status, keeping every other field, and
      every other record is left alone. */
  lemma PaymentUpdateEffect(records: seq<Order>, customer: string, item: string, payStatus: string)
    ensures var (ok, after) := PaymentUpdated(records, customer, item, payStatus);
            (ok <==> exists i :: 0 <= i < |records| && PaymentMatch(records[i], customer, item))
            && (!ok ==> after == records)
            && |after| == |records|
            && (ok ==> exists k ::
                          && 0 <= k < |records|
                          && PaymentMatch(records[k], customer, item)
                          && (forall i :: 0 <= i < k ==> !PaymentMatch(records[i], customer, item))
                          && after[k] == records[k].(payStatus := Some(payStatus))
                          && forall i :: 0 <= i < |records| && i != k ==> after[i] == records[i])
  {
    var r := FirstPaymentMatch(records, customer, item);
    if r.Some? {
      var k := r.value;
      assert PaymentMatch(records[k], customer, item);
    }
  }

  /** A payment update never adds or removes records and never touches the
      customer, item, quantity, price or note of any record: only payment
      statuses can differ, so a later keyword query sees the same records. */
  lemma PaymentUpdateKeepsFields(records: seq<Order>, customer: string, item: string,
                                 payStatus: string, keyword: string)
    ensures var after := PaymentUpdated(records, customer, item, payStatus).1;
            |after| == |records|
            && (forall i :: 0 <= i < |records| ==> after[i] == records[i].(payStatus := after[i].payStatus))
            && |KeywordHits(after, keyword)| == |KeywordHits(records, keyword)|
  {
    var after := PaymentUpdated(records, customer, item, payStatus).1;
    HitCountByFields(records, after, keyword);
  }

  /** Keyword queries look only at customer and item, so two record
      sequences that agree on those fields give equally many hits. */
  lemma {:induction false} HitCountByFields(a: seq<Order>, b: seq<Order>, keyword: string)
    requires |a| == |b|
    requires forall i :: 0 <= i < |a| ==> a[i].customer == b[i].customer && a[i].item == b[i].item
    ensures |KeywordHits(a, keyword)| == |KeywordHits(b, keyword)|
  {
    if a != [] {
      HitCountByFields(a[1..], b[1..], keyword);
    }
  }

  /** A freshly added order is found by a keyword query on its own customer
      name or item name. */
  lemma NewOrderIsFound(records: seq<Order>, k: nat, d: OrderData, keyword: string)
    requires k <= |records|
    requires keyword == d.customer || keyword == d.item
    ensures NewRecord(d) in KeywordHits(records[..k] + [NewRecord(d)] + records[k..], keyword)
  {
    var o := NewRecord(d);
    if keyword == d.customer {
      assert OccursAt(o.customer, keyword, 0);
    } else {
      assert OccursAt(o.item, keyword, 0);
    }
    assert o in records[..k] + [o] + records[k..];
  }

  /** The order database. `records` lists every page in query order. */
  class OrderStore {
    var records: seq<Order>

    constructor (initial: seq<Order>)
      ensures records == initial
    {
      records := initial;
    }

    /** `addOrder`: creates exactly one page holding the five fields with a
        blank payment status. Where the database sorts the new page among
        the others is its own choice; every earlier page stays, in order. */
    method AddOrder(d: OrderData) returns (page: Order)
      modifies this
      ensures page == NewRecord(d) && page.payStatus == None
      ensures page.customer == d.customer && page.item == d.item && page.qty == d.qty
              && page.price == d.price && page.note == d.note
      ensures exists k :: 0 <= k <= |old(records)| && records == old(records)[..k] + [page] + old(records)[k..]
    {
      page := NewRecord(d);
      records := [page] + records;
      assert records == old(records)[..0] + [page] + old(records)[0..];
    }

    /** `queryAll`: every page. */
    method QueryAll() returns (result: seq<Order>)
      ensures result == records
    {
      result := records;
    }

    /** `queryKeyword`: the pages whose customer or item contains the keyword. */
    method QueryKeyword(keyword: string) returns (result: seq<Order>)
      ensures forall o :: o in result <==> o in records && KeywordHit(o, keyword)
      ensures forall o :: multiset(result)[o] == if KeywordHit(o, keyword) then multiset(records)[o] else 0
      ensures result == KeywordHits(records, keyword)
    {
      result := KeywordHits(records, keyword);
      KeywordHitsMultiset(records, keyword);
    }

    /** `updatePaymentStatus`: false, and no change, when no page has this
        customer and an item containing `item`; otherwise the first such page
        gets `payStatus` as its payment status and nothing else changes. */
    method UpdatePaymentStatus(customer: string, item: string, payStatus: string) returns (ok: bool)
      modifies this
      ensures ok <==> exists i :: 0 <= i < |old(records)| && PaymentMatch(old(records)[i], customer, item)
      ensures !ok ==> records == old(records)
      ensures ok ==> exists k ::
                       && 0 <= k < |old(records)|
                       && PaymentMatch(old(records)[k], customer, item)
                       && (forall i :: 0 <= i < k ==> !PaymentMatch(old(records)[i], customer, item))
                       && records == old(records)[k := old(records)[k].(payStatus := Some(payStatus))]
      ensures (ok, records) == PaymentUpdated(old(records), customer, item, payStatus)
    {
      var first := FirstPaymentMatch(records, customer, item);
      if first.None? {
        return false;
      }
      var k := first.value;
      records := WithPayStatus(records, k, payStatus);
      ok := true;
    }
  }
}
