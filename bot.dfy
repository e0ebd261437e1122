/**
 * `handleEvent`: one webhook event in, at most one reply out, with the
 * store operation the event's intent calls for. Replies are given by kind
 * together with the values the bot fills into the reply text.
 */
module Bot {
  import opened Wrappers
  import opened JsText
  import opened Commands
  import opened Orders

  datatype Reply =
    | OrderCount(total: nat)                                     // 目前共有 N 筆訂單
    | SearchCount(keyword: string, hits: nat)                    // 搜尋「k」共有 N 筆
    | FormatGuide                                                // 使用格式 …
    | PaymentFormatHint                                          // 格式錯誤：付款 客人 商品 付款狀態
    | OrderNotFound(customer: string, item: string)              // 找不到：c / i 的訂單
    | PaymentSet(customer: string, item: string, payStatus: string) // 已更新：c / i → s
    | OrderAdded(customer: string, item: string, qty: string)    // 已新增：c / i（q）
    | UnknownCommand                                             // 指令錯誤

  /** Handles one event against the store. A non-text event gets no reply
      and leaves the store alone; every text message gets exactly one reply.
      Only a payment update with a match and a new order change the store. */
  method HandleEvent(store: OrderStore, e: Event) returns (reply: Option<Reply>)
    modifies store
    ensures reply.None? <==> !IsTextMessage(e)
    ensures IntentOf(e).None? ==> store.records == old(store.records)
    ensures IntentOf(e) == Some(QueryAll) ==>
              store.records == old(store.records) && reply == Some(OrderCount(|store.records|))
    ensures IntentOf(e).Some? && IntentOf(e).value.KeywordSearch? ==>
              var k := IntentOf(e).value.keyword;
              store.records == old(store.records)
              && reply == Some(SearchCount(k, |KeywordHits(store.records, k)|))
    ensures IntentOf(e) == Some(Help) ==>
              store.records == old(store.records) && reply == Some(FormatGuide)
    ensures IntentOf(e) == Some(PaymentFormatError) ==>
              store.records == old(store.records) && reply == Some(PaymentFormatHint)
    ensures IntentOf(e).Some? && IntentOf(e).value.PaymentUpdate? ==>
              var u := IntentOf(e).value;
              var (ok, after) := PaymentUpdated(old(store.records), u.customer, u.item, u.payStatus);
              store.records == after
              && reply == Some(if ok then PaymentSet(u.customer, u.item, u.payStatus)
                               else OrderNotFound(u.customer, u.item))
    ensures IntentOf(e).Some? && IntentOf(e).value.NewOrder? ==>
              var d := IntentOf(e).value.data;
              (exists k :: 0 <= k <= |old(store.records)|
                 && store.records == old(store.records)[..k] + [NewRecord(d)] + old(store.records)[k..])
              && reply == Some(OrderAdded(d.customer, d.item, d.qty))
    ensures IntentOf(e) == Some(Unrecognised) ==>
              store.records == old(store.records) && reply == Some(UnknownCommand)
  {
    var intent := IntentOf(e);
    if intent.None? {
      return None;
    }
    match intent.value
    case QueryAll =>
      var list := store.QueryAll();
      reply := Some(OrderCount(|list|));
    case KeywordSearch(keyword) =>
      var res := store.QueryKeyword(keyword);
      reply := Some(SearchCount(keyword, |res|));
    case Help =>
      reply := Some(FormatGuide);
    case PaymentFormatError =>
      reply := Some(PaymentFormatHint);
    case PaymentUpdate(customer, item, payStatus) =>
      var ok := store.UpdatePaymentStatus(customer, item, payStatus);
      reply := Some(if ok then PaymentSet(customer, item, payStatus) else OrderNotFound(customer, item));
    case NewOrder(d) =>
      var _ := store.AddOrder(d);
      reply := Some(OrderAdded(d.customer, d.item, d.qty));
    case Unrecognised =>
      reply := Some(UnknownCommand);
  }

  /** An ordinary chat line that starts with neither command word and has
      at least four tokens adds exactly one order to the store, built from
      its first tokens, with no payment status. */
  lemma OrderLineAddsOrder(e: Event)
    requires IsTextMessage(e)
    requires var t := Trim(e.message.value.text);
             t != QueryAllCommand && t != HelpCommand
             && !StartsWith(t, SearchPrefix) && !StartsWith(t, PaymentPrefix)
             && CountSpaces(t) >= 3
    ensures IntentOf(e).Some? && IntentOf(e).value.NewOrder?
    ensures var parts := Split(Trim(e.message.value.text));
            var r := NewRecord(IntentOf(e).value.data);
            r.customer == parts[0] && r.item == parts[1] && r.qty == parts[2]
            && r.price == parts[3] && r.payStatus == None
  {
    ParseOrderOrUnrecognised(Trim(e.message.value.text));
  }
}
