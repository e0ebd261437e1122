# FishOrder LINE bot — a Dafny model of its command handling

The bot receives LINE chat messages and keeps order records in a Notion
database. Each text message is trimmed and classified by a fixed-precedence
command language:

1. `查詢` counts every order;
2. `查 <keyword>` counts the orders whose customer or item contains the keyword;
3. `格式` shows the input format;
4. `付款 <customer> <item> <status…>` sets the payment status of the first
   order with that customer and an item containing `<item>`;
5. any other text with four or more space-separated tokens adds an order
   `customer item qty price [note]` with a blank payment status;
6. anything else gets the "unknown command" reply.

The model has these parts:

- `JsText` (`js_text.dfy`): the JavaScript string built-ins the parser uses,
  written out over `seq<char>`. These are `trim` with ECMAScript's whitespace
  set, `startsWith`, `indexOf`, first-occurrence `replace`, `split(" ")` and
  `join(" ")`. They come with the split/join round trip in both directions.
- `Commands` (`commands.dfy`): the classifier `Parse` over the trimmed text,
  and `IntentOf` for whole webhook events. The lemmas state what each rule
  accepts, the precedence between the rules, and how fields are extracted.
  They also prove round trips from a command's text back to the command.
- `Orders` (`orders.dfy`): the database as a sequence of `Order` records in
  query order. The filters of the two queries are `KeywordHits` and
  `FirstPaymentMatch`. `OrderStore` is a class whose `records` field the
  methods `AddOrder`, `QueryAll`, `QueryKeyword` and `UpdatePaymentStatus`
  read or reassign.
- `Bot` (`bot.dfy`): `HandleEvent`, which runs one event against an
  `OrderStore`. It produces at most one reply, given by its kind and the
  values filled into its text.

The parser follows `split(" ")` exactly. Two spaces in a row give an empty
token, and empty tokens count towards the four a payment or an order needs.
A new order keeps only the fifth token as its note: later tokens are dropped,
and an empty or missing fifth token gives the empty note.

## Model

| member | source | states |
|---|---|---|
| `JsText.Trim` | index.js:126 | `trim` gives a string that neither starts nor ends with ECMAScript whitespace, and leaves such a string unchanged |
| `JsText.TrimIsMiddleSlice` | index.js:126 | `trim` removes only a leading and a trailing run of whitespace: its result is a middle slice of the input |
| `JsText.TrimStart` | index.js:126 | the leading part removed is all whitespace, and the rest does not start with whitespace |
| `JsText.TrimEnd` | index.js:126 | the trailing part removed is all whitespace, and the rest does not end with whitespace |
| `JsText.IndexOfFrom` | index.js:139 | finds the first occurrence of the pattern at or after a position, or reports that there is none |
| `JsText.IndexOf` | index.js:139 | `indexOf` finds an index exactly when the pattern occurs, and that index is the first occurrence |
| `JsText.StartsWithIsIndexZero` | index.js:138 | `startsWith(p)` holds exactly when the first occurrence of `p` is at index 0 |
| `JsText.ReplaceFirst` | index.js:139 | `replace` with a string pattern on a text that starts with the pattern swaps exactly that leading copy for the replacement |
| `JsText.ReplaceFirstLength` | index.js:139 | `replace` changes nothing when the pattern does not occur; otherwise it changes the length by the replacement's length minus the pattern's |
| `JsText.Split` | index.js:157 | `split(" ")` gives one part more than there are spaces, and no part contains a space |
| `JsText.JoinCountsSpaces` | index.js:168 | joining space-free parts puts exactly one space in each gap and no other |
| `JsText.JoinSplit` | index.js:168 | joining the split parts with `" "` gives back the original text |
| `JsText.SplitPrependWord` | index.js:157 | a space-free word in front of a text becomes the head of the text's first part |
| `JsText.SplitAfterWord` | index.js:186 | a space-free word followed by a space splits off as exactly the first part |
| `JsText.SplitJoin` | index.js:186 | splitting the join of space-free parts gives back those parts |
| `Commands.IntentOf` | index.js:124-126 | an event has an intent exactly when it is a text message. A keyword search then has a non-empty keyword, and a payment update a non-empty status |
| `Commands.Parse` | index.js:128-209 | a text starting with `付款 ` is always a payment update or a format error. A text adds an order or is unrecognised exactly when it matches none of the four command rules |
| `Commands.PaymentPrefixIsNoOtherCommand` | index.js:129-156 | a text starting with `付款 ` is not `查詢`, does not start with `查 ` and is not `格式`, so the payment rule is the one that decides it |
| `Commands.PaymentIntent` | index.js:157-168 | the payment rule gives a format error exactly when there are fewer than four tokens, and a payment update otherwise |
| `Commands.OrderIntent` | index.js:186-209 | the order rule gives "unrecognised" exactly when there are fewer than four tokens, and a new order otherwise |
| `Commands.ParseQueryAll` | index.js:129-135 | the text is a query for all orders if and only if it is exactly `查詢`; this check comes first |
| `Commands.ParseKeywordSearch` | index.js:138-139 | the text is a keyword search if and only if it starts with `查 `; the keyword is the rest of the text, trimmed |
| `Commands.ParseHelp` | index.js:148-153 | the text asks for help if and only if it is exactly `格式` |
| `Commands.FirstTokenAfterPrefix` | index.js:166 | in a text that starts with `付款 `, the first token is `付款` |
| `Commands.JoinFirstThree` | index.js:166-168 | a text with four or more tokens is its first three tokens and the join of the rest, separated by spaces |
| `Commands.ParsePayment` | index.js:156-168 | a text starting with `付款 ` never adds an order. It is a format error if and only if it has fewer than three spaces. Otherwise the customer and item are single tokens, and `付款 customer item status` equals the text |
| `Commands.ParseOrderOrUnrecognised` | index.js:186-209 | any other text adds an order if and only if it has at least four tokens, and is unrecognised otherwise. The order's fields are tokens 0 to 3, and the note is token 4 or empty |
| `Commands.KeywordsAreNotOrders` | index.js:128-183 | the keyword commands are never read as an order or as unrecognised, whatever their length |
| `Commands.PaymentRoundTrip` | index.js:156-168 | for any space-free customer and item and any status, `付款 customer item status` parses to exactly that payment update |
| `Commands.OrderRoundTrip` | index.js:186-195 | space-free order fields joined by single spaces parse back to the same order, unless the customer is `查` or `付款` |
| `Commands.TrimEmptyOnlyIfBlank` | index.js:126 | a string whose trim is empty consists only of whitespace |
| `Commands.TrimKeepsLastNonBlank` | index.js:126 | a string ending in a non-whitespace character does not trim to the empty string |
| `Commands.SearchKeywordNonEmpty` | index.js:126-139 | a trimmed text starting with `查 ` is a keyword search with a non-empty keyword, so a real event never searches for the empty string |
| `Commands.TrimmedFieldsNonEmpty` | index.js:126-168 | for any trimmed text, a keyword search has a non-empty keyword and a payment update has a non-empty status |
| `Commands.PaymentStatusNonEmpty` | index.js:126-168 | a trimmed text starting with `付款 ` with at least three spaces is a payment update with a non-empty status |
| `Orders.NewRecord` | index.js:41-47 | the page written has a blank payment status, and both queries find it by its own customer and item names |
| `Orders.KeywordHit` | index.js:67-71 | the empty keyword matches every order, a field equal to the keyword matches, and a match needs a field at least as long as the keyword |
| `Orders.PaymentMatch` | index.js:82-93 | every order the payment filter accepts is also found by a keyword query on its customer or on the item text |
| `Orders.KeywordHits` | index.js:64-74 | the keyword query returns a record if and only if it is stored and its customer or item contains the keyword. It never returns more records than are stored, and returns all of them exactly when every record matches |
| `Orders.KeywordHitsMultiset` | index.js:64-74 | the keyword query returns each matching record exactly as often as it is stored, and no other record, so the count in the reply is the number of matching records |
| `Orders.KeywordHitsAppend` | index.js:64-74 | the keyword query keeps query order: the hits among earlier records come before the hits among later ones |
| `Orders.PaymentUpdated` | index.js:79-108 | the update keeps the number of records, reports success exactly when some record matches, and changes nothing when it reports failure |
| `Orders.FirstPaymentMatch` | index.js:96-99 | gives a matching record (customer equal, item containing) with no match before it, or none exactly when no record matches |
| `Orders.PaymentUpdateEffect` | index.js:79-108 | the update returns false exactly when no record matches, and then changes nothing. Otherwise only the first match gets the new payment status, and every other record and field is unchanged |
| `Orders.PaymentUpdateKeepsFields` | index.js:101-106 | a payment update changes only payment statuses, so keyword queries count the same before and after |
| `Orders.HitCountByFields` | index.js:64-74 | keyword queries depend only on customer and item |
| `Orders.NewOrderIsFound` | index.js:38-74 | a newly added order is found by a keyword query on its own customer or item |
| `Orders.OrderStore.AddOrder` | index.js:38-50 | adds exactly one record, with the five given fields and a blank payment status, and keeps every earlier record in order |
| `Orders.OrderStore.QueryAll` | index.js:55-59 | returns every record |
| `Orders.OrderStore.QueryKeyword` | index.js:64-74 | returns each record whose customer or item contains the keyword exactly as often as it is stored, and no other record, in query order (`KeywordHits`) |
| `Orders.OrderStore.UpdatePaymentStatus` | index.js:79-109 | returns false and changes nothing when no record matches. Otherwise it sets the payment status of the first matching record only |
| `Bot.HandleEvent` | index.js:123-210 | a non-text event gets no reply and changes nothing. Every text message gets exactly one reply of the kind its intent calls for. Only a matched payment update and a new order change the store, as the store methods state |
| `Bot.OrderLineAddsOrder` | index.js:186-197 | a text with at least four tokens that matches no keyword command becomes an order built from its first four tokens, with no payment status |

## Left out

- The Express server, the webhook route, `app.listen` and the dotenv configuration (index.js:6-33, 114-118, 215-217): these are I/O and process start-up.
- `Promise.all` over the events of one webhook call (index.js:115): events are dispatched concurrently with no shared logic. The model handles one event at a time.
- The LINE reply call and the exact reply wording: a reply is modelled by its kind and the values placed in its text.
- The Notion client itself. Its `contains` and `equals` text filters are modelled as plain substring containment and string equality, with no case folding.
- Notion result pagination: a query here returns every matching record, so the counts in the replies are not capped at one page of results.
- The database's result order is modelled as the order of `records`.
- `Orders.OrderStore.AddOrder`: where the database places a new page in that order is left open. The contract only says that the page is inserted somewhere and every other page keeps its order.
- `Orders.OrderStore.UpdatePaymentStatus`: the model assumes that an update keeps every page in its place in query order. If the database ordered its results by edit time, an update could move the page, and that would change which page a later `付款` command finds first.
- Failing remote calls: the model assumes every store call succeeds. In the source, a rejected call ends the event without a reply.
- `Number()` on the quantity and price tokens (index.js:192-193): JavaScript number conversion has floating-point and NaN semantics. The model keeps the raw tokens.
- A "message" event without a `message` object makes the source throw, which ends that event without a reply. The model treats it like any other non-text event: no reply and no change.
- JavaScript strings are UTF-16. The model works on code points. Every whitespace character and command character involved lies in the Basic Multilingual Plane, so this makes no difference to classification.
