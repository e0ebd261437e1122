/**
 * The chat command language of the order bot: how one inbound LINE event is
 * turned into exactly one intent. The checks run in a fixed order and the
 * first that matches wins:
 *
 *   1. `查詢`             — count every order
 *   2. `查 <keyword>`     — count the orders whose customer or item mentions
 *                          the keyword
 *   3. `格式`             — show the input format
 *   4. `付款 <customer> <item> <status...>` — set an order's payment status
 *   5. `<customer> <item> <qty> <price> [<note>]` — add an order
 *   6. anything else      — unrecognised
 *
 * Tokens are whatever `split(" ")` yields, so two spaces in a row make an
 * empty token and count towards the four needed by rules 4 and 5.
 */
module Commands {
  import opened Wrappers
  import opened JsText

  /** 查詢, "query": the whole text, lists the order count. */
  const QueryAllCommand: string := "查詢"
  /** 查 followed by one space: a keyword search. */
  const SearchPrefix: string := "查 "
  /** 格式, "format": the whole text, shows the input format. */
  const HelpCommand: string := "格式"
  /** 付款, "payment": the first token of a payment update. */
  const PaymentWord: string := "付款"
  const PaymentPrefix: string := PaymentWord + [Space]

  /** The five fields of a new order as the chat text gives them. Quantity
      and price stay the raw tokens the operator typed. */
  datatype OrderData = OrderData(customer: string, item: string, qty: string, price: string, note: string)

  datatype Intent =
    | QueryAll
    | KeywordSearch(keyword: string)
    | Help
    | PaymentFormatError
    | PaymentUpdate(customer: string, item: string, payStatus: string)
    | NewOrder(data: OrderData)
    | Unrecognised

  /** The classifier of `handleEvent`, applied to the already trimmed text.
      A text starting with `付款 ` always ends in the payment rule, whatever
      its length; every other text that is not one of the three keyword
      commands ends in the order rule. */
  function Parse(text: string): (r: Intent)
    ensures StartsWith(text, PaymentPrefix) ==> r.PaymentUpdate? || r == PaymentFormatError
    ensures (r.NewOrder? || r == Unrecognised) <==>
              text != QueryAllCommand && text != HelpCommand
              && !StartsWith(text, SearchPrefix) && !StartsWith(text, PaymentPrefix)
  {
    PaymentPrefixIsNoOtherCommand(text);
    if text == QueryAllCommand then QueryAll
    else if StartsWith(text, SearchPrefix) then
      KeywordSearch(Trim(ReplaceFirst(text, SearchPrefix, "")))
    else if text == HelpCommand then Help
    else if StartsWith(text, PaymentPrefix) then PaymentIntent(Split(text))
    else OrderIntent(Split(text))
  }

  /** A text starting with `付款 ` is none of the three earlier commands. */
  lemma PaymentPrefixIsNoOtherCommand(text: string)
    ensures StartsWith(text, PaymentPrefix) ==>
              text != QueryAllCommand && text != HelpCommand && !StartsWith(text, SearchPrefix)
  {
    if StartsWith(text, PaymentPrefix) {
      assert text[0] == PaymentPrefix[0];
    }
  }

  /** The payment rule on the tokens of the text: four tokens at least, or
      a format error. */
  function PaymentIntent(parts: seq<string>): (r: Intent)
    ensures r.PaymentUpdate? || r == PaymentFormatError
    ensures r == PaymentFormatError <==> |parts| < 4
  {
    if |parts| < 4 then PaymentFormatError
    else PaymentUpdate(parts[1], parts[2], Join(parts[3..]))
  }

  /** The order rule on the tokens of the text: four tokens at least, or
      unrecognised. */
  function OrderIntent(parts: seq<string>): (r: Intent)
    ensures r.NewOrder? || r == Unrecognised
    ensures r == Unrecognised <==> |parts| < 4
  {
    if |parts| >= 4 then
      // `parts[4] || ""`: a missing or empty fifth token gives no note
      var note := if |parts| > 4 && parts[4] != "" then parts[4] else "";
      NewOrder(OrderData(parts[0], parts[1], parts[2], parts[3], note))
    else Unrecognised
  }

  // ---------------------------------------------------------------------------
  // Inbound events
  // ---------------------------------------------------------------------------

  datatype Message = Message(kind: string, text: string)

  /** A webhook event: its `type`, and its `message` when it has one. */
  datatype Event = Event(kind: string, message: Option<Message>)

  predicate IsTextMessage(e: Event) {
    e.kind == "message" && e.message.Some? && e.message.value.kind == "text"
  }

  /** What `handleEvent` does with an event before touching the store:
      anything but a text message is ignored (no intent, no reply); a text
      message is trimmed and classified. Because of the trimming, a keyword
      search never has an empty keyword and a payment update never has an
      empty status. */
  function IntentOf(e: Event): (r: Option<Intent>)
    ensures r.None? <==> !IsTextMessage(e)
    ensures r.Some? && r.value.KeywordSearch? ==> r.value.keyword != ""
    ensures r.Some? && r.value.PaymentUpdate? ==> r.value.payStatus != ""
  {
    if IsTextMessage(e) then
      var text := Trim(e.message.value.text);
      TrimmedFieldsNonEmpty(text);
      Some(Parse(text))
    else None
  }

  // ---------------------------------------------------------------------------
  // What each rule accepts, and in which order
  // ---------------------------------------------------------------------------

  /** Rule 1: exactly `查詢` is a query for everything, and nothing else is. */
  lemma ParseQueryAll(text: string)
    ensures Parse(text) == QueryAll <==> text == QueryAllCommand
  {
  }

  /** Rule 2: a text is a keyword search exactly when it starts with `查 `,
      and the keyword is what follows that prefix, trimmed. */
  lemma ParseKeywordSearch(text: string)
    ensures Parse(text).KeywordSearch? <==> StartsWith(text, SearchPrefix)
    ensures Parse(text).KeywordSearch? ==>
              Parse(text).keyword == Trim(text[|SearchPrefix|..])
  {
    if StartsWith(text, SearchPrefix) {
      assert text != QueryAllCommand by {
        assert text[1] == SearchPrefix[1] != QueryAllCommand[1];
      }
      assert "" + text[|SearchPrefix|..] == text[|SearchPrefix|..];
    }
  }

  /** Rule 3: exactly `格式` asks for help, and nothing else does. */
  lemma ParseHelp(text: string)
    ensures Parse(text) == Help <==> text == HelpCommand
  {
  }

  /** The first token of a text that begins with a space-free word and a
      space is that word. */
  lemma FirstTokenAfterPrefix(text: string, word: string)
    requires Space !in word
    requires StartsWith(text, word + [Space])
    ensures Split(text)[0] == word
  {
    var rest := text[|word| + 1..];
    assert text == word + [Space] + rest;
    SplitAfterWord(word, rest);
  }

  /** The first four tokens of a text spelled out: the text is rebuilt from
      its first three tokens and the join of the rest. */
  lemma JoinFirstThree(parts: seq<string>)
    requires |parts| >= 4
    ensures Join(parts) == parts[0] + [Space] + parts[1] + [Space] + parts[2] + [Space] + Join(parts[3..])
  {
    var j3 := Join(parts[3..]);
    assert Join(parts[2..]) == parts[2] + [Space] + j3 by {
      JoinUnfold(parts[2..]);
      assert parts[2..][1..] == parts[3..];
    }
    assert Join(parts[1..]) == parts[1] + [Space] + (parts[2] + [Space] + j3) by {
      JoinUnfold(parts[1..]);
      assert parts[1..][1..] == parts[2..];
    }
    assert Join(parts) == parts[0] + [Space] + Join(parts[1..]) by {
      JoinUnfold(parts);
    }
    SpacedRegroup(parts[0], parts[1], parts[2], j3);
  }

  /** Regrouping four texts separated by spaces. */
  lemma SpacedRegroup(a: string, b: string, c: string, d: string)
    ensures a + [Space] + (b + [Space] + (c + [Space] + d)) == a + [Space] + b + [Space] + c + [Space] + d
  {
  }

  /** Rule 4: a text starting with `付款 ` never adds an order. With fewer
      than four tokens it is a format error; otherwise it is a payment update
      whose customer and item are single tokens and whose status is the rest
      of the text, so that `付款 customer item status` is the text itself. */
  lemma ParsePayment(text: string)
    requires StartsWith(text, PaymentPrefix)
    ensures Parse(text).PaymentUpdate? || Parse(text) == PaymentFormatError
    ensures Parse(text) == PaymentFormatError <==> CountSpaces(text) < 3
    ensures Parse(text).PaymentUpdate? ==>
              var u := Parse(text);
              Space !in u.customer && Space !in u.item
              && text == PaymentPrefix + u.customer + [Space] + u.item + [Space] + u.payStatus
  {
    assert !StartsWith(text, SearchPrefix) by {
      assert text[0] == PaymentPrefix[0] != SearchPrefix[0];
    }
    var parts := Split(text);
    if |parts| >= 4 {
      JoinSplit(text);
      JoinFirstThree(parts);
      FirstTokenAfterPrefix(text, PaymentWord);
    }
  }

  /** Rules 5 and 6: text that is none of the keyword commands adds an order
      exactly when it has at least four tokens, and is unrecognised
      otherwise. The order takes the first four tokens in turn; the note is
      the fifth token when present (possibly empty) and later tokens are
      dropped. */
  lemma ParseOrderOrUnrecognised(text: string)
    requires text != QueryAllCommand && text != HelpCommand
    requires !StartsWith(text, SearchPrefix) && !StartsWith(text, PaymentPrefix)
    ensures Parse(text).NewOrder? <==> CountSpaces(text) >= 3
    ensures Parse(text) == Unrecognised <==> CountSpaces(text) < 3
    ensures Parse(text).NewOrder? ==>
              var parts, d := Split(text), Parse(text).data;
              d == OrderData(parts[0], parts[1], parts[2], parts[3],
                             if |parts| > 4 then parts[4] else "")
  {
  }

  /** The keyword commands themselves are never read as orders, whatever
      their length. */
  lemma KeywordsAreNotOrders(text: string)
    requires text == QueryAllCommand || text == HelpCommand
             || StartsWith(text, SearchPrefix) || StartsWith(text, PaymentPrefix)
    ensures !Parse(text).NewOrder? && Parse(text) != Unrecognised
  {
  }

  // ---------------------------------------------------------------------------
  // Round trips: the text an operator types for a command parses back to it
  // ---------------------------------------------------------------------------

  /** The text of a payment command. */
  function PaymentText(customer: string, item: string, payStatus: string): string {
    PaymentPrefix + customer + [Space] + item + [Space] + payStatus
  }

  /** Any space-free customer and item and any status (spaces allowed)
      written as `付款 customer item status` parse to that update. */
  lemma {:induction false} PaymentRoundTrip(customer: string, item: string, payStatus: string)
    requires Space !in customer && Space !in item
    ensures Parse(PaymentText(customer, item, payStatus)) == PaymentUpdate(customer, item, payStatus)
  {
    var text := PaymentText(customer, item, payStatus);
    var parts := Split(text);
    assert StartsWith(text, PaymentPrefix) by {
      assert text == PaymentPrefix + (customer + [Space] + item + [Space] + payStatus);
    }
    assert parts == [PaymentWord, customer, item] + Split(payStatus) by {
      assert text == PaymentWord + [Space] + (customer + [Space] + (item + [Space] + payStatus));
      SplitAfterWord(PaymentWord, customer + [Space] + (item + [Space] + payStatus));
      SplitAfterWord(customer, item + [Space] + payStatus);
      SplitAfterWord(item, payStatus);
    }
    assert parts[1] == customer && parts[2] == item && parts[3..] == Split(payStatus);
    JoinSplit(payStatus);
    PaymentPrefixIsNoOtherCommand(text);
  }

  /** The text of a new-order command: the fields separated by single
      spaces, with no trailing note when the note is empty. */
  function OrderText(d: OrderData): string {
    Join([d.customer, d.item, d.qty, d.price] + (if d.note == "" then [] else [d.note]))
  }

  predicate SpaceFree(d: OrderData) {
    Space !in d.customer && Space !in d.item && Space !in d.qty
    && Space !in d.price && Space !in d.note
  }

  /** An order whose fields hold no space, and whose customer is neither of
      the command words `查` and `付款`, parses back from its text. */
  lemma {:induction false} OrderRoundTrip(d: OrderData)
    requires SpaceFree(d)
    requires d.customer != SearchPrefix[..1] && d.customer != PaymentWord
    ensures Parse(OrderText(d)) == NewOrder(d)
  {
    var fields := [d.customer, d.item, d.qty, d.price] + (if d.note == "" then [] else [d.note]);
    var text := OrderText(d);
    SplitJoin(fields);
    assert Split(text) == fields;
    JoinFirstThree(fields);
    assert text == d.customer + [Space] + Join(fields[1..]);
    assert CountSpaces(text) >= 3;
    assert text != QueryAllCommand && text != HelpCommand by {
      assert Space !in QueryAllCommand && Space !in HelpCommand;
      assert Space in text;
    }
    assert !StartsWith(text, SearchPrefix) by {
      if StartsWith(text, SearchPrefix) {
        FirstTokenAfterPrefix(text, SearchPrefix[..1]);
      }
    }
    assert !StartsWith(text, PaymentPrefix) by {
      if StartsWith(text, PaymentPrefix) {
        FirstTokenAfterPrefix(text, PaymentWord);
      }
    }
  }

  // ---------------------------------------------------------------------------
  // What trimming guarantees for real events
  // ---------------------------------------------------------------------------

  /** A string whose trim is empty is all trimmable characters. */
  lemma TrimEmptyOnlyIfBlank(s: string)
    requires Trim(s) == ""
    ensures AllTrimmable(s)
  {
    TrimIsMiddleSlice(s);
    var i, j :| 0 <= i <= j <= |s| && Trim(s) == s[i..j]
                && AllTrimmable(s[..i]) && AllTrimmable(s[j..]);
    assert i == j;
    forall k | 0 <= k < |s| ensures IsTrimmable(s[k]) {
      if k < i { assert s[..i][k] == s[k]; } else { assert s[j..][k - j] == s[k]; }
    }
  }

  /** A string that ends in a non-whitespace character does not trim to
      the empty string. */
  lemma TrimKeepsLastNonBlank(s: string)
    requires |s| > 0 && !IsTrimmable(s[|s| - 1])
    ensures Trim(s) != ""
  {
    if Trim(s) == "" {
      TrimEmptyOnlyIfBlank(s);
    }
  }

  /** Because the message is trimmed first (`IntentOf` parses `Trim` of it,
      which is trimmed), a keyword search always has a non-empty keyword:
      `查 ` alone trims to `查`. */
  lemma SearchKeywordNonEmpty(text: string)
    requires IsTrimmed(text) && StartsWith(text, SearchPrefix)
    ensures Parse(text).KeywordSearch? && Parse(text).keyword != ""
  {
    var rest := text[|SearchPrefix|..];
    assert |rest| > 0 && rest[|rest| - 1] == text[|text| - 1] by {
      assert text != SearchPrefix;
    }
    TrimKeepsLastNonBlank(rest);
    ParseKeywordSearch(text);
  }

  /** Both facts together, for any trimmed text. */
  lemma TrimmedFieldsNonEmpty(text: string)
    requires IsTrimmed(text)
    ensures Parse(text).KeywordSearch? ==> Parse(text).keyword != ""
    ensures Parse(text).PaymentUpdate? ==> Parse(text).payStatus != ""
  {
    ParseKeywordSearch(text);
    if StartsWith(text, SearchPrefix) {
      SearchKeywordNonEmpty(text);
    }
    if StartsWith(text, PaymentPrefix) {
      ParsePayment(text);
      if CountSpaces(text) >= 3 {
        PaymentStatusNonEmpty(text);
      }
    }
  }

  /** Likewise a payment update parsed from a trimmed text always names a
      non-empty status: the text cannot end in the space before it. */
  lemma PaymentStatusNonEmpty(text: string)
    requires IsTrimmed(text) && StartsWith(text, PaymentPrefix) && CountSpaces(text) >= 3
    ensures Parse(text).PaymentUpdate? && Parse(text).payStatus != ""
  {
    ParsePayment(text);
  }
}
