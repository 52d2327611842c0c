/**
  The per-session dialog engine (`DialogManager`): the conversation history, the cumulative order
  context and the customer name, the prompt sent to the language model, and one conversation turn.
*/
module Dialog {
  import opened Wrappers
  import opened Text
  import opened Values
  import opened DateNormalizer
  import opened PayloadExtractor

  datatype Role = System | User | Assistant

  /** One chat message, `{"role": ..., "content": ...}`. */
  datatype Message = Message(role: Role, content: string)

  /** What the chat-completion call does: the reply text, or the text of the exception it raised. */
  datatype Completion = Reply(text: string) | Failure(error: string)

  /** How many history entries go into each prompt. */
  const HistoryWindow := 6

  /** The greeting `start_conversation` returns. */
  function Greeting(customerName: string): (g: string)
    ensures Contains(g, customerName)
  {
    var g := "안녕하세요, " + customerName + " 고객님, 어떤 디너를 주문하시겠습니까?";
    assert g[7..7 + |customerName|] == customerName;
    ContainsAt(g, customerName, 7);
    g
  }

  /** The reply of a turn whose model call raised. */
  function Apology(error: string): (r: string)
    ensures OccursAt(r, "죄송합니다", 0)
  {
    "죄송합니다. 오류가 발생했습니다: " + error
  }

  /** The prompt line of one context entry: `- key: value`, or nothing for a falsy value. */
  function StateLine(e: Entry, fmt: DateFormats): string {
    if Truthy(e.value) then "- " + e.key + ": " + Show(e.value, fmt) + "\n" else []
  }

  /** The order-state lines of the prompt: one line per truthy value, in insertion order. */
  function OrderStateLines(ctx: seq<Entry>, fmt: DateFormats): (r: string)
    ensures (forall i :: 0 <= i < |ctx| ==> !Truthy(ctx[i].value)) <==> r == []
  {
    if ctx == [] then [] else StateLine(ctx[0], fmt) + OrderStateLines(ctx[1..], fmt)
  }

  /** Rendering one more entry appends its line. */
  lemma {:induction false} OrderStateLinesSnoc(ctx: seq<Entry>, e: Entry, fmt: DateFormats)
    ensures OrderStateLines(ctx + [e], fmt) == OrderStateLines(ctx, fmt) + StateLine(e, fmt)
  {
    if ctx != [] {
      assert (ctx + [e])[1..] == ctx[1..] + [e];
      OrderStateLinesSnoc(ctx[1..], e, fmt);
    }
  }

  /** The loop over the context's items that renders the order state. */
  method RenderOrderState(ctx: Dict, fmt: DateFormats) returns (info: string)
    ensures info == OrderStateLines(ctx, fmt)
  {
    info := [];
    var i := 0;
    while i < |ctx|
      invariant 0 <= i <= |ctx|
      invariant info == OrderStateLines(ctx[..i], fmt)
    {
      OrderStateLinesSnoc(ctx[..i], ctx[i], fmt);
      assert ctx[..i + 1] == ctx[..i] + [ctx[i]];
      if Truthy(ctx[i].value) {
        info := info + ("- " + ctx[i].key + ": " + Show(ctx[i].value, fmt) + "\n");
      }
      i := i + 1;
    }
    assert ctx[..i] == ctx;
  }

  /**
    The system message: the static instructions, today's and tomorrow's dates, the customer's
    name when there is one, and the order state when the context is not empty.
  */
  function SystemContent(instructions: string, today: DateTime, fmt: DateFormats, customerName: string, ctx: Dict): (r: string)
    ensures |instructions| <= |r| && r[..|instructions|] == instructions
    ensures customerName != [] ==> Contains(r, customerName)
    ensures ctx != [] ==> |OrderStateLines(ctx, fmt)| <= |r| && r[|r| - |OrderStateLines(ctx, fmt)|..] == OrderStateLines(ctx, fmt)
  {
    SystemShape(instructions, TodayLine(today, fmt), TomorrowLine(today, fmt), CustomerSection(customerName),
                StateSection(ctx, fmt), customerName, OrderStateLines(ctx, fmt));
    instructions + TodayLine(today, fmt) + TomorrowLine(today, fmt) + CustomerSection(customerName) + StateSection(ctx, fmt)
  }

  /** The line with today's date, in Korean and ISO form. */
  function TodayLine(today: DateTime, fmt: DateFormats): string {
    "\n\n**오늘 날짜:** " + fmt.koreanDate(today) + " (" + fmt.isoDate(today) + ")\n"
  }

  /** The line with tomorrow's date, in Korean and ISO form. */
  function TomorrowLine(today: DateTime, fmt: DateFormats): string {
    var tomorrow := today.(day := today.day + 1);
    "**내일 날짜:** " + fmt.koreanDate(tomorrow) + " (" + fmt.isoDate(tomorrow) + ")\n"
  }

  /** The customer line, present only for a non-empty name. */
  function CustomerSection(name: string): (r: string)
    ensures name != [] ==> Contains(r, name)
    ensures name == [] ==> r == []
  {
    if name != [] then
      var caption := "\n**현재 고객:** ";
      assert (caption + name + "\n")[|caption|..|caption| + |name|] == name;
      ContainsAt(caption + name + "\n", name, |caption|);
      caption + name + "\n"
    else []
  }

  /** The order-state section, present only for a non-empty context, ending with its lines. */
  function StateSection(ctx: Dict, fmt: DateFormats): (r: string)
    ensures ctx != [] ==> |OrderStateLines(ctx, fmt)| <= |r| && r[|r| - |OrderStateLines(ctx, fmt)|..] == OrderStateLines(ctx, fmt)
    ensures ctx == [] ==> r == []
  {
    if ctx != [] then "\n**현재 주문 상태:**\n" + OrderStateLines(ctx, fmt) else []
  }

  /** Prefix and suffix facts about the five parts of the system message. */
  lemma SystemShape(instructions: string, today: string, tomorrow: string, nameLine: string, stateLine: string,
                    name: string, lines: string)
    requires name != [] ==> Contains(nameLine, name)
    requires stateLine == [] || (|lines| <= |stateLine| && stateLine[|stateLine| - |lines|..] == lines)
    ensures var r := instructions + today + tomorrow + nameLine + stateLine;
      |instructions| <= |r| && r[..|instructions|] == instructions
      && (name != [] ==> Contains(r, name))
      && (stateLine != [] ==> |lines| <= |r| && r[|r| - |lines|..] == lines)
  {
    var r := instructions + today + tomorrow + nameLine + stateLine;
    var at := |instructions| + |today| + |tomorrow|;
    assert r[..|instructions|] == instructions;
    if name != [] {
      assert r[at..at + |nameLine|] == nameLine;
      ContainsInSlice(r, at, at + |nameLine|, name);
    }
    if stateLine != [] {
      assert r[|r| - |lines|..] == stateLine[|stateLine| - |lines|..];
    }
  }

  /** `history[-6:]`: the most recent entries, at most six of them. */
  function Window(history: seq<Message>): (w: seq<Message>)
    ensures |w| == if |history| < HistoryWindow then |history| else HistoryWindow
    ensures w == history[|history| - |w|..]
  {
    if |history| <= HistoryWindow then history else history[|history| - HistoryWindow..]
  }

  /** The messages sent to the model: the system message, the window of history, the user's message. */
  function Prompt(system: string, history: seq<Message>, userInput: string): (p: seq<Message>)
    ensures 2 <= |p| <= HistoryWindow + 2
    ensures p[0] == Message(System, system)
    ensures p[|p| - 1] == Message(User, userInput)
    ensures p[1..|p| - 1] == Window(history)
  {
    [Message(System, system)] + Window(history) + [Message(User, userInput)]
  }

  /** After a turn, the next prompt's window ends with that turn's user and assistant messages. */
  lemma WindowEndsWithTurn(history: seq<Message>, user: Message, assistant: Message)
    ensures var w := Window(history + [user, assistant]);
      |w| >= 2 && w[|w| - 2] == user && w[|w| - 1] == assistant
  {
  }

  /** A line of the order summary: the field, its label and unit, and whether only a count above zero shows. */
  datatype SummaryRow = SummaryRow(key: string, caption: string, unit: string, positiveOnly: bool)

  /** The fields `get_order_summary` reports, in its order. */
  const SummaryRows: seq<SummaryRow> := [
    SummaryRow("dinner_type", "디너: ", "", false),
    SummaryRow("serving_style", "서빙: ", " 스타일", false),
    SummaryRow("steak_count", "스테이크: ", "개", true),
    SummaryRow("wine_count", "와인: ", "잔", true),
    SummaryRow("napkin_count", "냅킨: ", "개", true),
    SummaryRow("coffee_cup_count", "커피: ", "잔", true),
    SummaryRow("salad_count", "샐러드: ", "인분", true),
    SummaryRow("egg_scramble_count", "에그 스크램블: ", "인분", true),
    SummaryRow("bacon_count", "베이컨: ", "인분", true),
    SummaryRow("bread_count", "빵: ", "개", true),
    SummaryRow("champagne_count", "샴페인: ", "병", true),
    SummaryRow("baguette_count", "바게트빵: ", "개", false),
    SummaryRow("coffee_pot_count", "커피: ", "포트", true),
    SummaryRow("serves_count", "", "인분", false)
  ]

  const NoOrderYet := "아직 주문 정보가 없습니다."

  /**
    What one row adds to the summary: nothing when the field is absent or (for a count) not above
    zero; comparing a non-number with zero raises `TypeError`.
  */
  function RowPart(ctx: Dict, row: SummaryRow, fmt: DateFormats): (r: Result<Option<string>, PyError>)
    ensures !Has(ctx, row.key) ==> r == Ok(None)
    ensures Has(ctx, row.key) && !row.positiveOnly ==> r == Ok(Some(row.caption + Show(Get(ctx, row.key).value, fmt) + row.unit))
    ensures Has(ctx, row.key) && row.positiveOnly ==>
      (r.Err? <==> GreaterThanZero(Get(ctx, row.key).value).Err?)
      && (r.Ok? ==> (r.value.Some? <==> GreaterThanZero(Get(ctx, row.key).value).value))
  {
    match Get(ctx, row.key)
    case None => Ok(None)
    case Some(v) =>
      var part := row.caption + Show(v, fmt) + row.unit;
      if !row.positiveOnly then Ok(Some(part))
      else match GreaterThanZero(v)
        case Err(e) => Err(e)
        case Ok(positive) => Ok(if positive then Some(part) else None)
  }

  /** The summary parts, one per row that shows, in row order; an error in any row is the result. */
  function SummaryParts(ctx: Dict, rows: seq<SummaryRow>, fmt: DateFormats): (r: Result<seq<string>, PyError>)
    ensures r.Err? <==> exists i :: 0 <= i < |rows| && RowPart(ctx, rows[i], fmt).Err?
    ensures r.Ok? ==> |r.value| <= |rows|
    ensures r.Ok? && (forall i :: 0 <= i < |rows| ==> !Has(ctx, rows[i].key)) ==> r.value == []
  {
    if rows == [] then Ok([])
    else
      match RowPart(ctx, rows[0], fmt)
      case Err(e) => Err(e)
      case Ok(part) =>
        match SummaryParts(ctx, rows[1..], fmt)
        case Err(e) =>
          assert exists i :: 0 <= i < |rows[1..]| && RowPart(ctx, rows[1..][i], fmt).Err?;
          Err(e)
        case Ok(rest) =>
          assert forall i :: 1 <= i < |rows| ==> rows[i] == rows[1..][i - 1];
          Ok((if part.Some? then [part.value] else []) + rest)
  }

  /** One step of `SummaryParts`: the first row's part, if it shows, before the parts of the others. */
  lemma SummaryPartsStep(ctx: Dict, rows: seq<SummaryRow>, fmt: DateFormats, part: string, rest: seq<string>)
    requires rows != [] && RowPart(ctx, rows[0], fmt) == Ok(Some(part)) && SummaryParts(ctx, rows[1..], fmt) == Ok(rest)
    ensures SummaryParts(ctx, rows, fmt) == Ok([part] + rest)
  {
  }

  /**
    One more row after the others: its part, if it shows, comes after theirs; an error among the
    earlier rows wins over one in the new row.
  */
  lemma {:induction false} SummaryPartsSnoc(ctx: Dict, rows: seq<SummaryRow>, row: SummaryRow, fmt: DateFormats)
    ensures SummaryParts(ctx, rows + [row], fmt) ==
      match SummaryParts(ctx, rows, fmt)
      case Err(e) => Err(e)
      case Ok(parts) =>
        match RowPart(ctx, row, fmt)
        case Err(e) => Err(e)
        case Ok(part) => Ok(parts + if part.Some? then [part.value] else [])
  {
    if rows == [] {
      assert rows + [row] == [row] && [row][1..] == [];
      match RowPart(ctx, row, fmt)
      case Err(_) =>
      case Ok(part) =>
        var last := if part.Some? then [part.value] else [];
        assert last + [] == [] + last;
    } else {
      assert (rows + [row])[0] == rows[0];
      assert (rows + [row])[1..] == rows[1..] + [row];
      SummaryPartsSnoc(ctx, rows[1..], row, fmt);
      match RowPart(ctx, rows[0], fmt)
      case Err(_) =>
      case Ok(first) =>
        match SummaryParts(ctx, rows[1..], fmt)
        case Err(_) =>
        case Ok(rest) =>
          var mine := if first.Some? then [first.value] else [];
          match RowPart(ctx, row, fmt)
          case Err(_) =>
          case Ok(part) =>
            var last := if part.Some? then [part.value] else [];
            assert mine + (rest + last) == (mine + rest) + last;
    }
  }

  /** A count field holding a string, null or date makes the whole summary raise `TypeError`. */
  lemma NonNumericCountRaises(ctx: Dict, i: nat, fmt: DateFormats)
    requires i < |SummaryRows| && SummaryRows[i].positiveOnly && Has(ctx, SummaryRows[i].key)
    requires !Get(ctx, SummaryRows[i].key).value.Int? && !Get(ctx, SummaryRows[i].key).value.Bool?
    ensures SummaryParts(ctx, SummaryRows, fmt).Err?
  {
    assert RowPart(ctx, SummaryRows[i], fmt).Err?;
  }

  /** A context holding only the dinner and the style, as after a first turn. */
  const DinnerAndStyle: seq<Entry> := [Entry("dinner_type", Str("발렌타인 디너")), Entry("serving_style", Str("grand"))]

  /** Rows whose fields the context lacks add nothing to the summary. */
  lemma AbsentRowsAddNothing(ctx: Dict, rows: seq<SummaryRow>, fmt: DateFormats)
    requires forall i :: 0 <= i < |rows| ==> !Has(ctx, rows[i].key)
    ensures SummaryParts(ctx, rows, fmt) == Ok([])
  {
  }

  /** The two lookups of the example context. */
  lemma DinnerAndStyleLookups()
    ensures DistinctKeys(DinnerAndStyle)
    ensures Get(DinnerAndStyle, "dinner_type") == Some(Str("발렌타인 디너"))
    ensures Get(DinnerAndStyle, "serving_style") == Some(Str("grand"))
    ensures forall i :: 2 <= i < |SummaryRows| ==> !Has(DinnerAndStyle, SummaryRows[i].key)
  {
    var ctx := DinnerAndStyle;
    assert ctx[0].key[0] != ctx[1].key[0];
    GetFirst(ctx, 0);
    GetFirst(ctx, 1);
  }

  /** The two rows of the example context that show. */
  lemma DinnerAndStyleRows(fmt: DateFormats)
    ensures RowPart(DinnerAndStyle, SummaryRows[0], fmt) == Ok(Some("디너: 발렌타인 디너"))
    ensures RowPart(DinnerAndStyle, SummaryRows[1], fmt) == Ok(Some("서빙: grand 스타일"))
  {
    DinnerAndStyleLookups();
    assert "디너: " + "발렌타인 디너" + "" == "디너: 발렌타인 디너";
    assert "서빙: " + "grand" + " 스타일" == "서빙: grand 스타일";
  }

  /** The summary parts of the example context after its dinner row: only the style. */
  lemma StyleSummary(fmt: DateFormats)
    ensures SummaryParts(DinnerAndStyle, SummaryRows[1..], fmt) == Ok(["서빙: grand 스타일"])
  {
    DinnerAndStyleLookups();
    DinnerAndStyleRows(fmt);
    var tail := SummaryRows[1..];
    assert tail[0] == SummaryRows[1];
    AbsentRowsAddNothing(DinnerAndStyle, tail[1..], fmt);
    SummaryPartsStep(DinnerAndStyle, tail, fmt, "서빙: grand 스타일", []);
    assert ["서빙: grand 스타일"] + [] == ["서빙: grand 스타일"];
  }

  /** The summary parts of the example context: the dinner, then the style. */
  lemma DinnerAndStyleSummary(fmt: DateFormats)
    ensures SummaryParts(DinnerAndStyle, SummaryRows, fmt) == Ok(["디너: 발렌타인 디너", "서빙: grand 스타일"])
  {
    StyleSummary(fmt);
    DinnerAndStyleRows(fmt);
    SummaryPartsStep(DinnerAndStyle, SummaryRows, fmt, "디너: 발렌타인 디너", ["서빙: grand 스타일"]);
    assert ["디너: 발렌타인 디너"] + ["서빙: grand 스타일"] == ["디너: 발렌타인 디너", "서빙: grand 스타일"];
  }

  /** `is_complete` of the voice endpoint: the cumulative context holds a delivery date that is not `None`. */
  predicate ContextComplete(ctx: Dict) {
    Has(ctx, DeliveryDate) && Get(ctx, DeliveryDate).value != Null
  }

  /** `is_completed` of the chat route: this turn's delta holds a truthy delivery date. */
  predicate TurnComplete(delta: Option<Dict>) {
    delta.Some? && delta.value != [] && Has(delta.value, DeliveryDate) && Truthy(Get(delta.value, DeliveryDate).value)
  }

  /** A turn that completes the order leaves a complete cumulative context once merged. */
  lemma TurnCompleteMerged(ctx: Dict, delta: Option<Dict>)
    requires TurnComplete(delta)
    ensures ContextComplete(Update(ctx, delta.value))
  {
  }

  /**
    The two completion tests differ: a context whose delivery date is the empty string is complete
    for the voice endpoint, while a turn delivering that delta does not complete the order.
  */
  lemma CompletionTestsDiffer()
    ensures ContextComplete([Entry(DeliveryDate, Str(""))])
    ensures !TurnComplete(Some([Entry(DeliveryDate, Str(""))]))
  {
    GetFirst([Entry(DeliveryDate, Str(""))], 0);
  }

  /** The loop that puts the system message first and then appends each recent history entry. */
  method AppendHistory(system: string, recent: seq<Message>) returns (messages: seq<Message>)
    ensures messages == [Message(System, system)] + recent
  {
    messages := [Message(System, system)];
    var j := 0;
    while j < |recent|
      invariant 0 <= j <= |recent|
      invariant messages == [Message(System, system)] + recent[..j]
    {
      messages := messages + [recent[j]];
      assert recent[..j + 1] == recent[..j] + [recent[j]];
      j := j + 1;
    }
    assert recent[..j] == recent;
  }

  class DialogManager {
    /** The instructions loaded from the prompt file. */
    const instructions: string
    var conversationHistory: seq<Message>
    var orderContext: Dict
    var customerName: string

    constructor (instructions: string)
      ensures this.instructions == instructions
      ensures conversationHistory == [] && orderContext == [] && customerName == []
    {
      this.instructions := instructions;
      conversationHistory := [];
      orderContext := [];
      customerName := [];
    }

    /** `start_conversation`: records the name and clears the history; the order context is kept. */
    method StartConversation(name: string) returns (greeting: string)
      modifies this
      ensures customerName == name && conversationHistory == [] && orderContext == old(orderContext)
      ensures greeting == Greeting(name)
    {
      customerName := name;
      conversationHistory := [];
      greeting := Greeting(name);
    }

    /** The prompt a turn with `userInput` sends, from the current state. */
    function CurrentPrompt(userInput: string, today: DateTime, fmt: DateFormats): seq<Message>
      reads this
    {
      Prompt(SystemContent(instructions, today, fmt, customerName, orderContext), conversationHistory, userInput)
    }

    /** The system message, built line by line as `process_user_input` does. */
    method BuildSystemPrompt(today: DateTime, fmt: DateFormats) returns (system: string)
      ensures system == SystemContent(instructions, today, fmt, customerName, orderContext)
    {
      system := instructions;
      system := system + TodayLine(today, fmt);
      system := system + TomorrowLine(today, fmt);
      if customerName != [] {
        system := system + ("\n**현재 고객:** " + customerName + "\n");
      }
      assert system == instructions + TodayLine(today, fmt) + TomorrowLine(today, fmt) + CustomerSection(customerName);
      if orderContext != [] {
        var info := RenderOrderState(orderContext, fmt);
        system := system + ("\n**현재 주문 상태:**\n" + info);
      }
    }

    /**
      Builds the prompt as `process_user_input` does: the system message with the date lines, the
      customer line and the order-state lines appended, then the recent history, then the user's message.
    */
    method BuildPrompt(userInput: string, today: DateTime, fmt: DateFormats) returns (messages: seq<Message>)
      ensures messages == CurrentPrompt(userInput, today, fmt)
    {
      var system := BuildSystemPrompt(today, fmt);
      messages := AppendHistory(system, Window(conversationHistory));
      messages := messages + [Message(User, userInput)];
    }

    /** `update_order_context`: `dict.update`, last write wins. */
    method UpdateOrderContext(delta: Dict)
      modifies this
      ensures orderContext == Update(old(orderContext), delta)
      ensures conversationHistory == old(conversationHistory) && customerName == old(customerName)
    {
      orderContext := Update(orderContext, delta);
    }

    /**
      `process_user_input`: one turn. `complete` is the chat-completion call, `now` the clock,
      `parseJson` and `fuzzy` the JSON and date parsers. On a failed call nothing changes and the
      reply is an apology; otherwise the user and assistant messages are appended, and the delta
      found in the reply (if any, and not empty) is merged into the context.
    */
    method ProcessUserInput(userInput: string, now: DateTime, fmt: DateFormats, complete: seq<Message> -> Completion,
                            parseJson: string -> Option<Dict>, fuzzy: string -> Option<DateTime>)
      returns (reply: string, data: Option<Dict>)
      modifies this
      ensures customerName == old(customerName)
      ensures var outcome := complete(old(CurrentPrompt(userInput, now, fmt)));
        outcome.Failure? ==>
          reply == Apology(outcome.error) && data == None
          && conversationHistory == old(conversationHistory) && orderContext == old(orderContext)
      ensures var outcome := complete(old(CurrentPrompt(userInput, now, fmt)));
        outcome.Reply? ==>
          var message := Strip(outcome.text);
          && conversationHistory == old(conversationHistory) + [Message(User, userInput), Message(Assistant, message)]
          && data == ExtractOrderData(message, now, parseJson, fuzzy)
          && reply == CleanReply(message)
          && orderContext == if data.Some? && data.value != [] then Update(old(orderContext), data.value) else old(orderContext)
    {
      var prompt := BuildPrompt(userInput, now, fmt);
      var outcome := complete(prompt);
      if outcome.Failure? {
        return Apology(outcome.error), None;
      }
      var message := Strip(outcome.text);
      data := ExtractOrderData(message, now, parseJson, fuzzy);
      RecordTurn(userInput, message, data);
      reply := CleanReply(message);
    }

    /** The state change of a turn whose model call returned `message` carrying `data`. */
    method RecordTurn(userInput: string, message: string, data: Option<Dict>)
      modifies this
      ensures customerName == old(customerName)
      ensures conversationHistory == old(conversationHistory) + [Message(User, userInput), Message(Assistant, message)]
      ensures orderContext == if data.Some? && data.value != [] then Update(old(orderContext), data.value) else old(orderContext)
    {
      conversationHistory := conversationHistory + [Message(User, userInput), Message(Assistant, message)];
      if data.Some? && data.value != [] {
        orderContext := Update(orderContext, data.value);
      }
    }

    /** `get_order_summary`: the no-order message for an empty context, else the parts joined with ", ". */
    function GetOrderSummary(fmt: DateFormats): (r: Result<string, PyError>)
      reads this
      ensures orderContext == [] ==> r == Ok(NoOrderYet)
      ensures orderContext != [] ==> (r.Err? <==> SummaryParts(orderContext, SummaryRows, fmt).Err?)
      ensures orderContext != [] && r.Ok? ==> r.value == Join(", ", SummaryParts(orderContext, SummaryRows, fmt).value)
    {
      if orderContext == [] then Ok(NoOrderYet)
      else match SummaryParts(orderContext, SummaryRows, fmt)
        case Ok(parts) => Ok(Join(", ", parts))
        case Err(e) => Err(e)
    }

    /** `reset`: history, context and name all cleared. */
    method Reset()
      modifies this
      ensures conversationHistory == [] && orderContext == [] && customerName == []
    {
      conversationHistory := [];
      orderContext := [];
      customerName := [];
    }
  }
}
