# Dinner-order dialog engine: a Dafny model

This project models the conversational ordering core of a voice dinner-ordering service. A
customer talks to a language model. The dialog manager keeps the customer's name, the
conversation history and an order context. From every model reply it cuts out a JSON payload
marked `[ORDER_DATA]` … `[/ORDER_DATA]` and normalizes a Korean delivery-date expression
("내일 오후 6시", "tomorrow at 6 pm") into a date-time. It then merges the payload into the context.
An order processor turns a finished context into a confirmed `Order` and keeps the tables of
orders and customers. A session manager maps session ids to per-session dialog managers.

Modules, one per concern:

- `Wrappers`: `Option` and `Result`.
- `Text`: the Python string operations the core relies on, as explicit functions on `seq<char>`:
  - `in` and `index` as the leftmost occurrence (`Find`);
  - `split(sep)[0]` (`BeforeFirst`);
  - `strip()` with Python's whitespace set;
  - ASCII `lower()`, the digits of `\d`, and decimal conversion;
  - `", ".join`;
  - `re.search` as a leftmost scan (`SearchFrom`).
- `Values`: the JSON-like values a payload holds, and `Dict`. `Dict` is an insertion-ordered
  association list with distinct keys, because Python dicts keep insertion order and the prompt
  renders the context in that order. On it the module defines:
  - `Put` (`d[k] = v`) and `Update` (`dict.update`);
  - Python truthiness;
  - the `> 0` test, which raises `TypeError` when the value is not a number.
- `Models`: `ai_module/utils/models.py`, that is the enums, the four-entry catalog, and the
  `Order` and `Customer` classes.
- `DateNormalizer`: `_parse_date`, with the four time-of-day regexes as explicit leftmost-match
  scanners.
- `PayloadExtractor`: `_extract_order_data` and the clean-reply rule of `process_user_input`.
- `Dialog`: the `DialogManager` class, its prompt construction, context merge and summary
  rendering. It also carries the two order-completion tests of the HTTP layer.
- `Orders`: `OrderProcessor` as a class over an order map, the order ids in insertion order, and
  the customer map.
- `Sessions`: `SessionManager` as a class over a map from session id to session record.

Effects are parameters:

- The language model is a function `seq<Message> -> Completion`, which either replies with text
  or fails.
- `json.loads` is a function `string -> Option<Dict>`.
- `dateutil`'s fuzzy parse is a function `string -> Option<DateTime>`, where `None` stands for
  the exception.
- `datetime.now(KST)` is a `DateTime` argument.
- Fresh uuids are string arguments.
- `strftime` and `isoformat` are the functions of a `DateFormats` value.

A `DateTime` is an abstract day number plus hour, minute, second and microsecond.

## Model

| member | source | states |
|---|---|---|
| Text.SearchFrom | ai_module/conversation/dialog_manager.py:222 | `re.search`: the match found is the leftmost position at or after the start where the pattern matches; no match means the pattern matches nowhere |
| Text.Find | ai_module/conversation/dialog_manager.py:161-163 | `index`/`in`: the result is an occurrence with none before it; `None` exactly when the substring occurs nowhere |
| Text.BeforeFirst | ai_module/conversation/dialog_manager.py:144 | `split(sep)[0]`: the prefix before the first occurrence, or the whole string when there is none; the result never contains the separator |
| Text.Strip | ai_module/conversation/dialog_manager.py:130 | `strip()`: the result is the contiguous slice of the input that starts right after its leading whitespace; everything after that slice is whitespace; the result neither starts nor ends with whitespace, and is empty exactly when the input is all whitespace |
| Text.StripIdempotent | ai_module/conversation/dialog_manager.py:144 | stripping an already stripped reply changes nothing |
| Text.StripKeepsAbsence | ai_module/conversation/dialog_manager.py:144 | stripping cannot create a substring that was absent |
| Text.Lower | ai_module/conversation/order_processor.py:54 | `lower()`: same length, each character lowered on its own |
| Text.DecimalRoundTrip | ai_module/conversation/dialog_manager.py:225 | `int()` of the decimal text of a natural number gives that number back |
| Text.Join | ai_module/utils/models.py:85 | `", ".join`: no parts give "", one part gives that part |
| Values.GreaterThanZero | ai_module/conversation/dialog_manager.py:262 | `v > 0` succeeds exactly for integers and booleans, with Python's value; anything else raises `TypeError` |
| Values.Get | ai_module/conversation/dialog_manager.py:256-257 | `None` exactly when no entry has the key; otherwise the value of the entry with that key |
| Values.GetOr | ai_module/conversation/order_processor.py:65-67 | `dict.get(k, default)`: the stored value when the key is present, the default only when it is absent |
| Values.Put | ai_module/conversation/dialog_manager.py:169 | `d[k] = v`: `k` now maps to `v` and every other key to what it did; an existing key keeps its position, a new key is appended at the end |
| Values.PutPutSame | ai_module/conversation/dialog_manager.py:169 | a second write to the same key overrides the first |
| Values.Update | ai_module/conversation/dialog_manager.py:244-246 | `dict.update`: a key of the delta maps to the delta's value, every other key keeps its old value; old keys keep their positions |
| Values.UpdatePut | ai_module/conversation/dialog_manager.py:244-246 | merging a delta that has one more write equals merging the delta and then making that write |
| Values.UpdateAssociative | ai_module/conversation/dialog_manager.py:140-141 | merging two deltas in turn equals merging one delta that is the first updated by the second (order included) |
| Models.ServingStyleOf | ai_module/utils/models.py:11-15 | `ServingStyle(s)` finds the member whose value is `s`; `None` (the `ValueError`) exactly when no member has that value |
| Models.ServingStyleValues | ai_module/utils/models.py:11-15 | the values are exactly "simple", "grand" and "deluxe", and each member is found again from its value |
| Models.CatalogConsistent | ai_module/utils/models.py:101-150 | `DINNER_MENUS` has four entries; each key is its menu's name and its dinner type's value; each dinner type has its entry |
| Models.Order.constructor | ai_module/utils/models.py:39-55 | omitted fields take their defaults: 3 baguettes, 0 wine, 0 champagne, no delivery date, status "pending" |
| Models.Order.ToDict | ai_module/utils/models.py:57-71 | eleven entries in source order, each pinned: the id, the customer name, the menu name, the dinner type's value, the style's value, the three counts as stored, the delivery date, the ISO text of the creation time, the status. A falsy delivery date becomes `None`, a date its ISO text; a truthy non-date raises |
| Models.Order.SummaryItems | ai_module/utils/models.py:73-85 | the items are dinner, serving style and baguettes in that order, then wine and champagne only when above 0; a non-numeric wine or champagne count raises |
| Models.Order.GetSummary | ai_module/utils/models.py:73-85 | the summary is the items joined with ", ", and raises exactly when they do |
| Models.Customer.constructor | ai_module/utils/models.py:88-93 | a new customer has the given name and id and an empty history |
| Models.Customer.AddOrder | ai_module/utils/models.py:95-97 | the history becomes the old history with the order appended at the end |
| DateNormalizer.HourAt | ai_module/conversation/dialog_manager.py:215 | `(\d{1,2})시` matches at a position exactly when one or two digits there are followed by `시`; the hour is the value of those digits, two digits preferred, and there is no minute group |
| DateNormalizer.ClockAt | ai_module/conversation/dialog_manager.py:216 | `(\d{1,2}):(\d{2})` matches exactly when one or two digits, a colon and two digits start there; hour and minute are the values of the two groups |
| DateNormalizer.MarkerAt | ai_module/conversation/dialog_manager.py:217-218 | `오후\s*(\d{1,2})시?` and `오전\s*(\d{1,2})시?` match exactly when the marker, then the run of whitespace, then a digit start there; the hour is the value of one or two digits, two preferred |
| DateNormalizer.SpacesFrom | ai_module/conversation/dialog_manager.py:217-218 | `\s*` consumes exactly the run of whitespace at that position |
| DateNormalizer.FirstPattern | ai_module/conversation/dialog_manager.py:221-236 | the pattern chosen is the first in the list that is found anywhere in the string; every earlier one is found nowhere |
| DateNormalizer.ScanTime | ai_module/conversation/dialog_manager.py:221-236 | no time of day exactly when no pattern is found anywhere; otherwise the match of a pattern that is found, with every earlier pattern found nowhere |
| DateNormalizer.ClockFor | ai_module/conversation/dialog_manager.py:224-235 | with 오후 anywhere in the string: minute 0 and the afternoon hour (an hour in 12..23 congruent to H mod 12 for H up to 12, so 12 stays 12; exactly H+12 above 12, which is 24 or more); otherwise with 오전: minute 0 and H, with 12 read as 0 (an hour in 0..11 congruent to H for H up to 12); with neither: the matched hour, and the matched minute for `H:MM` or 0 |
| DateNormalizer.BaseDate | ai_module/conversation/dialog_manager.py:188-209 | no base date exactly when no keyword occurs and the fuzzy parse fails; a keyword gives `now`'s day plus its offset at 18:00:00.000; otherwise the fuzzy reading, moved to 18:00:00.000 when it says midnight |
| DateNormalizer.FindTime | ai_module/conversation/dialog_manager.py:214-236 | the loop with `break` finds the first matching pattern of `H시`, `H:MM`, `오후 H`, `오전 H`; it finds one exactly when some pattern matches |
| DateNormalizer.ParseDate | ai_module/conversation/dialog_manager.py:178-242 | the result is unparseable exactly when no keyword occurs and the fuzzy parse fails. A keyword gives `now` plus its offset, with seconds and microseconds zeroed, and 18:00 if no time of day matches. Without a keyword the fuzzy reading is the base, moved to 18:00 when it says midnight; its day, seconds and microseconds survive a matched time. A matched time sets the 오후/오전-adjusted hour and minute, or raises exactly when that hour or minute is out of range |
| DateNormalizer.NoDigitNoTime | ai_module/conversation/dialog_manager.py:214-219 | in a string without a digit no time-of-day pattern matches |
| DateNormalizer.DayAfterTomorrowWins | ai_module/conversation/dialog_manager.py:188-193 | "모레 내일" holds both keywords and yields two days after `now` at 18:00:00.000, because 모레 is tested first |
| DateNormalizer.TomorrowAfternoon | ai_module/conversation/dialog_manager.py:188-240 | "내일 오후 H시" is tomorrow at H+12 o'clock (12 stays 12); an hour of 24 or more raises |
| DateNormalizer.TomorrowAfternoonText | ai_module/conversation/dialog_manager.py:188-236 | "내일 오후 H시" holds 내일 and 오후 but not 모레, and its first time match is the hour H |
| DateNormalizer.TomorrowAtSeven | ai_module/conversation/dialog_manager.py:188-240 | "내일 오후 7시" is tomorrow at 19:00:00.000 |
| DateNormalizer.TomorrowMorning | ai_module/conversation/dialog_manager.py:188-240 | "내일 오전 H시" is tomorrow at H o'clock, 12 read as 0; an hour of 24 or more raises |
| DateNormalizer.TomorrowMorningText | ai_module/conversation/dialog_manager.py:188-236 | "내일 오전 H시" holds 내일 and 오전 but neither 모레 nor 오후, and its first time match is the hour H |
| DateNormalizer.LeadKeywords | ai_module/conversation/dialog_manager.py:188-192 | "내일 오후 " or "내일 오전 " followed by digits and `시` holds 내일, not 모레, and exactly the one of 오후 and 오전 it was written with |
| DateNormalizer.HourAfterWords | ai_module/conversation/dialog_manager.py:214-222 | after a lead-in without digits, the first pattern `(\d{1,2})시` wins with the hour written there |
| PayloadExtractor.Loads | ai_module/conversation/dialog_manager.py:165 | `json.loads("")` never yields a payload |
| PayloadExtractor.Payload | ai_module/conversation/dialog_manager.py:161-164 | a payload text exists exactly when both markers occur; when the end marker comes first the text is empty |
| PayloadExtractor.NormalizeDelivery | ai_module/conversation/dialog_manager.py:168-169 | only `delivery_date` may change, and every key keeps its position; an absent or falsy delivery date leaves the payload as it is. A truthy string date is replaced in place by the parsed date-time, or by `None` when unparseable. The step fails exactly when the date is truthy and either not a string or a time out of range |
| PayloadExtractor.ExtractOrderData | ai_module/conversation/dialog_manager.py:152-176 | a result requires both markers and a non-empty text that parses; its keys other than `delivery_date` map to the parsed values; whenever the text parses, the result is the delivery-date step applied to the parsed object |
| PayloadExtractor.CleanReply | ai_module/conversation/dialog_manager.py:144 | the stripped text before the first `[ORDER_DATA]`, or the whole stripped reply without it; never contains the marker |
| PayloadExtractor.NoBeginMarker | ai_module/conversation/dialog_manager.py:160-176 | without `[ORDER_DATA]` there is no payload, and the reply is only stripped |
| PayloadExtractor.EndMarkerFirst | ai_module/conversation/dialog_manager.py:161-165 | when `[/ORDER_DATA]` comes before the end of the first `[ORDER_DATA]`, the text is empty, `json.loads` raises and the result is `None` |
| PayloadExtractor.UnparseableDate | ai_module/conversation/dialog_manager.py:168-171 | an unparseable delivery date becomes `None` and the rest of the payload is still returned |
| PayloadExtractor.UnparseableDelivery | ai_module/conversation/dialog_manager.py:196-204 | normalization writes `None` over an unparseable delivery date |
| PayloadExtractor.ParsedDelivery | ai_module/conversation/dialog_manager.py:168-169 | a delivery date that parses is replaced in place by its date-time |
| PayloadExtractor.TomorrowAtSevenDelivery | ai_module/conversation/dialog_manager.py:168-169 | a payload with delivery date "내일 오후 7시" gets tomorrow at 19:00 in its place |
| PayloadExtractor.TomorrowAtSevenReply | ai_module/conversation/dialog_manager.py:160-171 | a marked reply whose payload parses to such an object yields it with the date replaced by tomorrow at 19:00 |
| PayloadExtractor.InvalidTimeDropsPayload | ai_module/conversation/dialog_manager.py:173-176 | a time of day out of range (the raise at line 240) makes the whole extraction `None` |
| PayloadExtractor.MarkedReplyPayload | ai_module/conversation/dialog_manager.py:161-164 | for a reply `prefix [ORDER_DATA] body [/ORDER_DATA] suffix` without an earlier marker, the payload text is exactly `body` stripped |
| PayloadExtractor.PayloadBetween | ai_module/conversation/dialog_manager.py:162-164 | the payload text is the stripped slice from just after the first begin marker to the first end marker |
| PayloadExtractor.MarkedReplyClean | ai_module/conversation/dialog_manager.py:144 | the clean reply of such a marked reply is the stripped prefix |
| Dialog.Greeting | ai_module/conversation/dialog_manager.py:75 | the greeting contains the customer's name |
| Dialog.Apology | ai_module/conversation/dialog_manager.py:149 | the error reply begins with "죄송합니다" |
| Dialog.OrderStateLines | ai_module/conversation/dialog_manager.py:104-106 | the order-state block is empty exactly when every context value is falsy |
| Dialog.OrderStateLinesSnoc | ai_module/conversation/dialog_manager.py:104-106 | one more entry adds exactly its own line at the end, so lines follow insertion order |
| Dialog.RenderOrderState | ai_module/conversation/dialog_manager.py:103-107 | the loop builds exactly the lines of the truthy entries in order |
| Dialog.SystemContent | ai_module/conversation/dialog_manager.py:89-107 | the system message starts with the instructions, contains the customer's name when there is one, and ends with the order-state lines when the context is not empty |
| Dialog.CustomerSection | ai_module/conversation/dialog_manager.py:97-98 | the customer line is there only for a non-empty name, and then contains it |
| Dialog.StateSection | ai_module/conversation/dialog_manager.py:101-107 | the order-state section is there only for a non-empty context, and then ends with the order-state lines |
| Dialog.Window | ai_module/conversation/dialog_manager.py:115-116 | `history[-6:]`: the last min(6, length) entries |
| Dialog.Prompt | ai_module/conversation/dialog_manager.py:110-119 | one system message, then the history window, then the user message; 2 to 8 messages |
| Dialog.WindowEndsWithTurn | ai_module/conversation/dialog_manager.py:133-134 | after a turn the window ends with that turn's user and assistant messages |
| Dialog.RowPart | ai_module/conversation/dialog_manager.py:256-295 | an absent key adds nothing; a present key adds its line, and a count row adds it only when the count is above 0, raising for a non-number |
| Dialog.SummaryParts | ai_module/conversation/dialog_manager.py:253-295 | the summary raises exactly when some row raises; it has at most one part per row and none when no row's key is present |
| Dialog.SummaryPartsSnoc | ai_module/conversation/dialog_manager.py:253-295 | one more row appends its part, if it shows, after the parts of the earlier rows; an error in an earlier row wins over one in the new row |
| Dialog.NonNumericCountRaises | ai_module/conversation/dialog_manager.py:262-291 | a non-numeric value under a count key makes `get_order_summary` raise |
| Dialog.AbsentRowsAddNothing | ai_module/conversation/dialog_manager.py:256-295 | when none of the rows' keys is present, no part is added |
| Dialog.DinnerAndStyleSummary | ai_module/conversation/dialog_manager.py:256-259 | a context with a dinner type and a serving style only gives "디너: …" then "서빙: … 스타일" |
| Dialog.TurnCompleteMerged | api/app/routes/chat.py:67-69 | a turn whose delta completes the order leaves a context that the cumulative test of api_server.py:152 also finds complete |
| Dialog.CompletionTestsDiffer | api_server.py:152 | the cumulative test finds a context complete whose delivery date is the empty string, while the per-turn test of api/app/routes/chat.py:67-69 does not |
| Dialog.DialogManager.constructor | ai_module/conversation/dialog_manager.py:39-44 | empty history, empty context, empty name |
| Dialog.DialogManager.StartConversation | ai_module/conversation/dialog_manager.py:64-77 | sets the name, clears the history only, and returns the greeting |
| Dialog.DialogManager.BuildSystemPrompt | ai_module/conversation/dialog_manager.py:89-107 | the system message built line by line is the system message of the current state |
| Dialog.AppendHistory | ai_module/conversation/dialog_manager.py:109-116 | the loop yields the system message followed by every recent history entry, in order |
| Dialog.DialogManager.BuildPrompt | ai_module/conversation/dialog_manager.py:89-119 | the messages built step by step are the prompt of the current state |
| Dialog.DialogManager.UpdateOrderContext | ai_module/conversation/dialog_manager.py:244-246 | the context becomes the old one updated by the delta; history and name are unchanged |
| Dialog.DialogManager.ProcessUserInput | ai_module/conversation/dialog_manager.py:79-150 | on a failed call: the apology, no data, state unchanged. On a reply: the history grows by the user then the assistant message; data is the extracted payload; the reply is the clean reply; the context is merged only for a non-empty payload |
| Dialog.DialogManager.RecordTurn | ai_module/conversation/dialog_manager.py:133-141 | the two appends and the conditional merge |
| Dialog.DialogManager.GetOrderSummary | ai_module/conversation/dialog_manager.py:248-297 | an empty context gives "아직 주문 정보가 없습니다."; otherwise the parts joined with ", ", raising exactly when a part raises |
| Dialog.DialogManager.Reset | ai_module/conversation/dialog_manager.py:299-303 | clears history, context and name |
| Orders.MenuOf | ai_module/conversation/order_processor.py:44-49 | a menu exactly when `dinner_type` is a catalog key; it is the catalog's entry for that key, whose name is the key and the value of its dinner type |
| Orders.StyleOf | ai_module/conversation/order_processor.py:52-57 | a string gives a style, matched after lowering, with SIMPLE for an unknown one; a non-string raises |
| Orders.DraftOf | ai_module/conversation/order_processor.py:44-68 | an order can be built exactly when menu and style succeed. The menu is the catalog entry; a present style, count or date is the payload's, the style read as `StyleOf` reads it; an absent style gives SIMPLE, absent counts 3, 0, 0 and an absent date `None` |
| Orders.StyleIgnoresCase | ai_module/conversation/order_processor.py:54 | "GRAND" gives GRAND |
| Orders.StyleFallback | ai_module/conversation/order_processor.py:53-57 | an unknown string falls back to SIMPLE; `None` and a number make the call fail |
| Orders.DinnerOnlyDraft | ai_module/conversation/order_processor.py:52-68 | a payload with only a dinner type gives SIMPLE, 3 baguettes, no wine, no champagne, no date |
| Orders.OrderProcessor.constructor | ai_module/conversation/order_processor.py:24-27 | empty tables |
| Orders.OrderProcessor.CreateOrderFromDialog | ai_module/conversation/order_processor.py:29-89 | on failure nothing changes. On success: a new confirmed order with the payload's fields, stored under its id; a customer record created on first sight; the order appended to that customer's history only. The table invariant is kept |
| Orders.OrderProcessor.Store | ai_module/conversation/order_processor.py:74 | `orders[id] = order`; a new id is appended to the insertion order |
| Orders.OrderProcessor.File | ai_module/conversation/order_processor.py:77-83 | the customer is created only if new and the order appended to their history; other customers are untouched |
| Orders.OrderProcessor.GetOrder | ai_module/conversation/order_processor.py:91-93 | `None` exactly for an unknown id; otherwise that order, which is in its customer's history |
| Orders.OrderProcessor.GetCustomerOrders | ai_module/conversation/order_processor.py:95-100 | `[]` for an unknown name; every order returned is that customer's |
| Orders.OrderProcessor.UpdateOrderStatus | ai_module/conversation/order_processor.py:102-107 | true exactly for a known id; that order's status is set, visible through the customer's history as well |
| Orders.OrderProcessor.CompleteOrder | ai_module/conversation/order_processor.py:109-111 | true exactly for a known id, whose status becomes "completed" |
| Orders.OrderProcessor.GetAllOrders | ai_module/conversation/order_processor.py:113-115 | every stored order once, in insertion order |
| Sessions.SessionManager.constructor | api/app/services/session_manager.py:14-15 | no sessions |
| Sessions.SessionManager.CreateSession | api/app/services/session_manager.py:17-47 | one record stored under the id, other sessions untouched; the count rises by one for a new id; the record has the name, an empty history and a fresh started dialog; the greeting is the dialog's and contains the name |
| Sessions.SessionManager.GetSession | api/app/services/session_manager.py:49-57 | `None` exactly for an unknown id |
| Sessions.SessionManager.DeleteSession | api/app/services/session_manager.py:59-71 | true exactly when the id was present; only that id is removed; the count falls by one exactly then |
| Sessions.SessionManager.GetActiveSessionsCount | api/app/services/session_manager.py:73-75 | the number of stored sessions |
| Sessions.DeleteTwice | api/app/services/session_manager.py:67-71 | a repeated delete of the same id returns false |

## Left out

- The speech recognizer (`ai_module/voice/speech_recognizer.py`) and the `speech_recognizer` field of a session record: audio capture and transcription, with no logic to state.
- The language-model client, loading the system prompt from a file, and the API-key check in `DialogManager.__init__`: external calls. The model is a parameter, the prompt text a constructor argument, and construction cannot fail.
- `process_user_input`'s `except` covers any exception in its body. Only a failed model call is modelled. A reply without content (`None.strip()`) is not modelled.
- The clock: `datetime.now(KST)` is a parameter. The two reads in `process_user_input` and `_parse_date` are taken as the same instant.
- Calendar and timezone arithmetic: a date is an abstract day number, and `timedelta(days=n)` adds `n` to it. `strftime` and `isoformat` are abstract formatting functions.
- `json.loads` and `dateutil`'s fuzzy parser are abstract functions. Payloads are JSON objects with scalar values. Arrays, nested objects, floats and non-object top-level JSON are not modelled.
- `\d` matches ASCII digits only and `lower()` lowers ASCII letters only. Python also accepts other Unicode digits and letters.
- `str()` of a date-time in the summary and the prompt is an abstract formatting function; the other scalars are rendered as Python renders them.
- uuid generation and its 8-character truncation: order, customer and session ids are parameters.
- The `__post_init__` conversions of `DinnerMenu` and `Order`: the model always builds them from enum values.
- `print_order_summary` and all console output.
- The HTTP handlers and schemas, apart from the two order-completion tests. The in-place append of chat exchanges to a session's `conversation_history` by the route code is not modelled.
- Concurrency: the registries are modelled as used sequentially.
- Orders.OrderProcessor.CreateOrderFromDialog: the generic `except` at order_processor.py:87-89 is modelled only for the failures the model can produce (unknown dinner type, non-string serving style).
- Orders.OrderProcessor.GetCustomerOrders: states that the orders returned belong to the customer, not the full histories' order, which `File` and `Placed` state instead.
