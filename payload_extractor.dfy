/**
  Reply post-processing (`DialogManager._extract_order_data` and the clean-reply rule): the
  order delta embedded between `[ORDER_DATA]` and `[/ORDER_DATA]` in a model reply, and the text
  shown to the customer.
*/
module PayloadExtractor {
  import opened Wrappers
  import opened Text
  import opened Values
  import opened DateNormalizer

  const BeginMarker := "[ORDER_DATA]"
  const EndMarker := "[/ORDER_DATA]"
  const DeliveryDate := "delivery_date"

  /** `json.loads(text)` as an object: an empty document always raises; the rest is up to the parser. */
  function Loads(text: string, parseJson: string -> Option<Dict>): (r: Option<Dict>)
    ensures text == [] ==> r.None?
  {
    if text == [] then None else parseJson(text)
  }

  /**
    The payload text, when both markers occur: the trimmed slice from just after the first begin
    marker up to the first end marker, empty when the end marker comes first (a Python slice whose
    start is past its end is empty).
  */
  function Payload(message: string): (r: Option<string>)
    ensures r.Some? <==> Contains(message, BeginMarker) && Contains(message, EndMarker)
    ensures r.Some? && Find(message, EndMarker).value < Find(message, BeginMarker).value + |BeginMarker| ==> r.value == []
  {
    if Contains(message, BeginMarker) && Contains(message, EndMarker) then
      var start := Find(message, BeginMarker).value + |BeginMarker|;
      var end := Find(message, EndMarker).value;
      Some(Strip(if start <= end then message[start..end] else []))
    else None
  }

  /**
    The delivery-date step: a truthy `delivery_date` is replaced, in place, by its normalised form
    (`None` when unparseable); a non-string one cannot be searched for keywords and raises
    `TypeError`, and so does an out-of-range time; both make the extraction fail.
  */
  function NormalizeDelivery(data: Dict, now: DateTime, fuzzy: string -> Option<DateTime>): (r: Option<Dict>)
    ensures r.Some? ==> forall k :: k != DeliveryDate ==> Get(r.value, k) == Get(data, k)
    ensures r.Some? ==> Has(r.value, DeliveryDate) == Has(data, DeliveryDate)
    ensures r.Some? ==> |r.value| == |data| && forall i :: 0 <= i < |data| ==> r.value[i].key == data[i].key
    ensures !Has(data, DeliveryDate) || !Truthy(Get(data, DeliveryDate).value) ==> r == Some(data)
    ensures r.None? <==> (Has(data, DeliveryDate) && Truthy(Get(data, DeliveryDate).value)
                          && (!Get(data, DeliveryDate).value.Str? || ParseDate(Get(data, DeliveryDate).value.s, now, fuzzy).Raised?))
    ensures Has(data, DeliveryDate) && Get(data, DeliveryDate).value.Str? && Truthy(Get(data, DeliveryDate).value) ==>
      match ParseDate(Get(data, DeliveryDate).value.s, now, fuzzy)
      case Parsed(t) => r == Some(Put(data, DeliveryDate, Date(t)))
      case Unparsed => r == Some(Put(data, DeliveryDate, Null))
      case Raised => r.None?
  {
    match Get(data, DeliveryDate)
    case Some(v) =>
      if !Truthy(v) then Some(data)
      else if !v.Str? then None
      else
        var normalized := match ParseDate(v.s, now, fuzzy)
          case Parsed(t) => Some(Date(t))
          case Unparsed => Some(Null)
          case Raised => None;
        if normalized.None? then None
        else
          PutDistinct(data, DeliveryDate, normalized.value);
          Some(Put(data, DeliveryDate, normalized.value))
    case None => Some(data)
  }

  /** `_extract_order_data`: the order delta in a reply, or `None`; it never raises. */
  function ExtractOrderData(message: string, now: DateTime, parseJson: string -> Option<Dict>,
                            fuzzy: string -> Option<DateTime>): (r: Option<Dict>)
    ensures r.Some? ==> Contains(message, BeginMarker) && Contains(message, EndMarker)
    ensures r.Some? ==> Payload(message).value != [] && Loads(Payload(message).value, parseJson).Some?
    ensures r.Some? ==> forall k :: k != DeliveryDate ==> Get(r.value, k) == Get(Loads(Payload(message).value, parseJson).value, k)
    ensures Payload(message).Some? && Loads(Payload(message).value, parseJson).Some? ==>
      r == NormalizeDelivery(Loads(Payload(message).value, parseJson).value, now, fuzzy)
  {
    match Payload(message)
    case None => None
    case Some(text) =>
      match Loads(text, parseJson)
      case None => None
      case Some(data) => NormalizeDelivery(data, now, fuzzy)
  }

  /** The reply shown to the customer: the trimmed text before the first begin marker. */
  function CleanReply(message: string): (r: string)
    ensures !Contains(message, BeginMarker) ==> r == Strip(message)
    ensures Contains(message, BeginMarker) ==> r == Strip(message[..Find(message, BeginMarker).value])
    ensures !Contains(r, BeginMarker)
  {
    var before := BeforeFirst(message, BeginMarker);
    StripKeepsAbsence(before, BeginMarker);
    Strip(before)
  }

  /** A reply without the begin marker carries no delta, and all of it, trimmed, is shown. */
  lemma NoBeginMarker(message: string, now: DateTime, parseJson: string -> Option<Dict>, fuzzy: string -> Option<DateTime>)
    requires !Contains(message, BeginMarker)
    ensures ExtractOrderData(message, now, parseJson, fuzzy) == None
    ensures CleanReply(message) == Strip(message)
  {
  }

  /** When the first end marker comes before the end of the first begin marker, there is no delta. */
  lemma EndMarkerFirst(message: string, now: DateTime, parseJson: string -> Option<Dict>, fuzzy: string -> Option<DateTime>)
    requires Contains(message, BeginMarker) && Contains(message, EndMarker)
    requires Find(message, EndMarker).value < Find(message, BeginMarker).value + |BeginMarker|
    ensures ExtractOrderData(message, now, parseJson, fuzzy) == None
  {
  }

  /**
    An unparseable delivery date becomes `None` in place; every other field of the payload is
    still returned.
  */
  lemma UnparseableDate(message: string, now: DateTime, parseJson: string -> Option<Dict>, fuzzy: string -> Option<DateTime>)
    requires Payload(message).Some? && Loads(Payload(message).value, parseJson).Some?
    requires var data := Loads(Payload(message).value, parseJson).value;
      Get(data, DeliveryDate).Some? && Get(data, DeliveryDate).value.Str? && Get(data, DeliveryDate).value.s != []
      && ParseDate(Get(data, DeliveryDate).value.s, now, fuzzy).Unparsed?
    ensures var data := Loads(Payload(message).value, parseJson).value;
      ExtractOrderData(message, now, parseJson, fuzzy) == Some(Put(data, DeliveryDate, Null))
  {
    UnparseableDelivery(Loads(Payload(message).value, parseJson).value, now, fuzzy);
  }

  /** The delivery-date step on an unparseable date: the field becomes `None` in place. */
  lemma UnparseableDelivery(data: Dict, now: DateTime, fuzzy: string -> Option<DateTime>)
    requires Get(data, DeliveryDate).Some? && Get(data, DeliveryDate).value.Str? && Get(data, DeliveryDate).value.s != []
    requires ParseDate(Get(data, DeliveryDate).value.s, now, fuzzy).Unparsed?
    ensures NormalizeDelivery(data, now, fuzzy) == Some(Put(data, DeliveryDate, Null))
  {
  }

  /** A delivery date of "내일 오후 7시" becomes tomorrow at 19:00, in place. */
  lemma TomorrowAtSevenDelivery(data: Dict, now: DateTime, fuzzy: string -> Option<DateTime>)
    requires Get(data, DeliveryDate) == Some(Str("내일 오후 7시"))
    ensures NormalizeDelivery(data, now, fuzzy) == Some(Put(data, DeliveryDate, Date(DateTime(now.day + 1, 19, 0, 0, 0))))
  {
    TomorrowAtSeven(now, fuzzy);
    ParsedDelivery(data, "내일 오후 7시", now, fuzzy, DateTime(now.day + 1, 19, 0, 0, 0));
  }

  /** A delivery date that parses is replaced, in place, by the date-time it stands for. */
  lemma ParsedDelivery(data: Dict, text: string, now: DateTime, fuzzy: string -> Option<DateTime>, t: DateTime)
    requires Get(data, DeliveryDate) == Some(Str(text)) && text != [] && ParseDate(text, now, fuzzy) == Parsed(t)
    ensures NormalizeDelivery(data, now, fuzzy) == Some(Put(data, DeliveryDate, Date(t)))
  {
  }

  /**
    A reply of the intended shape whose payload parses to an object with the delivery date
    "내일 오후 7시" yields that object with the date replaced by tomorrow at 19:00.
  */
  lemma TomorrowAtSevenReply(prefix: string, body: string, suffix: string, data: Dict, now: DateTime,
                             parseJson: string -> Option<Dict>, fuzzy: string -> Option<DateTime>)
    requires '[' !in prefix && '[' !in body && Strip(body) != [] && parseJson(Strip(body)) == Some(data)
    requires Get(data, DeliveryDate) == Some(Str("내일 오후 7시"))
    ensures ExtractOrderData(prefix + BeginMarker + body + EndMarker + suffix, now, parseJson, fuzzy)
      == Some(Put(data, DeliveryDate, Date(DateTime(now.day + 1, 19, 0, 0, 0))))
  {
    MarkedReplyPayload(prefix, body, suffix);
    TomorrowAtSevenDelivery(data, now, fuzzy);
  }

  /** A time of day out of range makes the whole extraction fail rather than raise. */
  lemma InvalidTimeDropsPayload(message: string, now: DateTime, parseJson: string -> Option<Dict>, fuzzy: string -> Option<DateTime>)
    requires Payload(message).Some? && Loads(Payload(message).value, parseJson).Some?
    requires var data := Loads(Payload(message).value, parseJson).value;
      Get(data, DeliveryDate).Some? && Get(data, DeliveryDate).value.Str? && Get(data, DeliveryDate).value.s != []
      && ParseDate(Get(data, DeliveryDate).value.s, now, fuzzy).Raised?
    ensures ExtractOrderData(message, now, parseJson, fuzzy) == None
  {
  }

  /**
    A reply of the intended shape: text, then the payload between the markers,
    then anything. When neither the text nor the payload holds a `[`, the payload is exactly the
    trimmed text between the markers and the customer sees the text before them, trimmed.
  */
  lemma MarkedReplyPayload(prefix: string, body: string, suffix: string)
    requires '[' !in prefix && '[' !in body
    ensures Payload(prefix + BeginMarker + body + EndMarker + suffix) == Some(Strip(body))
  {
    MarkedReplyBegin(prefix, body, suffix);
    MarkedReplyEnd(prefix, body, suffix);
    MarkedPayloadBetween(prefix, body, suffix);
  }

  /** The payload of a reply whose first markers enclose `body`. */
  lemma MarkedPayloadBetween(prefix: string, body: string, suffix: string)
    requires Find(prefix + BeginMarker + body + EndMarker + suffix, BeginMarker) == Some(|prefix|)
    requires Find(prefix + BeginMarker + body + EndMarker + suffix, EndMarker) == Some(|prefix| + |BeginMarker| + |body|)
    ensures Payload(prefix + BeginMarker + body + EndMarker + suffix) == Some(Strip(body))
  {
    MarkedSlice(prefix, body, suffix);
    PayloadBetween(prefix + BeginMarker + body + EndMarker + suffix, |prefix|, |prefix| + |BeginMarker| + |body|, body);
  }

  /** With the first markers at `b` and `e`, in that order, the payload is the trimmed text between them. */
  lemma PayloadBetween(m: string, b: nat, e: nat, text: string)
    requires Find(m, BeginMarker) == Some(b) && Find(m, EndMarker) == Some(e) && b + |BeginMarker| <= e
    requires m[b + |BeginMarker|..e] == text
    ensures Payload(m) == Some(Strip(text))
  {
    assert Contains(m, BeginMarker) && Contains(m, EndMarker);
    var start := Find(m, BeginMarker).value + |BeginMarker|;
    var end := Find(m, EndMarker).value;
    assert start == b + |BeginMarker| && end == e;
    assert Payload(m) == Some(Strip(m[start..end]));
  }

  lemma MarkedSlice(prefix: string, body: string, suffix: string)
    ensures (prefix + BeginMarker + body + EndMarker + suffix)[|prefix| + |BeginMarker|..|prefix| + |BeginMarker| + |body|] == body
  {
  }

  lemma MarkedReplyClean(prefix: string, body: string, suffix: string)
    requires '[' !in prefix
    ensures CleanReply(prefix + BeginMarker + body + EndMarker + suffix) == Strip(prefix)
  {
    var m := prefix + BeginMarker + body + EndMarker + suffix;
    MarkedReplyBegin(prefix, body, suffix);
    assert m[..|prefix|] == prefix;
  }

  lemma MarkedReplyBegin(prefix: string, body: string, suffix: string)
    requires '[' !in prefix
    ensures Find(prefix + BeginMarker + body + EndMarker + suffix, BeginMarker) == Some(|prefix|)
  {
    var m := prefix + BeginMarker + body + EndMarker + suffix;
    assert m[|prefix|..|prefix| + |BeginMarker|] == BeginMarker;
    forall j | 0 <= j < |prefix| ensures !OccursAt(m, BeginMarker, j) {
      assert m[j] == prefix[j];
    }
    FindAt(m, BeginMarker, |prefix|);
  }

  lemma MarkedReplyEnd(prefix: string, body: string, suffix: string)
    requires '[' !in prefix && '[' !in body
    ensures Find(prefix + BeginMarker + body + EndMarker + suffix, EndMarker) == Some(|prefix| + |BeginMarker| + |body|)
  {
    var m := prefix + BeginMarker + body + EndMarker + suffix;
    var b := |prefix|;
    var e := b + |BeginMarker| + |body|;
    assert m[e..e + |EndMarker|] == EndMarker;
    forall j | 0 <= j < e ensures !OccursAt(m, EndMarker, j) {
      if j < b {
        assert m[j] == prefix[j];
      } else if j == b {
        assert m[j + 1] == 'O';
      } else if j < b + |BeginMarker| {
        assert m[j] == BeginMarker[j - b];
      } else {
        assert m[j] == body[j - b - |BeginMarker|];
      }
    }
    FindAt(m, EndMarker, e);
  }
}
