/**
  The Python values that flow through the order context: the scalars a JSON object can hold,
  plus the `datetime` that replaces a delivery-date string once it is normalised, and the
  insertion-ordered dictionaries that hold them.
*/
module Values {
  import opened Wrappers
  import opened Text

  /**
    A local (Korean time) date and time. `day` is an abstract day number: calendar arithmetic is
    only ever "plus n days", so no Gregorian rule is needed.
  */
  datatype DateTime = DateTime(day: int, hour: int, minute: int, second: int, micro: int)

  /** The time-of-day ranges `datetime.replace` accepts. */
  predicate ValidClock(t: DateTime) {
    0 <= t.hour < 24 && 0 <= t.minute < 60 && 0 <= t.second < 60 && 0 <= t.micro < 1000000
  }

  datatype Value = Null | Bool(b: bool) | Int(i: int) | Str(s: string) | Date(t: DateTime)

  /** The exceptions the core can raise. */
  datatype PyError = TypeError | ValueError | AttributeError

  /** Python truthiness (`if v:`). */
  predicate Truthy(v: Value) {
    match v
    case Null => false
    case Bool(b) => b
    case Int(i) => i != 0
    case Str(s) => s != []
    case Date(_) => true
  }

  /**
    Calendar formatting, which the model takes as given: `strftime('%Y년 %m월 %d일')`,
    `strftime('%Y-%m-%d')`, `str()` and `isoformat()` of a date-time.
  */
  datatype DateFormats = DateFormats(koreanDate: DateTime -> string, isoDate: DateTime -> string,
                                     text: DateTime -> string, iso: DateTime -> string)

  /** `str(v)`, or `f"{v}"`. */
  function Show(v: Value, fmt: DateFormats): string {
    match v
    case Null => "None"
    case Bool(b) => if b then "True" else "False"
    case Int(i) => IntToText(i)
    case Str(s) => s
    case Date(t) => fmt.text(t)
  }

  /** `v > 0`; comparing anything but a number (a `bool` is one) with `0` raises `TypeError`. */
  function GreaterThanZero(v: Value): (r: Result<bool, PyError>)
    ensures r.Ok? <==> v.Int? || v.Bool?
    ensures v.Int? ==> r == Ok(v.i > 0)
    ensures v.Bool? ==> r == Ok(v.b)
  {
    match v
    case Int(i) => Ok(i > 0)
    case Bool(b) => Ok(b)
    case _ => Err(TypeError)
  }

  datatype Entry = Entry(key: string, value: Value)

  predicate DistinctKeys(d: seq<Entry>) {
    forall i, j :: 0 <= i < j < |d| ==> d[i].key != d[j].key
  }

  /** A Python `dict` with string keys: its entries in insertion order, each key once. */
  type Dict = d: seq<Entry> | DistinctKeys(d) witness []

  /** `d.get(k)`, with `None` for a missing key. */
  function Get(d: seq<Entry>, k: string): (r: Option<Value>)
    ensures r.None? <==> forall i :: 0 <= i < |d| ==> d[i].key != k
    ensures DistinctKeys(d) ==> forall i :: 0 <= i < |d| && d[i].key == k ==> r == Some(d[i].value)
  {
    if d == [] then None
    else if d[0].key == k then Some(d[0].value)
    else Get(d[1..], k)
  }

  /** The first entry with a key is the one a lookup finds. */
  lemma {:induction false} GetFirst(d: seq<Entry>, i: nat)
    requires i < |d| && forall j :: 0 <= j < i ==> d[j].key != d[i].key
    ensures Get(d, d[i].key) == Some(d[i].value)
  {
    if i > 0 {
      GetFirst(d[1..], i - 1);
    }
  }

  /** `k in d`. */
  predicate Has(d: seq<Entry>, k: string) {
    Get(d, k).Some?
  }

  /** `d.get(k, default)`. */
  function GetOr(d: seq<Entry>, k: string, default: Value): (r: Value)
    ensures Has(d, k) ==> r == Get(d, k).value
    ensures !Has(d, k) ==> r == default
  {
    match Get(d, k)
    case Some(v) => v
    case None => default
  }

  /** `d[k] = v`: an existing key keeps its place and takes the new value, a new key goes last. */
  function Put(d: seq<Entry>, k: string, v: Value): (r: seq<Entry>)
    ensures forall k' :: Get(r, k') == if k' == k then Some(v) else Get(d, k')
    ensures Has(d, k) ==> |r| == |d| && forall i :: 0 <= i < |d| ==> r[i].key == d[i].key
    ensures Has(d, k) ==> forall i :: 0 <= i < |d| && d[i].key != k ==> r[i] == d[i]
    ensures !Has(d, k) ==> r == d + [Entry(k, v)]
  {
    if d == [] then [Entry(k, v)]
    else if d[0].key == k then [Entry(k, v)] + d[1..]
    else [d[0]] + Put(d[1..], k, v)
  }

  /** Writing a key keeps the keys of a dictionary distinct. */
  lemma PutDistinct(d: Dict, k: string, v: Value)
    ensures DistinctKeys(Put(d, k, v))
  {
  }

  /** `c.update(delta)`: the entries of `delta` written into `c` one after another. */
  function Update(c: Dict, delta: Dict): (r: Dict)
    ensures forall k :: Get(r, k) == if Has(delta, k) then Get(delta, k) else Get(c, k)
    ensures |r| >= |c| && forall i :: 0 <= i < |c| ==> r[i].key == c[i].key
    decreases |delta|
  {
    if delta == [] then c
    else
      var init: Dict := delta[..|delta| - 1];
      var last := delta[|delta| - 1];
      assert delta == init + [last];
      GetSnoc(init, last);
      PutDistinct(Update(c, init), last.key, last.value);
      Put(Update(c, init), last.key, last.value)
  }

  /** A lookup in a dictionary that ends with one more entry. */
  lemma GetSnoc(d: seq<Entry>, e: Entry)
    ensures forall k :: Get(d + [e], k) == if Has(d, k) then Get(d, k) else if k == e.key then Some(e.value) else None
  {
    if d != [] {
      assert (d + [e])[1..] == d[1..] + [e];
      GetSnoc(d[1..], e);
    }
  }

  lemma {:induction false} PutPutSame(d: seq<Entry>, k: string, v1: Value, v2: Value)
    ensures Put(Put(d, k, v1), k, v2) == Put(d, k, v2)
  {
    if d != [] && d[0].key != k {
      PutPutSame(d[1..], k, v1, v2);
    }
  }

  /** Two writes commute when the first rewrites a key already present (so neither appends before the other). */
  lemma {:induction false} PutPutSwap(d: seq<Entry>, k1: string, v1: Value, k2: string, v2: Value)
    requires k1 != k2 && Has(d, k1)
    ensures Put(Put(d, k1, v1), k2, v2) == Put(Put(d, k2, v2), k1, v1)
  {
    if d[0].key != k1 && d[0].key != k2 {
      PutPutSwap(d[1..], k1, v1, k2, v2);
    }
  }

  lemma {:induction false} PutSnoc(d: seq<Entry>, e: Entry, k: string, v: Value)
    requires k != e.key && Has(d, k)
    ensures Put(d + [e], k, v) == Put(d, k, v) + [e]
  {
    var de := d + [e];
    assert de[0] == d[0] && de[1..] == d[1..] + [e];
    if d[0].key != k {
      assert Get(d, k) == Get(d[1..], k);
      PutSnoc(d[1..], e, k, v);
      calc {
        Put(de, k, v);
        [d[0]] + Put(d[1..] + [e], k, v);
        [d[0]] + (Put(d[1..], k, v) + [e]);
        ([d[0]] + Put(d[1..], k, v)) + [e];
      }
    } else {
      assert Put(de, k, v) == [Entry(k, v)] + (d[1..] + [e]);
    }
  }

  /** The definition of `Update` read on a delta that ends with `e`. */
  lemma UpdateSnoc(c: Dict, d: Dict, e: Entry)
    requires DistinctKeys(d + [e])
    ensures Update(c, d + [e]) == Put(Update(c, d), e.key, e.value)
  {
    var de: Dict := d + [e];
    assert de[..|de| - 1] == d;
  }

  /** Rewriting the key of the last entry replaces that entry. */
  lemma PutLast(init: Dict, k: string, w: Value, v: Value)
    requires DistinctKeys(init + [Entry(k, w)])
    ensures Put(init + [Entry(k, w)], k, v) == init + [Entry(k, v)]
  {
    var d := init + [Entry(k, w)];
    var dk := Put(d, k, v);
    assert d[|d| - 1] == Entry(k, w);
    assert Has(d, k);
    PutDistinct(d, k, v);
    forall i | 0 <= i < |d| ensures dk[i] == (init + [Entry(k, v)])[i] {
      if i == |d| - 1 {
        assert Get(dk, k) == Some(dk[i].value);
      }
    }
  }

  /** Updating with a delta that was itself just written to is the same as updating, then writing. */
  lemma {:induction false} UpdatePut(c: Dict, d: Dict, k: string, v: Value)
    ensures DistinctKeys(Put(d, k, v))
    ensures Update(c, Put(d, k, v)) == Put(Update(c, d), k, v)
    decreases |d|
  {
    PutDistinct(d, k, v);
    if !Has(d, k) {
      UpdateSnoc(c, d, Entry(k, v));
    } else {
      var init: Dict := d[..|d| - 1];
      var last := d[|d| - 1];
      assert d == init + [last];
      UpdateSnoc(c, init, last);
      if last.key == k {
        UpdatePutLast(c, init, k, last.value, v);
      } else {
        PutSnoc(init, last, k, v);
        PutDistinct(init, k, v);
        var ik: Dict := Put(init, k, v);
        UpdateSnoc(c, ik, last);
        UpdatePut(c, init, k, v);
        PutPutSwap(Update(c, init), k, v, last.key, last.value);
      }
    }
  }

  /** `UpdatePut` when the rewritten key is the delta's last entry. */
  lemma UpdatePutLast(c: Dict, init: Dict, k: string, w: Value, v: Value)
    requires DistinctKeys(init + [Entry(k, w)])
    ensures Update(c, Put(init + [Entry(k, w)], k, v)) == Put(Update(c, init + [Entry(k, w)]), k, v)
  {
    UpdateSnoc(c, init, Entry(k, w));
    PutLast(init, k, w, v);
    UpdateSnoc(c, init, Entry(k, v));
    PutPutSame(Update(c, init), k, w, v);
  }

  /**
    Merging is associative: updating with `d1` and then with `d2` gives exactly (same entries, same
    order) what one update with `d1` overridden by `d2` gives.
  */
  lemma {:induction false} UpdateAssociative(c: Dict, d1: Dict, d2: Dict)
    ensures Update(Update(c, d1), d2) == Update(c, Update(d1, d2))
    decreases |d2|
  {
    if d2 != [] {
      var init: Dict := d2[..|d2| - 1];
      var last := d2[|d2| - 1];
      UpdateAssociative(c, d1, init);
      UpdatePut(c, Update(d1, init), last.key, last.value);
    }
  }
}
