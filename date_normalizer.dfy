/**
  The delivery-date normaliser (`DialogManager._parse_date`): a free-text Korean date/time
  expression and the current time give a date-time, "unparseable", or an exception.
*/
module DateNormalizer {
  import opened Wrappers
  import opened Text
  import opened Values

  const DayAfterTomorrow := "모레"
  const Tomorrow := "내일"
  const Today := "오늘"
  const Afternoon := "오후"
  const Morning := "오전"

  /** A successful time-of-day pattern match: the hour group and, for `H:MM`, the minute group. */
  datatype TimeMatch = TimeMatch(hour: nat, minute: Option<nat>)

  /** The pattern `(\d{1,2})시` tried at position `i` (two digits first, then one). */
  function HourAt(s: string, i: nat): (r: Option<TimeMatch>)
    ensures r.Some? <==> (i + 1 < |s| && IsDigit(s[i])
                          && (s[i + 1] == '시' || (i + 2 < |s| && IsDigit(s[i + 1]) && s[i + 2] == '시')))
    ensures r.Some? && IsDigit(s[i + 1]) ==> r.value == TimeMatch(10 * DigitValue(s[i]) + DigitValue(s[i + 1]), None)
    ensures r.Some? && !IsDigit(s[i + 1]) ==> r.value == TimeMatch(DigitValue(s[i]), None)
  {
    if i + 2 < |s| && IsDigit(s[i]) && IsDigit(s[i + 1]) && s[i + 2] == '시' then
      Some(TimeMatch(DecimalValue(s[i..i + 2]), None))
    else if i + 1 < |s| && IsDigit(s[i]) && s[i + 1] == '시' then
      Some(TimeMatch(DecimalValue(s[i..i + 1]), None))
    else None
  }

  /** The pattern `(\d{1,2}):(\d{2})` tried at position `i`. */
  function ClockAt(s: string, i: nat): (r: Option<TimeMatch>)
    ensures r.Some? <==> (i + 3 < |s| && IsDigit(s[i])
                          && ((s[i + 1] == ':' && IsDigit(s[i + 2]) && IsDigit(s[i + 3]))
                              || (i + 4 < |s| && IsDigit(s[i + 1]) && s[i + 2] == ':' && IsDigit(s[i + 3]) && IsDigit(s[i + 4]))))
    ensures r.Some? && IsDigit(s[i + 1]) ==>
      r.value == TimeMatch(10 * DigitValue(s[i]) + DigitValue(s[i + 1]), Some(10 * DigitValue(s[i + 3]) + DigitValue(s[i + 4])))
    ensures r.Some? && !IsDigit(s[i + 1]) ==>
      r.value == TimeMatch(DigitValue(s[i]), Some(10 * DigitValue(s[i + 2]) + DigitValue(s[i + 3])))
  {
    if i + 4 < |s| && IsDigit(s[i]) && IsDigit(s[i + 1]) && s[i + 2] == ':' && IsDigit(s[i + 3]) && IsDigit(s[i + 4]) then
      Some(TimeMatch(DecimalValue(s[i..i + 2]), Some(DecimalValue(s[i + 3..i + 5]))))
    else if i + 3 < |s| && IsDigit(s[i]) && s[i + 1] == ':' && IsDigit(s[i + 2]) && IsDigit(s[i + 3]) then
      Some(TimeMatch(DecimalValue(s[i..i + 1]), Some(DecimalValue(s[i + 2..i + 4]))))
    else None
  }

  /** How many whitespace characters start at position `j` (what a greedy `\s*` consumes). */
  function SpacesFrom(s: string, j: nat): (n: nat)
    ensures j + n <= |s| || n == 0
    ensures forall k :: j <= k < j + n ==> IsSpace(s[k])
    ensures j + n < |s| ==> !IsSpace(s[j + n])
    decreases |s| - j
  {
    if j < |s| && IsSpace(s[j]) then 1 + SpacesFrom(s, j + 1) else 0
  }

  /**
    The pattern `<marker>\s*(\d{1,2})시?` tried at position `i`. The optional `시` never decides
    whether it matches, and backing off `\s*` only puts a space where the digit must be.
  */
  function MarkerAt(s: string, marker: string, i: nat): (r: Option<TimeMatch>)
    ensures var j := i + |marker| + SpacesFrom(s, i + |marker|);
      r.Some? <==> OccursAt(s, marker, i) && j < |s| && IsDigit(s[j])
    ensures var j := i + |marker| + SpacesFrom(s, i + |marker|);
      r.Some? && j + 1 < |s| && IsDigit(s[j + 1]) ==> r.value == TimeMatch(10 * DigitValue(s[j]) + DigitValue(s[j + 1]), None)
    ensures var j := i + |marker| + SpacesFrom(s, i + |marker|);
      r.Some? && !(j + 1 < |s| && IsDigit(s[j + 1])) ==> r.value == TimeMatch(DigitValue(s[j]), None)
  {
    if OccursAt(s, marker, i) then
      var j := i + |marker| + SpacesFrom(s, i + |marker|);
      if j < |s| && IsDigit(s[j]) then
        if j + 1 < |s| && IsDigit(s[j + 1]) then Some(TimeMatch(DecimalValue(s[j..j + 2]), None))
        else Some(TimeMatch(DecimalValue(s[j..j + 1]), None))
      else None
    else None
  }

  function AfternoonAt(s: string, i: nat): Option<TimeMatch> {
    MarkerAt(s, Afternoon, i)
  }

  function MorningAt(s: string, i: nat): Option<TimeMatch> {
    MarkerAt(s, Morning, i)
  }

  /** `time_patterns`, in the order they are tried: `H시`, `H:MM`, `오후 H`, `오전 H`. */
  const TimePatterns: seq<(string, nat) -> Option<TimeMatch>> := [HourAt, ClockAt, AfternoonAt, MorningAt]

  /**
    The loop over the patterns with its `break`: the match of the first pattern (from index `p` on)
    that occurs anywhere in `s`, and that pattern's index.
  */
  function FirstPattern(s: string, patterns: seq<(string, nat) -> Option<TimeMatch>>, p: nat): (r: Option<(nat, TimeMatch)>)
    requires p <= |patterns|
    ensures r.Some? ==> p <= r.value.0 < |patterns|
    ensures r.Some? ==> Search(s, patterns[r.value.0]).Some? && Search(s, patterns[r.value.0]).value.1 == r.value.1
    ensures r.Some? ==> forall q :: p <= q < r.value.0 ==> Search(s, patterns[q]).None?
    ensures r.None? ==> forall q :: p <= q < |patterns| ==> Search(s, patterns[q]).None?
    decreases |patterns| - p
  {
    if p == |patterns| then None
    else match Search(s, patterns[p])
      case Some((_, m)) => Some((p, m))
      case None => FirstPattern(s, patterns, p + 1)
  }

  /** The time-of-day match found in `s`, if any. */
  function ScanTime(s: string): (r: Option<TimeMatch>)
    ensures r.None? <==> forall q :: 0 <= q < |TimePatterns| ==> Search(s, TimePatterns[q]).None?
    ensures r.Some? ==> exists q :: (0 <= q < |TimePatterns| && Search(s, TimePatterns[q]).Some?
                                     && Search(s, TimePatterns[q]).value.1 == r.value
                                     && forall q' :: 0 <= q' < q ==> Search(s, TimePatterns[q']).None?)
  {
    match FirstPattern(s, TimePatterns, 0)
    case Some((_, m)) => Some(m)
    case None => None
  }

  /** The loop over the four patterns, stopping at the first that is found in `s`. */
  method FindTime(s: string) returns (found: Option<TimeMatch>)
    ensures found == ScanTime(s)
    ensures found.Some? <==> exists q :: 0 <= q < |TimePatterns| && Search(s, TimePatterns[q]).Some?
  {
    found := None;
    var i := 0;
    while i < |TimePatterns|
      invariant 0 <= i <= |TimePatterns|
      invariant FirstPattern(s, TimePatterns, i) == FirstPattern(s, TimePatterns, 0)
      invariant forall q :: 0 <= q < i ==> Search(s, TimePatterns[q]).None?
    {
      var hit := Search(s, TimePatterns[i]);
      if hit.Some? {
        found := Some(hit.value.1);
        break;
      }
      i := i + 1;
    }
  }

  /**
    The hour and minute a match sets. "오후" or "오전" anywhere in the whole string (not only in the
    match) selects the 12-hour reading, 오후 first; the minute survives only for `H:MM` without either.
  */
  function ClockFor(s: string, m: TimeMatch): (hm: (int, int))
    ensures Contains(s, Afternoon) ==>
      hm.1 == 0 && hm.0 % 12 == m.hour % 12 && 12 <= hm.0 && (hm.0 < 24 <==> m.hour <= 12) &&
      (m.hour > 12 ==> hm.0 == m.hour + 12)
    ensures !Contains(s, Afternoon) && Contains(s, Morning) ==>
      hm.1 == 0 && hm.0 % 12 == m.hour % 12 && (m.hour <= 12 ==> 0 <= hm.0 < 12) && (m.hour != 12 ==> hm.0 == m.hour)
    ensures !Contains(s, Afternoon) && !Contains(s, Morning) ==>
      hm.0 == m.hour && (m.minute.Some? ==> hm.1 == m.minute.value) && (m.minute.None? ==> hm.1 == 0)
  {
    if Contains(s, Afternoon) then (if m.hour != 12 then m.hour + 12 else 12, 0)
    else if Contains(s, Morning) then (if m.hour == 12 then 0 else m.hour, 0)
    else (m.hour, if m.minute.Some? then m.minute.value else 0)
  }

  /** `now.replace(hour=18, minute=0, second=0, microsecond=0) + timedelta(days=days)`. */
  function EveningOf(now: DateTime, days: int): DateTime {
    DateTime(now.day + days, 18, 0, 0, 0)
  }

  /**
    The date before any time of day is applied: a relative keyword (모레 before 내일 before 오늘),
    otherwise the fuzzy parser's reading, moved to 18:00 when it says midnight.
  */
  function BaseDate(s: string, now: DateTime, fuzzy: string -> Option<DateTime>): (r: Option<DateTime>)
    ensures r.None? <==> KeywordOffset(s).None? && fuzzy(s).None?
    ensures KeywordOffset(s).Some? ==> r == Some(DateTime(now.day + KeywordOffset(s).value, 18, 0, 0, 0))
    ensures KeywordOffset(s).None? && fuzzy(s).Some? ==>
      var p := fuzzy(s).value;
      r == Some(if p.hour == 0 && p.minute == 0 then DateTime(p.day, 18, 0, 0, 0) else p)
  {
    if Contains(s, DayAfterTomorrow) then Some(EveningOf(now, 2))
    else if Contains(s, Tomorrow) then Some(EveningOf(now, 1))
    else if Contains(s, Today) then Some(EveningOf(now, 0))
    else match fuzzy(s)
      case None => None
      case Some(p) => Some(if p.hour == 0 && p.minute == 0 then p.(hour := 18, minute := 0, second := 0, micro := 0) else p)
  }

  /** The day offset of the relative keyword that decides the date, if one occurs. */
  function KeywordOffset(s: string): Option<int> {
    if Contains(s, DayAfterTomorrow) then Some(2)
    else if Contains(s, Tomorrow) then Some(1)
    else if Contains(s, Today) then Some(0)
    else None
  }

  /** What `_parse_date` does: a date-time, `None`, or the `ValueError` of `datetime.replace`. */
  datatype DateOutcome = Parsed(t: DateTime) | Unparsed | Raised

  /**
    `_parse_date(s)` with `now` for `datetime.now(KST)` and `fuzzy` for `dateutil`'s fuzzy parse
    (`None` when it raises).
  */
  function ParseDate(s: string, now: DateTime, fuzzy: string -> Option<DateTime>): (r: DateOutcome)
    ensures r.Unparsed? <==> KeywordOffset(s).None? && fuzzy(s).None?
    ensures KeywordOffset(s).Some? && r.Parsed? ==>
      r.t.day == now.day + KeywordOffset(s).value && r.t.second == 0 && r.t.micro == 0
    ensures KeywordOffset(s).Some? && ScanTime(s).None? ==> r == Parsed(EveningOf(now, KeywordOffset(s).value))
    ensures KeywordOffset(s).None? && fuzzy(s).Some? ==>
      var p := fuzzy(s).value;
      var b := if p.hour == 0 && p.minute == 0 then DateTime(p.day, 18, 0, 0, 0) else p;
      (ScanTime(s).None? ==> r == Parsed(b)) && (r.Parsed? ==> r.t.day == b.day && r.t.second == b.second && r.t.micro == b.micro)
    ensures ScanTime(s).Some? && !r.Unparsed? ==>
      var (h, m) := ClockFor(s, ScanTime(s).value);
      (r.Raised? <==> !(0 <= h < 24 && 0 <= m < 60)) && (r.Parsed? ==> r.t.hour == h && r.t.minute == m)
  {
    match BaseDate(s, now, fuzzy)
    case None => Unparsed
    case Some(base) =>
      match ScanTime(s)
      case None => Parsed(base)
      case Some(m) =>
        var (h, mi) := ClockFor(s, m);
        if 0 <= h < 24 && 0 <= mi < 60 then Parsed(base.(hour := h, minute := mi)) else Raised
  }

  /** A string without a digit holds no time of day: every pattern needs a digit where it matches. */
  lemma NoDigitNoTime(s: string)
    requires forall k :: 0 <= k < |s| ==> !IsDigit(s[k])
    ensures ScanTime(s).None?
  {
    forall q, j | 0 <= q < |TimePatterns| && 0 <= j <= |s| ensures TimePatterns[q](s, j).None? {
      assert q == 0 || q == 1 || q == 2 || q == 3;
    }
    forall q | 0 <= q < |TimePatterns| ensures Search(s, TimePatterns[q]).None? {
      var r := SearchFrom(s, TimePatterns[q], 0);
      assert r.Some? ==> TimePatterns[q](s, r.value.0).Some?;
    }
  }

  /** "모레 내일" holds both keywords; 모레 is tested first, so the date is two days on, at 18:00. */
  lemma DayAfterTomorrowWins(now: DateTime, fuzzy: string -> Option<DateTime>)
    ensures Contains("모레 내일", DayAfterTomorrow) && Contains("모레 내일", Tomorrow)
    ensures ParseDate("모레 내일", now, fuzzy) == Parsed(DateTime(now.day + 2, 18, 0, 0, 0))
  {
    var s := "모레 내일";
    assert OccursAt(s, DayAfterTomorrow, 0);
    ContainsAt(s, DayAfterTomorrow, 0);
    assert OccursAt(s, Tomorrow, 3);
    ContainsAt(s, Tomorrow, 3);
    NoDigitNoTime(s);
  }

  /**
    "내일 오후 H시" ("tomorrow, afternoon, H o'clock") is tomorrow at H + 12 o'clock (12 stays 12),
    and an hour pushed past 23 ("오후 13시" gives 25) makes `datetime.replace` raise.
  */
  lemma {:induction false} TomorrowAfternoon(h: nat, now: DateTime, fuzzy: string -> Option<DateTime>)
    requires h < 100
    ensures var s := "내일 오후 " + NatToDecimal(h) + "시";
      var hour := if h == 12 then 12 else h + 12;
      ParseDate(s, now, fuzzy) == if hour < 24 then Parsed(DateTime(now.day + 1, hour, 0, 0, 0)) else Raised
  {
    var s := "내일 오후 " + NatToDecimal(h) + "시";
    TomorrowAfternoonText(h);
    assert BaseDate(s, now, fuzzy) == Some(EveningOf(now, 1));
  }

  /** The keywords and the time of day found in "내일 오후 H시". */
  lemma TomorrowAfternoonText(h: nat)
    requires h < 100
    ensures var s := "내일 오후 " + NatToDecimal(h) + "시";
      !Contains(s, DayAfterTomorrow) && Contains(s, Tomorrow) && Contains(s, Afternoon)
      && ScanTime(s) == Some(TimeMatch(h, None))
  {
    var d := NatToDecimal(h);
    DigitsHaveNoKeyword(d);
    assert "내일 오후 " + d + "시" == "내일 오후 " + (d + "시");
    LeadKeywords("내일 오후 ", d + "시");
    HourAfterWords("내일 오후 ", h);
  }

  /** "내일 오후 7시" is tomorrow at 19:00:00.000. */
  lemma TomorrowAtSeven(now: DateTime, fuzzy: string -> Option<DateTime>)
    ensures ParseDate("내일 오후 7시", now, fuzzy) == Parsed(DateTime(now.day + 1, 19, 0, 0, 0))
  {
    TomorrowAfternoon(7, now, fuzzy);
    assert "내일 오후 " + NatToDecimal(7) + "시" == "내일 오후 7시";
  }

  /**
    "내일 오전 H시" ("tomorrow, morning, H o'clock") is tomorrow at H o'clock, with 12 read as 0,
    and an hour of 24 or more makes `datetime.replace` raise.
  */
  lemma {:induction false} TomorrowMorning(h: nat, now: DateTime, fuzzy: string -> Option<DateTime>)
    requires h < 100
    ensures var s := "내일 오전 " + NatToDecimal(h) + "시";
      var hour := if h == 12 then 0 else h;
      ParseDate(s, now, fuzzy) == if hour < 24 then Parsed(DateTime(now.day + 1, hour, 0, 0, 0)) else Raised
  {
    var s := "내일 오전 " + NatToDecimal(h) + "시";
    TomorrowMorningText(h);
    assert BaseDate(s, now, fuzzy) == Some(EveningOf(now, 1));
  }

  /** The keywords and the time of day found in "내일 오전 H시": 내일 and 오전, neither 모레 nor 오후. */
  lemma TomorrowMorningText(h: nat)
    requires h < 100
    ensures var s := "내일 오전 " + NatToDecimal(h) + "시";
      !Contains(s, DayAfterTomorrow) && Contains(s, Tomorrow) && !Contains(s, Afternoon) && Contains(s, Morning)
      && ScanTime(s) == Some(TimeMatch(h, None))
  {
    var d := NatToDecimal(h);
    DigitsHaveNoKeyword(d);
    assert "내일 오전 " + d + "시" == "내일 오전 " + (d + "시");
    LeadKeywords("내일 오전 ", d + "시");
    HourAfterWords("내일 오전 ", h);
  }

  lemma DigitsHaveNoKeyword(d: string)
    requires AllDigits(d)
    ensures '모' !in d + "시" && '후' !in d + "시" && '전' !in d + "시"
  {
    forall k | 0 <= k < |d| ensures d[k] != '모' && d[k] != '후' && d[k] != '전' {
      assert IsDigit(d[k]);
    }
  }

  /** The keywords in "내일 오후 " or "내일 오전 " followed by digits and `시`. */
  lemma LeadKeywords(w: string, t: string)
    requires w == "내일 오후 " || w == "내일 오전 "
    requires '모' !in t && '후' !in t && '전' !in t
    ensures !Contains(w + t, DayAfterTomorrow) && Contains(w + t, Tomorrow)
    ensures Contains(w + t, Afternoon) <==> w == "내일 오후 "
    ensures Contains(w + t, Morning) <==> w == "내일 오전 "
  {
    var s := w + t;
    assert '모' !in s;
    NotContainsChar(s, DayAfterTomorrow, 0);
    assert s[..2] == Tomorrow;
    ContainsAt(s, Tomorrow, 0);
    if w == "내일 오후 " {
      assert s[3..5] == Afternoon;
      ContainsAt(s, Afternoon, 3);
      assert '전' !in s;
      NotContainsChar(s, Morning, 1);
    } else {
      assert s[3..5] == Morning;
      ContainsAt(s, Morning, 3);
      assert '후' !in s;
      NotContainsChar(s, Afternoon, 1);
    }
  }

  /**
    After a lead-in without digits, "H시" is found by the first pattern, `(\d{1,2})시`, which
    reads the hour H.
  */
  lemma HourAfterWords(w: string, h: nat)
    requires h < 100 && forall k :: 0 <= k < |w| ==> !IsDigit(w[k])
    ensures ScanTime(w + NatToDecimal(h) + "시") == Some(TimeMatch(h, None))
  {
    var d := NatToDecimal(h);
    var s := w + d + "시";
    assert |d| <= 2 by {
      if h >= 10 { assert |NatToDecimal(h / 10)| == 1; }
    }
    assert s[..|w|] == w && s[|w|..|w| + |d|] == d && s[|w| + |d|] == '시' && |s| == |w| + |d| + 1;
    forall j | 0 <= j < |w| ensures HourAt(s, j).None? {
      assert s[j] == w[j];
    }
    DecimalRoundTrip(h);
    assert HourAt(s, |w|) == Some(TimeMatch(h, None));
    SearchFinds(s, HourAt, |w|);
    assert TimePatterns[0] == HourAt;
  }
}
