/**
 * The store's opening-hours banner: parsing "HH:MM" settings into minutes
 * of the day and deciding whether the store is open, how long until it
 * closes, and which message and colour to show.
 *
 * The current time of day is a parameter `nowMinute` (0..1439) in place of
 * `new Date().toTimeString()`. JavaScript numbers appear as `Num`, an
 * integer or NaN: every value the banner computes from digit strings is
 * one of those.
 */
module TimingBanner {
  import opened Wrappers

  // ---------------------------------------------------------------------
  // Numbers with NaN

  datatype Num = Num(n: int) | NaN

  function Add(a: Num, b: Num): Num {
    if a.Num? && b.Num? then Num(a.n + b.n) else NaN
  }

  function Sub(a: Num, b: Num): Num {
    if a.Num? && b.Num? then Num(a.n - b.n) else NaN
  }

  function Mul(a: Num, b: Num): Num {
    if a.Num? && b.Num? then Num(a.n * b.n) else NaN
  }

  /** `a > b`: false whenever either side is NaN. */
  predicate Gt(a: Num, b: Num) {
    a.Num? && b.Num? && a.n > b.n
  }

  /** `a >= b`: false whenever either side is NaN. */
  predicate Ge(a: Num, b: Num) {
    a.Num? && b.Num? && a.n >= b.n
  }

  // ---------------------------------------------------------------------
  // Parsing

  predicate IsDigit(c: char) { '0' <= c <= '9' }

  function DigitValue(c: char): int
    requires IsDigit(c)
  {
    c as int - '0' as int
  }

  predicate AllDigits(s: string) {
    forall i :: 0 <= i < |s| ==> IsDigit(s[i])
  }

  /** The decimal value of a string of digits, most significant first. */
  function DigitsValue(s: string): (v: int)
    requires AllDigits(s)
    ensures v >= 0
  {
    if s == [] then 0
    else 10 * DigitsValue(s[..|s| - 1]) + DigitValue(s[|s| - 1])
  }

  /**
   * `Number(s)` on the strings the banner meets: the empty string is 0, a
   * string of digits its decimal value, anything else NaN.
   */
  function ParseNumber(s: string): (r: Num)
    ensures s == "" ==> r == Num(0)
    ensures r.Num? <==> AllDigits(s)
    ensures r.Num? ==> r.n >= 0 && r.n == DigitsValue(s)
  {
    if AllDigits(s) then Num(DigitsValue(s)) else NaN
  }

  /** A leading zero does not change the value: "09" and "9" are both 9. */
  lemma LeadingZero(s: string)
    requires AllDigits(s)
    ensures AllDigits("0" + s) && DigitsValue("0" + s) == DigitsValue(s)
    decreases |s|
  {
    if s != [] {
      var t := "0" + s;
      assert t[..|t| - 1] == "0" + s[..|s| - 1];
      assert t[|t| - 1] == s[|s| - 1];
      LeadingZero(s[..|s| - 1]);
    }
  }

  /** `s.split(':')`: the pieces between colons, at least one. */
  function Split(s: string): (parts: seq<string>)
    ensures |parts| >= 1
    ensures forall i :: 0 <= i < |parts| ==> ':' !in parts[i]
    ensures ':' !in s ==> parts == [s]
  {
    if s == [] then [""]
    else
      var rest := Split(s[1..]);
      assert ':' !in s ==> ':' !in s[1..] by {
        assert forall i :: 0 <= i < |s[1..]| ==> s[1..][i] == s[i + 1];
      }
      assert [s[0]] + s[1..] == s;
      if s[0] == ':' then [""] + rest
      else [[s[0]] + rest[0]] + rest[1..]
  }

  /** `parts.join(':')`. */
  function Join(parts: seq<string>): string
    requires |parts| >= 1
  {
    if |parts| == 1 then parts[0] else parts[0] + ":" + Join(parts[1..])
  }

  /** Splitting on colons and joining back gives the original string. */
  lemma {:induction false} SplitJoin(s: string)
    ensures Join(Split(s)) == s
    decreases |s|
  {
    if s != [] {
      var rest := Split(s[1..]);
      SplitJoin(s[1..]);
      if s[0] == ':' {
        assert Split(s) == [""] + rest;
      } else {
        var parts := [[s[0]] + rest[0]] + rest[1..];
        assert Split(s) == parts;
        if |rest| > 1 {
          assert rest == [rest[0]] + rest[1..];
          assert Join(rest) == rest[0] + ":" + Join(rest[1..]);
          assert parts[1..] == rest[1..];
        }
      }
    }
  }

  /**
   * `timeToMinutes`: hours (the text before the first colon) times 60 plus
   * minutes (the text after it, up to any second colon); NaN when either is
   * not a number or there is no colon.
   */
  function TimeToMinutes(time: string): (r: Num)
    ensures var parts := Split(time);
      r.Num? <==> |parts| >= 2 && AllDigits(parts[0]) && AllDigits(parts[1])
    ensures r.Num? ==> r.n >= 0 && r.n == 60 * DigitsValue(Split(time)[0]) + DigitsValue(Split(time)[1])
  {
    var parts := Split(time);
    var hours := ParseNumber(parts[0]);
    var minutes := if |parts| >= 2 then ParseNumber(parts[1]) else NaN;
    Add(Mul(hours, Num(60)), minutes)
  }

  /** Splitting text whose first colon follows `a` gives `a`, then the parts of the rest. */
  lemma {:induction false} SplitAtFirstColon(a: string, t: string)
    requires ':' !in a
    ensures Split(a + ":" + t) == [a] + Split(t)
    decreases |a|
  {
    var s := a + ":" + t;
    if a == [] {
      assert s[0] == ':' && s[1..] == t;
    } else {
      assert s[0] == a[0] != ':';
      assert s[1..] == a[1..] + ":" + t;
      assert ':' !in a[1..] by {
        assert forall i :: 0 <= i < |a[1..]| ==> a[1..][i] == a[i + 1];
      }
      SplitAtFirstColon(a[1..], t);
      assert [a[0]] + a[1..] == a;
    }
  }

  lemma DigitsHaveNoColon(s: string)
    requires AllDigits(s)
    ensures ':' !in s
  {
  }

  /**
   * Any digit text before and after the first colon, padded or not and in
   * range or not, reads as hours * 60 + minutes; anything from a second
   * colon on is ignored ("9:30" is 570, "24:00" is 1440, "12:30:00" is 750).
   */
  lemma TimeOfDigits(h: string, m: string, tail: string)
    requires AllDigits(h) && AllDigits(m)
    requires tail == [] || tail[0] == ':'
    ensures TimeToMinutes(h + ":" + m + tail) == Num(60 * DigitsValue(h) + DigitsValue(m))
  {
    DigitsHaveNoColon(h);
    DigitsHaveNoColon(m);
    var s := h + ":" + m + tail;
    assert s == h + ":" + (m + tail);
    SplitAtFirstColon(h, m + tail);
    if tail == [] {
      assert m + tail == m;
      assert Split(m) == [m];
    } else {
      assert m + tail == m + ":" + tail[1..];
      SplitAtFirstColon(m, tail[1..]);
    }
    assert Split(s)[0] == h && Split(s)[1] == m;
  }

  /** An unpadded hour reads as its value. */
  lemma UnpaddedHour()
    ensures TimeToMinutes("9:30") == Num(570)
  {
    TimeOfDigits("9", "30", "");
    assert "9" + ":" + "30" + "" == "9:30";
    assert DigitsValue("30") == 30 by { assert "30"[..1] == "3"; }
  }

  /** An unpadded minute reads as its value: "7:5" is 7:05, not 7:50. */
  lemma UnpaddedMinute()
    ensures TimeToMinutes("7:5") == Num(425)
  {
    TimeOfDigits("7", "5", "");
    assert "7" + ":" + "5" + "" == "7:5";
  }

  /** An hour out of range is read as is: "24:00" is minute 1440, past the end of the day. */
  lemma HourOutOfRange()
    ensures TimeToMinutes("24:00") == Num(1440)
  {
    TimeOfDigits("24", "00", "");
    assert "24" + ":" + "00" + "" == "24:00";
    assert DigitsValue("24") == 24 by { assert "24"[..1] == "2"; }
    assert DigitsValue("00") == 0 by { assert "00"[..1] == "0"; }
  }

  function DigitChar(d: int): char
    requires 0 <= d < 10
  {
    ('0' as int + d) as char
  }

  /** Two-digit, zero-padded decimal text of 0..99. */
  function TwoDigits(v: int): (s: string)
    requires 0 <= v < 100
    ensures |s| == 2 && AllDigits(s) && DigitsValue(s) == v
  {
    var s := [DigitChar(v / 10), DigitChar(v % 10)];
    assert s[..1] == [DigitChar(v / 10)];
    assert s[..1][..0] == [];
    assert DigitsValue(s[..1]) == v / 10;
    s
  }

  /** The "HH:MM" text of a time of day. */
  function FormatTime(hours: int, minutes: int): string
    requires 0 <= hours < 24 && 0 <= minutes < 60
  {
    TwoDigits(hours) + ":" + TwoDigits(minutes)
  }

  /** Parsing a formatted time of day gives back its minute of the day. */
  lemma TimeRoundTrip(hours: int, minutes: int)
    requires 0 <= hours < 24 && 0 <= minutes < 60
    ensures TimeToMinutes(FormatTime(hours, minutes)) == Num(hours * 60 + minutes)
  {
    TimeOfDigits(TwoDigits(hours), TwoDigits(minutes), "");
    assert FormatTime(hours, minutes) == TwoDigits(hours) + ":" + TwoDigits(minutes) + "";
  }

  // ---------------------------------------------------------------------
  // Store status

  const MinutesPerDay: int := 24 * 60

  datatype StoreStatus = StoreStatus(isOpen: bool, message: string, color: string)

  const ClosingSoonColor: string := "bg-yellow-500/20"
  const OpenColor: string := "bg-green-500/20"
  const ClosedColor: string := "bg-red-500/20"

  predicate EndsWith(s: string, suffix: string) {
    |suffix| <= |s| && s[|s| - |suffix|..] == suffix
  }

  /** The open/closed test on minutes of the day, for a same-day or an overnight window. */
  predicate IsOpenAt(now: Num, open: Num, close: Num) {
    if Gt(close, open) then Ge(now, open) && Gt(close, now)
    else Ge(now, open) || Gt(close, now)
  }

  /** Minutes left until closing, counted across midnight for an overnight window. */
  function MinutesUntilClose(now: Num, open: Num, close: Num): Num {
    if Gt(close, open) then Sub(close, now)
    else if Ge(now, open) then Sub(Add(Num(MinutesPerDay), close), now)
    else Sub(close, now)
  }

  /**
   * `calculateStoreStatus`: open or closed at minute `nowMinute` of the day,
   * with the closing-soon message within 30 minutes of closing.
   */
  function CalculateStoreStatus(openingTime: string, closingTime: string, nowMinute: int): (s: StoreStatus)
    requires 0 <= nowMinute < MinutesPerDay
    ensures var open := TimeToMinutes(openingTime);
      var close := TimeToMinutes(closingTime);
      var left := MinutesUntilClose(Num(nowMinute), open, close);
      && s.isOpen == IsOpenAt(Num(nowMinute), open, close)
      && (s.isOpen && left.Num? && left.n <= 30 <==> s.color == ClosingSoonColor)
      && (s.isOpen && !(left.Num? && left.n <= 30) <==> s.color == OpenColor)
      && (!s.isOpen <==> s.color == ClosedColor)
      && (s.isOpen ==> EndsWith(s.message, closingTime))
      && (!s.isOpen ==> EndsWith(s.message, openingTime))
  {
    var now := Num(nowMinute);
    var open := TimeToMinutes(openingTime);
    var close := TimeToMinutes(closingTime);
    if IsOpenAt(now, open, close) then
      var left := MinutesUntilClose(now, open, close);
      if left.Num? && left.n <= 30 then
        StoreStatus(true, "مفتوح - يغلق الساعة " + closingTime, ClosingSoonColor)
      else
        StoreStatus(true, "مفتوح حتى " + closingTime, OpenColor)
    else
      StoreStatus(false, "مغلق - يفتح الساعة " + openingTime, ClosedColor)
  }

  /** A same-day window (closing after opening) is open exactly from opening up to closing. */
  lemma SameDayWindow(now: int, open: int, close: int)
    requires close > open
    ensures IsOpenAt(Num(now), Num(open), Num(close)) <==> open <= now < close
  {
  }

  /**
   * An overnight window (closing at or before opening) is open from opening
   * to midnight and from midnight up to closing; equal times mean always open.
   */
  lemma OvernightWindow(now: int, open: int, close: int)
    requires close <= open
    ensures IsOpenAt(Num(now), Num(open), Num(close)) <==> now >= open || now < close
    ensures open == close ==> IsOpenAt(Num(now), Num(open), Num(close))
  {
  }

  /** Unparseable opening and closing times leave the store closed. */
  lemma UnparseableIsClosed(now: Num)
    ensures !IsOpenAt(now, NaN, NaN)
  {
  }

  /** While the store is open, closing is between 1 and 1440 minutes away. */
  lemma MinutesUntilCloseBounds(now: int, open: int, close: int)
    requires 0 <= now < MinutesPerDay && 0 <= open < MinutesPerDay && 0 <= close < MinutesPerDay
    requires IsOpenAt(Num(now), Num(open), Num(close))
    ensures var left := MinutesUntilClose(Num(now), Num(open), Num(close));
      left.Num? && 1 <= left.n <= MinutesPerDay
  {
  }

  /**
   * For opening and closing times that parse to minutes of the day, the
   * banner is yellow exactly when the store is open and closes within
   * 30 minutes, green when it is open for longer, red when it is closed.
   */
  lemma ColourBands(openingTime: string, closingTime: string, nowMinute: int, open: int, close: int)
    requires 0 <= nowMinute < MinutesPerDay && 0 <= open < MinutesPerDay && 0 <= close < MinutesPerDay
    requires TimeToMinutes(openingTime) == Num(open) && TimeToMinutes(closingTime) == Num(close)
    ensures var s := CalculateStoreStatus(openingTime, closingTime, nowMinute);
      var left := MinutesUntilClose(Num(nowMinute), Num(open), Num(close));
      && (s.isOpen <==> if close > open then open <= nowMinute < close
                        else nowMinute >= open || nowMinute < close)
      && (s.isOpen ==> left.Num? && 1 <= left.n <= MinutesPerDay)
      && (s.color == ClosingSoonColor <==> s.isOpen && left.n <= 30)
      && (s.color == OpenColor <==> s.isOpen && left.n > 30)
      && (s.color == ClosedColor <==> !s.isOpen)
  {
    if IsOpenAt(Num(nowMinute), Num(open), Num(close)) {
      MinutesUntilCloseBounds(nowMinute, open, close);
    }
  }

  // ---------------------------------------------------------------------
  // Settings

  /** One entry of the UI settings list; an empty value stands for a falsy one. */
  datatype Setting = Setting(key: string, value: string)

  /** The position of the first entry with the key, `|list|` when there is none. */
  function FirstIndexOf(list: seq<Setting>, key: string): (i: nat)
    ensures i <= |list|
    ensures i < |list| ==> list[i].key == key
    ensures forall j :: 0 <= j < i ==> list[j].key != key
  {
    if list == [] then 0
    else if list[0].key == key then 0
    else 1 + FirstIndexOf(list[1..], key)
  }

  /** `settings?.find(s => s.key === key)`: the first entry with the key. */
  function FindSetting(settings: Option<seq<Setting>>, key: string): (r: Option<Setting>)
    ensures r.Some? <==> settings.Some? && exists i :: 0 <= i < |settings.value| && settings.value[i].key == key
    ensures r.Some? ==> exists i :: (0 <= i < |settings.value| && settings.value[i] == r.value
      && r.value.key == key && forall j :: 0 <= j < i ==> settings.value[j].key != key)
  {
    match settings
    case None => None
    case Some(list) =>
      var i := FirstIndexOf(list, key);
      if i < |list| then Some(list[i]) else None
  }

  /** `...?.value || fallback`. */
  function SettingOr(settings: Option<seq<Setting>>, key: string, fallback: string): (v: string)
    ensures var found := FindSetting(settings, key);
      && (found.Some? && found.value.value != "" ==> v == found.value.value)
      && (found == None || found.value.value == "" ==> v == fallback)
  {
    var found := FindSetting(settings, key);
    if found.Some? && found.value.value != "" then found.value.value else fallback
  }

  /**
   * The opening time shown: the value of the first `opening_time` setting,
   * "11:00" when there is none or its value is empty.
   */
  function OpeningTime(settings: Option<seq<Setting>>): (t: string)
    ensures settings == None ==> t == "11:00"
    ensures var found := FindSetting(settings, "opening_time");
      && (found.Some? && found.value.value != "" ==> t == found.value.value)
      && (found == None || found.value.value == "" ==> t == "11:00")
    ensures t == "11:00" || exists i :: 0 <= i < |settings.value| && settings.value[i].key == "opening_time"
                                       && settings.value[i].value == t
  {
    SettingOr(settings, "opening_time", "11:00")
  }

  /**
   * The closing time shown: the value of the first `closing_time` setting,
   * "23:00" when there is none or its value is empty.
   */
  function ClosingTime(settings: Option<seq<Setting>>): (t: string)
    ensures settings == None ==> t == "23:00"
    ensures var found := FindSetting(settings, "closing_time");
      && (found.Some? && found.value.value != "" ==> t == found.value.value)
      && (found == None || found.value.value == "" ==> t == "23:00")
    ensures t == "23:00" || exists i :: 0 <= i < |settings.value| && settings.value[i].key == "closing_time"
                                       && settings.value[i].value == t
  {
    SettingOr(settings, "closing_time", "23:00")
  }

  /** The two default times, read as minutes of the day. */
  lemma DefaultTimesParse()
    ensures TimeToMinutes("11:00") == Num(660)
    ensures TimeToMinutes("23:00") == Num(1380)
  {
    OpeningDefaultParses();
    ClosingDefaultParses();
  }

  lemma OpeningDefaultParses()
    ensures TimeToMinutes("11:00") == Num(660)
  {
    TimeRoundTrip(11, 0);
    assert FormatTime(11, 0) == "11:00";
  }

  lemma ClosingDefaultParses()
    ensures TimeToMinutes("23:00") == Num(1380)
  {
    TimeRoundTrip(23, 0);
    assert FormatTime(23, 0) == "23:00";
  }

  /** With no settings at all the store is open from 11:00 up to 23:00. */
  lemma DefaultHours(nowMinute: int)
    requires 0 <= nowMinute < MinutesPerDay
    ensures CalculateStoreStatus(OpeningTime(None), ClosingTime(None), nowMinute).isOpen
            <==> 660 <= nowMinute < 1380
  {
    DefaultTimesParse();
  }
}
