/** The text of an HTTP date: what the formatter must produce for a broken-down time. */
module HttpDate {
  import opened Ring

  /** The broken-down time that `gmtime_r` fills in; `year` counts from 1900. */
  datatype Fields = Fields(wday: int, mday: int, mon: int, year: int, hour: int, min: int, sec: int)

  /** The ranges the C library promises for a broken-down time. */
  predicate Civil(t: Fields) {
    0 <= t.wday < 7 && 1 <= t.mday <= 31 && 0 <= t.mon < 12
    && 0 <= t.hour < 24 && 0 <= t.min < 60 && 0 <= t.sec <= 60
  }

  type Tm = t: Fields | Civil(t) witness Fields(4, 1, 0, 70, 0, 0, 0)

  /** The shown year: `tm_year + 1900` kept in an `unsigned short`. */
  function Year(t: Tm): (y: nat) { (t.year + 1900) % 65536 }

  const WeekDays: seq<string> := ["Sun, ", "Mon, ", "Tue, ", "Wed, ", "Thu, ", "Fri, ", "Sat, "]

  const Months: seq<string> := ["Jan ", "Feb ", "Mar ", "Apr ", "May ", "Jun ",
                                "Jul ", "Aug ", "Sep ", "Oct ", "Nov ", "Dec "]

  function Digit(d: nat): (c: char)
    requires d < 10
    ensures c == "0123456789"[d]
  {
    '0' + d as char
  }

  /** The last `width` decimal digits of `n`. */
  function Decimal(n: nat, width: nat): (s: string)
    ensures |s| == width
  {
    if width == 0 then [] else Decimal(n / 10, width - 1) + [Digit(n % 10)]
  }

  function Pow10(k: nat): (p: nat)
    ensures p > 0
  {
    if k == 0 then 1 else 10 * Pow10(k - 1)
  }

  /** The number a digit string denotes. */
  function Value(s: string): int {
    if s == [] then 0 else 10 * Value(s[..|s| - 1]) + (s[|s| - 1] as int - '0' as int)
  }

  lemma TenMod(n: nat, m: nat)
    requires m > 0
    ensures n % (10 * m) == 10 * (n / 10 % m) + n % 10
  {
    var q, r := n / 10 / m, n / 10 % m;
    DivMod(n / 10, m);
    assert n / 10 == m * q + r && r < m;
    assert n == 10 * (m * q) + (10 * r + n % 10);
    assert (10 * m) * q == 10 * (m * q);
    ModUnique(n, 10 * m, q, 10 * r + n % 10);
  }

  lemma {:induction false} DecimalDenotes(n: nat, width: nat)
    ensures Value(Decimal(n, width)) == n % Pow10(width)
  {
    if width > 0 {
      var s := Decimal(n, width);
      assert s[..width - 1] == Decimal(n / 10, width - 1);
      DecimalDenotes(n / 10, width - 1);
      TenMod(n, Pow10(width - 1));
    }
  }

  /** The digits depend on nothing but the number they denote. */
  lemma {:induction false} DecimalOf(x: nat, y: nat, width: nat)
    requires x % Pow10(width) == y % Pow10(width)
    ensures Decimal(x, width) == Decimal(y, width)
  {
    if width > 0 {
      TenMod(x, Pow10(width - 1));
      TenMod(y, Pow10(width - 1));
      DecimalOf(x / 10, y / 10, width - 1);
    }
  }

  lemma Powers()
    ensures Pow10(2) == 100 && Pow10(4) == 10000
  {
    assert Pow10(1) == 10;
    assert Pow10(3) == 1000;
  }

  /** The text of section 3.3.1 of RFC 2616, a line break and the terminating NUL. */
  function Text(t: Tm): (s: string)
    ensures |s| == 32
  {
    WeekDays[t.wday] + Decimal(t.mday, 2) + " " + Months[t.mon] + Decimal(Year(t), 4) + " "
    + Decimal(t.hour, 2) + ":" + Decimal(t.min, 2) + ":" + Decimal(t.sec, 2) + " GMT\r\n\0"
  }

  lemma FieldsInPlace(t: Tm)
    ensures Text(t)[..5] == WeekDays[t.wday] && Text(t)[8..12] == Months[t.mon]
    ensures Text(t)[5..7] == Decimal(t.mday, 2) && Text(t)[12..16] == Decimal(Year(t), 4)
    ensures Text(t)[17..19] == Decimal(t.hour, 2) && Text(t)[20..22] == Decimal(t.min, 2)
    ensures Text(t)[23..25] == Decimal(t.sec, 2)
  {}

  /** The names stand where they are expected, and so does everything between the numbers. */
  lemma NamesShown(t: Tm)
    ensures Text(t)[..3] == "SunMonTueWedThuFriSat"[3 * t.wday..3 * t.wday + 3]
    ensures Text(t)[8..11] == if t.mon < 6 then "JanFebMarAprMayJun"[3 * t.mon..3 * t.mon + 3]
                              else "JulAugSepOctNovDec"[3 * t.mon - 18..3 * t.mon - 15]
    ensures Text(t)[3..5] == ", " && Text(t)[7] == Text(t)[11] == Text(t)[16] == ' '
    ensures Text(t)[19] == Text(t)[22] == ':' && Text(t)[25..] == " GMT\r\n\0"
  {
    hide Decimal;
    FieldsInPlace(t);
    DayNamed(t.wday);
    MonthNamed(t.mon);
    hide WeekDays, Months;
    assert Text(t)[..3] == Text(t)[..5][..3] && Text(t)[3..5] == Text(t)[..5][3..];
    assert Text(t)[8..11] == Text(t)[8..12][..3] && Text(t)[11] == Text(t)[8..12][3];
  }

  lemma DayNamed(d: nat)
    requires d < 7
    ensures WeekDays[d] == "SunMonTueWedThuFriSat"[3 * d..3 * d + 3] + ", "
  {
    var names := "SunMonTueWedThuFriSat";
    assert names[0..3] == "Sun";
    assert names[3..6] == "Mon";
    assert names[6..9] == "Tue";
    assert names[9..12] == "Wed";
    assert names[12..15] == "Thu";
    assert names[15..18] == "Fri";
    assert names[18..21] == "Sat";
  }

  lemma MonthNamed(m: nat)
    requires m < 12
    ensures Months[m] == (if m < 6 then "JanFebMarAprMayJun"[3 * m..3 * m + 3]
                          else "JulAugSepOctNovDec"[3 * m - 18..3 * m - 15]) + " "
  {
    var first, second := "JanFebMarAprMayJun", "JulAugSepOctNovDec";
    assert first[0..3] == "Jan" && second[0..3] == "Jul";
    assert first[3..6] == "Feb" && second[3..6] == "Aug";
    assert first[6..9] == "Mar" && second[6..9] == "Sep";
    assert first[9..12] == "Apr" && second[9..12] == "Oct";
    assert first[12..15] == "May" && second[12..15] == "Nov";
    assert first[15..18] == "Jun" && second[15..18] == "Dec";
  }

  lemma TwoDigits(n: nat)
    requires n < 100
    ensures Value(Decimal(n, 2)) == n
  {
    DecimalDenotes(n, 2);
    Powers();
  }

  /** What the text tells, read back by position. */
  lemma ReadBack(t: Tm)
    ensures Value(Text(t)[5..7]) == t.mday && Value(Text(t)[12..16]) == Year(t) % 10000
    ensures Value(Text(t)[17..19]) == t.hour && Value(Text(t)[20..22]) == t.min
    ensures Value(Text(t)[23..25]) == t.sec
  {
    hide Text, Value, Decimal, Pow10;
    FieldsInPlace(t);
    TwoDigits(t.mday);
    TwoDigits(t.hour);
    TwoDigits(t.min);
    TwoDigits(t.sec);
    DecimalDenotes(Year(t), 4);
    Powers();
  }

  /** The shown year is the true one exactly in the years 0 to 9999. */
  lemma YearShown(t: Tm)
    ensures Value(Text(t)[12..16]) == (t.year + 1900) % 65536 % 10000
    ensures Value(Text(t)[12..16]) == t.year + 1900 <==> 0 <= t.year + 1900 < 10000
  {
    hide Text, Value;
    ReadBack(t);
  }

  lemma NamesDiffer(a: Tm, b: Tm)
    ensures WeekDays[a.wday] == WeekDays[b.wday] ==> a.wday == b.wday
    ensures Months[a.mon] == Months[b.mon] ==> a.mon == b.mon
  {
    assert WeekDays[a.wday][0] == WeekDays[b.wday][0] && WeekDays[a.wday][1] == WeekDays[b.wday][1] ==>
        a.wday == b.wday;
    var m, n := Months[a.mon], Months[b.mon];
    assert m[0] == n[0] && m[1] == n[1] && m[2] == n[2] ==> a.mon == b.mon;
  }

  /** Two times have the same text exactly when they agree in every shown field. */
  lemma TextTells(a: Tm, b: Tm)
    ensures Text(a) == Text(b) <==>
      && a.wday == b.wday && a.mday == b.mday && a.mon == b.mon && Year(a) % 10000 == Year(b) % 10000
      && a.hour == b.hour && a.min == b.min && a.sec == b.sec
  {
    ReadBack(a);
    ReadBack(b);
    if Text(a) == Text(b) {
      FieldsInPlace(a);
      FieldsInPlace(b);
      NamesDiffer(a, b);
    } else if Year(a) % 10000 == Year(b) % 10000 {
      Powers();
      DecimalOf(Year(a), Year(b), 4);
    }
  }
}

/** The ten-slot cache of date texts and the formatter in front of it. */
module GmtCache {
  import opened Bytes
  import opened HttpDate

  const SLOTS: nat := 10
  const SIZE: int := 31

  datatype Slot = Slot(time: int, text: string, hits: nat)

  /** The text a direct conversion of `date` gives, if the C library can convert it. */
  function Direct(gm: int -> Option<Tm>, date: int): (r: Option<string>) {
    if gm(date).Some? then Some(Text(gm(date).value)) else None
  }

  /** A slot is empty (time 0) or holds the direct text of its time. */
  predicate Sound(gm: int -> Option<Tm>, s: Slot) {
    |s.text| == 32 && (s.time != 0 ==> Direct(gm, s.time) == Some(s.text))
  }

  /** The time a call is about: the current one when asked for 0. */
  function Wanted(date: int, now: int): int { if date == 0 then now else date }

  /** `s` with `t` laid over it from position `p`. */
  function Overlay(s: string, p: nat, t: string): (r: string)
    requires p + |t| <= |s|
    ensures |r| == |s|
  {
    s[..p] + t + s[p + |t|..]
  }

  lemma OverlayNext(s: string, p: nat, t: string, u: string)
    requires p + |t| + |u| <= |s|
    ensures Overlay(Overlay(s, p, t), p + |t|, u) == Overlay(s, p, t + u)
  {}

  /** `memcpy` of `t` to `buf + p`; the result is the advanced position. */
  method Put(buf: array<char>, p: nat, t: string) returns (q: nat)
    requires p + |t| <= buf.Length
    modifies buf
    ensures q == p + |t| && buf[..] == Overlay(old(buf[..]), p, t)
  {
    ghost var was := buf[..];
    for i := 0 to |t|
      invariant buf[..] == Overlay(was, p, t[..i])
    {
      assert t[..i + 1] == t[..i] + [t[i]];
      OverlayNext(was, p, t[..i], [t[i]]);
      buf[p + i] := t[i];
    }
    assert t[..|t|] == t;
    q := p + |t|;
  }

  /** Two digits and the character after them. */
  method PutTwo(buf: array<char>, p: nat, n: nat, after: string) returns (q: nat)
    requires n < 100 && p + 2 + |after| <= buf.Length
    modifies buf
    ensures q == p + 2 + |after| && buf[..] == Overlay(old(buf[..]), p, Decimal(n, 2) + after)
  {
    ghost var was := buf[..];
    assert Decimal(n, 1) == [Digit(n % 10)] && Decimal(n / 10, 1) == [Digit(n / 10 % 10)];
    buf[p] := Digit(n / 10);
    buf[p + 1] := Digit(n % 10);
    assert buf[..] == Overlay(was, p, Decimal(n, 2));
    q := Put(buf, p + 2, after);
    OverlayNext(was, p, Decimal(n, 2), after);
  }

  method PutYear(buf: array<char>, p: nat, year: nat) returns (q: nat)
    requires p + 5 <= buf.Length
    modifies buf
    ensures q == p + 5 && buf[..] == Overlay(old(buf[..]), p, Decimal(year, 4) + " ")
  {
    ghost var was := buf[..];
    FourDigits(year);
    buf[p] := Digit(year / 1000 % 10);
    buf[p + 1] := Digit(year / 100 % 10);
    buf[p + 2] := Digit(year / 10 % 10);
    buf[p + 3] := Digit(year % 10);
    assert buf[..] == Overlay(was, p, Decimal(year, 4));
    q := Put(buf, p + 4, " ");
    OverlayNext(was, p, Decimal(year, 4), " ");
  }

  lemma FourDigits(y: nat)
    ensures Decimal(y, 4) == [Digit(y / 1000 % 10), Digit(y / 100 % 10), Digit(y / 10 % 10), Digit(y % 10)]
  {
    assert y / 10 / 10 == y / 100 && y / 100 / 10 == y / 1000;
    assert Decimal(y / 1000, 1) == [Digit(y / 1000 % 10)];
    assert Decimal(y / 100, 2) == Decimal(y / 1000, 1) + [Digit(y / 100 % 10)];
    assert Decimal(y / 10, 3) == Decimal(y / 100, 2) + [Digit(y / 10 % 10)];
  }

  /** The composing half of the conversion, writing through a moving position. */
  method Compose(buf: array<char>, t: Tm)
    requires buf.Length >= 32
    modifies buf
    ensures buf[..] == Text(t) + old(buf[32..])
  {
    hide Text, Decimal, Day, Clock;
    ghost var was := buf[..];
    ComposeDay(buf, t);
    ComposeClock(buf, 17, t);
    OverlayNext(was, 0, Day(t), Clock(t));
    DayAndClock(t);
    assert was[..0] == [];
  }

  lemma DayAndClock(t: Tm)
    ensures Day(t) + Clock(t) == Text(t)
  {}

  ghost function Day(t: Tm): (s: string)
    ensures |s| == 17
  {
    WeekDays[t.wday] + (Decimal(t.mday, 2) + " ") + Months[t.mon] + (Decimal(Year(t), 4) + " ")
  }

  method ComposeDay(buf: array<char>, t: Tm)
    requires buf.Length >= 17
    modifies buf
    ensures buf[..] == Overlay(old(buf[..]), 0, Day(t))
  {
    hide Text, Decimal, Overlay;
    ghost var was := buf[..];
    ghost var day := WeekDays[t.wday] + (Decimal(t.mday, 2) + " ");
    var p := Put(buf, 0, WeekDays[t.wday]);
    p := PutTwo(buf, p, t.mday, " ");
    OverlayNext(was, 0, WeekDays[t.wday], Decimal(t.mday, 2) + " ");
    p := Put(buf, p, Months[t.mon]);
    OverlayNext(was, 0, day, Months[t.mon]);
    p := PutYear(buf, p, Year(t));
    OverlayNext(was, 0, day + Months[t.mon], Decimal(Year(t), 4) + " ");
  }

  ghost function Clock(t: Tm): (s: string)
    ensures |s| == 15
  {
    Decimal(t.hour, 2) + ":" + (Decimal(t.min, 2) + ":") + (Decimal(t.sec, 2) + " GMT\r\n\0")
  }

  method ComposeClock(buf: array<char>, start: nat, t: Tm)
    requires start + 15 <= buf.Length
    modifies buf
    ensures buf[..] == Overlay(old(buf[..]), start, Clock(t))
  {
    ghost var was := buf[..];
    var p := PutTwo(buf, start, t.hour, ":");
    p := PutTwo(buf, p, t.min, ":");
    OverlayNext(was, start, Decimal(t.hour, 2) + ":", Decimal(t.min, 2) + ":");
    ghost var hm := Decimal(t.hour, 2) + ":" + (Decimal(t.min, 2) + ":");
    assert p == start + |hm|;
    p := PutTwo(buf, p, t.sec, " GMT\r\n\0");
    OverlayNext(was, start, hm, Decimal(t.sec, 2) + " GMT\r\n\0");
  }

  /** One worker's cache; `gm` stands for `gmtime_r`. */
  class Cache {
    const gm: int -> Option<Tm>
    const slots: array<Slot>

    ghost predicate Valid()
      reads this, slots
    {
      slots.Length == SLOTS && forall i :: 0 <= i < SLOTS ==> Sound(gm, slots[i])
    }

    /** Zeroed memory: ten empty slots. */
    constructor (gmtime: int -> Option<Tm>)
      ensures Valid() && fresh(slots) && gm == gmtime
      ensures forall i :: 0 <= i < SLOTS ==> slots[i].time == 0 && slots[i].hits == 0
    {
      gm := gmtime;
      slots := new Slot[SLOTS](_ => Slot(0, seq(32, _ => '\0'), 0));
    }

    /** The first slot of that time answers, and is one hit richer. */
    method Get(buf: array<char>, date: int) returns (hit: bool)
      requires Valid() && date != 0 && buf.Length >= 32
      modifies buf, slots
      ensures Valid()
      ensures hit <==> exists i :: 0 <= i < SLOTS && old(slots[i]).time == date
      ensures !hit ==> slots[..] == old(slots[..]) && buf[..] == old(buf[..])
      ensures hit ==> Direct(gm, date).Some? && buf[..] == Direct(gm, date).value + old(buf[32..])
      ensures hit ==> exists i :: FirstAt(old(slots[..]), date, i) && slots[..] == Raised(old(slots[..]), i)
    {
      for i := 0 to SLOTS
        invariant forall j :: 0 <= j < i ==> slots[j].time != date
        invariant slots[..] == old(slots[..]) && buf[..] == old(buf[..]) && Valid()
      {
        if slots[i].time == date {
          ghost var was := buf[..];
          var s := slots[i];
          var q := Put(buf, 0, s.text);
          slots[i] := s.(hits := s.hits + 1);
          assert buf[..] == s.text + was[32..];
          assert FirstAt(old(slots[..]), date, i) && slots[..] == Raised(old(slots[..]), i);
          return true;
        }
      }
      return false;
    }

    /** The first of the least-used slots is overwritten; the rest stay. */
    method Add(text: string, time: int)
      requires Valid() && Direct(gm, time) == Some(text)
      modifies slots
      ensures Valid()
      ensures exists m ::
                LeastUsed(old(slots[..]), m) && slots[..] == old(slots[..])[m := Slot(time, text, 1)]
    {
      var min := 0;
      for i := 1 to SLOTS
        invariant 0 <= min < i
        invariant forall j :: 0 <= j < i ==> slots[min].hits <= slots[j].hits
        invariant forall j :: 0 <= j < min ==> slots[min].hits < slots[j].hits
      {
        if slots[i].hits < slots[min].hits { min := i; }
      }
      assert LeastUsed(slots[..], min);
      slots[min] := Slot(time, text, 1);
    }

    /**
      * The conversion. Whatever the cache holds, the buffer ends with the direct
      * text of the wanted time; -1 exactly when the clock or the C library fails.
      */
    method Utime2Gmt(buf: array<char>, date: int, now: int) returns (r: int)
      requires Valid() && buf.Length >= 32
      modifies buf, slots
      ensures Valid()
      ensures r == 31 || r == -1
      ensures r == -1 <==> (date == 0 && now == -1) || Direct(gm, Wanted(date, now)).None?
      ensures r == -1 ==> buf[..] == old(buf[..]) && slots[..] == old(slots[..])
      ensures r == 31 ==> buf[..] == Direct(gm, Wanted(date, now)).value + old(buf[32..])
      ensures r == 31 ==> exists i :: 0 <= i < SLOTS && slots[i].time == Wanted(date, now)
    {
      var wanted := date;
      if date == 0 {
        wanted := now;
        if wanted == -1 { return -1; }
      } else {
        var hit := Get(buf, date);
        if hit {
          ghost var i :| FirstAt(old(slots[..]), date, i) && slots[..] == Raised(old(slots[..]), i);
          assert slots[..][i].time == date;
          return SIZE;
        }
      }
      var tm := gm(wanted);
      if tm.None? { return -1; }
      Compose(buf, tm.value);
      assert buf[..32] == Text(tm.value);
      Add(buf[..32], wanted);
      ghost var m :| 0 <= m < SLOTS && slots[..] == old(slots[..])[m := Slot(wanted, Text(tm.value), 1)];
      assert slots[..][m].time == wanted;
      return SIZE;
    }

    /** Any sequence of calls: every answer is the direct text of its own time. */
    method Session(calls: seq<(int, int)>) returns (answers: seq<Option<string>>)
      requires Valid()
      modifies slots
      ensures Valid() && |answers| == |calls|
      ensures forall k :: 0 <= k < |calls| ==>
        answers[k] == if calls[k] == (0, -1) then None else Direct(gm, Wanted(calls[k].0, calls[k].1))
    {
      answers := [];
      for k := 0 to |calls|
        invariant Valid() && |answers| == k
        invariant forall j :: 0 <= j < k ==>
          answers[j] == if calls[j] == (0, -1) then None else Direct(gm, Wanted(calls[j].0, calls[j].1))
      {
        var buf := new char[32];
        var r := Utime2Gmt(buf, calls[k].0, calls[k].1);
        assert buf[32..] == [] && buf[..] == buf[..32];
        answers := answers + [if r == -1 then None else Some(buf[..])];
      }
    }
  }

  /** `i` is the first slot of that time. */
  ghost predicate FirstAt(slots: seq<Slot>, date: int, i: int) {
    0 <= i < |slots| && slots[i].time == date && forall j :: 0 <= j < i ==> slots[j].time != date
  }

  ghost function Raised(slots: seq<Slot>, i: int): seq<Slot>
    requires 0 <= i < |slots|
  {
    slots[i := slots[i].(hits := slots[i].hits + 1)]
  }

  /** `m` is the first slot whose hit count no other slot undercuts. */
  ghost predicate LeastUsed(slots: seq<Slot>, m: int) {
    && 0 <= m < |slots|
    && (forall j :: 0 <= j < |slots| ==> slots[m].hits <= slots[j].hits)
    && (forall j :: 0 <= j < m ==> slots[m].hits < slots[j].hits)
  }
}
