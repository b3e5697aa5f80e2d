/** The activation window: a trigger time is due when it lies between
    `nowMax` (the time 59 minutes ago) and `now`, both rendered "HHMM",
    compared as strings. */
module Window {
  import opened Text

  /** What the handler reads from the clock once per region: `now` and
      `nowMax` as "%H%M" strings and the lower-cased "%a" day name. */
  datatype Clock = Clock(now: string, nowMax: string, nowDay: string)

  /** `nowMax <= t <= now` under Python's string order. */
  predicate InWindow(t: string, c: Clock)
  {
    LexLe(c.nowMax, t) && LexLe(t, c.now)
  }

  /** A window that holds anything at all is ordered: `nowMax <= now`.
      So when `nowMax` sorts after `now` (the hour after midnight),
      no trigger time is ever due. */
  lemma WindowNonEmptyOnlyIfOrdered(t: string, c: Clock)
    ensures InWindow(t, c) ==> LexLe(c.nowMax, c.now)
  {
    if InWindow(t, c) {
      LexLeTransitive(c.nowMax, t, c.now);
    }
  }

  const MinutesPerDay := 1440

  /** The polling look-back of the handler, in minutes. */
  const LookBack := 59

  function DigitChar(d: int): (c: char)
    requires 0 <= d < 10
    ensures '0' <= c <= '9'
  {
    ('0' as int + d) as char
  }

  /** `strftime("%H%M")` of the minute `m` of the day. */
  function Hhmm(m: int): (s: string)
    requires 0 <= m < MinutesPerDay
    ensures |s| == 4
    ensures forall i :: 0 <= i < 4 ==> '0' <= s[i] <= '9'
  {
    var h := m / 60;
    var mm := m % 60;
    [DigitChar(h / 10), DigitChar(h % 10), DigitChar(mm / 10), DigitChar(mm % 10)]
  }

  /** `(now - timedelta(minutes=59)).strftime("%H%M")`: the clock time
      59 minutes earlier, wrapping to the previous day. */
  function NowMax(m: int): string
    requires 0 <= m < MinutesPerDay
  {
    Hhmm((m - LookBack) % MinutesPerDay)
  }

  /** The clock the handler reads at minute `m` of day `day`. */
  function ClockAt(m: int, day: string): Clock
    requires 0 <= m < MinutesPerDay
  {
    Clock(Hhmm(m), NowMax(m), day)
  }

  lemma LexLeStep(s: string, t: string)
    requires s != [] && t != []
    ensures LexLe(s, t) <==> s[0] < t[0] || (s[0] == t[0] && LexLe(s[1..], t[1..]))
  {
  }

  lemma LexLeFourChars(s: string, t: string)
    requires |s| == 4 && |t| == 4
    ensures LexLe(s, t) <==>
      s[0] < t[0] || (s[0] == t[0] &&
      (s[1] < t[1] || (s[1] == t[1] &&
      (s[2] < t[2] || (s[2] == t[2] && s[3] <= t[3])))))
  {
    LexLeStep(s, t);
    LexLeStep(s[1..], t[1..]);
    LexLeStep(s[2..], t[2..]);
    LexLeStep(s[3..], t[3..]);
    assert s[1..][1..] == s[2..] && t[1..][1..] == t[2..];
    assert s[2..][1..] == s[3..] && t[2..][1..] == t[3..];
    assert s[3..][1..] == [] && t[3..][1..] == [];
  }

  /** Rendered times sort as the minutes they stand for. */
  lemma HhmmOrder(a: int, b: int)
    requires 0 <= a < MinutesPerDay && 0 <= b < MinutesPerDay
    ensures LexLe(Hhmm(a), Hhmm(b)) <==> a <= b
  {
    LexLeFourChars(Hhmm(a), Hhmm(b));
    var ha, ma, hb, mb := a / 60, a % 60, b / 60, b % 60;
    assert a == 600 * (ha / 10) + 60 * (ha % 10) + 10 * (ma / 10) + ma % 10;
    assert b == 600 * (hb / 10) + 60 * (hb % 10) + 10 * (mb / 10) + mb % 10;
  }

  /** The midnight wrap: the window is ordered exactly from 00:59 on; in the
      first 59 minutes of the day `nowMax` ("23xx") sorts after `now`. */
  lemma WindowOrderedIffPastLookBack(m: int)
    requires 0 <= m < MinutesPerDay
    ensures LexLe(NowMax(m), Hhmm(m)) <==> m >= LookBack
  {
    if m >= LookBack {
      assert (m - LookBack) % MinutesPerDay == m - LookBack;
    } else {
      assert (m - LookBack) % MinutesPerDay == m - LookBack + MinutesPerDay;
    }
    HhmmOrder((m - LookBack) % MinutesPerDay, m);
  }

  /** From 00:59 on, a rendered trigger time is due exactly when it lies in
      the last 59 minutes, both ends included. */
  lemma RenderedWindow(m: int, t: int, day: string)
    requires LookBack <= m < MinutesPerDay && 0 <= t < MinutesPerDay
    ensures InWindow(Hhmm(t), ClockAt(m, day)) <==> m - LookBack <= t <= m
  {
    assert (m - LookBack) % MinutesPerDay == m - LookBack;
    HhmmOrder(m - LookBack, t);
    HhmmOrder(t, m);
  }

  /** Before 00:59 no trigger time of any form is due. */
  lemma NothingDueBeforeLookBack(m: int, t: string, day: string)
    requires 0 <= m < LookBack
    ensures !InWindow(t, ClockAt(m, day))
  {
    WindowOrderedIffPastLookBack(m);
    WindowNonEmptyOnlyIfOrdered(t, ClockAt(m, day));
  }
}
