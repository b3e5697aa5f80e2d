/** Reading a schedule tag value `start;stop;timezone;days` against the
    fleet defaults. */
module TagParser {
  import opened Text

  /** The values the handler reads once per run from its stack outputs. */
  datatype Defaults = Defaults(
    customTagName: string,
    defaultStartTime: string,
    defaultStopTime: string,
    defaultDaysActive: string,
    cloudWatchMetrics: string)

  /** The timezone every schedule starts from; it is never consulted again. */
  const DefaultTimeZone := "utc"

  /** The four variables the handler fills in for one matching tag. */
  datatype Schedule = Schedule(startTime: string, stopTime: string, timeZone: string, daysActive: string)

  /** Field 0 spelled "default" or "true", in any case. */
  predicate IsKeyword(field: string)
  {
    Lower(field) == "default" || Lower(field) == "true"
  }

  /** The schedule the fields of a tag resolve to, field by field: each of
      the four is fixed by the highest-numbered field that speaks for it, or
      by its default when none does. */
  function Resolve(fields: seq<string>, d: Defaults): Schedule
  {
    Schedule(
      startTime := if |fields| >= 1 && !IsKeyword(fields[0]) then fields[0] else d.defaultStartTime,
      stopTime := if |fields| >= 2 then fields[1]
                  else if |fields| >= 1 && !IsKeyword(fields[0]) then fields[0]
                  else d.defaultStopTime,
      timeZone := if |fields| >= 3 then Lower(fields[2]) else DefaultTimeZone,
      daysActive := if |fields| >= 4 then Lower(fields[3]) else d.defaultDaysActive)
  }

  /** The handler's parse of a tag value: split on ';', start from the
      defaults, then let each present field overwrite its variables in turn. */
  method ParseTag(value: string, d: Defaults) returns (s: Schedule)
    ensures s == Resolve(Split(value, ';'), d)
  {
    var ptag := Split(value, ';');
    var startTime, stopTime := d.defaultStartTime, d.defaultStopTime;
    var timeZone, daysActive := DefaultTimeZone, d.defaultDaysActive;
    if |ptag| >= 1 {
      if IsKeyword(ptag[0]) {
        startTime := d.defaultStartTime;
      } else {
        startTime := ptag[0];
        stopTime := ptag[0];
      }
    }
    if |ptag| >= 2 {
      stopTime := ptag[1];
    }
    if |ptag| >= 3 {
      timeZone := Lower(ptag[2]);
    }
    if |ptag| >= 4 {
      daysActive := Lower(ptag[3]);
    }
    s := Schedule(startTime, stopTime, timeZone, daysActive);
  }

  /** Fields after the fourth change nothing. */
  lemma ExtraFieldsIgnored(fields: seq<string>, d: Defaults)
    requires |fields| >= 4
    ensures Resolve(fields, d) == Resolve(fields[..4], d)
  {
  }

  /** A single time is used for both start and stop; everything else
      keeps its default. */
  lemma SingleTimeIsSymmetric(value: string, d: Defaults)
    requires ';' !in value && !IsKeyword(value)
    ensures Resolve(Split(value, ';'), d) ==
      Schedule(value, value, DefaultTimeZone, d.defaultDaysActive)
  {
    SplitOfPiece(value, ';');
  }

  /** The keyword restores the default start time and never copies it into
      the stop time: without field 1 the stop time stays the default stop time. */
  lemma KeywordKeepsDefaultStop(value: string, d: Defaults)
    requires ';' !in value && IsKeyword(value)
    ensures Resolve(Split(value, ';'), d) ==
      Schedule(d.defaultStartTime, d.defaultStopTime, DefaultTimeZone, d.defaultDaysActive)
  {
    SplitOfPiece(value, ';');
  }

  /** An empty tag value is one empty field: start and stop become "" and
      the timezone and days keep their defaults. */
  lemma EmptyValue(d: Defaults)
    ensures Resolve(Split("", ';'), d) == Schedule("", "", DefaultTimeZone, d.defaultDaysActive)
  {
    assert Split("", ';') == [""];
    assert Lower("") == "";
  }

  /** A full tag written from four separator-free fields resolves to
      exactly those fields, timezone and days lower-cased, no default used. */
  lemma FullTagRoundTrip(start: string, stop: string, tz: string, days: string, d: Defaults)
    requires ';' !in start && ';' !in stop && ';' !in tz && ';' !in days
    requires !IsKeyword(start)
    ensures Resolve(Split(Join([start, stop, tz, days], ';'), ';'), d) ==
      Schedule(start, stop, Lower(tz), Lower(days))
  {
    JoinThenSplit([start, stop, tz, days], ';');
  }

  /** With the keyword in field 0 and a stop time in field 1, the start is
      the default start and the stop is field 1. */
  lemma KeywordWithStop(keyword: string, stop: string, d: Defaults)
    requires ';' !in keyword && ';' !in stop && IsKeyword(keyword)
    ensures Resolve(Split(Join([keyword, stop], ';'), ';'), d) ==
      Schedule(d.defaultStartTime, stop, DefaultTimeZone, d.defaultDaysActive)
  {
    JoinThenSplit([keyword, stop], ';');
  }
}
