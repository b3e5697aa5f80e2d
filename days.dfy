/** The days interpreter: whether today is one of an instance's active days. */
module Days {
  import opened Text

  /** The lower-cased `strftime("%a")` names, Monday first. */
  const DayCodes: seq<string> := ["mon", "tue", "wed", "thu", "fri", "sat", "sun"]
  const Weekdays: seq<string> := ["mon", "tue", "wed", "thu", "fri"]

  /** Whether `daysActive` (as resolved, lower-cased only when it came from
      the tag) makes `nowDay` an active day: "all" is every day, "weekdays"
      is Monday to Friday, anything else is a comma-separated list whose
      tokens are lower-cased, but not trimmed, and compared with `nowDay`. */
  predicate ActiveDay(daysActive: string, nowDay: string)
  {
    if daysActive == "all" then true
    else if daysActive == "weekdays" then nowDay in Weekdays
    else
      var tokens := Split(daysActive, ',');
      exists j :: 0 <= j < |tokens| && Lower(tokens[j]) == nowDay
  }

  /** The handler's loop over the day tokens, which raises `isActiveDay`
      when a token matches and never lowers it again. */
  method DaysInterpreter(daysActive: string, nowDay: string) returns (isActiveDay: bool)
    ensures isActiveDay == ActiveDay(daysActive, nowDay)
  {
    isActiveDay := false;
    if daysActive == "all" {
      isActiveDay := true;
    } else if daysActive == "weekdays" {
      if nowDay in Weekdays {
        isActiveDay := true;
      }
    } else {
      var tokens := Split(daysActive, ',');
      var k := 0;
      while k < |tokens|
        invariant 0 <= k <= |tokens|
        invariant isActiveDay <==> exists j :: 0 <= j < k && Lower(tokens[j]) == nowDay
      {
        if Lower(tokens[k]) == nowDay {
          isActiveDay := true;
        }
        k := k + 1;
      }
    }
  }

  /** A list of days depends only on which tokens it holds: neither their
      order nor repetitions matter. */
  lemma TokenOrderIrrelevant(t1: seq<string>, t2: seq<string>, nowDay: string)
    requires |t1| >= 1 && |t2| >= 1
    requires forall i :: 0 <= i < |t1| ==> ',' !in t1[i]
    requires forall i :: 0 <= i < |t2| ==> ',' !in t2[i]
    requires forall x :: x in t1 <==> x in t2
    requires Join(t1, ',') != "all" && Join(t1, ',') != "weekdays"
    requires Join(t2, ',') != "all" && Join(t2, ',') != "weekdays"
    ensures ActiveDay(Join(t1, ','), nowDay) == ActiveDay(Join(t2, ','), nowDay)
  {
    JoinThenSplit(t1, ',');
    JoinThenSplit(t2, ',');
    if ActiveDay(Join(t1, ','), nowDay) {
      var j :| 0 <= j < |t1| && Lower(t1[j]) == nowDay;
      assert t1[j] in t2;
    }
    if ActiveDay(Join(t2, ','), nowDay) {
      var j :| 0 <= j < |t2| && Lower(t2[j]) == nowDay;
      assert t2[j] in t1;
    }
  }

  /** A day list read from the tag is lower-cased when it is assigned, so
      lower-casing each token again changes nothing: a token matches
      exactly when it already is today's name. */
  lemma TagDaysAlreadyLower(field: string, nowDay: string)
    requires Lower(field) != "all" && Lower(field) != "weekdays"
    ensures var tokens := Split(Lower(field), ',');
      ActiveDay(Lower(field), nowDay) <==> exists j :: 0 <= j < |tokens| && tokens[j] == nowDay
  {
    var tokens := Split(Lower(field), ',');
    SplitLower(field, ',');
    forall j | 0 <= j < |tokens|
      ensures Lower(tokens[j]) == tokens[j]
    {
      LowerIdempotent(Split(field, ',')[j]);
    }
  }

  lemma DayCodesAreLowerCase(nowDay: string)
    requires nowDay in DayCodes
    ensures |nowDay| == 3 && forall i :: 0 <= i < 3 ==> 'a' <= nowDay[i] <= 'z'
  {
  }

  /** A token matches a day name only if it is that name up to case: three
      letters and nothing else, so a padded token such as " wed" never matches. */
  lemma MatchingTokenIsBare(tok: string, nowDay: string)
    requires nowDay in DayCodes
    requires Lower(tok) == nowDay
    ensures |tok| == 3
    ensures forall i :: 0 <= i < 3 ==> ('a' <= tok[i] <= 'z' || 'A' <= tok[i] <= 'Z')
  {
    DayCodesAreLowerCase(nowDay);
    forall i | 0 <= i < 3
      ensures 'a' <= tok[i] <= 'z' || 'A' <= tok[i] <= 'Z'
    {
      assert LowerChar(tok[i]) == nowDay[i];
    }
  }

  /** A day list written out as comma-free tokens is active exactly when
      one of those tokens, lower-cased, is today's name. */
  lemma ListActive(tokens: seq<string>, nowDay: string)
    requires |tokens| >= 1
    requires forall i :: 0 <= i < |tokens| ==> ',' !in tokens[i]
    requires Join(tokens, ',') != "all" && Join(tokens, ',') != "weekdays"
    ensures ActiveDay(Join(tokens, ','), nowDay) <==>
      exists j :: 0 <= j < |tokens| && Lower(tokens[j]) == nowDay
  {
    JoinThenSplit(tokens, ',');
  }

  /** A value without commas that is not a keyword is a one-day list. */
  lemma SingleToken(daysActive: string, nowDay: string)
    requires ',' !in daysActive
    requires daysActive != "all" && daysActive != "weekdays"
    ensures ActiveDay(daysActive, nowDay) <==> Lower(daysActive) == nowDay
  {
    SplitOfPiece(daysActive, ',');
    assert Split(daysActive, ',')[0] == daysActive;
  }
}

/** Worked day lists: how the interpreter reads a few concrete values. */
module DayExamples {
  import opened Text
  import opened Days

  /** Lower-casing a three-letter token, character by character. */
  lemma LowerThree(a: char, b: char, c: char)
    ensures Lower([a, b, c]) == [LowerChar(a), LowerChar(b), LowerChar(c)]
  {
  }

  /** An explicit list is active on exactly the days it names. */
  lemma ExplicitList(daysActive: string, nowDay: string)
    requires daysActive == "mon,wed,fri"
    ensures ActiveDay(daysActive, nowDay) <==> nowDay in ["mon", "wed", "fri"]
  {
    var tokens := ["mon", "wed", "fri"];
    assert Join(tokens, ',') == daysActive;
    ListActive(tokens, nowDay);
    LowerThree('m', 'o', 'n');
    LowerThree('w', 'e', 'd');
    LowerThree('f', 'r', 'i');
  }

  /** The tokens of a list are lower-cased before the comparison, and their
      order does not matter. */
  lemma ExplicitListAnyCase(daysActive: string, nowDay: string)
    requires daysActive == "FRI,Mon,wed"
    ensures ActiveDay(daysActive, nowDay) <==> nowDay in ["mon", "wed", "fri"]
  {
    var tokens := ["FRI", "Mon", "wed"];
    assert Join(tokens, ',') == daysActive;
    ListActive(tokens, nowDay);
    LowerThree('F', 'R', 'I');
    LowerThree('M', 'o', 'n');
    LowerThree('w', 'e', 'd');
  }

  /** Tokens are not trimmed: " wed" after a comma does not make Wednesday active. */
  lemma PaddedTokenIgnored(bare: string, padded: string)
    requires bare == "mon,wed" && padded == "mon, wed"
    ensures ActiveDay(bare, "wed")
    ensures !ActiveDay(padded, "wed")
  {
    var bareTokens, paddedTokens := ["mon", "wed"], ["mon", " wed"];
    assert Join(bareTokens, ',') == bare;
    assert Join(paddedTokens, ',') == padded;
    ListActive(bareTokens, "wed");
    ListActive(paddedTokens, "wed");
    LowerThree('m', 'o', 'n');
    LowerThree('w', 'e', 'd');
    assert |Lower(paddedTokens[1])| == 4;
  }

  /** The keywords are compared before any lower-casing, so a default of
      "ALL" or "Weekdays" (never lower-cased) is read as a one-token list
      that matches no day name. */
  lemma UpperCaseKeywordsMatchNoDay(upperAll: string, mixedWeekdays: string, nowDay: string)
    requires upperAll == "ALL" && mixedWeekdays == "Weekdays"
    requires nowDay in DayCodes
    ensures !ActiveDay(upperAll, nowDay)
    ensures !ActiveDay(mixedWeekdays, nowDay)
  {
    SingleToken(upperAll, nowDay);
    SingleToken(mixedWeekdays, nowDay);
    assert Lower(upperAll) == "all";
    assert Lower(mixedWeekdays) == "weekdays";
  }
}
