/** The verbose description of a time span ("3 min 20 sec", "2 d 5 h",
    "4 mon") shown for the last compilation time. */
module TimeExtensions {
  import opened Text

  /** The word table: singular and plural keys and the joiner. */
  const Words: map<string, string> := map[
    "joiner" := " ",
    "second" := "sec",
    "seconds" := "sec",
    "minute" := "min",
    "minutes" := "min",
    "hour" := "h",
    "hours" := "h",
    "day" := "d",
    "days" := "d",
    "week" := "wk",
    "weeks" := "wk",
    "month" := "mon",
    "months" := "mon",
    "year" := "y",
    "years" := "y"]

  /** The units, from the smallest to the largest. */
  datatype Unit = Second | Minute | Hour | Day | Week | Month | Year

  /** The singular key of a unit in the word table. */
  function Key(u: Unit): string
  {
    match u
    case Second => "second"
    case Minute => "minute"
    case Hour => "hour"
    case Day => "day"
    case Week => "week"
    case Month => "month"
    case Year => "year"
  }

  /** The length of a unit in seconds (a month is 30 days, a year 365 days). */
  function Length(u: Unit): (n: nat)
    ensures n >= 1
  {
    match u
    case Second => 1
    case Minute => 60
    case Hour => 60 * 60
    case Day => 24 * 60 * 60
    case Week => 7 * 24 * 60 * 60
    case Month => 30 * 24 * 60 * 60
    case Year => 365 * 24 * 60 * 60
  }

  /** The position of a unit from the smallest one. */
  function Rank(u: Unit): nat
  {
    match u
    case Second => 0
    case Minute => 1
    case Hour => 2
    case Day => 3
    case Week => 4
    case Month => 5
    case Year => 6
  }

  /** Every unit has a singular and a plural entry, with the same
      abbreviation. */
  lemma KeysPresent(u: Unit)
    ensures Key(u) in Words && Key(u) + "s" in Words
    ensures Words[Key(u)] == Words[Key(u) + "s"]
  {
    match u
    case Second => assert Key(u) + "s" == "seconds";
    case Minute => assert Key(u) + "s" == "minutes";
    case Hour => assert Key(u) + "s" == "hours";
    case Day => assert Key(u) + "s" == "days";
    case Week => assert Key(u) + "s" == "weeks";
    case Month => assert Key(u) + "s" == "months";
    case Year => assert Key(u) + "s" == "years";
  }

  /** One component of a description: a count of a unit. */
  datatype Component = Component(count: int, unit: Unit)

  /** The word for one component: the number, a space and the singular or
      plural abbreviation of the unit. */
  function Word(c: Component): string
  {
    KeysPresent(c.unit);
    IntToString(c.count) + " " + (if c.count == 1 then Words[Key(c.unit)] else Words[Key(c.unit) + "s"])
  }

  /** The components of the description of a whole number of seconds, branch
      by branch. */
  function Components(secs: int): seq<Component>
  {
    var minute := Length(Minute);
    var hour := Length(Hour);
    var day := Length(Day);
    var week := Length(Week);
    var month := Length(Month);
    var year := Length(Year);
    if secs < 60 then [Component(secs, Second)]
    else if secs < 5 * minute then [Component(secs / minute, Minute), Component(secs % minute, Second)]
    else if secs < hour then [Component(secs / minute, Minute)]
    else if secs < 6 * hour then [Component(secs / hour, Hour), Component(secs % hour / minute, Minute)]
    else if secs < day then [Component(secs / hour, Hour)]
    else if secs < 3 * day then [Component(secs / day, Day), Component(secs % day / hour, Hour)]
    else if secs < week then [Component(secs / day, Day)]
    else if secs < 3 * week then [Component(secs / week, Week), Component(secs % week / day, Day)]
    else if secs < 2 * month then [Component(secs / week, Week)]
    else if secs < year then [Component(secs / month, Month)]
    else if secs < 2 * year then [Component(secs / year, Year), Component(secs % year / month, Month)]
    else [Component(secs / year, Year)]
  }

  /** The words of the components, separated by the joiner. */
  function Render(cs: seq<Component>): string
  {
    if cs == [] then ""
    else if |cs| == 1 then Word(cs[0])
    else Word(cs[0]) + Words["joiner"] + Render(cs[1..])
  }

  /** (long)TimeSpan.TotalSeconds: the ticks (100 ns) truncated toward zero
      to whole seconds.  The source divides in double precision, which is
      exact below 2^53 ticks (about 28 years); beyond that the rounding of
      the double can give one second more, which the model does not
      reproduce. */
  function TotalSecondsTruncated(ticks: int): (secs: int)
    ensures secs * 10000000 <= ticks < (secs + 1) * 10000000 || ticks < 0
    ensures ticks < 0 ==> (secs - 1) * 10000000 < ticks <= secs * 10000000
  {
    if ticks >= 0 then ticks / 10000000 else -((-ticks) / 10000000)
  }

  /** TimeSpan.ToVerbose on a span given in ticks. */
  function ToVerbose(ticks: int): string
  {
    Render(Components(TotalSecondsTruncated(ticks)))
  }

  /** The seconds a list of components stands for. */
  function Value(cs: seq<Component>): int
  {
    if cs == [] then 0 else cs[0].count * Length(cs[0].unit) + Value(cs[1..])
  }

  /** Singular and plural keys give the same abbreviation, so the word of a
      component is its count and the unit's abbreviation whatever the count. */
  lemma WordAbbreviation(c: Component)
    ensures Key(c.unit) in Words && Word(c) == IntToString(c.count) + " " + Words[Key(c.unit)]
  {
    KeysPresent(c.unit);
  }

  /** Below one minute, including every negative span, the description is
      the number of seconds. */
  lemma UnderAMinute(secs: int)
    requires secs < 60
    ensures Render(Components(secs)) == IntToString(secs) + " sec"
  {
    WordAbbreviation(Component(secs, Second));
  }

  /** Spans shorter than one second either way are described as "0 sec":
      the seconds are truncated toward zero, not rounded down. */
  lemma BelowOneSecond(ticks: int)
    requires -10000000 < ticks < 10000000
    ensures ToVerbose(ticks) == "0 sec"
  {
    assert TotalSecondsTruncated(ticks) == 0;
    UnderAMinute(0);
  }

  /** A description has one or two components, the larger unit first, and
      two components always use adjacent-in-order units with the second
      smaller than the first. */
  lemma ComponentsShape(secs: int)
    ensures var cs := Components(secs);
      1 <= |cs| <= 2 && (|cs| == 2 ==> Rank(cs[1].unit) < Rank(cs[0].unit))
  {
  }

  /** From one minute on, the leading count is at least one; a description
      in weeks alone has at least three, one in years alone at least two. */
  lemma LeadingCountPositive(secs: int)
    requires secs >= 60
    ensures var cs := Components(secs);
      cs[0].count >= 1 &&
      (|cs| == 1 && cs[0].unit == Week ==> cs[0].count >= 3) &&
      (|cs| == 1 && cs[0].unit == Year ==> cs[0].count >= 2)
  {
  }

  /** The second component is a remainder below the next larger unit:
      fewer than 60 seconds or minutes, 24 hours, 7 days, and at most 12
      months (a year is 365 days, a month 30). */
  lemma SecondaryBounds(secs: int)
    requires |Components(secs)| == 2
    ensures var c := Components(secs)[1];
      0 <= c.count &&
      (c.unit == Second ==> c.count < 60) &&
      (c.unit == Minute ==> c.count < 60) &&
      (c.unit == Hour ==> c.count < 24) &&
      (c.unit == Day ==> c.count < 7) &&
      (c.unit == Month ==> c.count <= 12)
  {
  }

  /** From two years on only years are shown; from two months up to one year
      only months. */
  lemma SingleComponentRanges(secs: int)
    ensures secs >= 2 * Length(Year) ==> Components(secs) == [Component(secs / Length(Year), Year)]
    ensures 2 * Length(Month) <= secs < Length(Year) ==> Components(secs) == [Component(secs / Length(Month), Month)]
  {
  }

  lemma ValueOfComponents(cs: seq<Component>)
    requires 1 <= |cs| <= 2
    ensures Value(cs) == cs[0].count * Length(cs[0].unit) + (if |cs| == 2 then cs[1].count * Length(cs[1].unit) else 0)
  {
    if |cs| == 2 {
      assert Value(cs[1..]) == cs[1].count * Length(cs[1].unit) + Value(cs[2..]);
    }
  }

  /** Splitting x into whole units u and a remainder counted in whole units v
      loses less than one v. */
  lemma TwoUnits(x: int, u: nat, v: nat)
    requires 0 < v <= u && x >= 0
    ensures x / u * u + x % u / v * v <= x < x / u * u + x % u / v * v + v
  {
    var r := x % u;
    assert x == x / u * u + r;
    assert r == r / v * v + r % v;
  }

  lemma OneUnit(x: int, u: nat)
    requires 0 < u && x >= 0
    ensures x / u * u <= x < x / u * u + u
  {
    assert x == x / u * u + x % u;
  }

  /** The description never overstates the span and falls short of it by
      less than its smallest unit. */
  lemma ValueApproximates(secs: int)
    ensures var cs := Components(secs);
      Value(cs) <= secs < Value(cs) + Length(cs[|cs| - 1].unit)
  {
    var cs := Components(secs);
    ComponentsShape(secs);
    ValueOfComponents(cs);
    if secs < 60 {
    } else if |cs| == 2 {
      TwoUnits(secs, Length(cs[0].unit), Length(cs[1].unit));
    } else {
      OneUnit(secs, Length(cs[0].unit));
    }
  }

  /** A longer span never leads with a smaller unit. */
  lemma LeadingUnitMonotone(a: int, b: int)
    requires a <= b
    ensures Rank(Components(a)[0].unit) <= Rank(Components(b)[0].unit)
  {
  }
}
