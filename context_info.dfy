/** The types of information a sensor reports (src/context/ContextInfo.java). */
module ContextInfos {
  import opened Wrappers

  datatype ContextInfo = HUMIDITY | TEMP | CO2 | VOLTAGE | RADIATION | PRESSURE | LIGHT | WINDSPEED | NULL

  /** ContextInfo.values(), in declaration order. */
  const Values: seq<ContextInfo> := [HUMIDITY, TEMP, CO2, VOLTAGE, RADIATION, PRESSURE, LIGHT, WINDSPEED, NULL]

  /** The `name` array each value is declared with. */
  function Names(v: ContextInfo): seq<string>
  {
    match v
    case HUMIDITY => ["humidity"]
    case TEMP => ["temperature"]
    case CO2 => ["co2"]
    case VOLTAGE => ["voltage"]
    case RADIATION => ["radiation"]
    case PRESSURE => ["pressure"]
    case LIGHT => ["light"]
    case WINDSPEED => ["windSpeed"]
    case NULL => [""]
  }

  /** String.join(sep, parts) */
  function Join(sep: string, parts: seq<string>): string
  {
    if |parts| == 0 then ""
    else if |parts| == 1 then parts[0]
    else parts[0] + sep + Join(sep, parts[1..])
  }

  function ToString(v: ContextInfo): string
  {
    Join(";", Names(v))
  }

  /** Every value has exactly one name, and ToString is that name. */
  lemma ToStringIsTheName(v: ContextInfo)
    ensures |Names(v)| == 1 && ToString(v) == Names(v)[0]
    ensures ToString(TEMP) == "temperature" && ToString(NULL) == ""
  {
  }

  /** Upper-case folding of the ASCII letters only, with no locale; other characters stay. */
  function UpperChar(c: char): char
  {
    if 'a' <= c <= 'z' then (c as int - 32) as char else c
  }

  /** String.toUpperCase restricted to ASCII, letter by letter. */
  function Upper(s: string): (r: string)
  {
    seq(|s|, i requires 0 <= i < |s| => UpperChar(s[i]))
  }

  /** String.trim: drops leading and trailing characters up to U+0020. */
  function Trim(s: string): (r: string)
    ensures |r| <= |s|
    ensures |r| > 0 ==> r[0] > ' ' && r[|r| - 1] > ' '
  {
    if |s| > 0 && s[0] <= ' ' then Trim(s[1..])
    else if |s| > 0 && s[|s| - 1] <= ' ' then Trim(s[..|s| - 1])
    else s
  }

  /** x.contains(s) */
  predicate Contains(x: string, s: string)
  {
    exists i | 0 <= i <= |x| - |s| :: OccursAt(x, s, i)
  }

  predicate OccursAt(x: string, s: string, i: int)
  {
    0 <= i <= |x| - |s| && x[i..i + |s|] == s
  }

  /** Some name of the list equals `s.trim()` ignoring case. */
  predicate AnyEqualsIgnoringCase(names: seq<string>, s: string)
  {
    exists k :: 0 <= k < |names| && Upper(names[k]) == Upper(Trim(s))
  }

  /** Some name of the list contains `s` (the `anyMatch` of line 26). */
  predicate AnyContains(names: seq<string>, s: string)
  {
    exists k :: 0 <= k < |names| && Contains(names[k], s)
  }

  /**
   * The test fromString applies to one value: the loop over its names returns
   * at the first name equal to the trimmed input ignoring case, or at once if
   * any name contains the input (lines 24-30).
   */
  predicate Matches(v: ContextInfo, s: string)
  {
    NamesMatch(Names(v), s)
  }

  predicate NamesMatch(names: seq<string>, s: string)
  {
    |names| > 0 && (AnyEqualsIgnoringCase(names, s) || AnyContains(names, s))
  }

  /** Enum.ordinal(): the position of a value in declaration order. */
  function Ordinal(v: ContextInfo): (n: nat)
    ensures n < |Values| && Values[n] == v
  {
    match v
    case HUMIDITY => 0
    case TEMP => 1
    case CO2 => 2
    case VOLTAGE => 3
    case RADIATION => 4
    case PRESSURE => 5
    case LIGHT => 6
    case WINDSPEED => 7
    case NULL => 8
  }

  lemma OrdinalOfValue(i: nat)
    requires i < |Values|
    ensures Ordinal(Values[i]) == i
  {
    assert i in {0, 1, 2, 3, 4, 5, 6, 7, 8};
  }

  /** The first element of `vs` from position `i` on that satisfies `p` (a loop with early return). */
  function FirstWhere<T>(vs: seq<T>, p: T -> bool, i: nat): (r: Option<nat>)
    requires i <= |vs|
    ensures r.Some? ==> i <= r.value < |vs| && p(vs[r.value])
    ensures r.Some? ==> forall j :: i <= j < r.value ==> !p(vs[j])
    ensures r.None? ==> forall j :: i <= j < |vs| ==> !p(vs[j])
    decreases |vs| - i
  {
    if i == |vs| then None
    else if p(vs[i]) then Some(i)
    else FirstWhere(vs, p, i + 1)
  }

  /**
   * ContextInfo.fromString: the first value, in declaration order, whose name
   * equals the trimmed input ignoring case or contains the untrimmed input;
   * IllegalArgumentException when there is none.
   */
  function FromString(s: string): (r: Result<ContextInfo>)
    ensures r.Ok? ==> Matches(r.value, s)
    ensures r.Ok? ==> forall j :: 0 <= j < Ordinal(r.value) ==> !Matches(Values[j], s)
    ensures r.Err? <==> forall j :: 0 <= j < |Values| ==> !Matches(Values[j], s)
  {
    var k := FirstWhere(Values, v => Matches(v, s), 0);
    if k.None? then Err("IllegalArgumentException: no info corresponding to specified string")
    else
      OrdinalOfValue(k.value);
      Ok(Values[k.value])
  }

  /** A character of `s` missing from `x` rules out `x.contains(s)`. */
  lemma MissingCharNotContained(x: string, s: string, k: nat)
    requires k < |s| && s[k] !in x
    ensures !Contains(x, s)
  {
    forall i | 0 <= i <= |x| - |s|
      ensures !OccursAt(x, s, i)
    {
      assert s[k] != x[i + k];
    }
  }

  /** A string with no blank at either end is its own trim. */
  lemma TrimmedAlready(t: string)
    requires |t| > 0 && t[0] > ' ' && t[|t| - 1] > ' '
    ensures Trim(t) == t
  {
  }

  /** Sufficient conditions for a name `x` to fail fromString's test against a trimmed `t`. */
  lemma NameDoesNotMatch(x: string, t: string, k: nat)
    requires Trim(t) == t && k < |t|
    requires |x| < |t| || t[k] !in x
    requires |x| == |t| ==> UpperChar(x[0]) != UpperChar(t[0])
    ensures !NamesMatch([x], t)
  {
    if |x| >= |t| {
      MissingCharNotContained(x, t, k);
    }
    if |x| == |t| {
      assert Upper(x)[0] != Upper(t)[0];
    }
    assert [x][0] == x;
  }

  /** fromString returns the first matching value in declaration order. */
  lemma FirstMatchIsReturned(v: ContextInfo, s: string)
    requires Matches(v, s)
    requires forall j :: 0 <= j < Ordinal(v) ==> !Matches(Values[j], s)
    ensures FromString(s) == Ok(v)
  {
    var r := FromString(s);
    assert Values[Ordinal(v)] == v;
    assert r.Ok?;
    assert Ordinal(r.value) == Ordinal(v);
    assert Values[Ordinal(r.value)] == r.value;
  }

  /** Every name other than NULL's reads back as its own value. */
  lemma {:induction false} FromStringOfToString(v: ContextInfo)
    requires v != NULL
    ensures FromString(ToString(v)) == Ok(v)
  {
    var t := ToString(v);
    assert Trim(t) == t;
    assert Matches(v, t);
    forall j | 0 <= j < Ordinal(v)
      ensures !Matches(Values[j], t)
    {
      EarlierNameDoesNotMatch(Values[j], v);
    }
    FirstMatchIsReturned(v, t);
  }

  lemma EarlierNameDoesNotMatch(w: ContextInfo, v: ContextInfo)
    requires v != NULL && Ordinal(w) < Ordinal(v)
    ensures !Matches(w, ToString(v))
  {
    match v
    case TEMP => NoMatchInTemp(w);
    case CO2 => NoMatchInCo2(w);
    case VOLTAGE => NoMatchInVoltage(w);
    case RADIATION => NoMatchInRadiation(w);
    case PRESSURE => NoMatchInPressure(w);
    case LIGHT => NoMatchInLight(w);
    case WINDSPEED => NoMatchInWindSpeed(w);
  }

  lemma NoMatchInTemp(w: ContextInfo)
    requires Ordinal(w) < Ordinal(TEMP)
    ensures !Matches(w, "temperature")
  {
    TrimmedAlready("temperature");
    NameDoesNotMatch(Names(w)[0], "temperature", 0);
  }

  lemma NoMatchInCo2(w: ContextInfo)
    requires Ordinal(w) < Ordinal(CO2)
    ensures !Matches(w, "co2")
  {
    TrimmedAlready("co2");
    NameDoesNotMatch(Names(w)[0], "co2", 2);
  }

  lemma NoMatchInVoltage(w: ContextInfo)
    requires Ordinal(w) < Ordinal(VOLTAGE)
    ensures !Matches(w, "voltage")
  {
    TrimmedAlready("voltage");
    NameDoesNotMatch(Names(w)[0], "voltage", 0);
  }

  lemma NoMatchInRadiation(w: ContextInfo)
    requires Ordinal(w) < Ordinal(RADIATION)
    ensures !Matches(w, "radiation")
  {
    TrimmedAlready("radiation");
    NameDoesNotMatch(Names(w)[0], "radiation", 2);
  }

  lemma NoMatchInPressure(w: ContextInfo)
    requires Ordinal(w) < Ordinal(PRESSURE)
    ensures !Matches(w, "pressure")
  {
    TrimmedAlready("pressure");
    NameDoesNotMatch(Names(w)[0], "pressure", 3);
  }

  lemma NoMatchInLight(w: ContextInfo)
    requires Ordinal(w) < Ordinal(LIGHT)
    ensures !Matches(w, "light")
  {
    TrimmedAlready("light");
    NameDoesNotMatch(Names(w)[0], "light", if w == VOLTAGE then 3 else 2);
  }

  lemma NoMatchInWindSpeed(w: ContextInfo)
    requires Ordinal(w) < Ordinal(WINDSPEED)
    ensures !Matches(w, "windSpeed")
  {
    TrimmedAlready("windSpeed");
    NameDoesNotMatch(Names(w)[0], "windSpeed", 0);
  }

  /** The empty string is contained in every name, so the first value wins. */
  lemma FromEmptyString()
    ensures FromString("") == Ok(HUMIDITY)
  {
    assert OccursAt(Names(HUMIDITY)[0], "", 0);
  }

  /** Substring matching is case-sensitive: "TEMP" names no value. */
  lemma UpperCaseFragmentIsUnknown()
    ensures FromString("TEMP").Err?
  {
    TrimmedAlready("TEMP");
    forall j | 0 <= j < |Values|
      ensures !Matches(Values[j], "TEMP")
    {
      NameDoesNotMatch(Names(Values[j])[0], "TEMP", 0);
    }
  }

  /** The equality test ignores case: "TEMPERATURE" is TEMP. */
  lemma UpperCaseNameIsKnown()
    ensures FromString("TEMPERATURE") == Ok(TEMP)
  {
    TrimmedAlready("TEMPERATURE");
    assert Upper(Names(TEMP)[0]) == Upper(Trim("TEMPERATURE"));
    assert Matches(TEMP, "TEMPERATURE");
    NameDoesNotMatch(Names(HUMIDITY)[0], "TEMPERATURE", 0);
    FirstMatchIsReturned(TEMP, "TEMPERATURE");
  }
}
