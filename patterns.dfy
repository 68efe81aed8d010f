/** The fixed token shapes of a report, one recogniser per regular expression
    of the decoders (RE_STATION, RE_TIME, RE_WIND, ...). Every shape is
    anchored at both ends, and none of them needs backtracking once the
    alternatives are read in the right order, so each recogniser is a
    deterministic parser that returns the groups the expression captures,
    or None when the token does not have the shape. */
module Patterns {
  import opened Text

  /** The longest prefix of s made of digits. */
  function DigitRun(s: string): (r: string)
    ensures |r| <= |s| && r == s[..|r|] && AllDigits(r)
    ensures |r| < |s| ==> !IsDigit(s[|r|])
  {
    if s == [] || !IsDigit(s[0]) then [] else [s[0]] + DigitRun(s[1..])
  }

  /** The digit run of a digit string followed by a non-digit is that string. */
  lemma {:induction false} DigitRunOfConcat(ds: string, rest: string)
    requires AllDigits(ds)
    requires rest == [] || !IsDigit(rest[0])
    ensures DigitRun(ds + rest) == ds
  {
    if ds != [] {
      assert (ds + rest)[1..] == ds[1..] + rest;
      DigitRunOfConcat(ds[1..], rest);
    }
  }

  predicate IsDigits(s: string, n: nat) { |s| == n && AllDigits(s) }

  /** RE_STATION: four capital letters. */
  predicate IsStation(t: string) { |t| == 4 && forall k :: 0 <= k < 4 ==> IsUpper(t[k]) }

  /** RE_TIME: six digits and 'Z'. */
  predicate IsTime(t: string) { |t| == 7 && IsDigits(t[..6], 6) && t[6] == 'Z' }

  /** The named groups of RE_WIND. */
  datatype WindGroups = WindGroups(dir: string, speed: string, gust: Option<string>, unit: Option<string>)

  predicate IsWindUnit(u: string) { u == "KT" || u == "MPS" || u == "KMH" }

  /** The direction group: three digits or VRB. */
  predicate IsWindDirection(d: string) { IsDigits(d, 3) || d == "VRB" }

  /** A well-formed set of wind groups: what the expression can capture. */
  predicate WindGroupsOk(g: WindGroups)
  {
    && IsWindDirection(g.dir)
    && IsDigits(g.speed, |g.speed|) && 2 <= |g.speed| <= 3
    && GustOk(g.gust) && UnitOk(g.unit)
  }

  function GustPart(gust: Option<string>): string
  {
    match gust case Some(x) => "G" + x case None => ""
  }

  function UnitPart(unit: Option<string>): string
  {
    match unit case Some(u) => u case None => ""
  }

  /** The token that carries the given groups. */
  function WindToken(g: WindGroups): string
  {
    g.dir + (g.speed + (GustPart(g.gust) + UnitPart(g.unit)))
  }

  predicate GustOk(gust: Option<string>)
  {
    gust.Some? ==> IsDigits(gust.value, |gust.value|) && 2 <= |gust.value| <= 3
  }

  predicate UnitOk(unit: Option<string>) { unit.Some? ==> IsWindUnit(unit.value) }

  /** The unit group, read from what follows the speed and gust. */
  function ParseWindUnit(s: string): (r: Option<Option<string>>)
    ensures r.Some? ==> UnitOk(r.value) && UnitPart(r.value) == s
  {
    if s == [] then Some(None) else if IsWindUnit(s) then Some(Some(s)) else None
  }

  /** The optional gust group and the unit, read from what follows the speed. */
  function ParseWindTail(s: string): (r: Option<(Option<string>, Option<string>)>)
    ensures r.Some? ==> GustOk(r.value.0) && UnitOk(r.value.1) && GustPart(r.value.0) + UnitPart(r.value.1) == s
  {
    if s != [] && s[0] == 'G' then
      var gust := DigitRun(s[1..]);
      if !(2 <= |gust| <= 3) then None
      else
        match ParseWindUnit(s[1 + |gust|..])
        case None => None
        case Some(u) =>
          assert s == "G" + gust + s[1 + |gust|..];
          Some((Some(gust), u))
    else
      match ParseWindUnit(s)
      case None => None
      case Some(u) => Some((None, u))
  }

  /** RE_WIND: direction (three digits or VRB), speed of two or three digits,
      an optional gust 'G' with two or three digits, an optional unit. */
  function ParseWind(t: string): (r: Option<WindGroups>)
    ensures r.Some? ==> WindGroupsOk(r.value) && WindToken(r.value) == t
  {
    if |t| < 3 || !IsWindDirection(t[..3]) then None
    else
      var dir, rest := t[..3], t[3..];
      assert t == dir + rest;
      var speed := DigitRun(rest);
      if !(2 <= |speed| <= 3) then None
      else
        var after := rest[|speed|..];
        assert rest == speed + after;
        match ParseWindTail(after)
        case None => None
        case Some(tail) => Some(WindGroups(dir, speed, tail.0, tail.1))
  }

  lemma ParseWindTailOf(gust: Option<string>, unit: Option<string>)
    requires GustOk(gust) && UnitOk(unit)
    ensures ParseWindTail(GustPart(gust) + UnitPart(unit)) == Some((gust, unit))
  {
    UnitPartParses(unit);
    if gust.Some? {
      GustTailOf(gust.value, unit);
    } else {
      assert GustPart(gust) + UnitPart(unit) == UnitPart(unit);
      UnitPartNotGust(unit);
    }
  }

  lemma UnitPartParses(unit: Option<string>)
    requires UnitOk(unit)
    ensures ParseWindUnit(UnitPart(unit)) == Some(unit)
  {
  }

  lemma UnitPartNotGust(unit: Option<string>)
    requires UnitOk(unit)
    ensures UnitPart(unit) == [] || (UnitPart(unit)[0] != 'G' && !IsDigit(UnitPart(unit)[0]))
  {
  }

  lemma GustTailOf(g: string, unit: Option<string>)
    requires GustOk(Some(g)) && UnitOk(unit)
    requires ParseWindUnit(UnitPart(unit)) == Some(unit)
    ensures ParseWindTail("G" + g + UnitPart(unit)) == Some((Some(g), unit))
  {
    var s := "G" + g + UnitPart(unit);
    assert s[1..] == g + UnitPart(unit);
    UnitPartNotGust(unit);
    DigitRunOfConcat(g, UnitPart(unit));
    assert s[1 + |g|..] == UnitPart(unit);
  }

  /** Reading the groups back from the token they compose gives the groups:
      the wind shape has exactly one parse. */
  lemma ParseWindToken(g: WindGroups)
    requires WindGroupsOk(g)
    ensures ParseWind(WindToken(g)) == Some(g)
  {
    var t := WindToken(g);
    var tail := GustPart(g.gust) + UnitPart(g.unit);
    assert t[..3] == g.dir;
    assert t[3..] == g.speed + tail;
    DigitRunOfConcat(g.speed, tail);
    assert t[3 + |g.speed|..] == tail;
    ParseWindTailOf(g.gust, g.unit);
  }

  /** RE_VARWIND: two three-digit bearings around 'V'. */
  function ParseVarWind(t: string): (r: Option<(string, string)>)
    ensures r.Some? ==> IsDigits(r.value.0, 3) && IsDigits(r.value.1, 3) && t == r.value.0 + "V" + r.value.1
  {
    if |t| == 7 && IsDigits(t[..3], 3) && t[3] == 'V' && IsDigits(t[4..], 3)
    then Some((t[..3], t[4..])) else None
  }

  predicate IsCompass(c: char) { c == 'N' || c == 'S' || c == 'E' || c == 'W' }

  /** RE_VIS: four digits and up to two compass letters (the direction group,
      empty when absent). */
  function ParseVis(t: string): (r: Option<(string, string)>)
    ensures r.Some? ==> IsDigits(r.value.0, 4) && |r.value.1| <= 2 && t == r.value.0 + r.value.1
  {
    if 4 <= |t| <= 6 && IsDigits(t[..4], 4) && forall k :: 4 <= k < |t| ==> IsCompass(t[k])
    then Some((t[..4], t[4..])) else None
  }

  /** The named groups of RE_RVR. */
  datatype RvrGroups = RvrGroups(runway: string, value: string, max: Option<string>, trend: Option<char>)

  predicate IsSide(c: char) { c == 'L' || c == 'R' || c == 'C' }

  /** RE_RVR: 'R', runway (two digits and an optional side letter), '/',
      value (an optional 'P' or 'M' and four digits), an optional 'V' and four
      digits, an optional tendency letter U, D or N. */
  function ParseRvr(t: string): (r: Option<RvrGroups>)
    ensures r.Some? ==> |t| > 0 && t[0] == 'R' && 2 <= |r.value.runway| <= 3 && IsDigits(r.value.runway[..2], 2)
  {
    if |t| < 4 || t[0] != 'R' || !IsDigits(t[1..3], 2) then None
    else
      var rw := if IsSide(t[3]) then t[1..4] else t[1..3];
      var p := 1 + |rw|;
      if p >= |t| || t[p] != '/' then None
      else
        var v0 := p + 1;
        var vlen := if v0 < |t| && (t[v0] == 'P' || t[v0] == 'M') then 5 else 4;
        if v0 + vlen > |t| || !IsDigits(t[v0 + vlen - 4..v0 + vlen], 4) then None
        else
          assert rw[..2] == t[1..3];
          var value := t[v0..v0 + vlen];
          var q := v0 + vlen;
          var hasMax := q + 5 <= |t| && t[q] == 'V' && IsDigits(t[q + 1..q + 5], 4);
          var max := if hasMax then Some(t[q + 1..q + 5]) else None;
          var e := if hasMax then q + 5 else q;
          if e == |t| then Some(RvrGroups(rw, value, max, None))
          else if e + 1 == |t| && (t[e] == 'U' || t[e] == 'D' || t[e] == 'N') then Some(RvrGroups(rw, value, max, Some(t[e])))
          else None
  }

  /** The three groups of RE_CLOUD: amount, base height, convective type. */
  datatype CloudGroups = CloudGroups(amount: string, height: Option<string>, kind: Option<string>)

  predicate IsCloudAmount(s: string)
  {
    s == "FEW" || s == "SCT" || s == "BKN" || s == "OVC" || s == "NSC" || s == "SKC" || s == "CLR" || s == "CAVOK"
  }

  /** RE_CLOUD: an amount code, an optional three-character base (three
      digits, or '///' when slashes is set), an optional CB or TCU. */
  function ParseCloudWith(t: string, slashes: bool): (r: Option<CloudGroups>)
    ensures r.Some? ==> IsCloudAmount(r.value.amount)
    ensures r.Some? && r.value.height.Some? ==>
      |r.value.height.value| == 3 && (AllDigits(r.value.height.value) || (slashes && r.value.height.value == "///"))
    ensures r.Some? && r.value.kind.Some? ==> r.value.kind.value in {"CB", "TCU"}
  {
    var amountLen := if |t| >= 5 && t[..5] == "CAVOK" then 5 else 3;
    if |t| < amountLen || !IsCloudAmount(t[..amountLen]) then None
    else
      var rest := t[amountLen..];
      var hasHeight := |rest| >= 3 && (IsDigits(rest[..3], 3) || (slashes && rest[..3] == "///"));
      var height := if hasHeight then Some(rest[..3]) else None;
      var tail := if hasHeight then rest[3..] else rest;
      if tail == [] then Some(CloudGroups(t[..amountLen], height, None))
      else if tail == "CB" || tail == "TCU" then Some(CloudGroups(t[..amountLen], height, Some(tail)))
      else None
  }

  /** The text of an optional base group, and of an optional type group. */
  function OptionalPart(p: Option<string>): string
  {
    match p case None => "" case Some(x) => x
  }

  /** A cloud token assembled from well-formed groups parses back into them. */
  lemma ParseCloudToken(amount: string, height: Option<string>, kind: Option<string>, slashes: bool)
    requires IsCloudAmount(amount) && amount != "CAVOK"
    requires height.Some? ==> IsDigits(height.value, 3) || (slashes && height.value == "///")
    requires kind.Some? ==> kind.value == "CB" || kind.value == "TCU"
    ensures ParseCloudWith(amount + OptionalPart(height) + OptionalPart(kind), slashes)
         == Some(CloudGroups(amount, height, kind))
  {
    var rest := OptionalPart(height) + OptionalPart(kind);
    assert amount + OptionalPart(height) + OptionalPart(kind) == amount + rest;
    ThreeLetterAmount(amount, rest);
    CloudTail(amount, rest, height, kind, slashes);
  }

  /** Without the slashes option (main.py's RE_CLOUD) a '///' base is not a
      height, so an amount followed by '///' is no cloud group at all. */
  lemma SlashedBaseRejected(amount: string, kind: Option<string>)
    requires IsCloudAmount(amount) && amount != "CAVOK"
    requires kind.Some? ==> kind.value == "CB" || kind.value == "TCU"
    ensures ParseCloudWith(amount + "///" + OptionalPart(kind), false).None?
  {
    var rest := "///" + OptionalPart(kind);
    assert amount + "///" + OptionalPart(kind) == amount + rest;
    ThreeLetterAmount(amount, rest);
    assert rest[..3] == "///" && rest[0] == '/';
    assert !IsDigit(rest[0]);
    assert !IsDigits(rest[..3], 3) by {
      assert rest[..3][0] == '/';
    }
  }

  /** A three-letter amount is read as three letters, never as CAVOK. */
  lemma ThreeLetterAmount(amount: string, rest: string)
    requires IsCloudAmount(amount) && amount != "CAVOK"
    ensures var t := amount + rest;
      && !(|t| >= 5 && t[..5] == "CAVOK") && t[..3] == amount && t[3..] == rest
  {
    var t := amount + rest;
    assert t[..3] == amount && t[3..] == rest;
    assert t[2] == amount[2] && amount[2] != 'V';
  }

  /** The part of ParseCloudWith after a three-letter amount. */
  lemma CloudTail(amount: string, rest: string, height: Option<string>, kind: Option<string>, slashes: bool)
    requires height.Some? ==> IsDigits(height.value, 3) || (slashes && height.value == "///")
    requires kind.Some? ==> kind.value == "CB" || kind.value == "TCU"
    requires rest == OptionalPart(height) + OptionalPart(kind)
    ensures var hasHeight := |rest| >= 3 && (IsDigits(rest[..3], 3) || (slashes && rest[..3] == "///"));
      && (hasHeight <==> height.Some?)
      && (hasHeight ==> rest[..3] == height.value && rest[3..] == OptionalPart(kind))
      && (!hasHeight ==> rest == OptionalPart(kind))
  {
    if height.Some? {
      assert rest[..3] == height.value && rest[3..] == OptionalPart(kind);
    } else if |rest| >= 3 {
      assert rest[0] == 'T';
    }
  }

  /** RE_VV: 'VV' and three digits or '///'. */
  function ParseVerticalVisibility(t: string): (r: Option<string>)
    ensures r.Some? ==> |r.value| == 3 && (AllDigits(r.value) || r.value == "///")
  {
    if |t| == 5 && t[..2] == "VV" && (IsDigits(t[2..], 3) || t[2..] == "///") then Some(t[2..]) else None
  }

  /** One half of RE_TEMP: an optional 'M' and two digits, or '//'. */
  predicate IsTempHalf(s: string)
  {
    s == "//" || IsDigits(s, 2) || (|s| == 3 && s[0] == 'M' && IsDigits(s[1..], 2))
  }

  /** RE_TEMP: air temperature, '/', dew point; the two groups. */
  function ParseTemp(t: string): (r: Option<(string, string)>)
    ensures r.Some? ==> IsTempHalf(r.value.0) && IsTempHalf(r.value.1) && t == r.value.0 + "/" + r.value.1
  {
    var n := if |t| > 0 && t[0] == 'M' then 3 else 2;
    if |t| > n && IsTempHalf(t[..n]) && t[n] == '/' && IsTempHalf(t[n + 1..])
    then Some((t[..n], t[n + 1..])) else None
  }

  /** A token made of one letter and four digits (RE_Q with 'Q', RE_A with 'A'). */
  function ParseLetterFourDigits(t: string, letter: char): (r: Option<string>)
    ensures r.Some? ==> IsDigits(r.value, 4) && t == [letter] + r.value
  {
    if |t| == 5 && t[0] == letter && IsDigits(t[1..], 4) then Some(t[1..]) else None
  }

  /** RE_TREND: BECMG, TEMPO, NOSIG, or FM, TL or AT followed by any number of digits. */
  predicate IsTrend(t: string)
  {
    || t == "BECMG" || t == "TEMPO" || t == "NOSIG"
    || (|t| >= 2 && (t[..2] == "FM" || t[..2] == "TL" || t[..2] == "AT") && AllDigits(t[2..]))
  }

  /** RE_RUNWAY6: 'R', two digits, '/', six digits; the runway and digit groups. */
  function ParseRunway6(t: string): (r: Option<(string, string)>)
    ensures r.Some? ==> IsDigits(r.value.0, 2) && IsDigits(r.value.1, 6)
  {
    if |t| == 10 && t[0] == 'R' && IsDigits(t[1..3], 2) && t[3] == '/' && IsDigits(t[4..], 6)
    then Some((t[1..3], t[4..])) else None
  }

  predicate IsRunwayBodyChar(c: char) { IsDigit(c) || c == '/' }

  /** RE_RUNWAY_VAR: 'R', two digits and an optional side letter, '/', then
      four to six characters from [0-9/]; the runway and body groups. */
  function ParseRunwayVar(t: string): (r: Option<(string, string)>)
    ensures r.Some? ==> 4 <= |r.value.1| <= 6 && forall k :: 0 <= k < |r.value.1| ==> IsRunwayBodyChar(r.value.1[k])
  {
    if |t| < 4 || t[0] != 'R' || !IsDigits(t[1..3], 2) then None
    else
      var rw := if IsSide(t[3]) then t[1..4] else t[1..3];
      var p := 1 + |rw|;
      if p < |t| && t[p] == '/' && 4 <= |t| - (p + 1) <= 6 && forall k :: p + 1 <= k < |t| ==> IsRunwayBodyChar(t[k])
      then Some((rw, t[p + 1..])) else None
  }

  /** The descriptor codes a weather token may carry (VC only as a prefix). */
  predicate IsDescriptorCode(c: string)
  {
    c == "MI" || c == "BC" || c == "PR" || c == "DR" || c == "BL" || c == "SH" || c == "TS" || c == "FZ" || c == "RE"
  }

  /** The phenomenon codes of present weather. */
  predicate IsPhenomenonCode(c: string)
  {
    || c == "DZ" || c == "RA" || c == "SN" || c == "SG" || c == "IC" || c == "PL" || c == "GR"
    || c == "GS" || c == "UP" || c == "BR" || c == "FG" || c == "FU" || c == "VA" || c == "DU"
    || c == "SA" || c == "HZ" || c == "PY" || c == "PO" || c == "SQ" || c == "DS" || c == "SS"
  }

  /** The optional intensity or proximity prefix of a weather token. */
  function WeatherPrefixLength(t: string): (n: nat)
    ensures n <= |t|
  {
    if |t| >= 1 && (t[0] == '+' || t[0] == '-') then 1
    else if |t| >= 2 && t[..2] == "VC" then 2
    else 0
  }

  /** One or more two-letter chunks, each a descriptor or a phenomenon code. */
  predicate AnyCodeChunks(s: string)
    decreases |s|
  {
    |s| >= 2 && (IsDescriptorCode(s[..2]) || IsPhenomenonCode(s[..2])) && (|s| == 2 || AnyCodeChunks(s[2..]))
  }

  /** RE_WEATHER of main5.py and main3.py: the prefix, then one or more codes
      in any order. ('VC' itself is no chunk, so when a token starts with VC
      only the reading with the prefix can succeed.) */
  predicate IsWeatherTokenAnyOrder(t: string)
  {
    AnyCodeChunks(t[WeatherPrefixLength(t)..])
  }

  /** One or more phenomenon chunks. */
  predicate PhenomenonChunks(s: string)
    decreases |s|
  {
    |s| >= 2 && IsPhenomenonCode(s[..2]) && (|s| == 2 || PhenomenonChunks(s[2..]))
  }

  /** At most `budget` descriptor chunks, then one or more phenomenon chunks. */
  predicate DescriptorsThenPhenomena(s: string, budget: nat)
    decreases |s|
  {
    || PhenomenonChunks(s)
    || (budget > 0 && |s| >= 2 && IsDescriptorCode(s[..2]) && DescriptorsThenPhenomena(s[2..], budget - 1))
  }

  /** RE_WEATHER of main2.py and main.py: the prefix, at most three
      descriptors, then one or more phenomena. */
  predicate IsWeatherTokenOrdered(t: string)
  {
    DescriptorsThenPhenomena(t[WeatherPrefixLength(t)..], 3)
  }

  /** The ordered shape is a special case of the any-order shape. */
  lemma {:induction false} OrderedIsAnyOrder(s: string, budget: nat)
    requires DescriptorsThenPhenomena(s, budget)
    ensures AnyCodeChunks(s)
    decreases |s|
  {
    if PhenomenonChunks(s) {
      PhenomenonChunksAreChunks(s);
    } else {
      OrderedIsAnyOrder(s[2..], budget - 1);
    }
  }

  lemma {:induction false} PhenomenonChunksAreChunks(s: string)
    requires PhenomenonChunks(s)
    ensures AnyCodeChunks(s)
    decreases |s|
  {
    if |s| > 2 { PhenomenonChunksAreChunks(s[2..]); }
  }
}
