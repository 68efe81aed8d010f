/** The group decoders the four decoder versions share: cloud layers, the
    runway-state group with its braking action, and the one-line renderings
    of the wind, RVR, temperature, vertical-visibility and pressure groups;
    and the first-match-wins order in which a report token is classified. */
module Fields {
  import opened Text
  import opened Lexicon
  import opened Patterns

  // ---------------------------------------------------------------------
  // Cloud layers (decode_cloud)
  // ---------------------------------------------------------------------

  const BASE_NO_DATA: string := " основание: нет данных"
  const BASE_OPEN: string := " основание ~"
  const BASE_METRES: string := " м ("
  const BASE_FEET: string := " ft)"

  /** The base clause: none without a height group, "no data" when the group
      holds '/', otherwise the height (in hundreds of feet) in metres (x30)
      and in feet (x100). */
  function CloudBase(height: Option<string>): string
  {
    match height
    case None => ""
    case Some(h) =>
      if '/' in h then BASE_NO_DATA
      else BASE_OPEN + NatToString(DigitsValue(h) * 30) + BASE_METRES + NatToString(DigitsValue(h) * 100) + BASE_FEET
  }

  /** The type clause: a space and the CB/TCU wording, or nothing. */
  function CloudKindPart(kind: Option<string>): string
  {
    match kind
    case None => ""
    case Some(k) => " " + CloudTypeText(k)
  }

  /** decode_cloud. `slashes` is whether the version's RE_CLOUD accepts a
      '///' base (main5.py, main3.py, main2.py) or not (main.py). A token
      that is no cloud group comes back unchanged. */
  function DecodeCloud(t: string, slashes: bool): (r: string)
    ensures ParseCloudWith(t, slashes).None? ==> r == t
  {
    match ParseCloudWith(t, slashes)
    case None => t
    case Some(g) =>
      if g.amount == "CAVOK" then CloudAmountText(g.amount)
      else CloudAmountText(g.amount) + CloudBase(g.height) + CloudKindPart(g.kind)
  }

  /** A layer written as amount, base and type decodes to the amount wording,
      the base clause and the type clause, in that order. */
  lemma DecodeCloudOfGroups(amount: string, height: Option<string>, kind: Option<string>, slashes: bool)
    requires IsCloudAmount(amount) && amount != "CAVOK"
    requires height.Some? ==> IsDigits(height.value, 3) || (slashes && height.value == "///")
    requires kind.Some? ==> kind.value == "CB" || kind.value == "TCU"
    ensures DecodeCloud(amount + OptionalPart(height) + OptionalPart(kind), slashes)
         == CloudAmountText(amount) + CloudBase(height) + CloudKindPart(kind)
  {
    ParseCloudToken(amount, height, kind, slashes);
  }

  /** A numeric base is reported in metres and feet, and both numbers read
      back as 30 and 100 times the coded height. */
  lemma CloudBaseMetresAndFeet(h: string)
    requires IsDigits(h, 3)
    ensures exists m: string, f: string ::
      && CloudBase(Some(h)) == BASE_OPEN + m + BASE_METRES + f + BASE_FEET
      && DigitsValue(m) == 30 * DigitsValue(h) && DigitsValue(f) == 100 * DigitsValue(h)
  {
    NatToStringRoundTrip(DigitsValue(h) * 30);
    NatToStringRoundTrip(DigitsValue(h) * 100);
  }

  /** A '///' base is reported as missing. */
  lemma CloudBaseMissing()
    ensures CloudBase(Some("///")) == BASE_NO_DATA
  {
    assert "///"[0] == '/';
  }

  /** Whatever follows CAVOK, the decoded group is the fixed CAVOK wording. */
  lemma CavokIgnoresRest(t: string, slashes: bool)
    requires |t| >= 5 && t[..5] == "CAVOK" && ParseCloudWith(t, slashes).Some?
    ensures DecodeCloud(t, slashes) == DecodeCloud("CAVOK", slashes)
  {
    assert "CAVOK"[..5] == "CAVOK";
  }

  // ---------------------------------------------------------------------
  // Runway state (runway_header, decode_braking, decode_runway_digits,
  // decode_runway_body, decode_runway)
  // ---------------------------------------------------------------------

  const ALL_RUNWAYS_HEADER: string := "Состояние всех ВПП:"
  const REPEATED_HEADER: string := "Состояние ВПП: повтор из предыдущего сообщения"
  const RUNWAY_PREFIX: string := "Состояние ВПП "

  /** runway_header: runway 88 stands for all runways, 99 for a repetition of
      the previous report; any other designator is named. */
  function RunwayHeader(rwy: string): (r: string)
    ensures r == ALL_RUNWAYS_HEADER <==> rwy == "88"
    ensures r == REPEATED_HEADER <==> rwy == "99"
  {
    if rwy == "88" then ALL_RUNWAYS_HEADER
    else if rwy == "99" then REPEATED_HEADER
    else
      var r := RUNWAY_PREFIX + rwy + ":";
      assert r[10] != ALL_RUNWAYS_HEADER[10];
      assert |r| == |REPEATED_HEADER| ==> r[|r| - 1] != REPEATED_HEADER[|r| - 1];
      r
  }

  const BRAKING_LABEL: string := "  Сцепление: "
  const COEFFICIENT: string := "коэффициент ≈ "
  const CODE_WORD: string := "код "

  /** decode_braking: a named band from the table, else the two digits read
      as a friction coefficient in hundredths, else the raw code. */
  function DecodeBraking(brake: string): (r: string)
    ensures StartsWith(r, BRAKING_LABEL)
  {
    match BrakingBand(brake)
    case Some(band) => BRAKING_LABEL + band
    case None =>
      if IsDigitString(brake) then BRAKING_LABEL + COEFFICIENT + Hundredths(DigitsValue(brake))
      else BRAKING_LABEL + CODE_WORD + brake
  }

  /** A coefficient reading prints the coded value as units and hundredths. */
  lemma BrakingCoefficientReadsBack(brake: string)
    requires BrakingBand(brake).None? && IsDigitString(brake)
    ensures exists c: string ::
      && DecodeBraking(brake) == BRAKING_LABEL + COEFFICIENT + c
      && |c| >= 4 && c[|c| - 3] == '.'
      && c[..|c| - 3] == NatToString(DigitsValue(brake) / 100) && AllDigits(c[|c| - 2..])
      && 100 * DigitsValue(c[..|c| - 3]) + DigitsValue(c[|c| - 2..]) == DigitsValue(brake)
  {
    var c := Hundredths(DigitsValue(brake));
    assert DecodeBraking(brake) == BRAKING_LABEL + COEFFICIENT + c;
  }

  /** A code that is neither a band nor a number is echoed verbatim. */
  lemma BrakingCodeEchoed(brake: string)
    requires BrakingBand(brake).None? && !IsDigitString(brake)
    ensures DecodeBraking(brake)[|BRAKING_LABEL + CODE_WORD|..] == brake
  {
  }

  const THICKNESS_NO_DATA: string := "нет данных"
  const MILLIMETRES: string := " мм"

  /** The depth of the deposit (code table 1079), for decode_runway_digits:
      '//' or a code that is not a number is no data; 0 is under a millimetre;
      1-90 millimetres; 92, 93, 94 and 98 are 10, 15, 20 and 40 cm; 99 means
      the runway is out of service; every other code is echoed. */
  function ThicknessText(thick: string): string
  {
    if thick == "//" || !IsDigitString(thick) then THICKNESS_NO_DATA
    else
      var iv := DigitsValue(thick);
      if iv == 0 then "<1 мм"
      else if 1 <= iv <= 90 then NatToString(iv) + MILLIMETRES
      else if iv == 92 then "10 см"
      else if iv == 93 then "15 см"
      else if iv == 94 then "20 см"
      else if iv == 98 then "40 см"
      else if iv == 99 then "ВПП не работает"
      else CODE_WORD + thick
  }

  /** Depths from 1 to 90 are printed in millimetres and read back. */
  lemma ThicknessMillimetres(thick: string)
    requires IsDigitString(thick) && 1 <= DigitsValue(thick) <= 90
    ensures exists n: string :: ThicknessText(thick) == n + MILLIMETRES && DigitsValue(n) == DigitsValue(thick)
  {
    assert thick != "//";
    NatToStringRoundTrip(DigitsValue(thick));
  }

  /** The two-digit depth codes with no meaning of their own (91 and 95-97)
      are exactly those echoed as a raw code. */
  lemma ThicknessCodeEchoed(thick: string)
    requires IsDigits(thick, 2)
    ensures ThicknessText(thick) == CODE_WORD + thick <==> DigitsValue(thick) in {91, 95, 96, 97}
  {
    assert thick != "//";
    var iv := DigitsValue(thick);
    DigitsValueBound(thick);
    if 1 <= iv <= 90 {
      var n := NatToString(iv);
      assert n[0] != CODE_WORD[0] by { assert IsDigit(n[0]); }
      assert (n + MILLIMETRES)[0] == n[0];
    }
  }

  const TYPE_LABEL: string := "  Тип покрытия: "
  const COVER_LABEL: string := "  Степень покрытия: "
  const THICKNESS_LABEL: string := "  Толщина: "
  const STATE_CODE_LABEL: string := "  Код состояния: "

  /** The lines decode_runway_digits collects for a six-digit group: header,
      deposit (d[0]), extent (d[1]), depth (d[2:4]), braking (d[4:6]). */
  function RunwayDigitsLines(rwy: string, d: string): (lines: seq<string>)
    requires |d| >= 2
  {
    [ RunwayHeader(rwy),
      TYPE_LABEL + RunwayTypeText(d[0]),
      COVER_LABEL + RunwayCoverText(d[1]),
      THICKNESS_LABEL + ThicknessText(Slice(d, 2, 4)),
      DecodeBraking(Slice(d, 4, 6)) ]
  }

  /** decode_runway_digits. */
  function DecodeRunwayDigits(rwy: string, d: string): string
    requires |d| >= 2
  {
    Join(RunwayDigitsLines(rwy, d), "\n")
  }

  /** The lines decode_runway_body collects for a variable-length group. */
  function RunwayBodyLines(rwy: string, body: string): (lines: seq<string>)
  {
    if |body| >= 4 then
      var brake := body[|body| - 2..];
      var core := body[..|body| - 2];
      [RunwayHeader(rwy)]
      + (if core != [] && IsDigit(core[0]) then [TYPE_LABEL + RunwayTypeText(core[0])] else [])
      + (if |core| > 1 && IsDigit(core[1]) then [COVER_LABEL + RunwayCoverText(core[1])] else [])
      + (if Contains(core, "//") then [THICKNESS_LABEL + THICKNESS_NO_DATA]
         else if |core| >= 3 && IsDigitString(core[2..]) then [THICKNESS_LABEL + NatToString(DigitsValue(core[2..])) + MILLIMETRES]
         else [])
      + [DecodeBraking(brake)]
    else [RunwayHeader(rwy), STATE_CODE_LABEL + body]
  }

  /** decode_runway_body. */
  function DecodeRunwayBody(rwy: string, body: string): string
  {
    Join(RunwayBodyLines(rwy, body), "\n")
  }

  /** decode_runway_digits as written: the header and the four state lines
      are appended to `res` one after another, then joined. */
  method RunwayDigitsText(rwy: string, d: string) returns (text: string)
    requires |d| >= 2
    ensures text == DecodeRunwayDigits(rwy, d)
  {
    var res := [RunwayHeader(rwy)];
    res := res + [TYPE_LABEL + RunwayTypeText(d[0])];
    res := res + [COVER_LABEL + RunwayCoverText(d[1])];
    res := res + [THICKNESS_LABEL + ThicknessText(Slice(d, 2, 4))];
    res := res + [DecodeBraking(Slice(d, 4, 6))];
    assert res == RunwayDigitsLines(rwy, d);
    text := Join(res, "\n");
  }

  /** decode_runway_body as written: each state line is appended to `res`
      only when its part of the body is present. */
  method RunwayBodyText(rwy: string, body: string) returns (text: string)
    ensures text == DecodeRunwayBody(rwy, body)
  {
    var res := [RunwayHeader(rwy)];
    if |body| >= 4 {
      var brake := body[|body| - 2..];
      var core := body[..|body| - 2];
      var typeLine := if core != [] && IsDigit(core[0]) then [TYPE_LABEL + RunwayTypeText(core[0])] else [];
      res := res + typeLine;
      var coverLine := if |core| > 1 && IsDigit(core[1]) then [COVER_LABEL + RunwayCoverText(core[1])] else [];
      res := res + coverLine;
      if Contains(core, "//") {
        res := res + [THICKNESS_LABEL + THICKNESS_NO_DATA];
      } else if |core| >= 3 && IsDigitString(core[2..]) {
        res := res + [THICKNESS_LABEL + NatToString(DigitsValue(core[2..])) + MILLIMETRES];
      }
      res := res + [DecodeBraking(brake)];
    } else {
      res := res + [STATE_CODE_LABEL + body];
    }
    assert res == RunwayBodyLines(rwy, body);
    text := Join(res, "\n");
  }

  /** In a body of four or more characters the last two are the braking code
      and are decoded last, after the header and at most three state lines;
      a shorter body is reported as a raw state code. */
  lemma RunwayBodyShape(rwy: string, body: string)
    ensures var lines := RunwayBodyLines(rwy, body);
      && lines[0] == RunwayHeader(rwy)
      && (|body| >= 4 ==> 2 <= |lines| <= 5 && lines[|lines| - 1] == DecodeBraking(body[|body| - 2..]))
      && (|body| < 4 ==> lines == [RunwayHeader(rwy), STATE_CODE_LABEL + body])
  {
  }

  /** "//" anywhere before the braking code means the depth is reported as
      missing, whatever digits follow. */
  lemma RunwayBodyMissingDepth(rwy: string, body: string)
    requires |body| >= 4 && Contains(body[..|body| - 2], "//")
    ensures THICKNESS_LABEL + THICKNESS_NO_DATA in RunwayBodyLines(rwy, body)
  {
  }

  /** Any of the clearing or closure markers, or a match of either runway
      shape, gives a decoded runway state. */
  predicate RunwayDecodable(tok: string)
  {
    || (StartsWith(tok, "R") && (Contains(tok, "CLRD") || Contains(tok, "CLSD")))
    || Contains(tok, "SNOCLO")
    || (Contains(tok, "RRRR") && Contains(tok, "99"))
    || ParseRunway6(tok).Some?
    || ParseRunwayVar(tok).Some?
  }

  /** decode_runway: the clearing and closure markers are tried before the
      two runway shapes; None when nothing applies. */
  function DecodeRunway(tok: string): (r: Option<string>)
    ensures r.None? <==> !RunwayDecodable(tok)
  {
    if StartsWith(tok, "R") && Contains(tok, "CLRD") then Some(RUNWAY_PREFIX + Slice(tok, 1, 3) + ": очищена")
    else if StartsWith(tok, "R") && Contains(tok, "CLSD") then Some(RUNWAY_PREFIX + Slice(tok, 1, 3) + ": закрыта")
    else if Contains(tok, "SNOCLO") then Some("Аэродром закрыт снегом")
    else if Contains(tok, "RRRR") && Contains(tok, "99") then Some("ВПП закрыта на чистку")
    else match ParseRunway6(tok)
      case Some(p) => Some(DecodeRunwayDigits(p.0, p.1))
      case None =>
        match ParseRunwayVar(tok)
        case Some(p) => Some(DecodeRunwayBody(p.0, p.1))
        case None => None
  }

  /** The guard of the runway-state branch of decode_metar. */
  predicate RunwayGuard(t: string)
  {
    && StartsWith(t, "R")
    && (|| ParseRunway6(t).Some? || ParseRunwayVar(t).Some?
        || Contains(t, "CLRD") || Contains(t, "CLSD") || Contains(t, "SNOCLO") || Contains(t, "RRRR"))
  }

  /** The only tokens that pass the guard and still decode to nothing carry
      RRRR without 99 (R24/RRRR, say). */
  lemma RunwayGuardUndecodable(t: string)
    requires RunwayGuard(t)
    ensures DecodeRunway(t).None? <==>
      Contains(t, "RRRR") && !Contains(t, "99") && !Contains(t, "CLRD") && !Contains(t, "CLSD")
      && !Contains(t, "SNOCLO") && ParseRunway6(t).None? && ParseRunwayVar(t).None?
  {
  }

  // ---------------------------------------------------------------------
  // One-line renderings of the other groups
  // ---------------------------------------------------------------------

  /** The unit word: MPS, KMH, and knots for KT or a missing unit. */
  function UnitWord(unit: Option<string>): string
  {
    var u := match unit case Some(x) => x case None => "KT";
    if u == "MPS" then "м/с" else if u == "KMH" then "км/ч" else "уз."
  }

  const GUST_WORD: string := ", порывы "

  function GustClause(gust: Option<string>, unitWord: string): string
  {
    match gust
    case None => ""
    case Some(x) => GUST_WORD + NatToString(DigitsValue(x)) + " " + unitWord
  }

  /** The wind line: calm for direction 000, variable for VRB, otherwise the
      direction in degrees; then the speed, the unit, and any gust in the same
      unit. Numbers are printed without leading zeros. */
  function WindLine(g: WindGroups): string
  {
    var u := UnitWord(g.unit);
    var s := NatToString(DigitsValue(g.speed));
    (if g.dir == "000" then "Штиль, " + s + " " + u
     else if g.dir == "VRB" then "Ветер переменный " + s + " " + u
     else "Ветер " + NatToString(DigitsValue(g.dir)) + "° " + s + " " + u)
    + GustClause(g.gust, u)
  }

  /** A wind group without a unit reads exactly as the same group in knots. */
  lemma WindDefaultsToKnots(g: WindGroups)
    requires g.unit.None?
    ensures WindLine(g) == WindLine(g.(unit := Some("KT")))
  {
  }

  /** A gust adds one clause at the end, in the unit of the mean wind. */
  lemma WindGustAppends(g: WindGroups, x: string)
    requires g.gust.None?
    ensures WindLine(g.(gust := Some(x))) == WindLine(g) + GUST_WORD + NatToString(DigitsValue(x)) + " " + UnitWord(g.unit)
  {
  }

  /** The variation line: both bearings as written. */
  function VarWindLine(from: string, to: string): string
  {
    "Вариабельность ветра: " + from + "°–" + to + "°"
  }

  /** The RVR value: P and M prefixes become '>' and '<' before the digits as
      written; a plain value is printed without leading zeros. */
  function RvrValueText(v: string): string
  {
    if v != [] && v[0] == 'P' then ">" + v[1..] + " м"
    else if v != [] && v[0] == 'M' then "<" + v[1..] + " м"
    else NatToString(DigitsValue(v)) + " м"
  }

  /** The tendency word of an RVR group, empty when there is none. */
  function RvrTrendWord(trend: Option<char>): string
  {
    match trend
    case Some('U') => "улучшалась"
    case Some('D') => "ухудшалась"
    case Some('N') => "без изменений"
    case _ => ""
  }

  const RVR_PREFIX: string := "RVR ВПП "

  /** The RVR line, stripped of the space left before a missing tendency. */
  function RvrLine(g: RvrGroups): string
  {
    Strip(RVR_PREFIX + g.runway + ": " + RvrValueText(g.value) + " " + RvrTrendWord(g.trend))
  }

  /** Without a tendency the RVR line ends at the unit, with no trailing space. */
  lemma RvrLineWithoutTrend(g: RvrGroups)
    requires g.trend.None?
    ensures RvrLine(g) == RVR_PREFIX + g.runway + ": " + RvrValueText(g.value)
  {
    var body := RVR_PREFIX + g.runway + ": " + RvrValueText(g.value);
    assert body[0] == 'R' && body[|body| - 1] == 'м';
    assert RVR_PREFIX + g.runway + ": " + RvrValueText(g.value) + " " + RvrTrendWord(g.trend) == body + " ";
    StripOneTrailingSpace(body);
  }

  /** Strip removes one trailing space after a trimmed string. */
  lemma StripOneTrailingSpace(w: string)
    requires Trimmed(w)
    ensures Strip(w + " ") == w
  {
    var ws := w + " ";
    assert ws[0] == w[0] && IsSpace(ws[|ws| - 1]);
    assert DropLeadingSpace(ws) == ws;
    assert ws[..|ws| - 1] == w;
    assert DropTrailingSpace(ws) == DropTrailingSpace(w) == w;
  }

  const NO_DATA: string := "нет данных"

  /** One half of the temperature group: '//' is no data; otherwise the
      value with its 'M' written as a minus sign, in degrees Celsius. */
  function TempHalfText(h: string): string
  {
    if h == "//" then NO_DATA else ReplaceChar(h, 'M', "-") + "°C"
  }

  /** The temperature line; air temperature and dew point independently. */
  function TempLine(air: string, dew: string): string
  {
    "Температура " + TempHalfText(air) + ", точка росы " + TempHalfText(dew)
  }

  /** `int(h.replace('M', '-'))` for a half that is not '//'. */
  function TempValue(h: string): Option<int>
  {
    if h == "//" then None
    else if h != [] && h[0] == 'M' then Some(-(DigitsValue(h[1..]) as int))
    else Some(DigitsValue(h) as int)
  }

  /** 'M' marks a value below zero, both in the text and in the value. */
  lemma TempMinus(x: string)
    requires IsDigits(x, 2)
    ensures TempHalfText("M" + x) == "-" + x + "°C" && TempHalfText(x) == x + "°C"
    ensures TempValue("M" + x) == Some(-(DigitsValue(x) as int)) && TempValue(x) == Some(DigitsValue(x) as int)
  {
    assert ("M" + x)[1..] == x;
    assert x != "//" by { assert IsDigit(x[0]); }
    ReplaceCharAbsent(x, 'M', "-");
  }

  /** The temperature halves as main5.py and main3.py obtain them:
      `T, Td = t.split('/')`, which raises unless there are exactly two pieces. */
  function TempSplitAsWritten(t: string): Option<(string, string)>
  {
    var pieces := SplitOn(t, '/');
    if |pieces| == 2 then Some((pieces[0], pieces[1])) else None
  }

  /** With both halves present the split agrees with the groups of RE_TEMP. */
  lemma TempSplitAgrees(t: string)
    requires ParseTemp(t).Some? && ParseTemp(t).value.0 != "//" && ParseTemp(t).value.1 != "//"
    ensures TempSplitAsWritten(t) == ParseTemp(t)
  {
    var (a, b) := ParseTemp(t).value;
    NoSlashInHalf(a);
    NoSlashInHalf(b);
    SplitOnTwo(a, b, '/');
    assert t == a + ['/'] + b;
  }

  lemma NoSlashInHalf(h: string)
    requires IsTempHalf(h) && h != "//"
    ensures '/' !in h
  {
  }

  /** With a missing half ('//') the split yields more than two pieces: the
      unpacking raises, on a token RE_TEMP accepts (15///, say). */
  lemma TempSplitFailsOnMissing(t: string)
    requires ParseTemp(t).Some? && (ParseTemp(t).value.0 == "//" || ParseTemp(t).value.1 == "//")
    ensures TempSplitAsWritten(t).None?
  {
    var (a, b) := ParseTemp(t).value;
    assert t == a + ("/" + b);
    CountCharConcat(a, "/" + b, '/');
    CountCharConcat("/", b, '/');
    assert "//"[1..] == "/" && "/"[1..] == "";
    assert CountChar("//", '/') == 2;
  }

  /** The instance: 15/// is a temperature group whose split raises. */
  lemma TempSplitCounterexample()
    ensures ParseTemp("15///") == Some(("15", "//"))
    ensures TempSplitAsWritten("15///").None?
  {
    assert "15///"[..2] == "15" && "15///"[3..] == "//";
    TempSplitFailsOnMissing("15///");
  }

  /** The vertical visibility line: '///' is no data, else 30 m per unit. */
  function VerticalVisibilityLine(vv: string): string
  {
    if vv == "///" then "Вертикальная видимость: нет данных"
    else "Вертикальная видимость " + NatToString(DigitsValue(vv) * 30) + " м"
  }

  /** The QNH line, in hectopascals as an integer. */
  function QnhLine(q: string): string
  {
    "Давление QNH " + NatToString(DigitsValue(q)) + " гПа"
  }

  /** The altimeter line: the four digits are hundredths of an inch of mercury. */
  function AltimeterLine(a: string): string
  {
    "Давление " + Hundredths(DigitsValue(a)) + " inHg"
  }

  // ---------------------------------------------------------------------
  // Token classification (the if/elif chain of decode_metar)
  // ---------------------------------------------------------------------

  /** What a token is, with the groups of the pattern it matched. */
  datatype TokenKind =
    | StationTok
    | TimeTok
    | WindTok(wind: WindGroups)
    | VarWindTok(from: string, to: string)
    | VisTok(vis: string, dir: string)
    | RvrTok(rvr: RvrGroups)
    | CloudTok(cloud: CloudGroups)
    | VerticalVisibilityTok(vv: string)
    | TempTok(air: string, dew: string)
    | QnhTok(qnh: string)
    | AltimeterTok(alt: string)
    | TrendTok
    | RunwayTok
    | WeatherTok
    | NswTok
    | WsTok
    | RmkTok
    | OtherTok

  /** The dispatch of decode_metar, the same order in every version: the
      first pattern that matches wins. The versions differ only in whether the
      station may stand here, in the cloud pattern and in the weather pattern,
      which the caller supplies. */
  function KindOf(t: string, stationHere: bool, slashes: bool, weatherShaped: bool): (k: TokenKind)
    ensures k == StationTok <==> IsStation(t) && stationHere
    ensures k == OtherTok ==> !IsStation(t) || !stationHere
  {
    if IsStation(t) && stationHere then StationTok
    else if IsTime(t) then TimeTok
    else if ParseWind(t).Some? then WindTok(ParseWind(t).value)
    else if ParseVarWind(t).Some? then VarWindTok(ParseVarWind(t).value.0, ParseVarWind(t).value.1)
    else if ParseVis(t).Some? then VisTok(ParseVis(t).value.0, ParseVis(t).value.1)
    else if ParseRvr(t).Some? then RvrTok(ParseRvr(t).value)
    else if ParseCloudWith(t, slashes).Some? then CloudTok(ParseCloudWith(t, slashes).value)
    else if ParseVerticalVisibility(t).Some? then VerticalVisibilityTok(ParseVerticalVisibility(t).value)
    else if ParseTemp(t).Some? then TempTok(ParseTemp(t).value.0, ParseTemp(t).value.1)
    else if ParseLetterFourDigits(t, 'Q').Some? then QnhTok(ParseLetterFourDigits(t, 'Q').value)
    else if ParseLetterFourDigits(t, 'A').Some? then AltimeterTok(ParseLetterFourDigits(t, 'A').value)
    else if IsTrend(t) then TrendTok
    else if RunwayGuard(t) then RunwayTok
    else if weatherShaped then WeatherTok
    else if t == "NSW" then NswTok
    else if t == "WS" then WsTok
    else if t == "RMK" then RmkTok
    else OtherTok
  }

  /** First match wins: R28/1900 is also a runway-state shape, but it is read
      as an RVR group, which is tried earlier. */
  lemma RvrBeforeRunwayState(stationHere: bool, slashes: bool, weatherShaped: bool)
    ensures ParseRunwayVar("R28/1900").Some?
    ensures KindOf("R28/1900", stationHere, slashes, weatherShaped).RvrTok?
  {
    R28BodyShape();
    R28NoEarlierShape();
    R28RvrShape();
  }

  lemma R28BodyShape()
    ensures ParseRunwayVar("R28/1900").Some?
  {
    var t := "R28/1900";
    assert t[1..3] == "28" && !IsSide(t[3]) && t[4..] == "1900";
  }

  lemma R28RvrShape()
    ensures ParseRvr("R28/1900").Some?
  {
    var t := "R28/1900";
    assert t[1..3] == "28" && !IsSide(t[3]) && t[4..8] == "1900";
  }

  lemma R28NoEarlierShape()
    ensures !IsStation("R28/1900") && !IsTime("R28/1900")
    ensures ParseWind("R28/1900").None? && ParseVarWind("R28/1900").None? && ParseVis("R28/1900").None?
  {
    var t := "R28/1900";
    assert !IsDigit(t[0]) && t[..3] != "VRB";
  }
}
