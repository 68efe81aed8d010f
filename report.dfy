/** decode_metar: the report is split into tokens and read left to right
    by a cursor; each token is classified by the first pattern it matches and
    adds, edits or skips lines of the text. WS may take the next one or two
    tokens with it, and RMK turns everything after it into remarks and ends
    the reading. The versions differ in a few rules, named by `Version`. */
module Report {
  import opened Text
  import opened Lexicon
  import opened Patterns
  import opened Fields
  import opened Remarks
  import P5 = PhraseV5
  import P2 = PhraseV2
  import P1 = PhraseV1

  /** Which decode_metar: main5.py (whose text main3.py also produces),
      main2.py or main.py. */
  datatype Version = Main5 | Main2 | Main1

  // ---------------------------------------------------------------------
  // Tokens
  // ---------------------------------------------------------------------

  /** `metar.replace("=", "").split()`. */
  function Tokens(metar: string): (tokens: seq<string>)
    ensures forall k :: 0 <= k < |tokens| ==> tokens[k] != [] && NoSpace(tokens[k])
  {
    Split(RemoveAll(metar, "="))
  }

  /** No token carries an '=' sign. */
  lemma TokensHaveNoEquals(metar: string)
    ensures forall k :: 0 <= k < |Tokens(metar)| ==> '=' !in Tokens(metar)[k]
  {
    RemoveAllOfChar(metar, '=');
    SplitKeepsAbsent(RemoveAll(metar, "="), '=');
  }

  lemma {:induction false} RemoveAllOfChar(s: string, c: char)
    ensures c !in RemoveAll(s, [c])
    decreases |s|
  {
    if |s| >= 1 {
      RemoveAllOfChar(s[1..], c);
    }
  }

  lemma {:induction false} SplitKeepsAbsent(s: string, c: char)
    requires c !in s
    ensures forall k :: 0 <= k < |Split(s)| ==> c !in Split(s)[k]
    decreases |s|
  {
    var t := DropLeadingSpace(s);
    if t != [] {
      var w := Word(t);
      assert c !in t by {
        assert t == s[|s| - |t|..];
      }
      assert c !in w by {
        assert w == t[..|w|];
      }
      var rest := Split(t[|w|..]);
      SplitKeepsAbsent(t[|w|..], c);
      assert Split(s) == [w] + rest;
      forall k | 0 <= k < |Split(s)|
        ensures c !in Split(s)[k]
      {
        if k > 0 {
          assert Split(s)[k] == rest[k - 1];
        }
      }
    }
  }

  // ---------------------------------------------------------------------
  // What a token writes on its own
  // ---------------------------------------------------------------------

  /** A four-letter token is a station only second in the report or right
      after METAR or SPECI. */
  predicate StationHere(tokens: seq<string>, i: nat)
    requires i < |tokens|
  {
    i == 1 || (i > 0 && (tokens[i - 1] == "METAR" || tokens[i - 1] == "SPECI"))
  }

  /** RE_WEATHER: codes in any order in main5.py; at most three descriptors
      before the phenomena in main2.py and main.py. */
  predicate WeatherShaped(v: Version, t: string)
  {
    if v == Main5 then IsWeatherTokenAnyOrder(t) else IsWeatherTokenOrdered(t)
  }

  const STATION_LABEL: string := "Аэродром: "
  const TIME_LABEL: string := "Время наблюдения: "
  const UTC: string := " UTC"
  const VISIBILITY_WORD: string := "Видимость"
  const VISIBILITY_FULL: string := VISIBILITY_WORD + " ≥10 км"
  const VISIBILITY_MINIMUM: string := VISIBILITY_WORD + " минимальная "
  const TOWARDS: string := ", в направлении "
  const DASH: string := " — "
  const CLOUD_LABEL: string := "Облачность: "
  const TREND_WORD: string := "Тренд"
  const UNKNOWN_LABEL: string := "(неизвестно) "
  const WEATHER_LABEL: string := "Явления: "
  const NSW_FORECAST: string := "В прогнозе: без значимых явлений"
  const NSW_OBSERVED: string := "Явления: без значимых явлений"
  const SHEAR_PLAIN: string := "Сдвиг ветра (WS)"
  const SHEAR_ALL: string := "Сдвиг ветра: на всех ВПП"
  const SHEAR_ON: string := "Сдвиг ветра: на "

  /** The line of the runway-state branch; "(неизвестно)" when the group does
      not decode. main.py appends the result unguarded: see RunwayLineAsWritten1. */
  function RunwayLine(t: string): string
  {
    match DecodeRunway(t)
    case Some(r) => r
    case None => UNKNOWN_LABEL + t
  }

  /** The phrase of the version's weather decoder. */
  function WeatherPhrase(v: Version, t: string): string
  {
    match v
    case Main5 => P5.TokenPhrase(t)
    case Main2 => P2.TokenPhrase2(t)
    case Main1 => P1.TokenPhrase1(t)
  }

  /** Unmatched tokens: main5.py and main3.py pass over METAR, SPECI and TAF
      silently; main2.py and main.py report every one. */
  predicate ReportsUnknown(v: Version, t: string)
  {
    v != Main5 || (t != "METAR" && t != "SPECI" && t != "TAF")
  }

  /** The line a branch writes from the token alone, or none. Visibility and
      NSW depend on the line before; WS and RMK are read by the cursor. main.py's
      cloud pattern has no '///' base. */
  function LineOf(v: Version, t: string, k: TokenKind): Option<string>
  {
    match k
    case StationTok => Some(STATION_LABEL + t)
    case TimeTok => Some(TIME_LABEL + t + UTC)
    case WindTok(g) => Some(WindLine(g))
    case VarWindTok(from, to) => Some(VarWindLine(from, to))
    case RvrTok(g) => Some(RvrLine(g))
    case CloudTok(_) => Some(CLOUD_LABEL + DecodeCloud(t, v != Main1))
    case VerticalVisibilityTok(vv) => Some(VerticalVisibilityLine(vv))
    case TempTok(air, dew) => Some(TempLine(air, dew))
    case QnhTok(q) => Some(QnhLine(q))
    case AltimeterTok(a) => Some(AltimeterLine(a))
    case TrendTok => Some(TREND_WORD + " " + t)
    case RunwayTok => Some(RunwayLine(t))
    case WeatherTok =>
      var phrase := WeatherPhrase(v, t);
      if phrase != "" then Some(WEATHER_LABEL + phrase) else None
    case OtherTok => if ReportsUnknown(v, t) then Some(UNKNOWN_LABEL + t) else None
    case VisTok(_, _) => None
    case NswTok => None
    case WsTok => None
    case RmkTok => None
  }

  /** A token as the cursor meets it: the branch it takes and the line that
      branch writes on its own. */
  datatype Entry = Entry(kind: TokenKind, line: Option<string>)

  function EntryAt(v: Version, t: string, stationHere: bool): Entry
  {
    var k := KindOf(t, stationHere, v != Main1, WeatherShaped(v, t));
    Entry(k, LineOf(v, t, k))
  }

  /** The token at i depends only on itself, its place and its predecessor. */
  function EntryOf(v: Version, tokens: seq<string>, i: nat): Entry
    requires i < |tokens|
  {
    EntryAt(v, tokens[i], StationHere(tokens, i))
  }

  /** The entries of the first n tokens. */
  function Entries(v: Version, tokens: seq<string>, n: nat): (es: seq<Entry>)
    requires n <= |tokens|
    ensures |es| == n
  {
    if n == 0 then [] else Entries(v, tokens, n - 1) + [EntryOf(v, tokens, n - 1)]
  }

  lemma {:induction false} EntriesAt(v: Version, tokens: seq<string>, n: nat, k: nat)
    requires k < n <= |tokens|
    ensures Entries(v, tokens, n)[k] == EntryOf(v, tokens, k)
    decreases n
  {
    if k < n - 1 {
      EntriesAt(v, tokens, n - 1, k);
    }
  }

  // ---------------------------------------------------------------------
  // The cursor
  // ---------------------------------------------------------------------

  /** The visibility branch. 9999 always adds "≥10 km". Any other value
      right after a visibility line edits that line: a directional value is
      appended to it, a plain one replaces it with the minimum. Otherwise a
      new line is added. */
  function VisibilityUpdate(out: seq<string>, vis: string, dir: string): seq<string>
  {
    var n := DigitsValue(vis);
    if n == 9999 then out + [VISIBILITY_FULL]
    else if out != [] && StartsWith(out[|out| - 1], VISIBILITY_WORD) then
      if dir != "" then out[|out| - 1 := out[|out| - 1] + TOWARDS + dir + DASH + NatToString(n) + METRES]
      else out[|out| - 1 := VISIBILITY_MINIMUM + NatToString(n) + METRES]
    else if dir != "" then out + [VISIBILITY_WORD + " " + NatToString(n) + METRES + " " + dir]
    else out + [VISIBILITY_MINIMUM + NatToString(n) + METRES]
  }

  /** NSW: the forecast wording right after a trend line. */
  function NswLine(out: seq<string>): string
  {
    if out != [] && StartsWith(out[|out| - 1], TREND_WORD) then NSW_FORECAST else NSW_OBSERVED
  }

  /** The text after a token of a single-token branch. */
  function ApplyEntry(out: seq<string>, e: Entry): seq<string>
  {
    match e.kind
    case VisTok(vis, dir) => VisibilityUpdate(out, vis, dir)
    case NswTok => out + [NswLine(out)]
    case _ => if e.line.Some? then out + [e.line.value] else out
  }

  /** What WS reads: ALL RWY (two more tokens), a token starting RWY (one
      more) or nothing more. */
  datatype Shear = Shear(line: string, extra: nat, runways: Option<string>)

  function WindShear(tokens: seq<string>, i: nat): (r: Shear)
    requires i < |tokens|
    ensures r.extra <= 2 && i + 1 + r.extra <= |tokens|
  {
    if i + 2 < |tokens| && tokens[i + 1] == "ALL" && tokens[i + 2] == "RWY" then Shear(SHEAR_ALL, 2, Some("ALL"))
    else if i + 1 < |tokens| && StartsWith(tokens[i + 1], "RWY") then Shear(SHEAR_ON + tokens[i + 1], 1, Some(tokens[i + 1]))
    else Shear(SHEAR_PLAIN, 0, None)
  }

  /** The remark lines of the version. */
  function RemarkLines(v: Version, rts: seq<string>): seq<string>
  {
    if v == Main5 then RemarkLines5(rts) else RemarkLines2(v == Main2, rts, rts)
  }

  /** The text decode_metar has written once the cursor reaches i with the
      lines `out` written so far; es holds the entries of the tokens. */
  function LinesOver(v: Version, tokens: seq<string>, es: seq<Entry>, i: nat, out: seq<string>): seq<string>
    requires |es| == |tokens| && i <= |tokens|
    decreases |tokens| - i
  {
    if i == |tokens| then out
    else if es[i].kind.RmkTok? then out + RemarkLines(v, tokens[i + 1..])
    else if es[i].kind.WsTok? then
      var ws := WindShear(tokens, i);
      LinesOver(v, tokens, es, i + 1 + ws.extra, out + [ws.line])
    else LinesOver(v, tokens, es, i + 1, ApplyEntry(out, es[i]))
  }

  /** The lines decode_metar writes for a token list. */
  function TokenLines(v: Version, tokens: seq<string>): seq<string>
  {
    LinesOver(v, tokens, Entries(v, tokens, |tokens|), 0, [])
  }

  /** decode_metar's text. */
  function ReportText(v: Version, metar: string): string
  {
    Join(TokenLines(v, Tokens(metar)), "\n")
  }

  // ---------------------------------------------------------------------
  // The loops
  // ---------------------------------------------------------------------

  /** The visibility branch, editing the last line in place. */
  method VisibilityStep(out: seq<string>, vis: string, dir: string) returns (out': seq<string>)
    ensures out' == VisibilityUpdate(out, vis, dir)
  {
    var n := DigitsValue(vis);
    out' := out;
    if n == 9999 {
      out' := out' + [VISIBILITY_FULL];
    } else if out' != [] && StartsWith(out'[|out'| - 1], VISIBILITY_WORD) {
      if dir != "" {
        out' := out'[|out'| - 1 := out'[|out'| - 1] + TOWARDS + dir + DASH + NatToString(n) + METRES];
      } else {
        out' := out'[|out'| - 1 := VISIBILITY_MINIMUM + NatToString(n) + METRES];
      }
    } else if dir != "" {
      out' := out' + [VISIBILITY_WORD + " " + NatToString(n) + METRES + " " + dir];
    } else {
      out' := out' + [VISIBILITY_MINIMUM + NatToString(n) + METRES];
    }
  }

  /** The version's weather decoder. */
  method WeatherStep(v: Version, t: string) returns (phrase: string)
    ensures phrase == WeatherPhrase(v, t)
  {
    match v {
      case Main5 => phrase := P5.DecodeWeatherToken(t);
      case Main2 => phrase := P2.DecodeWeatherToken2(t);
      case Main1 => phrase := P1.DecodeWeather1(t);
    }
  }

  /** The lines of one single-token branch of decode_metar. */
  method Branch(v: Version, out: seq<string>, t: string, k: TokenKind) returns (out': seq<string>)
    requires !k.WsTok? && !k.RmkTok?
    ensures out' == ApplyEntry(out, Entry(k, LineOf(v, t, k)))
  {
    match k {
      case StationTok => out' := out + [STATION_LABEL + t];
      case TimeTok => out' := out + [TIME_LABEL + t + UTC];
      case WindTok(g) => out' := out + [WindLine(g)];
      case VarWindTok(from, to) => out' := out + [VarWindLine(from, to)];
      case VisTok(vis, dir) => out' := VisibilityStep(out, vis, dir);
      case RvrTok(g) => out' := out + [RvrLine(g)];
      case CloudTok(_) => out' := out + [CLOUD_LABEL + DecodeCloud(t, v != Main1)];
      case VerticalVisibilityTok(vv) => out' := out + [VerticalVisibilityLine(vv)];
      case TempTok(air, dew) => out' := out + [TempLine(air, dew)];
      case QnhTok(q) => out' := out + [QnhLine(q)];
      case AltimeterTok(a) => out' := out + [AltimeterLine(a)];
      case TrendTok => out' := out + [TREND_WORD + " " + t];
      case RunwayTok =>
        var r := DecodeRunway(t);
        out' := out + [if r.Some? then r.value else UNKNOWN_LABEL + t];
      case WeatherTok =>
        var phrase := WeatherStep(v, t);
        out' := if phrase != "" then out + [WEATHER_LABEL + phrase] else out;
      case NswTok =>
        out' := out + [if out != [] && StartsWith(out[|out| - 1], TREND_WORD) then NSW_FORECAST else NSW_OBSERVED];
      case OtherTok =>
        out' := out;
        if v != Main5 || (t != "METAR" && t != "SPECI" && t != "TAF") {
          out' := out' + [UNKNOWN_LABEL + t];
        }
    }
  }

  /** The remark lines of the version, written by its own loop. */
  method RemarkStep(v: Version, remarks: seq<string>) returns (lines: seq<string>)
    ensures lines == RemarkLines(v, remarks)
  {
    if v == Main5 {
      var texts, recs := ScanRemarks5(remarks);
      lines := (if remarks != [] then [REMARKS_HEADER] else []) + texts;
    } else {
      lines := RemarkLoop2(v == Main2, remarks);
    }
  }

  /** One pass of the cursor loop with the entry of the token at i known:
      the branch of its kind. `done` when it was RMK, which ends the
      reading. */
  method Advance(v: Version, tokens: seq<string>, ghost es: seq<Entry>, i: nat, out: seq<string>, k: TokenKind)
    returns (i': nat, out': seq<string>, done: bool)
    requires |es| == |tokens| && i < |tokens| && es[i] == Entry(k, LineOf(v, tokens[i], k))
    ensures i < i' <= |tokens|
    ensures done ==> out' == LinesOver(v, tokens, es, i, out)
    ensures !done ==> LinesOver(v, tokens, es, i', out') == LinesOver(v, tokens, es, i, out)
  {
    if k.RmkTok? {
      var lines := RemarkStep(v, tokens[i + 1..]);
      i', out', done := i + 1, out + lines, true;
    } else if k.WsTok? {
      var ws := WindShear(tokens, i);
      i', out', done := i + 1 + ws.extra, out + [ws.line], false;
    } else {
      out' := Branch(v, out, tokens[i], k);
      i', done := i + 1, false;
    }
  }

  /** One pass of the cursor loop: classify the token at i, then take its
      branch. */
  method Step(v: Version, tokens: seq<string>, ghost es: seq<Entry>, i: nat, out: seq<string>)
    returns (i': nat, out': seq<string>, done: bool)
    requires |es| == |tokens| && i < |tokens| && es[i] == EntryOf(v, tokens, i)
    ensures i < i' <= |tokens|
    ensures done ==> out' == LinesOver(v, tokens, es, i, out)
    ensures !done ==> LinesOver(v, tokens, es, i', out') == LinesOver(v, tokens, es, i, out)
  {
    var t := tokens[i];
    var k := KindOf(t, StationHere(tokens, i), v != Main1, WeatherShaped(v, t));
    i', out', done := Advance(v, tokens, es, i, out, k);
  }

  /** decode_metar of main3.py (v = Main5), main2.py (Main2) and main.py
      (Main1): the cursor loop over the tokens. */
  method DecodeReport(v: Version, metar: string) returns (text: string)
    ensures text == ReportText(v, metar)
  {
    var tokens := Tokens(metar);
    ghost var es := Entries(v, tokens, |tokens|);
    var out: seq<string> := [];
    var i: nat := 0;
    while i < |tokens|
      invariant i <= |tokens|
      invariant LinesOver(v, tokens, es, i, out) == LinesOver(v, tokens, es, 0, [])
      decreases |tokens| - i
    {
      EntriesAt(v, tokens, |tokens|, i);
      var done;
      i, out, done := Step(v, tokens, es, i, out);
      if done {
        text := Join(out, "\n");
        return;
      }
    }
    text := Join(out, "\n");
  }

  method DecodeMetar3(metar: string) returns (text: string)
    ensures text == ReportText(Main5, metar)
  {
    text := DecodeReport(Main5, metar);
  }

  method DecodeMetar2(metar: string) returns (text: string)
    ensures text == ReportText(Main2, metar)
  {
    text := DecodeReport(Main2, metar);
  }

  method DecodeMetar1(metar: string) returns (text: string)
    ensures text == ReportText(Main1, metar)
  {
    text := DecodeReport(Main1, metar);
  }
}
