/** decode_metar of main5.py: the same text as main3.py, and beside it a
    record of what was read, filled branch by branch as the cursor moves. */
module ReportV5 {
  import opened Text
  import opened Patterns
  import opened Fields
  import opened Remarks
  import opened Report
  import P5 = PhraseV5

  // ---------------------------------------------------------------------
  // The record
  // ---------------------------------------------------------------------

  datatype TimeRec = TimeRec(raw: string, day: nat, hour: nat, minute: nat)

  /** 'VRB', or the direction in degrees. */
  datatype WindDir = VariableDir | Degrees(degrees: nat)

  datatype WindMain = WindMain(raw: string, direction: WindDir, speed: nat, gust: Option<nat>, unit: string)

  datatype Variability = Variability(raw: string, from: nat, to: nat)

  /** The wind entry: a wind group, the variability, or both. */
  datatype WindRec = WindRec(main: Option<WindMain>, variability: Option<Variability>)

  datatype VisRec = VisRec(raw: string, metres: nat, direction: Option<string>)

  datatype RvrRec = RvrRec(raw: string, runway: string, valueRaw: string, valueMax: Option<string>, trend: Option<char>)

  datatype CloudRec = CloudRec(raw: string, code: string, heightFt: Option<nat>, kind: Option<string>, text: string)

  datatype VvRec = VvRec(raw: string, heightM: Option<nat>)

  datatype TempRec = TempRec(raw: string, air: Option<int>, dew: Option<int>)

  /** QNH in hectopascals, or the altimeter setting in hundredths of an inch
      of mercury. */
  datatype Pressure = Qnh(raw: string, hpa: nat) | Altimeter(raw: string, hundredths: nat)

  datatype RunwayRec = RunwayRec(raw: string, text: Option<string>)

  datatype WeatherRec = WeatherRec(raw: string, text: string)

  datatype ShearRec = ShearRec(raw: seq<string>, runways: Option<string>)

  datatype RemarksRec = RemarksRec(raw: string, decoded: seq<RemarkRec>)

  /** metar_data: a key that was never set is None or an empty list. */
  datatype MetarData = MetarData(
    station: Option<string>,
    time: Option<TimeRec>,
    wind: Option<WindRec>,
    visibility: seq<VisRec>,
    rvr: seq<RvrRec>,
    clouds: seq<CloudRec>,
    verticalVisibility: Option<VvRec>,
    temperature: Option<TempRec>,
    pressure: Option<Pressure>,
    trend: seq<string>,
    runwayState: seq<RunwayRec>,
    weather: seq<WeatherRec>,
    windShear: seq<ShearRec>,
    remarks: Option<RemarksRec>,
    unknown: seq<string>)

  const EMPTY: MetarData := MetarData(None, None, None, [], [], [], None, None, None, [], [], [], [], None, [])

  const NO_SIGNIFICANT_WEATHER: string := "Без значимых явлений"

  // ---------------------------------------------------------------------
  // One branch
  // ---------------------------------------------------------------------

  function WindOf(t: string, g: WindGroups): WindMain
  {
    WindMain(t,
      if g.dir == "VRB" then VariableDir else Degrees(DigitsValue(g.dir)),
      DigitsValue(g.speed),
      if g.gust.Some? then Some(DigitsValue(g.gust.value)) else None,
      if g.unit.Some? then g.unit.value else "KT")
  }

  /** `int(hhh) * 100 if hhh and hhh.isdigit() else None`. */
  function CloudHeightFt(height: Option<string>): Option<nat>
  {
    if height.Some? && IsDigitString(height.value) then Some(DigitsValue(height.value) * 100) else None
  }

  /** What a single-token branch adds to the record. A wind group replaces
      the wind entry, variability kept or not; the variability keeps the
      wind group. Station, time, vertical visibility, temperature and
      pressure are replaced; the lists grow. */
  function Record(data: MetarData, t: string, k: TokenKind): MetarData
  {
    match k
    case StationTok => data.(station := Some(t))
    case TimeTok => data.(time := Some(TimeRec(t, DigitsValue(Slice(t, 0, 2)), DigitsValue(Slice(t, 2, 4)), DigitsValue(Slice(t, 4, 6)))))
    case WindTok(g) => data.(wind := Some(WindRec(Some(WindOf(t, g)), None)))
    case VarWindTok(from, to) =>
      var main := if data.wind.Some? then data.wind.value.main else None;
      data.(wind := Some(WindRec(main, Some(Variability(t, DigitsValue(from), DigitsValue(to))))))
    case VisTok(vis, dir) =>
      data.(visibility := data.visibility + [VisRec(t, DigitsValue(vis), if dir != "" then Some(dir) else None)])
    case RvrTok(g) => data.(rvr := data.rvr + [RvrRec(t, g.runway, g.value, g.max, g.trend)])
    case CloudTok(c) =>
      data.(clouds := data.clouds + [CloudRec(t, c.amount, CloudHeightFt(c.height), c.kind, DecodeCloud(t, true))])
    case VerticalVisibilityTok(vv) =>
      data.(verticalVisibility := Some(VvRec(t, if IsDigitString(vv) then Some(DigitsValue(vv) * 30) else None)))
    case TempTok(air, dew) => data.(temperature := Some(TempRec(t, TempValue(air), TempValue(dew))))
    case QnhTok(q) => data.(pressure := Some(Qnh(t, DigitsValue(q))))
    case AltimeterTok(a) => data.(pressure := Some(Altimeter(t, DigitsValue(a))))
    case TrendTok => data.(trend := data.trend + [t])
    case RunwayTok => data.(runwayState := data.runwayState + [RunwayRec(t, DecodeRunway(t))])
    case WeatherTok =>
      var phrase := P5.TokenPhrase(t);
      if phrase != "" then data.(weather := data.weather + [WeatherRec(t, phrase)]) else data
    case NswTok => data.(weather := data.weather + [WeatherRec(t, NO_SIGNIFICANT_WEATHER)])
    case OtherTok => if ReportsUnknown(Main5, t) then data.(unknown := data.unknown + [t]) else data
    case WsTok => data
    case RmkTok => data
  }

  /** The remarks entry: set only when something follows RMK. */
  function RemarksRecord(data: MetarData, rts: seq<string>): MetarData
  {
    if rts != [] then data.(remarks := Some(RemarksRec(Join(rts, " "), Remarks5(rts)))) else data
  }

  /** The record once the cursor reaches i, `data` filled so far; the cursor
      moves exactly as for the text. */
  function RecordOver(tokens: seq<string>, es: seq<Entry>, i: nat, data: MetarData): MetarData
    requires |es| == |tokens| && i <= |tokens|
    decreases |tokens| - i
  {
    if i == |tokens| then data
    else if es[i].kind.RmkTok? then RemarksRecord(data, tokens[i + 1..])
    else if es[i].kind.WsTok? then
      var ws := WindShear(tokens, i);
      RecordOver(tokens, es, i + 1 + ws.extra,
        data.(windShear := data.windShear + [ShearRec(tokens[i..i + 1 + ws.extra], ws.runways)]))
    else RecordOver(tokens, es, i + 1, Record(data, tokens[i], es[i].kind))
  }

  /** metar_data as decode_metar returns it. */
  function MetarRecord(metar: string): MetarData
  {
    var tokens := Tokens(metar);
    RecordOver(tokens, Entries(Main5, tokens, |tokens|), 0, EMPTY)
  }

  // ---------------------------------------------------------------------
  // The loop
  // ---------------------------------------------------------------------

  /** The record half of a single-token branch. */
  method RecordStep(data: MetarData, t: string, k: TokenKind) returns (data': MetarData)
    requires !k.WsTok? && !k.RmkTok?
    ensures data' == Record(data, t, k)
  {
    data' := data;
    match k {
      case StationTok => data' := data'.(station := Some(t));
      case TimeTok => data' := data'.(time := Some(TimeRec(t, DigitsValue(Slice(t, 0, 2)), DigitsValue(Slice(t, 2, 4)), DigitsValue(Slice(t, 4, 6)))));
      case WindTok(g) => data' := data'.(wind := Some(WindRec(Some(WindOf(t, g)), None)));
      case VarWindTok(from, to) =>
        var main := if data'.wind.Some? then data'.wind.value.main else None;
        data' := data'.(wind := Some(WindRec(main, Some(Variability(t, DigitsValue(from), DigitsValue(to))))));
      case VisTok(vis, dir) =>
        data' := data'.(visibility := data'.visibility + [VisRec(t, DigitsValue(vis), if dir != "" then Some(dir) else None)]);
      case RvrTok(g) => data' := data'.(rvr := data'.rvr + [RvrRec(t, g.runway, g.value, g.max, g.trend)]);
      case CloudTok(c) =>
        data' := data'.(clouds := data'.clouds + [CloudRec(t, c.amount, CloudHeightFt(c.height), c.kind, DecodeCloud(t, true))]);
      case VerticalVisibilityTok(vv) =>
        data' := data'.(verticalVisibility := Some(VvRec(t, if IsDigitString(vv) then Some(DigitsValue(vv) * 30) else None)));
      case TempTok(air, dew) => data' := data'.(temperature := Some(TempRec(t, TempValue(air), TempValue(dew))));
      case QnhTok(q) => data' := data'.(pressure := Some(Qnh(t, DigitsValue(q))));
      case AltimeterTok(a) => data' := data'.(pressure := Some(Altimeter(t, DigitsValue(a))));
      case TrendTok => data' := data'.(trend := data'.trend + [t]);
      case RunwayTok => data' := data'.(runwayState := data'.runwayState + [RunwayRec(t, DecodeRunway(t))]);
      case WeatherTok =>
        var phrase := P5.DecodeWeatherToken(t);
        if phrase != "" {
          data' := data'.(weather := data'.weather + [WeatherRec(t, phrase)]);
        }
      case NswTok => data' := data'.(weather := data'.weather + [WeatherRec(t, NO_SIGNIFICANT_WEATHER)]);
      case OtherTok =>
        if t != "METAR" && t != "SPECI" && t != "TAF" {
          data' := data'.(unknown := data'.unknown + [t]);
        }
    }
  }

  /** One pass of the cursor with the entry of the token at i known: the
      text and the record of its branch. */
  method Advance5(tokens: seq<string>, ghost es: seq<Entry>, i: nat, out: seq<string>, data: MetarData, k: TokenKind)
    returns (i': nat, out': seq<string>, data': MetarData, done: bool)
    requires |es| == |tokens| && i < |tokens| && es[i] == Entry(k, LineOf(Main5, tokens[i], k))
    ensures i < i' <= |tokens|
    ensures done ==> out' == LinesOver(Main5, tokens, es, i, out) && data' == RecordOver(tokens, es, i, data)
    ensures !done ==> LinesOver(Main5, tokens, es, i', out') == LinesOver(Main5, tokens, es, i, out)
    ensures !done ==> RecordOver(tokens, es, i', data') == RecordOver(tokens, es, i, data)
  {
    var t := tokens[i];
    if k.RmkTok? {
      var rts := tokens[i + 1..];
      var texts, recs := ScanRemarks5(rts);
      out' := out + (if rts != [] then [REMARKS_HEADER] else []) + texts;
      data' := if rts != [] then data.(remarks := Some(RemarksRec(Join(rts, " "), recs))) else data;
      i', done := i + 1, true;
    } else if k.WsTok? {
      var ws := WindShear(tokens, i);
      i' := i + 1 + ws.extra;
      out' := out + [ws.line];
      data' := data.(windShear := data.windShear + [ShearRec(tokens[i..i'], ws.runways)]);
      done := false;
    } else {
      out' := Branch(Main5, out, t, k);
      data' := RecordStep(data, t, k);
      i', done := i + 1, false;
    }
  }

  /** One pass of the cursor: classify the token at i, then its branch. */
  method Step5(tokens: seq<string>, ghost es: seq<Entry>, i: nat, out: seq<string>, data: MetarData)
    returns (i': nat, out': seq<string>, data': MetarData, done: bool)
    requires |es| == |tokens| && i < |tokens| && es[i] == EntryOf(Main5, tokens, i)
    ensures i < i' <= |tokens|
    ensures done ==> out' == LinesOver(Main5, tokens, es, i, out) && data' == RecordOver(tokens, es, i, data)
    ensures !done ==> LinesOver(Main5, tokens, es, i', out') == LinesOver(Main5, tokens, es, i, out)
    ensures !done ==> RecordOver(tokens, es, i', data') == RecordOver(tokens, es, i, data)
  {
    var t := tokens[i];
    var k := KindOf(t, StationHere(tokens, i), true, WeatherShaped(Main5, t));
    i', out', data', done := Advance5(tokens, es, i, out, data, k);
  }

  /** decode_metar of main5.py: the text and the record. */
  method DecodeMetar5(metar: string) returns (text: string, data: MetarData)
    ensures text == ReportText(Main5, metar)
    ensures data == MetarRecord(metar)
  {
    var tokens := Tokens(metar);
    ghost var es := Entries(Main5, tokens, |tokens|);
    var out: seq<string> := [];
    data := EMPTY;
    var i: nat := 0;
    while i < |tokens|
      invariant i <= |tokens|
      invariant LinesOver(Main5, tokens, es, i, out) == LinesOver(Main5, tokens, es, 0, [])
      invariant RecordOver(tokens, es, i, data) == RecordOver(tokens, es, 0, EMPTY)
      decreases |tokens| - i
    {
      EntriesAt(Main5, tokens, |tokens|, i);
      var done;
      i, out, data, done := Step5(tokens, es, i, out, data);
      if done {
        text := Join(out, "\n");
        return;
      }
    }
    text := Join(out, "\n");
  }

  // ---------------------------------------------------------------------
  // Properties of the record
  // ---------------------------------------------------------------------

  /** Every visibility token adds one record entry, also when its text only
      edits the line before. */
  lemma VisibilityRecordedPerToken(out: seq<string>, data: MetarData, t: string, vis: string, dir: string)
    ensures |VisibilityUpdate(out, vis, dir)| <= |out| + 1
    ensures var d := Record(data, t, VisTok(vis, dir));
      |d.visibility| == |data.visibility| + 1 && d.visibility[..|data.visibility|] == data.visibility
      && d.visibility[|data.visibility|].raw == t && d.visibility[|data.visibility|].metres == DigitsValue(vis)
      && (d.visibility[|data.visibility|].direction.Some? <==> dir != "")
  {
  }

  /** A wind group replaces the whole wind entry, so a variability read
      before it is lost; read after it, the variability keeps the group. */
  lemma WindOverwritesVariability(data: MetarData, tw: string, g: WindGroups, tv: string, from: string, to: string)
    ensures Record(Record(data, tv, VarWindTok(from, to)), tw, WindTok(g)).wind
         == Some(WindRec(Some(WindOf(tw, g)), None))
    ensures Record(Record(data, tw, WindTok(g)), tv, VarWindTok(from, to)).wind
         == Some(WindRec(Some(WindOf(tw, g)), Some(Variability(tv, DigitsValue(from), DigitsValue(to)))))
  {
  }

  /** A wind group read as a record: VRB or degrees, and knots when no unit
      is given. */
  lemma WindOfGroups(t: string, g: WindGroups)
    ensures WindOf(t, g).direction.VariableDir? <==> g.dir == "VRB"
    ensures g.unit.None? ==> WindOf(t, g).unit == "KT"
    ensures WindOf(t, g).gust.Some? <==> g.gust.Some?
  {
  }

  predicate NoReportWords(unknown: seq<string>)
  {
    forall j :: 0 <= j < |unknown| ==> unknown[j] != "METAR" && unknown[j] != "SPECI" && unknown[j] != "TAF"
  }

  /** The unknown list never holds METAR, SPECI or TAF. */
  lemma {:induction false} UnknownSkipsReportWords(tokens: seq<string>, es: seq<Entry>, i: nat, data: MetarData)
    requires |es| == |tokens| && i <= |tokens| && NoReportWords(data.unknown)
    ensures NoReportWords(RecordOver(tokens, es, i, data).unknown)
    decreases |tokens| - i
  {
    if i < |tokens| && !es[i].kind.RmkTok? {
      if es[i].kind.WsTok? {
        var ws := WindShear(tokens, i);
        UnknownSkipsReportWords(tokens, es, i + 1 + ws.extra,
          data.(windShear := data.windShear + [ShearRec(tokens[i..i + 1 + ws.extra], ws.runways)]));
      } else {
        UnknownKept(data, tokens[i], es[i].kind);
        UnknownSkipsReportWords(tokens, es, i + 1, Record(data, tokens[i], es[i].kind));
      }
    }
  }

  lemma UnknownKept(data: MetarData, t: string, k: TokenKind)
    requires NoReportWords(data.unknown)
    ensures NoReportWords(Record(data, t, k).unknown)
  {
  }

  /** The text gets an unknown line exactly when the record gets an unknown
      entry. */
  lemma UnknownLineIffEntry(out: seq<string>, data: MetarData, t: string)
    ensures ApplyEntry(out, Entry(OtherTok, LineOf(Main5, t, OtherTok))) == out + [UNKNOWN_LABEL + t]
        <==> Record(data, t, OtherTok).unknown == data.unknown + [t]
    ensures ApplyEntry(out, Entry(OtherTok, LineOf(Main5, t, OtherTok))) == out
        <==> Record(data, t, OtherTok).unknown == data.unknown
  {
  }

  /** A weather token writes a line exactly when it adds a record entry, and
      both carry the same phrase. */
  lemma WeatherLineIffEntry(out: seq<string>, data: MetarData, t: string)
    ensures var out' := ApplyEntry(out, Entry(WeatherTok, LineOf(Main5, t, WeatherTok)));
      var d := Record(data, t, WeatherTok);
      && (|out'| == |out| + 1 <==> |d.weather| == |data.weather| + 1)
      && (|out'| == |out| <==> d.weather == data.weather)
      && (|out'| == |out| + 1 ==> out'[|out|] == WEATHER_LABEL + d.weather[|data.weather|].text)
  {
  }

  /** The remarks header is written exactly when the record gets a remarks
      entry, whose decoded list has one item per remark line. */
  lemma RemarksHeaderIffEntry(data: MetarData, rts: seq<string>)
    requires data.remarks.None?
    ensures RemarksRecord(data, rts).remarks.Some? <==> RemarkLines5(rts) != [] && RemarkLines5(rts)[0] == REMARKS_HEADER
    ensures RemarksRecord(data, rts).remarks.Some? ==>
      |RemarkLines5(rts)| == 1 + |RemarksRecord(data, rts).remarks.value.decoded|
  {
    if rts != [] {
      assert RemarkLines5(rts)[0] == REMARKS_HEADER;
    } else {
      assert Remarks5(rts) == [];
    }
  }

  /** The lists of the record only grow as the cursor moves. */
  predicate Grows(a: MetarData, b: MetarData)
  {
    && |a.visibility| <= |b.visibility| && b.visibility[..|a.visibility|] == a.visibility
    && |a.weather| <= |b.weather| && b.weather[..|a.weather|] == a.weather
    && |a.unknown| <= |b.unknown| && b.unknown[..|a.unknown|] == a.unknown
    && |a.windShear| <= |b.windShear| && b.windShear[..|a.windShear|] == a.windShear
  }

  lemma {:induction false} RecordGrows(tokens: seq<string>, es: seq<Entry>, i: nat, data: MetarData)
    requires |es| == |tokens| && i <= |tokens|
    ensures Grows(data, RecordOver(tokens, es, i, data))
    decreases |tokens| - i
  {
    if i < |tokens| && !es[i].kind.RmkTok? {
      var next := if es[i].kind.WsTok? then
          data.(windShear := data.windShear + [ShearRec(tokens[i..i + 1 + WindShear(tokens, i).extra], WindShear(tokens, i).runways)])
        else Record(data, tokens[i], es[i].kind);
      var j := if es[i].kind.WsTok? then i + 1 + WindShear(tokens, i).extra else i + 1;
      StepGrows(data, tokens[i], es[i].kind);
      RecordGrows(tokens, es, j, next);
      GrowsTransitive(data, next, RecordOver(tokens, es, j, next));
    }
  }

  lemma StepGrows(data: MetarData, t: string, k: TokenKind)
    ensures Grows(data, Record(data, t, k))
  {
  }

  lemma GrowsTransitive(a: MetarData, b: MetarData, c: MetarData)
    requires Grows(a, b) && Grows(b, c)
    ensures Grows(a, c)
  {
    assert c.visibility[..|a.visibility|] == c.visibility[..|b.visibility|][..|a.visibility|];
    assert c.weather[..|a.weather|] == c.weather[..|b.weather|][..|a.weather|];
    assert c.unknown[..|a.unknown|] == c.unknown[..|b.unknown|][..|a.unknown|];
    assert c.windShear[..|a.windShear|] == c.windShear[..|b.windShear|][..|a.windShear|];
  }
}
