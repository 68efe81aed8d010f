/** Properties of decode_metar's text: what single tokens write, and how the
    remarks sit after the body of the report. */
module ReportProps {
  import opened Text
  import opened Lexicon
  import opened Patterns
  import opened Fields
  import opened Remarks
  import opened Report
  import P2 = PhraseV2

  // ---------------------------------------------------------------------
  // Single branches
  // ---------------------------------------------------------------------

  /** A visibility token edits the last line exactly when it is not 9999 and
      follows a visibility line; otherwise it adds one line and keeps the
      rest. Either way the text then ends with a visibility line. */
  lemma VisibilityEditsLastLine(out: seq<string>, vis: string, dir: string)
    ensures var r := VisibilityUpdate(out, vis, dir);
      && (|r| == |out| <==> DigitsValue(vis) != 9999 && out != [] && StartsWith(out[|out| - 1], VISIBILITY_WORD))
      && (|r| == |out| + 1 || |r| == |out|)
      && (|r| == |out| + 1 ==> r[..|out|] == out)
      && (|r| == |out| ==> r[..|out| - 1] == out[..|out| - 1])
  {
  }

  /** After a visibility token the text ends with a visibility line. */
  lemma VisibilityEndsText(out: seq<string>, vis: string, dir: string)
    ensures var r := VisibilityUpdate(out, vis, dir);
      r != [] && StartsWith(r[|r| - 1], VISIBILITY_WORD)
  {
    var n := DigitsValue(vis);
    var r := VisibilityUpdate(out, vis, dir);
    if n != 9999 && out != [] && StartsWith(out[|out| - 1], VISIBILITY_WORD) {
      var last := out[|out| - 1];
      if dir != "" {
        assert r[|r| - 1] == last + (TOWARDS + dir + DASH + NatToString(n) + METRES);
        StartsWithExtend(last, VISIBILITY_WORD, TOWARDS + dir + DASH + NatToString(n) + METRES);
      } else {
        assert r[|r| - 1] == VISIBILITY_WORD + (" минимальная " + NatToString(n) + METRES);
      }
    } else if n == 9999 {
      assert r[|r| - 1] == VISIBILITY_WORD + " ≥10 км";
    } else if dir != "" {
      assert r[|r| - 1] == VISIBILITY_WORD + (" " + NatToString(n) + METRES + " " + dir);
    } else {
      assert r[|r| - 1] == VISIBILITY_WORD + (" минимальная " + NatToString(n) + METRES);
    }
  }

  lemma StartsWithExtend(s: string, p: string, tail: string)
    requires StartsWith(s, p)
    ensures StartsWith(s + tail, p)
  {
    assert (s + tail)[..|p|] == s[..|p|];
  }

  /** NSW is read as a forecast exactly after a trend line. */
  lemma NswForecastIff(out: seq<string>)
    ensures NswLine(out) == NSW_FORECAST <==> out != [] && StartsWith(out[|out| - 1], TREND_WORD)
  {
    assert NSW_FORECAST[0] != NSW_OBSERVED[0];
  }

  /** WS never takes RMK with it, so a wind-shear group cannot hide the
      remarks. */
  lemma ShearSparesRmk(tokens: seq<string>, i: nat)
    requires i < |tokens|
    ensures forall j :: i < j <= i + WindShear(tokens, i).extra ==> tokens[j] != "RMK"
  {
    if i + 1 < |tokens| && StartsWith(tokens[i + 1], "RWY") {
      assert tokens[i + 1][2] == 'Y';
    }
  }

  /** RMK takes the remark branch wherever it stands, and no other token does. */
  lemma RmkKind(t: string, stationHere: bool, slashes: bool, weatherShaped: bool)
    requires t == "RMK" ==> !weatherShaped
    ensures KindOf(t, stationHere, slashes, weatherShaped).RmkTok? <==> t == "RMK"
  {
    if t == "RMK" {
      ShortNotRunway(t);
      RmkNoWord();
      RmkNoWindOrVisibility();
      RmkNoCloudOrPressure(slashes);
    }
  }

  lemma RmkNoWord()
    ensures var t := "RMK"; !IsStation(t) && !IsTime(t) && !IsTrend(t)
  {
    var t := "RMK";
    assert t[..1][0] == 'R' && t[..2] == "RM";
  }

  lemma RmkNoWindOrVisibility()
    ensures var t := "RMK";
      ParseWind(t).None? && ParseVarWind(t).None? && ParseVis(t).None? && ParseRvr(t).None?
  {
    var t := "RMK";
    assert t[..1][0] == 'R' && t[..2] == "RM";
  }

  lemma RmkNoCloudOrPressure(slashes: bool)
    ensures var t := "RMK";
      && ParseCloudWith(t, slashes).None? && ParseVerticalVisibility(t).None? && ParseTemp(t).None?
      && ParseLetterFourDigits(t, 'Q').None? && ParseLetterFourDigits(t, 'A').None?
  {
    var t := "RMK";
    assert t[..1][0] == 'R' && t[..2] == "RM";
  }

  /** RMK is not weather under either pattern. */
  lemma RmkNotWeather(v: Version)
    ensures !WeatherShaped(v, "RMK")
  {
  }

  /** A pattern longer than the text is not in it. */
  lemma {:induction false} ContainsNeedsRoom(s: string, p: string)
    requires Contains(s, p)
    ensures |p| <= |s|
    decreases |s|
  {
    if !StartsWith(s, p) {
      ContainsNeedsRoom(s[1..], p);
    }
  }

  /** A token of fewer than four characters never passes the runway-state guard. */
  lemma ShortNotRunway(t: string)
    requires |t| < 4
    ensures !RunwayGuard(t)
  {
    if Contains(t, "CLRD") { ContainsNeedsRoom(t, "CLRD"); }
    if Contains(t, "CLSD") { ContainsNeedsRoom(t, "CLSD"); }
    if Contains(t, "SNOCLO") { ContainsNeedsRoom(t, "SNOCLO"); }
    if Contains(t, "RRRR") { ContainsNeedsRoom(t, "RRRR"); }
  }

  // ---------------------------------------------------------------------
  // The remarks follow the body
  // ---------------------------------------------------------------------

  /** The entry of a token depends on the tokens up to it only. */
  lemma EntryLocal(v: Version, a: seq<string>, b: seq<string>, j: nat)
    requires j < |b| <= |a| && b == a[..|b|]
    ensures EntryOf(v, a, j) == EntryOf(v, b, j)
  {
    assert a[j] == b[j];
    assert StationHere(a, j) == StationHere(b, j) by {
      assert j > 0 ==> a[j - 1] == b[j - 1];
    }
  }

  /** The entries of a prefix of the tokens are those of the whole report. */
  lemma {:induction false} EntriesAgree(v: Version, a: seq<string>, b: seq<string>, n: nat)
    requires n <= |b| <= |a| && b == a[..|b|]
    ensures Entries(v, b, n) == Entries(v, a, n)
    decreases n
  {
    if n > 0 {
      EntriesAgree(v, a, b, n - 1);
      EntriesStep(v, a, b, n);
    }
  }

  lemma EntriesStep(v: Version, a: seq<string>, b: seq<string>, n: nat)
    requires 0 < n <= |b| <= |a| && b == a[..|b|] && Entries(v, b, n - 1) == Entries(v, a, n - 1)
    ensures Entries(v, b, n) == Entries(v, a, n)
  {
    EntryLocal(v, a, b, n - 1);
  }

  /** Reading further only adds entries. */
  lemma {:induction false} EntriesGrow(v: Version, a: seq<string>, n: nat, m: nat)
    requires n <= m <= |a|
    ensures Entries(v, a, n) == Entries(v, a, m)[..n]
    decreases m
  {
    if n < m {
      EntriesGrow(v, a, n, m - 1);
      assert Entries(v, a, m)[..m - 1] == Entries(v, a, m - 1);
    }
  }

  /** A token takes the remark branch exactly when it is RMK. */
  lemma EntryRmkIff(v: Version, tokens: seq<string>, j: nat)
    requires j < |tokens|
    ensures Entries(v, tokens, |tokens|)[j].kind.RmkTok? <==> tokens[j] == "RMK"
  {
    EntriesAt(v, tokens, |tokens|, j);
    RmkNotWeather(v);
    RmkKind(tokens[j], StationHere(tokens, j), v != Main1, WeatherShaped(v, tokens[j]));
  }

  /** WS reads the same in a report and in its prefix up to an RMK at p. */
  lemma ShearAgrees(a: seq<string>, b: seq<string>, i: nat)
    requires i + 1 < |b| <= |a| && b == a[..|b|] && a[|b| - 1] == "RMK"
    ensures WindShear(a, i) == WindShear(b, i)
  {
    assert a[i + 1] == b[i + 1];
    assert i + 2 < |b| ==> a[i + 2] == b[i + 2];
  }

  lemma NoRemarks(v: Version)
    ensures RemarkLines(v, []) == []
  {
    assert Remarks5([]) == [];
  }

  /** The common frame of the lemmas below: `tb` is `ta` up to and including
      its first RMK, `eb` the entries of `tb`, `rem` the lines of the remarks
      after that RMK. */
  predicate BodyThenRmk(v: Version, ta: seq<string>, ea: seq<Entry>, tb: seq<string>, eb: seq<Entry>, rem: seq<string>)
  {
    && |ea| == |ta| && 0 < |tb| <= |ta| && tb == ta[..|tb|] && eb == ea[..|tb|]
    && ta[|tb| - 1] == "RMK" && ea[|tb| - 1].kind.RmkTok?
    && (forall j :: 0 <= j < |tb| - 1 ==> !ea[j].kind.RmkTok? && ta[j] != "RMK")
    && rem == RemarkLines(v, ta[|tb|..])
  }

  /** From any cursor up to the first RMK, reading the whole report writes
      what reading it up to RMK writes, then the remark lines. */
  lemma {:induction false} RemarksAfterBody(v: Version, ta: seq<string>, ea: seq<Entry>, tb: seq<string>, eb: seq<Entry>, i: nat, out: seq<string>, rem: seq<string>)
    requires BodyThenRmk(v, ta, ea, tb, eb, rem) && i < |tb|
    ensures LinesOver(v, ta, ea, i, out) == LinesOver(v, tb, eb, i, out) + rem
    decreases |tb| - i, 1
  {
    if i == |tb| - 1 {
      assert eb[i] == ea[i];
      assert LinesOver(v, tb, eb, i, out) == out by {
        NoRemarks(v);
        assert tb[i + 1..] == [];
      }
    } else if ea[i].kind.WsTok? {
      RemarksAfterShear(v, ta, ea, tb, eb, i, out, rem);
    } else {
      RemarksAfterPlain(v, ta, ea, tb, eb, i, out, rem);
    }
  }

  lemma {:induction false} RemarksAfterShear(v: Version, ta: seq<string>, ea: seq<Entry>, tb: seq<string>, eb: seq<Entry>, i: nat, out: seq<string>, rem: seq<string>)
    requires BodyThenRmk(v, ta, ea, tb, eb, rem) && i < |tb| - 1 && ea[i].kind.WsTok?
    ensures LinesOver(v, ta, ea, i, out) == LinesOver(v, tb, eb, i, out) + rem
    decreases |tb| - i, 0
  {
    assert eb[i] == ea[i];
    var ws := WindShear(ta, i);
    var j := i + 1 + ws.extra;
    assert j < |tb| by {
      ShearSparesRmk(ta, i);
    }
    assert LinesOver(v, tb, eb, i, out) == LinesOver(v, tb, eb, j, out + [ws.line]) by {
      ShearAgrees(ta, tb, i);
    }
    RemarksAfterBody(v, ta, ea, tb, eb, j, out + [ws.line], rem);
  }

  lemma {:induction false} RemarksAfterPlain(v: Version, ta: seq<string>, ea: seq<Entry>, tb: seq<string>, eb: seq<Entry>, i: nat, out: seq<string>, rem: seq<string>)
    requires BodyThenRmk(v, ta, ea, tb, eb, rem) && i < |tb| - 1 && !ea[i].kind.WsTok?
    ensures LinesOver(v, ta, ea, i, out) == LinesOver(v, tb, eb, i, out) + rem
    decreases |tb| - i, 0
  {
    assert eb[i] == ea[i];
    RemarksAfterBody(v, ta, ea, tb, eb, i + 1, ApplyEntry(out, ea[i]), rem);
  }

  /** The remarks add to the text of the body before RMK and change nothing
      in it. */
  lemma RemarksAppendOnly(v: Version, pre: seq<string>, rest: seq<string>)
    requires "RMK" !in pre
    ensures TokenLines(v, pre + ["RMK"] + rest) == TokenLines(v, pre + ["RMK"]) + RemarkLines(v, rest)
  {
    var ta := pre + ["RMK"] + rest;
    var tb := pre + ["RMK"];
    var ea := Entries(v, ta, |ta|);
    var eb := Entries(v, tb, |tb|);
    var rem := RemarkLines(v, rest);
    assert BodyThenRmk(v, ta, ea, tb, eb, rem) by {
      assert tb == ta[..|tb|] && ta[|tb|..] == rest;
      EntriesAgree(v, ta, tb, |tb|);
      EntriesGrow(v, ta, |tb|, |ta|);
      forall j | 0 <= j < |tb|
        ensures ea[j].kind.RmkTok? <==> ta[j] == "RMK"
      {
        EntryRmkIff(v, ta, j);
      }
    }
    RemarksAfterBody(v, ta, ea, tb, eb, 0, [], rem);
  }

  // ---------------------------------------------------------------------
  // Unknown tokens and the station
  // ---------------------------------------------------------------------

  /** METAR matches no pattern: main2.py and main.py report it as unknown,
      main5.py and main3.py pass over it. */
  lemma MetarEntry(v: Version, stationHere: bool)
    ensures EntryAt(v, "METAR", stationHere)
         == Entry(OtherTok, if v == Main5 then None else Some(UNKNOWN_LABEL + "METAR"))
  {
    MetarNotWeather(v);
    MetarKind(stationHere, v != Main1);
  }

  lemma MetarNotWeather(v: Version)
    ensures !WeatherShaped(v, "METAR")
  {
  }

  lemma MetarKind(stationHere: bool, slashes: bool)
    ensures KindOf("METAR", stationHere, slashes, false) == OtherTok
  {
    MetarNoWord();
    MetarNoWindOrVisibility();
    MetarNoCloudOrPressure(slashes);
  }

  lemma MetarNoWord()
    ensures var t := "METAR"; !IsStation(t) && !IsTime(t) && !IsTrend(t) && !RunwayGuard(t)
  {
    var t := "METAR";
    assert t[..2] == "ME" && t[..1][0] == 'M';
  }

  lemma MetarNoWindOrVisibility()
    ensures var t := "METAR";
      ParseWind(t).None? && ParseVarWind(t).None? && ParseVis(t).None? && ParseRvr(t).None?
  {
    var t := "METAR";
    assert t[..2] == "ME" && t[..1][0] == 'M';
  }

  lemma MetarNoCloudOrPressure(slashes: bool)
    ensures var t := "METAR";
      && ParseCloudWith(t, slashes).None? && ParseVerticalVisibility(t).None? && ParseTemp(t).None?
      && ParseLetterFourDigits(t, 'Q').None? && ParseLetterFourDigits(t, 'A').None?
  {
    var t := "METAR";
    assert t[..2] == "ME" && t[..1][0] == 'M';
  }

  /** Wherever METAR stands, the cursor moves past it adding at most the
      unknown line. */
  lemma MetarWordUnknown(v: Version, tokens: seq<string>, i: nat, out: seq<string>)
    requires i < |tokens| && tokens[i] == "METAR"
    ensures LinesOver(v, tokens, Entries(v, tokens, |tokens|), i, out)
         == LinesOver(v, tokens, Entries(v, tokens, |tokens|), i + 1,
                      if v == Main5 then out else out + [UNKNOWN_LABEL + "METAR"])
  {
    var es := Entries(v, tokens, |tokens|);
    var line := if v == Main5 then None else Some(UNKNOWN_LABEL + "METAR");
    assert es[i] == Entry(OtherTok, line) by {
      EntriesAt(v, tokens, |tokens|, i);
      MetarEntry(v, StationHere(tokens, i));
    }
    OtherStep(v, tokens, es, i, out, line);
  }

  /** A token of no kind adds its line, if it has one, and moves on. */
  lemma OtherStep(v: Version, tokens: seq<string>, es: seq<Entry>, i: nat, out: seq<string>, line: Option<string>)
    requires |es| == |tokens| && i < |tokens| && es[i] == Entry(OtherTok, line)
    ensures LinesOver(v, tokens, es, i, out)
         == LinesOver(v, tokens, es, i + 1, if line.Some? then out + [line.value] else out)
  {
  }

  /** The first token is never the station, whatever follows. */
  lemma FirstTokenNotStation(v: Version, tokens: seq<string>)
    requires tokens != []
    ensures Entries(v, tokens, |tokens|)[0].kind != StationTok
  {
    EntriesAt(v, tokens, |tokens|, 0);
  }

  /** main.py's station test as written: at the first token `tokens[i-1]`
      is the last token. */
  predicate StationHereAsWritten1(tokens: seq<string>, i: nat)
    requires i < |tokens|
  {
    var before := if i == 0 then tokens[|tokens| - 1] else tokens[i - 1];
    i == 1 || before == "METAR" || before == "SPECI"
  }

  /** Past the first token the two tests agree; at the first token main.py
      takes a station name when the report ends with METAR. */
  lemma StationAsWrittenDiffers()
    ensures forall tokens: seq<string>, i: nat :: 0 < i < |tokens| ==>
      StationHereAsWritten1(tokens, i) == StationHere(tokens, i)
    ensures StationHereAsWritten1(["ULLI", "METAR"], 0) && !StationHere(["ULLI", "METAR"], 0)
  {
  }

  // ---------------------------------------------------------------------
  // The runway-state branch
  // ---------------------------------------------------------------------

  /** main.py's runway branch as written: it appends what decode_runway
      returns, None included, and None breaks the final join. */
  function RunwayLineAsWritten1(t: string): (r: Option<string>)
    ensures r.None? <==> !RunwayDecodable(t)
  {
    DecodeRunway(t)
  }

  /** RRRR third in a report reaches the runway branch and does not decode. */
  lemma RunwayAsWrittenFails()
    ensures EntryOf(Main1, ["METAR", "ULLI", "RRRR"], 2).kind == RunwayTok
    ensures RunwayLineAsWritten1("RRRR").None?
  {
    assert !StationHere(["METAR", "ULLI", "RRRR"], 2);
    RrrrKind(WeatherShaped(Main1, "RRRR"));
    RrrrUndecodable();
  }

  /** RRRR passes the runway-state guard but matches no decodable shape. */
  lemma RrrrUndecodable()
    ensures RunwayGuard("RRRR") && !RunwayDecodable("RRRR")
  {
    var t := "RRRR";
    assert StartsWith(t, "RRRR");
    if Contains(t, "CLRD") { ContainsHead(t, "CLRD"); }
    if Contains(t, "CLSD") { ContainsHead(t, "CLSD"); }
    if Contains(t, "SNOCLO") { ContainsHead(t, "SNOCLO"); }
    if Contains(t, "99") { ContainsHead(t, "99"); }
    assert t[1..3][0] == 'R';
  }

  /** Away from the station slot, RRRR is read by the runway-state branch. */
  lemma RrrrKind(weatherShaped: bool)
    ensures KindOf("RRRR", false, false, weatherShaped) == RunwayTok
  {
    var t := "RRRR";
    assert t[..2] == "RR";
    assert !IsTime(t) && !IsTrend(t);
    assert RunwayGuard(t) by { assert StartsWith(t, "RRRR"); }
    assert ParseWind(t).None? && ParseVarWind(t).None? && ParseVis(t).None? && ParseRvr(t).None?;
    assert ParseCloudWith(t, false).None? && ParseVerticalVisibility(t).None? && ParseTemp(t).None?;
    assert ParseLetterFourDigits(t, 'Q').None? && ParseLetterFourDigits(t, 'A').None?;
  }

  /** A text holding a pattern holds the pattern's first character. */
  lemma {:induction false} ContainsHead(s: string, p: string)
    requires Contains(s, p) && p != []
    ensures p[0] in s
    decreases |s|
  {
    if StartsWith(s, p) {
      assert s[0] == p[0];
    } else {
      ContainsHead(s[1..], p);
    }
  }

  /** The guarded runway line: the decoded text when there is one, else the
      token reported as unknown; always a line. */
  lemma RunwayLineGuarded(t: string)
    ensures RunwayDecodable(t) ==> RunwayLine(t) == DecodeRunway(t).value
    ensures !RunwayDecodable(t) ==> RunwayLine(t) == UNKNOWN_LABEL + t
    ensures RunwayLine(t) != ""
  {
  }
}
