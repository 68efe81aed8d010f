/** The present-weather decoder of main.py: an ungendered intensity word
    ("сильный", "слабый") or "вблизи" for a VC prefix, the descriptors in
    their dictionary form, then the phenomena joined into one phrase. */
module PhraseV1 {
  import opened Text
  import opened Lexicon
  import opened Patterns
  import P5 = PhraseV5
  import P2 = PhraseV2

  // ---------------------------------------------------------------------
  // join_weather_events(events)
  // ---------------------------------------------------------------------

  /** The phenomena of the WEATHER table (the two-letter codes other than TS). */
  predicate IsWeather1(n: Name)
  {
    PhenomenonEntryOf(n).Some? && n != DriftingSnow && n != BlowingSnow && n != Thunderstorm
  }

  /** WEATHER_INSTR: the instrumental form of every WEATHER word, nothing else. */
  function Instr1(n: Name): (r: Option<string>)
    ensures r.Some? <==> IsWeather1(n)
  {
    if IsWeather1(n) then Some(P5.Instr(n)) else None
  }

  /** The second word of a pair: its instrumental form, or the word itself
      when the table has none. */
  function SecondWord1(n: Name): string
  {
    match Instr1(n)
    case Some(w) => w
    case None => Spell(n)
  }

  /** join_weather_events of main.py. */
  function JoinEvents1(events: seq<Name>): string
  {
    if events == [] then ""
    else if |events| == 1 then Spell(events[0])
    else if |events| == 2 then
      Spell(events[0]) + " " + P5.Preposition(SecondWord1(events[1])) + " " + SecondWord1(events[1])
    else P5.ListPhrase(P5.Spells(events))
  }

  /** On the phenomena a weather group can hold, main.py joins events exactly
      as main5.py does. */
  lemma JoinEvents1AgreesWithV5(events: seq<Name>)
    requires forall k :: 0 <= k < |events| ==> IsWeather1(events[k])
    ensures JoinEvents1(events) == P5.EventsPhrase(events)
  {
  }

  /** A second word the table lacks is written as it is: here the drifting
      snow, which main5.py puts in the instrumental case. The branch is dead
      code in main.py's decoder: every word of its WEATHER table has an
      instrumental form (JoinEvents1AgreesWithV5), so the words it feeds in
      never reach it. */
  lemma JoinEvents1Fallback(first: Name)
    ensures JoinEvents1([first, DriftingSnow]) == Spell(first) + " с " + Spell(DriftingSnow)
    ensures JoinEvents1([first, DriftingSnow]) != P5.EventsPhrase([first, DriftingSnow])
  {
    var a := Spell(first) + " с " + Spell(DriftingSnow);
    var b := Spell(first) + " с " + P5.Instr(DriftingSnow);
    assert |a| + 1 == |b|;
  }

  lemma JoinEvents1Trimmed(events: seq<Name>)
    requires events != []
    ensures Trimmed(JoinEvents1(events))
  {
    if |events| == 1 {
      P5.SpellTrimmed(events[0]);
    } else if |events| == 2 {
      PairTrimmed(events[0], events[1]);
    } else {
      forall k | 0 <= k < |events| ensures Trimmed(P5.Spells(events)[k]) {
        P5.SpellTrimmed(events[k]);
      }
      P5.ListPhraseTrimmed(P5.Spells(events));
    }
  }

  lemma PairTrimmed(first: Name, second: Name)
    ensures Trimmed(JoinEvents1([first, second]))
  {
    var w := SecondWord1(second);
    SecondWordTrimmed(second);
    P5.SpellTrimmed(first);
    SpacedWords(Spell(first), P5.Preposition(w), w);
  }

  lemma SecondWordTrimmed(n: Name)
    ensures Trimmed(SecondWord1(n))
  {
    P5.SpellTrimmed(n);
    P5.InstrTrimmed(n);
  }

  lemma SpacedWords(a: string, p: string, w: string)
    requires Trimmed(a) && Trimmed(w) && (p == "с" || p == "со")
    ensures Trimmed(a + " " + p + " " + w)
  {
  }

  // ---------------------------------------------------------------------
  // decode_weather
  // ---------------------------------------------------------------------

  /** The DESCRIPTORS table of main.py: SH is "ливневый". */
  function DescriptorName1(a: char, b: char): Option<Name>
  {
    if a == 'S' && b == 'H' then Some(ShoweryV1) else DescriptorPair(a, b)
  }

  /** The scan of main.py: a descriptor is tried first (so TS is one), then
      a phenomenon; an unknown pair loses one character. */
  function Scan1(s: string): P2.Scanned
    decreases |s|
  {
    if s == [] then P2.Scanned([], [])
    else if |s| >= 2 && DescriptorName1(s[0], s[1]).Some? then
      P2.Scanned(Scan1(s[2..]).events, [DescriptorName1(s[0], s[1]).value] + Scan1(s[2..]).descriptors)
    else if |s| >= 2 && PhenomenonPair(s[0], s[1]).Some? then
      P2.Scanned([PhenomenonPair(s[0], s[1]).value] + Scan1(s[2..]).events, Scan1(s[2..]).descriptors)
    else Scan1(s[1..])
  }

  /** INTENSITY of main.py for the two signs. */
  function IntensityWord1(c: char): string
    requires c == '+' || c == '-'
  {
    if c == '+' then "сильный" else "слабый"
  }

  /** The intensity slot and the text left for the scan. */
  function Prefix1(tok: string): (string, string)
  {
    if tok != [] && (tok[0] == '+' || tok[0] == '-') then (IntensityWord1(tok[0]), tok[1..])
    else if StartsWith(tok, "VC") then (Spell(Vicinity), tok[2..])
    else ("", tok)
  }

  /** The descriptors and the joined phenomena, as the words of the phrase. */
  function Body1(sc: P2.Scanned): seq<string>
  {
    var w := if sc.events != [] then JoinEvents1(sc.events) else "";
    P5.Spells(sc.descriptors) + (if w != "" then [w] else [])
  }

  /** The words of the phrase, intensity slot first, joined by spaces. */
  function Phrase1(intensity: string, sc: P2.Scanned): string
  {
    Strip(Join((if intensity != "" then [intensity] else []) + Body1(sc), " "))
  }

  /** decode_weather of main.py, as a specification. */
  function TokenPhrase1(tok: string): string
  {
    if tok == [] then "" else Phrase1(Prefix1(tok).0, Scan1(Prefix1(tok).1))
  }

  /** The `while tok` loop of decode_weather, cutting two characters or one
      off the front. */
  method ScanWeather1(tok: string) returns (events: seq<Name>, descriptors: seq<Name>)
    ensures P2.Scanned(events, descriptors) == Scan1(tok)
  {
    var rest := tok;
    descriptors, events := [], [];
    while rest != []
      invariant Scan1(tok) == P2.Scanned(events + Scan1(rest).events, descriptors + Scan1(rest).descriptors)
      decreases |rest|
    {
      if |rest| >= 2 && DescriptorName1(rest[0], rest[1]).Some? {
        var d := DescriptorName1(rest[0], rest[1]).value;
        ShiftLast(descriptors, d, Scan1(rest[2..]).descriptors);
        descriptors := descriptors + [d];
        rest := rest[2..];
      } else if |rest| >= 2 && PhenomenonPair(rest[0], rest[1]).Some? {
        var p := PhenomenonPair(rest[0], rest[1]).value;
        ShiftLast(events, p, Scan1(rest[2..]).events);
        events := events + [p];
        rest := rest[2..];
      } else {
        rest := rest[1..];
      }
    }
  }

  lemma ShiftLast(a: seq<Name>, x: Name, b: seq<Name>)
    ensures a + ([x] + b) == (a + [x]) + b
  {
  }

  /** The end of decode_weather: the parts list is filled slot by slot and
      joined. */
  method JoinParts1(intensity: string, events: seq<Name>, descriptors: seq<Name>) returns (text: string)
    ensures text == Phrase1(intensity, P2.Scanned(events, descriptors))
  {
    var weatherText := if events != [] then JoinEvents1(events) else "";
    var parts: seq<string> := [];
    if intensity != "" {
      parts := parts + [intensity];
    }
    ghost var head := parts;
    if descriptors != [] {
      parts := parts + P5.Spells(descriptors);
    } else {
      assert P5.Spells(descriptors) == [];
    }
    ghost var middle := parts;
    if weatherText != "" {
      parts := parts + [weatherText];
    }
    ghost var tail := if weatherText != "" then [weatherText] else [];
    assert parts == middle + tail;
    assert Body1(P2.Scanned(events, descriptors)) == P5.Spells(descriptors) + tail;
    assert head == (if intensity != "" then [intensity] else []);
    assert parts == head + Body1(P2.Scanned(events, descriptors));
    text := Strip(Join(parts, " "));
  }

  /** decode_weather of main.py: the prefix, the scan, then intensity,
      descriptors and phenomena joined by spaces. */
  method DecodeWeather1(tok: string) returns (text: string)
    ensures text == TokenPhrase1(tok)
  {
    if tok == [] {
      return "";
    }
    var intensity, rest := "", tok;
    if tok[0] == '+' || tok[0] == '-' {
      intensity, rest := IntensityWord1(tok[0]), tok[1..];
    } else if StartsWith(tok, "VC") {
      intensity, rest := Spell(Vicinity), tok[2..];
    }
    assert (intensity, rest) == Prefix1(tok);
    var events, descriptors := ScanWeather1(rest);
    text := JoinParts1(intensity, events, descriptors);
  }

  // ---------------------------------------------------------------------
  // Properties
  // ---------------------------------------------------------------------

  /** The SH word of main.py in place of the one main2.py uses. */
  function RenameShowery(ds: seq<Name>): (r: seq<Name>)
    ensures |r| == |ds|
  {
    if ds == [] then []
    else [if ds[0] == Showery then ShoweryV1 else ds[0]] + RenameShowery(ds[1..])
  }

  /** main.py and main2.py read a group into the same codes; only the word
      for SH differs. */
  lemma {:induction false} Scan1IsScan2(s: string)
    ensures Scan1(s) == P2.Scanned(P2.Scan2(s).events, RenameShowery(P2.Scan2(s).descriptors))
    decreases |s|
  {
    if s != [] {
      P2.Scan2Step(s);
      if |s| >= 2 && (DescriptorName1(s[0], s[1]).Some? || PhenomenonPair(s[0], s[1]).Some?) {
        Scan1IsScan2(s[2..]);
      } else {
        Scan1IsScan2(s[1..]);
      }
    }
  }

  /** A group of the weather pattern is read whole: every two characters
      give one name and at least one of them is a phenomenon. */
  lemma ScanOrderedGroup1(s: string, budget: nat)
    requires DescriptorsThenPhenomena(s, budget)
    ensures Scan1(s).events != [] && |Scan1(s).descriptors| <= budget
    ensures 2 * (|Scan1(s).events| + |Scan1(s).descriptors|) == |s|
  {
    Scan1IsScan2(s);
    P2.ScanOrderedGroup(s, budget);
  }

  /** A character that is no capital letter starts no code and is skipped. */
  lemma SkipsNonLetter(c: char, s: string)
    requires !IsUpper(c)
    ensures Scan1([c] + s) == Scan1(s)
  {
    assert ([c] + s)[1..] == s;
  }

  /** Putting the two words together: a trimmed word before a non-empty
      list of trimmed words. */
  lemma PrefixWord(word: string, body: seq<string>)
    requires Trimmed(word) && body != []
    requires forall k :: 0 <= k < |body| ==> Trimmed(body[k])
    ensures Strip(Join([word] + body, " ")) == word + " " + Strip(Join(body, " "))
  {
    JoinCons(word, body, " ");
    JoinTrimmed(body, " ");
    StripSpaced(word, Join(body, " "));
  }

  lemma Body1Trimmed(sc: P2.Scanned)
    ensures forall k :: 0 <= k < |Body1(sc)| ==> Trimmed(Body1(sc)[k])
  {
    forall k | 0 <= k < |sc.descriptors| ensures Trimmed(P5.Spells(sc.descriptors)[k]) {
      P5.SpellTrimmed(sc.descriptors[k]);
    }
    if sc.events != [] {
      JoinEvents1Trimmed(sc.events);
    }
  }

  /** A trimmed word in the intensity slot goes in front of the rest. */
  lemma Phrase1Prefix(word: string, sc: P2.Scanned)
    requires Trimmed(word) && Body1(sc) != []
    ensures Phrase1(word, sc) == word + " " + Phrase1("", sc)
  {
    Body1Trimmed(sc);
    PrefixWord(word, Body1(sc));
    assert [] + Body1(sc) == Body1(sc);
  }

  /** "вблизи" in the intensity slot reads as a leading VC descriptor. */
  lemma Phrase1Vicinity(sc: P2.Scanned)
    ensures Phrase1(Spell(Vicinity), sc) == Phrase1("", P2.Scanned(sc.events, [Vicinity] + sc.descriptors))
  {
    var words := [Spell(Vicinity)] + Body1(sc);
    var wider := P2.Scanned(sc.events, [Vicinity] + sc.descriptors);
    assert P5.Spells([Vicinity] + sc.descriptors) == [Spell(Vicinity)] + P5.Spells(sc.descriptors);
    assert Body1(wider) == words;
    assert (if Spell(Vicinity) != "" then [Spell(Vicinity)] else []) + Body1(sc) == words;
    assert (if "" != "" then [""] else []) + Body1(wider) == words;
  }

  /** '+' or '-' adds exactly one ungendered word in front of what the rest
      of the group says; no word stands for moderate intensity. */
  lemma SignWord1(c: char, s: string)
    requires c == '+' || c == '-'
    requires s != [] && s[0] != '+' && s[0] != '-'
    requires TokenPhrase1(s) != ""
    ensures TokenPhrase1([c] + s) == IntensityWord1(c) + " " + TokenPhrase1(s)
  {
    assert ([c] + s)[1..] == s;
    assert Prefix1([c] + s) == (IntensityWord1(c), s);
    if StartsWith(s, "VC") {
      assert Prefix1(s) == (Spell(Vicinity), s[2..]);
      Scan1Vicinity(s);
      SignBeforeVicinity(c, Scan1(s[2..]));
    } else {
      assert Prefix1(s) == ("", s);
      SignBeforeBody(c, Scan1(s));
    }
  }

  /** A group starting with VC is read as the vicinity descriptor followed
      by the rest of the group. */
  lemma Scan1Vicinity(s: string)
    requires StartsWith(s, "VC")
    ensures Scan1(s) == P2.Scanned(Scan1(s[2..]).events, [Vicinity] + Scan1(s[2..]).descriptors)
  {
    assert |s| >= 2 && s[0] == 'V' && s[1] == 'C';
  }

  /** With no words the phrase is empty. */
  lemma EmptyBodyEmptyPhrase(sc: P2.Scanned)
    ensures Body1(sc) == [] ==> Phrase1("", sc) == ""
  {
    if Body1(sc) == [] {
      assert [] + Body1(sc) == [];
    }
  }

  /** The sign word goes in front of a non-empty unsigned phrase. */
  lemma SignBeforeBody(c: char, sc: P2.Scanned)
    requires c == '+' || c == '-'
    requires Phrase1("", sc) != ""
    ensures Phrase1(IntensityWord1(c), sc) == IntensityWord1(c) + " " + Phrase1("", sc)
  {
    var w := IntensityWord1(c);
    EmptyBodyEmptyPhrase(sc);
    IntensityWord1Trimmed(c);
    Phrase1Prefix(w, sc);
  }

  lemma IntensityWord1Trimmed(c: char)
    requires c == '+' || c == '-'
    ensures Trimmed(IntensityWord1(c))
  {
  }

  /** The sign word goes in front of "вблизи" and the rest. */
  lemma SignBeforeVicinity(c: char, sc: P2.Scanned)
    requires c == '+' || c == '-'
    ensures var wider := P2.Scanned(sc.events, [Vicinity] + sc.descriptors);
      Phrase1(IntensityWord1(c), wider) == IntensityWord1(c) + " " + Phrase1(Spell(Vicinity), sc)
  {
    var wider := P2.Scanned(sc.events, [Vicinity] + sc.descriptors);
    assert P5.Spells(wider.descriptors)[0] == Spell(Vicinity);
    assert Body1(wider) != [];
    Phrase1Prefix(IntensityWord1(c), wider);
    Phrase1Vicinity(sc);
  }
}
