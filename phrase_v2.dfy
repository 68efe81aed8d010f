/** The present-weather phrase engine of main2.py. A weather group is read
    two characters at a time (VC as the descriptor "вблизи", a descriptor
    before a phenomenon, one character skipped when neither matches). The
    phrase agrees with the first phenomenon; a thunderstorm stays a
    descriptor and only the first precipitation follows it. */
module PhraseV2 {
  import opened Text
  import opened Lexicon
  import opened Patterns
  import P5 = PhraseV5

  // ---------------------------------------------------------------------
  // Agreement
  // ---------------------------------------------------------------------

  /** grammatical_gender_number of main2.py (WEATHER_GRAMMAR): the phenomena
      and the thunderstorm have rows; the drifting- and blowing-snow names
      have none and default to masculine singular. */
  function GenderNumber2(n: Name): (Gender, GNumber)
  {
    if n == DriftingSnow || n == BlowingSnow then (Masc, Singular) else P5.GenderNumber(n)
  }

  /** The head: the first phenomenon, else the first descriptor. */
  function Head2(events: seq<Name>, descriptors: seq<Name>): Name
    requires events != [] || descriptors != []
  {
    if events != [] then events[0] else descriptors[0]
  }

  /** The descriptors with every thunderstorm removed. */
  function WithoutThunder(ds: seq<Name>): (r: seq<Name>)
    ensures Thunderstorm !in r
    ensures forall n :: n in ds && n != Thunderstorm ==> n in r
  {
    if ds == [] then []
    else (if ds[0] == Thunderstorm then [] else [ds[0]]) + WithoutThunder(ds[1..])
  }

  /** The descr_out loop of join_weather_events: a thunderstorm is skipped,
      "вблизи" is kept as it is, every other descriptor agrees with the head. */
  function DescrOut2(ds: seq<Name>, g: Gender, num: GNumber): seq<string>
  {
    if ds == [] then []
    else
      (if ds[0] == Thunderstorm then []
       else if ds[0] == Vicinity then [Spell(Vicinity)]
       else [P5.DescrForm(ds[0], g, num)])
      + DescrOut2(ds[1..], g, num)
  }

  /** The loop renders exactly the agreed forms of the non-thunderstorm
      descriptors, in order. */
  lemma {:induction false} DescrOut2SkipsThunder(ds: seq<Name>, g: Gender, num: GNumber)
    ensures DescrOut2(ds, g, num) == P5.AgreedDescriptors(WithoutThunder(ds), g, num)
  {
    if ds != [] {
      DescrOut2SkipsThunder(ds[1..], g, num);
      if ds[0] != Thunderstorm {
        var kept := WithoutThunder(ds);
        assert kept == [ds[0]] + WithoutThunder(ds[1..]);
        assert kept[0] == ds[0] && kept[1..] == WithoutThunder(ds[1..]);
        var w := P5.DescrForm(ds[0], g, num);
        assert DescrOut2(ds, g, num) == [w] + DescrOut2(ds[1..], g, num) by {
          if ds[0] == Vicinity {
            VicinityForm(g, num);
          }
        }
      }
    }
  }

  /** "вблизи" does not inflect. */
  lemma VicinityForm(g: Gender, num: GNumber)
    ensures P5.DescrForm(Vicinity, g, num) == Spell(Vicinity)
  {
  }

  const VICINITY_SPACE: string := "вблизи "

  /** The phrase before the intensity word: descriptors, then phenomena. */
  function Unsigned2(descrOut: seq<string>, events: seq<Name>): string
  {
    var ev := P5.EventsPhrase(events);
    if descrOut != [] then
      (if ev != "" then Join(descrOut, " ") + " " + ev else Join(descrOut, " "))
    else ev
  }

  /** The thunderstorm phrase of main2.py: the descriptors, the base word,
      and "с" with the first precipitation in the instrumental case. */
  function Thunder2(descrOut: seq<string>, events: seq<Name>, sign: string): string
  {
    var prec := P5.Precipitation(events);
    if prec != [] then JoinWords(descrOut + [P5.ThunderBase(sign) + " с " + P5.Instr(prec[0])])
    else JoinWords(descrOut + [P5.ThunderBase(sign)])
  }

  /** join_weather_events of main2.py. */
  function Phrase2(events: seq<Name>, descriptors: seq<Name>, sign: string): string
  {
    if events == [] && descriptors == [] then ""
    else
      var (g, num) := GenderNumber2(Head2(events, descriptors));
      var descrOut := DescrOut2(descriptors, g, num);
      if Thunderstorm in descriptors then Thunder2(descrOut, events, sign)
      else
        var phrase := Unsigned2(descrOut, events);
        if sign != "" && phrase != "" then
          if StartsWith(phrase, VICINITY_SPACE) then phrase
          else Strip(P5.IntensityWordFor(sign, g, num) + " " + phrase)
        else Strip(phrase)
  }

  // ---------------------------------------------------------------------
  // Properties of the phrase
  // ---------------------------------------------------------------------

  lemma {:induction false} DescrOut2Trimmed(ds: seq<Name>, g: Gender, num: GNumber)
    ensures forall k :: 0 <= k < |DescrOut2(ds, g, num)| ==> Trimmed(DescrOut2(ds, g, num)[k])
  {
    DescrOut2SkipsThunder(ds, g, num);
    P5.AgreedDescriptorsTrimmed(WithoutThunder(ds), g, num);
  }

  /** Two trimmed words joined by a space are trimmed. */
  lemma SpacedTrimmed(a: string, b: string)
    requires Trimmed(a) && Trimmed(b)
    ensures Trimmed(a + " " + b)
  {
  }

  lemma Unsigned2Trimmed(descrOut: seq<string>, events: seq<Name>)
    requires forall k :: 0 <= k < |descrOut| ==> Trimmed(descrOut[k])
    requires descrOut != [] || events != []
    ensures Trimmed(Unsigned2(descrOut, events))
  {
    if events != [] {
      P5.EventsPhraseTrimmed(events);
    }
    if descrOut != [] {
      JoinTrimmed(descrOut, " ");
      if events != [] {
        SpacedTrimmed(Join(descrOut, " "), P5.EventsPhrase(events));
      }
    }
  }

  /** The thunderstorm phrase always has its base word. */
  lemma Thunder2NonEmpty(descrOut: seq<string>, events: seq<Name>, sign: string)
    requires forall k :: 0 <= k < |descrOut| ==> Trimmed(descrOut[k])
    ensures Trimmed(Thunder2(descrOut, events, sign)) && Thunder2(descrOut, events, sign) != ""
  {
    P5.ThunderBaseTrimmed(sign);
    var prec := P5.Precipitation(events);
    var last := if prec != [] then P5.ThunderBase(sign) + " с " + P5.Instr(prec[0]) else P5.ThunderBase(sign);
    if prec != [] {
      P5.InstrTrimmed(prec[0]);
    }
    var parts := descrOut + [last];
    assert parts[|parts| - 1] == last != "";
    JoinWordsTrimmed(parts);
  }

  /** Without a thunderstorm, a non-empty phrase comes out trimmed. */
  lemma Plain2NonEmpty(events: seq<Name>, descriptors: seq<Name>, sign: string)
    requires events != [] || descriptors != []
    requires Thunderstorm !in descriptors
    ensures Phrase2(events, descriptors, sign) != ""
  {
    var (g, num) := GenderNumber2(Head2(events, descriptors));
    var descrOut := DescrOut2(descriptors, g, num);
    DescrOut2Trimmed(descriptors, g, num);
    assert descriptors != [] ==> descrOut != [] by {
      if descriptors != [] {
        assert descriptors[0] != Thunderstorm;
      }
    }
    Unsigned2Trimmed(descrOut, events);
    var phrase := Unsigned2(descrOut, events);
    if sign != "" && !StartsWith(phrase, VICINITY_SPACE) {
      P5.IntensityWordTrimmed(sign, g, num);
      SpacedTrimmed(P5.IntensityWordFor(sign, g, num), phrase);
      StripTrimmed(P5.IntensityWordFor(sign, g, num) + " " + phrase);
    } else {
      StripTrimmed(phrase);
    }
  }

  /** The phrase is empty exactly when there is nothing to render. */
  lemma Phrase2EmptyIff(events: seq<Name>, descriptors: seq<Name>, sign: string)
    ensures Phrase2(events, descriptors, sign) == "" <==> events == [] && descriptors == []
  {
    if events != [] || descriptors != [] {
      if Thunderstorm in descriptors {
        var (g, num) := GenderNumber2(Head2(events, descriptors));
        DescrOut2Trimmed(descriptors, g, num);
        Thunder2NonEmpty(DescrOut2(descriptors, g, num), events, sign);
      } else {
        Plain2NonEmpty(events, descriptors, sign);
      }
    }
  }

  /** A thunderstorm is followed by the first precipitation only: more
      phenomena after the first precipitation change nothing. */
  lemma ThunderFirstPrecipitationOnly(events: seq<Name>, extra: seq<Name>, descriptors: seq<Name>, sign: string)
    requires Thunderstorm in descriptors
    requires P5.Precipitation(events) != []
    ensures Phrase2(events + extra, descriptors, sign) == Phrase2(events, descriptors, sign)
  {
    P5.PrecipitationConcat(events, extra);
    assert events != [];
    assert (events + extra)[0] == events[0];
  }

  /** A phrase that starts with "вблизи" takes no intensity word. */
  lemma VicinityTakesNoIntensity(events: seq<Name>, descriptors: seq<Name>, sign: string)
    requires events != [] || descriptors != []
    requires Thunderstorm !in descriptors
    requires StartsWith(Unsigned2(DescrOut2(descriptors, GenderNumber2(Head2(events, descriptors)).0, GenderNumber2(Head2(events, descriptors)).1), events), VICINITY_SPACE)
    ensures Phrase2(events, descriptors, sign) == Phrase2(events, descriptors, "")
  {
    var (g, num) := GenderNumber2(Head2(events, descriptors));
    var descrOut := DescrOut2(descriptors, g, num);
    DescrOut2Trimmed(descriptors, g, num);
    assert descriptors != [] ==> descrOut != [] by {
      if descriptors != [] { assert descriptors[0] != Thunderstorm; }
    }
    Unsigned2Trimmed(descrOut, events);
    StripTrimmed(Unsigned2(descrOut, events));
  }

  /** Otherwise '+' or '-' puts exactly the agreed intensity word in front. */
  lemma SignPrefixes2(events: seq<Name>, descriptors: seq<Name>, sign: string)
    requires events != [] || descriptors != []
    requires Thunderstorm !in descriptors
    requires sign == "+" || sign == "-"
    requires !StartsWith(Unsigned2(DescrOut2(descriptors, GenderNumber2(Head2(events, descriptors)).0, GenderNumber2(Head2(events, descriptors)).1), events), VICINITY_SPACE)
    ensures Phrase2(events, descriptors, sign)
         == P5.IntensityWordFor(sign, GenderNumber2(Head2(events, descriptors)).0, GenderNumber2(Head2(events, descriptors)).1)
            + " " + Phrase2(events, descriptors, "")
  {
    var (g, num) := GenderNumber2(Head2(events, descriptors));
    var descrOut := DescrOut2(descriptors, g, num);
    DescrOut2Trimmed(descriptors, g, num);
    assert descriptors != [] ==> descrOut != [] by {
      if descriptors != [] { assert descriptors[0] != Thunderstorm; }
    }
    var phrase := Unsigned2(descrOut, events);
    Unsigned2Trimmed(descrOut, events);
    StripTrimmed(phrase);
    P5.IntensityWordTrimmed(sign, g, num);
    SpacedTrimmed(P5.IntensityWordFor(sign, g, num), phrase);
    StripTrimmed(P5.IntensityWordFor(sign, g, num) + " " + phrase);
  }

  // ---------------------------------------------------------------------
  // decode_weather_token
  // ---------------------------------------------------------------------

  /** What the scan makes of the two characters at the cursor: VC first, then
      the descriptor table (TS included), then the phenomenon table. */
  function ScanCode2(a: char, b: char): (c: P5.CodeClass)
    ensures c.DescriptorOf? ==> DescriptorPair(a, b) == Some(c.d)
    ensures c.PhenomenonOf? ==> PhenomenonPair(a, b) == Some(c.p) && c.p != Thunderstorm
  {
    if a == 'V' && b == 'C' then P5.DescriptorOf(Vicinity)
    else match DescriptorPair(a, b)
      case Some(d) => P5.DescriptorOf(d)
      case None =>
        match PhenomenonPair(a, b)
        case Some(p) => P5.PhenomenonOf(p)
        case None => P5.Dropped
  }

  /** The phenomena and descriptors a scan finds, in order. */
  datatype Scanned = Scanned(events: seq<Name>, descriptors: seq<Name>)

  /** The scan of main2.py: a recognised pair moves the cursor by two and is
      recorded; anything else moves it by one. */
  function Scan2(s: string): (r: Scanned)
    ensures 2 * (|r.events| + |r.descriptors|) <= |s|
    decreases |s|
  {
    if s == [] then Scanned([], [])
    else if |s| >= 2 && !ScanCode2(s[0], s[1]).Dropped? then
      var rest := Scan2(s[2..]);
      match ScanCode2(s[0], s[1])
      case DescriptorOf(d) => Scanned(rest.events, [d] + rest.descriptors)
      case PhenomenonOf(p) => Scanned([p] + rest.events, rest.descriptors)
    else Scan2(s[1..])
  }

  /** The sign and the text after it. */
  function SignAndRest(tok: string): (string, string)
  {
    if tok != [] && (tok[0] == '+' || tok[0] == '-') then (tok[..1], tok[1..]) else ("", tok)
  }

  /** decode_weather_token of main2.py, as a specification. */
  function TokenPhrase2(tok: string): string
  {
    if tok == [] then ""
    else
      var (sign, rest) := SignAndRest(tok);
      Phrase2(Scan2(rest).events, Scan2(rest).descriptors, sign)
  }

  /** One step of the scan, in the order the loop tests the cursor. */
  lemma Scan2Step(s: string)
    requires s != []
    ensures |s| >= 2 && s[0] == 'V' && s[1] == 'C'
            ==> Scan2(s) == Scanned(Scan2(s[2..]).events, [Vicinity] + Scan2(s[2..]).descriptors)
    ensures |s| >= 2 && !(s[0] == 'V' && s[1] == 'C') && DescriptorPair(s[0], s[1]).Some?
            ==> Scan2(s) == Scanned(Scan2(s[2..]).events, [DescriptorPair(s[0], s[1]).value] + Scan2(s[2..]).descriptors)
    ensures |s| >= 2 && !(s[0] == 'V' && s[1] == 'C') && DescriptorPair(s[0], s[1]).None? && PhenomenonPair(s[0], s[1]).Some?
            ==> Scan2(s) == Scanned([PhenomenonPair(s[0], s[1]).value] + Scan2(s[2..]).events, Scan2(s[2..]).descriptors)
    ensures (|s| < 2 || (!(s[0] == 'V' && s[1] == 'C') && DescriptorPair(s[0], s[1]).None? && PhenomenonPair(s[0], s[1]).None?))
            ==> Scan2(s) == Scan2(s[1..])
  {
  }

  /** The loop invariant of the scan: what has been collected, followed by
      the scan of what is left, is the scan of the whole. */
  predicate ScannedUpTo(rest: string, i: nat, events: seq<Name>, descriptors: seq<Name>)
    requires i <= |rest|
  {
    Scan2(rest) == Scanned(events + Scan2(rest[i..]).events, descriptors + Scan2(rest[i..]).descriptors)
  }

  /** Recording a descriptor found at the cursor keeps the invariant. */
  lemma AdvanceDescriptor(rest: string, i: nat, events: seq<Name>, descriptors: seq<Name>, d: Name)
    requires i + 2 <= |rest| && ScannedUpTo(rest, i, events, descriptors)
    requires Scan2(rest[i..]) == Scanned(Scan2(rest[i..][2..]).events, [d] + Scan2(rest[i..][2..]).descriptors)
    ensures ScannedUpTo(rest, i + 2, events, descriptors + [d])
  {
    assert rest[i..][2..] == rest[i + 2..];
    assert descriptors + ([d] + Scan2(rest[i + 2..]).descriptors) == (descriptors + [d]) + Scan2(rest[i + 2..]).descriptors;
  }

  /** Recording a phenomenon found at the cursor keeps the invariant. */
  lemma AdvancePhenomenon(rest: string, i: nat, events: seq<Name>, descriptors: seq<Name>, p: Name)
    requires i + 2 <= |rest| && ScannedUpTo(rest, i, events, descriptors)
    requires Scan2(rest[i..]) == Scanned([p] + Scan2(rest[i..][2..]).events, Scan2(rest[i..][2..]).descriptors)
    ensures ScannedUpTo(rest, i + 2, events + [p], descriptors)
  {
    assert rest[i..][2..] == rest[i + 2..];
    assert events + ([p] + Scan2(rest[i + 2..]).events) == (events + [p]) + Scan2(rest[i + 2..]).events;
  }

  /** Skipping one character the scan does not recognise keeps the invariant. */
  lemma AdvanceOne(rest: string, i: nat, events: seq<Name>, descriptors: seq<Name>)
    requires i < |rest| && ScannedUpTo(rest, i, events, descriptors)
    requires Scan2(rest[i..]) == Scan2(rest[i..][1..])
    ensures ScannedUpTo(rest, i + 1, events, descriptors)
  {
    assert rest[i..][1..] == rest[i + 1..];
  }

  /** The while loop of decode_weather_token: the cursor moves two
      characters over a recognised pair and one character otherwise. */
  method ScanPairs2(rest: string) returns (events: seq<Name>, descriptors: seq<Name>)
    ensures Scanned(events, descriptors) == Scan2(rest)
  {
    descriptors, events := [], [];
    var i := 0;
    assert rest[0..] == rest;
    while i < |rest|
      invariant 0 <= i <= |rest|
      invariant ScannedUpTo(rest, i, events, descriptors)
      decreases |rest| - i
    {
      Scan2Step(rest[i..]);
      var two := i + 2 <= |rest|;
      if two && rest[i] == 'V' && rest[i + 1] == 'C' {
        AdvanceDescriptor(rest, i, events, descriptors, Vicinity);
        descriptors := descriptors + [Vicinity];
        i := i + 2;
      } else if two && DescriptorPair(rest[i], rest[i + 1]).Some? {
        var d := DescriptorPair(rest[i], rest[i + 1]).value;
        AdvanceDescriptor(rest, i, events, descriptors, d);
        descriptors := descriptors + [d];
        i := i + 2;
      } else if two && PhenomenonPair(rest[i], rest[i + 1]).Some? {
        var p := PhenomenonPair(rest[i], rest[i + 1]).value;
        AdvancePhenomenon(rest, i, events, descriptors, p);
        events := events + [p];
        i := i + 2;
      } else {
        AdvanceOne(rest, i, events, descriptors);
        i := i + 1;
      }
    }
    assert rest[|rest|..] == [];
  }

  /** decode_weather_token of main2.py: the sign, then the scan, then the
      phrase. */
  method DecodeWeatherToken2(tok: string) returns (phrase: string)
    ensures phrase == TokenPhrase2(tok)
  {
    if tok == [] {
      return "";
    }
    var sign, rest := "", tok;
    if tok[0] == '+' || tok[0] == '-' {
      sign, rest := tok[..1], tok[1..];
    }
    var events, descriptors := ScanPairs2(rest);
    phrase := Phrase2(events, descriptors, sign);
  }

  /** The scan reads a group of the ordered weather shape chunk by chunk: at
      most `budget` descriptors, at least one phenomenon, and every two
      characters give one name. */
  lemma {:induction false} ScanOrderedGroup(s: string, budget: nat)
    requires DescriptorsThenPhenomena(s, budget)
    ensures |Scan2(s).descriptors| <= budget
    ensures Scan2(s).events != []
    ensures 2 * (|Scan2(s).events| + |Scan2(s).descriptors|) == |s|
    decreases |s|
  {
    if PhenomenonChunks(s) {
      ScanPhenomenonChunks(s);
    } else {
      DescriptorChunkScanned(s[..2]);
      ScanOrderedGroup(s[2..], budget - 1);
    }
  }

  lemma {:induction false} ScanPhenomenonChunks(s: string)
    requires PhenomenonChunks(s)
    ensures Scan2(s).descriptors == [] && |Scan2(s).events| >= 1 && 2 * |Scan2(s).events| == |s|
    decreases |s|
  {
    PhenomenonChunkScanned(s[..2]);
    if |s| > 2 {
      ScanPhenomenonChunks(s[2..]);
    } else {
      assert s[2..] == [];
    }
  }

  /** A descriptor code of the weather pattern is scanned as a descriptor. */
  lemma DescriptorChunkScanned(c: string)
    requires IsDescriptorCode(c)
    ensures ScanCode2(c[0], c[1]).DescriptorOf?
  {
  }

  /** A phenomenon code of the weather pattern is scanned as a phenomenon. */
  lemma PhenomenonChunkScanned(c: string)
    requires IsPhenomenonCode(c)
    ensures ScanCode2(c[0], c[1]).PhenomenonOf?
  {
  }

  /** A token of main2.py's weather pattern always gives a phrase, so the
      weather branch always writes its line. */
  lemma OrderedWeatherWritesLine2(t: string)
    requires IsWeatherTokenOrdered(t)
    ensures TokenPhrase2(t) != ""
  {
    var n := WeatherPrefixLength(t);
    var s := t[n..];
    ScanOrderedGroup(s, 3);
    var rest := SignAndRest(t).1;
    if n == 1 {
      assert rest == s;
    } else if n == 2 {
      assert rest == t && t[..2] == "VC";
      Scan2Step(t);
      assert t[2..] == s;
    } else {
      assert rest == t && s == t;
    }
    Phrase2EmptyIff(Scan2(rest).events, Scan2(rest).descriptors, SignAndRest(t).0);
  }
}
