/** The present-weather phrase engine of main5.py (main3.py holds the same
    code): a weather group such as -SHRASN is split into an intensity sign,
    descriptors and phenomena, and rendered as one Russian phrase whose
    adjectives agree with the head word. */
module PhraseV5 {
  import opened Text
  import opened Lexicon

  // ---------------------------------------------------------------------
  // Agreement
  // ---------------------------------------------------------------------

  /** grammatical_gender_number: the gender and number of a phenomenon name;
      a word the phenomenon table does not hold is masculine singular. */
  function GenderNumber(n: Name): (Gender, GNumber)
  {
    match PhenomenonEntryOf(n)
    case Some(e) => (e.gender, e.number)
    case None => (Masc, Singular)
  }

  /** intensity_word_for: the intensity adjective agreeing with a head of the
      given gender and number. */
  function IntensityWordFor(sign: string, g: Gender, num: GNumber): string
  {
    IntensityForms(sign).Get(FormKey(g, num))
  }

  /** descr_form: the descriptor adjective agreeing with the head; a
      descriptor without forms keeps its name. */
  function DescrForm(n: Name, g: Gender, num: GNumber): string
  {
    match DescriptorForms(n)
    case Some(f) => f.Get(FormKey(g, num))
    case None => Spell(n)
  }

  /** The instrumental form of a phenomenon name, or the name itself. */
  function Instr(n: Name): string
  {
    match PhenomenonEntryOf(n)
    case Some(e) => e.instr
    case None => Spell(n)
  }

  /** "со" before a word starting with 'с' or 'ш', "с" otherwise. */
  function Preposition(w: string): string
  {
    if w != [] && (w[0] == 'с' || w[0] == 'ш') then "со" else "с"
  }

  /** One item bare; more as "a, b и c". */
  function ListPhrase(ws: seq<string>): string
    requires |ws| >= 1
  {
    if |ws| == 1 then ws[0] else Join(ws[..|ws| - 1], ", ") + " и " + ws[|ws| - 1]
  }

  function Spells(ns: seq<Name>): (r: seq<string>)
    ensures |r| == |ns| && forall k :: 0 <= k < |ns| ==> r[k] == Spell(ns[k])
  {
    if ns == [] then [] else [Spell(ns[0])] + Spells(ns[1..])
  }

  function Instrs(ns: seq<Name>): (r: seq<string>)
    ensures |r| == |ns| && forall k :: 0 <= k < |ns| ==> r[k] == Instr(ns[k])
  {
    if ns == [] then [] else [Instr(ns[0])] + Instrs(ns[1..])
  }

  /** The descriptors rendered in agreement with one head. */
  function AgreedDescriptors(ds: seq<Name>, g: Gender, num: GNumber): (r: seq<string>)
    ensures |r| == |ds| && forall k :: 0 <= k < |ds| ==> r[k] == DescrForm(ds[k], g, num)
  {
    if ds == [] then [] else [DescrForm(ds[0], g, num)] + AgreedDescriptors(ds[1..], g, num)
  }

  /** The precipitation-like names, in order. */
  function Precipitation(ns: seq<Name>): (r: seq<Name>)
    ensures |r| <= |ns|
    ensures forall k :: 0 <= k < |r| ==> IsPrecipitation(r[k]) && r[k] in ns
    ensures forall n :: n in ns && IsPrecipitation(n) ==> n in r
  {
    if ns == [] then []
    else (if IsPrecipitation(ns[0]) then [ns[0]] else []) + Precipitation(ns[1..])
  }

  /** list.remove: the sequence without the first occurrence of x. */
  function RemoveFirst(s: seq<Name>, x: Name): (r: seq<Name>)
    requires x in s
    ensures |r| == |s| - 1
    ensures multiset(r) == multiset(s) - multiset{x}
  {
    assert s == [s[0]] + s[1..];
    if s[0] == x then s[1..] else [s[0]] + RemoveFirst(s[1..], x)
  }

  // ---------------------------------------------------------------------
  // The phrase, as a specification
  // ---------------------------------------------------------------------

  /** The word the phrase agrees with: a thunderstorm descriptor is promoted
      to the head; otherwise the first phenomenon, else the first descriptor. */
  function Head(events: seq<Name>, descriptors: seq<Name>): Name
    requires events != [] || descriptors != []
  {
    if Thunderstorm in descriptors then Thunderstorm
    else if events != [] then events[0]
    else descriptors[0]
  }

  /** "гроза", after the feminine intensity word when a sign is given. */
  function ThunderBase(sign: string): string
  {
    if sign == "" then THUNDER_WORD else IntensityWordFor(sign, Fem, Singular) + " " + THUNDER_WORD
  }

  /** A thunderstorm phrase: the descriptors, the base, and when there is
      precipitation "с"/"со" and the precipitation in the instrumental case. */
  function ThunderPhrase(descrOut: seq<string>, prec: seq<Name>, sign: string): string
  {
    if prec == [] then JoinWords(descrOut + [ThunderBase(sign)])
    else
      var instr := Instrs(prec);
      JoinWords(descrOut + [ThunderBase(sign) + " " + Preposition(instr[0]) + " " + ListPhrase(instr)])
  }

  /** The phenomena without a thunderstorm: one bare, two as "a с/со b-instr",
      more as a nominative list. */
  function EventsPhrase(evs: seq<Name>): string
  {
    if evs == [] then ""
    else if |evs| == 1 then Spell(evs[0])
    else if |evs| == 2 then Spell(evs[0]) + " " + Preposition(Instr(evs[1])) + " " + Instr(evs[1])
    else ListPhrase(Spells(evs))
  }

  /** The intensity slot: only '+' and '-' produce a word. */
  function IntensitySlot(sign: string, g: Gender, num: GNumber): string
  {
    if sign == "+" || sign == "-" then IntensityWordFor(sign, g, num) else ""
  }

  /** A phrase without a thunderstorm: intensity, descriptors, phenomena. */
  function PlainPhrase(descrOut: seq<string>, evs: seq<Name>, sign: string, g: Gender, num: GNumber): string
  {
    Strip(JoinWords([IntensitySlot(sign, g, num)] + descrOut + [EventsPhrase(evs)]))
  }

  /** The phrase join_weather_events renders, stated on its unmodified inputs. */
  function Phrase(events: seq<Name>, descriptors: seq<Name>, sign: string): string
  {
    if events == [] && descriptors == [] then ""
    else
      var head := Head(events, descriptors);
      var rest := if Thunderstorm in descriptors then RemoveFirst(descriptors, Thunderstorm) else descriptors;
      var descrOut := AgreedDescriptors(rest, GenderNumber(head).0, GenderNumber(head).1);
      if Thunderstorm in descriptors || Thunderstorm in events then ThunderPhrase(descrOut, Precipitation(events), sign)
      else PlainPhrase(descrOut, events, sign, GenderNumber(head).0, GenderNumber(head).1)
  }

  // ---------------------------------------------------------------------
  // join_weather_events
  // ---------------------------------------------------------------------

  /** join_weather_events: promotes a thunderstorm descriptor on local copies
      of the two lists, agrees the descriptors with the head, then renders. */
  method JoinWeatherEvents(events: seq<Name>, descriptors: seq<Name>, sign: string) returns (phrase: string)
    ensures phrase == Phrase(events, descriptors, sign)
  {
    if events == [] && descriptors == [] {
      return "";
    }
    var evs, ds := events, descriptors;
    if Thunderstorm in ds {
      evs := [Thunderstorm] + evs;
      ds := RemoveFirst(ds, Thunderstorm);
    }
    var hasTs := Thunderstorm in evs;
    var head := if evs != [] then evs[0] else ds[0];
    var (g, num) := GenderNumber(head);
    var descrOut := AgreedDescriptors(ds, g, num);
    assert head == Head(events, descriptors);
    if hasTs {
      PrecipitationSkipsThunder(evs, events);
      phrase := ThunderPhrase(descrOut, Precipitation(evs), sign);
    } else {
      phrase := PlainPhrase(descrOut, evs, sign, g, num);
    }
  }

  /** Prepending the (non-precipitation) thunderstorm changes no precipitation list. */
  lemma PrecipitationSkipsThunder(evs: seq<Name>, events: seq<Name>)
    requires evs == events || evs == [Thunderstorm] + events
    ensures Precipitation(evs) == Precipitation(events)
  {
    if evs != events {
      assert evs[1..] == events;
    }
  }

  // ---------------------------------------------------------------------
  // Properties of the phrase
  // ---------------------------------------------------------------------

  /** Every word of the tables is trimmed, so the phrase never starts or ends with a space. */
  lemma SpellTrimmed(n: Name)
    ensures Trimmed(Spell(n))
  {
    if n == Drizzle || n == Rain || n == Snow || n == SnowGrains || n == IceCrystals || n == IcePellets || n == Hail || n == SmallHail || n == UnknownPrecipitation || n == Mist || n == Fog || n == Smoke || n == VolcanicAsh || n == Dust || n == Sand || n == Haze {
      SpellTrimmedFirstHalf(n);
    } else {
      SpellTrimmedSecondHalf(n);
    }
  }

  lemma SpellTrimmedFirstHalf(n: Name)
    requires n in {Drizzle, Rain, Snow, SnowGrains, IceCrystals, IcePellets, Hail, SmallHail, UnknownPrecipitation, Mist, Fog, Smoke, VolcanicAsh, Dust, Sand, Haze}
    ensures Trimmed(Spell(n))
  {
  }

  lemma SpellTrimmedSecondHalf(n: Name)
    requires !(n in {Drizzle, Rain, Snow, SnowGrains, IceCrystals, IcePellets, Hail, SmallHail, UnknownPrecipitation, Mist, Fog, Smoke, VolcanicAsh, Dust, Sand, Haze})
    ensures Trimmed(Spell(n))
  {
  }

  lemma InstrTrimmed(n: Name)
    ensures Trimmed(Instr(n))
  {
    if n == Drizzle || n == Rain || n == Snow || n == SnowGrains || n == IceCrystals || n == IcePellets || n == Hail || n == SmallHail {
      InstrTrimmedPrecipitation(n);
    } else if n == UnknownPrecipitation || n == Mist || n == Fog || n == Smoke || n == VolcanicAsh || n == Dust || n == Sand || n == Haze {
      InstrTrimmedObscuration(n);
    } else if n == Spray || n == DustWhirls || n == Squall || n == Duststorm {
      InstrTrimmedOther(n);
    } else if n == Sandstorm || n == DriftingSnow || n == BlowingSnow || n == Thunderstorm {
      InstrTrimmedStorm(n);
    } else {
      SpellTrimmed(n);
    }
  }

  lemma InstrTrimmedPrecipitation(n: Name)
    requires n in {Drizzle, Rain, Snow, SnowGrains, IceCrystals, IcePellets, Hail, SmallHail}
    ensures Trimmed(Instr(n))
  {
  }

  lemma InstrTrimmedObscuration(n: Name)
    requires n in {UnknownPrecipitation, Mist, Fog, Smoke, VolcanicAsh, Dust, Sand, Haze}
    ensures Trimmed(Instr(n))
  {
  }

  lemma InstrTrimmedOther(n: Name)
    requires n in {Spray, DustWhirls, Squall, Duststorm}
    ensures Trimmed(Instr(n))
  {
  }

  lemma InstrTrimmedStorm(n: Name)
    requires n in {Sandstorm, DriftingSnow, BlowingSnow, Thunderstorm}
    ensures Trimmed(Instr(n))
  {
  }

  lemma DescrFormTrimmed(n: Name, g: Gender, num: GNumber)
    ensures Trimmed(DescrForm(n, g, num))
  {
    if n == Thin || n == Patches || n == Partial {
      DescrFormTrimmedA(n, g, num);
    } else if n == DriftingSnow || n == BlowingSnow || n == Showery {
      DescrFormTrimmedB(n, g, num);
    } else if n == Freezing || n == Vicinity || n == Recent {
      DescrFormTrimmedC(n, g, num);
    } else {
      SpellTrimmed(n);
    }
  }

  lemma DescrFormTrimmedA(n: Name, g: Gender, num: GNumber)
    requires n in {Thin, Patches, Partial}
    ensures Trimmed(DescrForm(n, g, num))
  {
  }

  lemma DescrFormTrimmedB(n: Name, g: Gender, num: GNumber)
    requires n in {DriftingSnow, BlowingSnow, Showery}
    ensures Trimmed(DescrForm(n, g, num))
  {
  }

  lemma DescrFormTrimmedC(n: Name, g: Gender, num: GNumber)
    requires n in {Freezing, Vicinity, Recent}
    ensures Trimmed(DescrForm(n, g, num))
  {
  }

  lemma IntensityWordTrimmed(sign: string, g: Gender, num: GNumber)
    ensures Trimmed(IntensityWordFor(sign, g, num))
  {
  }

  lemma {:induction false} ListPhraseTrimmed(ws: seq<string>)
    requires |ws| >= 1 && forall k :: 0 <= k < |ws| ==> Trimmed(ws[k])
    ensures Trimmed(ListPhrase(ws))
  {
    if |ws| > 1 {
      JoinTrimmed(ws[..|ws| - 1], ", ");
    }
  }

  lemma EventsPhraseTrimmed(evs: seq<Name>)
    requires evs != []
    ensures Trimmed(EventsPhrase(evs))
  {
    SpellTrimmed(evs[0]);
    if |evs| == 2 {
      InstrTrimmed(evs[1]);
    } else if |evs| > 2 {
      forall k | 0 <= k < |evs| ensures Trimmed(Spells(evs)[k]) {
        SpellTrimmed(evs[k]);
      }
      ListPhraseTrimmed(Spells(evs));
    }
  }

  lemma ThunderBaseTrimmed(sign: string)
    ensures Trimmed(ThunderBase(sign))
  {
    IntensityWordTrimmed(sign, Fem, Singular);
  }

  lemma AgreedDescriptorsTrimmed(ds: seq<Name>, g: Gender, num: GNumber)
    ensures forall k :: 0 <= k < |ds| ==> Trimmed(AgreedDescriptors(ds, g, num)[k])
  {
    forall k | 0 <= k < |ds| ensures Trimmed(AgreedDescriptors(ds, g, num)[k]) {
      DescrFormTrimmed(ds[k], g, num);
    }
  }

  /** The thunderstorm clause is trimmed and so is the phrase it ends. */
  lemma ThunderPhraseTrimmed(descrOut: seq<string>, prec: seq<Name>, sign: string)
    requires forall k :: 0 <= k < |descrOut| ==> Trimmed(descrOut[k])
    ensures Trimmed(ThunderPhrase(descrOut, prec, sign))
  {
    ThunderBaseTrimmed(sign);
    var last := if prec == [] then ThunderBase(sign)
      else ThunderBase(sign) + " " + Preposition(Instrs(prec)[0]) + " " + ListPhrase(Instrs(prec));
    if prec != [] {
      InstrsTrimmed(prec);
    }
    var parts := descrOut + [last];
    assert parts[|parts| - 1] != "";
    JoinWordsTrimmed(parts);
  }

  /** The instrumental list of a non-empty precipitation list is trimmed. */
  lemma InstrsTrimmed(prec: seq<Name>)
    requires prec != []
    ensures Trimmed(ListPhrase(Instrs(prec)))
  {
    forall k | 0 <= k < |prec| ensures Trimmed(Instrs(prec)[k]) {
      InstrTrimmed(prec[k]);
    }
    ListPhraseTrimmed(Instrs(prec));
  }

  /** The phrase is empty exactly when there is nothing to render. */
  lemma PhraseEmptyIff(events: seq<Name>, descriptors: seq<Name>, sign: string)
    ensures Phrase(events, descriptors, sign) == "" <==> events == [] && descriptors == []
  {
    if events != [] || descriptors != [] {
      var head := Head(events, descriptors);
      var (g, num) := GenderNumber(head);
      var rest := if Thunderstorm in descriptors then RemoveFirst(descriptors, Thunderstorm) else descriptors;
      var descrOut := AgreedDescriptors(rest, g, num);
      AgreedDescriptorsTrimmed(rest, g, num);
      if Thunderstorm in descriptors || Thunderstorm in events {
        ThunderPhraseTrimmed(descrOut, Precipitation(events), sign);
      } else {
        PlainPhraseTrimmed(descrOut, events, sign, g, num);
      }
    }
  }

  /** Without a thunderstorm the rendered words are trimmed, so the final
      strip() changes nothing, and something is rendered. */
  lemma PlainPhraseTrimmed(descrOut: seq<string>, evs: seq<Name>, sign: string, g: Gender, num: GNumber)
    requires forall k :: 0 <= k < |descrOut| ==> Trimmed(descrOut[k])
    requires evs != [] || descrOut != []
    ensures Trimmed(PlainPhrase(descrOut, evs, sign, g, num))
    ensures PlainPhrase(descrOut, evs, sign, g, num) == JoinWords([IntensitySlot(sign, g, num)] + descrOut + [EventsPhrase(evs)])
  {
    var parts := [IntensitySlot(sign, g, num)] + descrOut + [EventsPhrase(evs)];
    IntensityWordTrimmed(sign, g, num);
    if evs != [] {
      EventsPhraseTrimmed(evs);
      assert parts[|parts| - 1] != "";
    } else {
      assert parts[1] == descrOut[0] && descrOut[0] != "";
    }
    JoinWordsTrimmed(parts);
    StripTrimmed(JoinWords(parts));
  }

  /** A sign other than '+' or '-' writes no word: moderate intensity is elided. */
  lemma ModerateIntensityElided(events: seq<Name>, descriptors: seq<Name>, sign: string)
    requires Thunderstorm !in events && Thunderstorm !in descriptors
    requires sign != "+" && sign != "-"
    ensures Phrase(events, descriptors, sign) == Phrase(events, descriptors, "")
  {
  }

  /** Without a thunderstorm, '+' or '-' puts exactly one word in front of the
      moderate phrase: the intensity adjective agreeing with the head. */
  lemma SignPrefixesAgreedWord(events: seq<Name>, descriptors: seq<Name>, sign: string)
    requires events != [] || descriptors != []
    requires Thunderstorm !in events && Thunderstorm !in descriptors
    requires sign == "+" || sign == "-"
    ensures Phrase(events, descriptors, sign)
         == IntensityWordFor(sign, GenderNumber(Head(events, descriptors)).0, GenderNumber(Head(events, descriptors)).1)
            + " " + Phrase(events, descriptors, "")
  {
    var (g, num) := GenderNumber(Head(events, descriptors));
    var descrOut := AgreedDescriptors(descriptors, g, num);
    AgreedDescriptorsTrimmed(descriptors, g, num);
    var w := IntensityWordFor(sign, g, num);
    IntensityWordTrimmed(sign, g, num);
    var x := descrOut + [EventsPhrase(events)];
    PlainPhraseTrimmed(descrOut, events, sign, g, num);
    PlainPhraseTrimmed(descrOut, events, "", g, num);
    assert [w] + descrOut + [EventsPhrase(events)] == [w] + x;
    assert [""] + descrOut + [EventsPhrase(events)] == [""] + x;
    NonEmptyConcat([w], x);
    NonEmptyConcat([""], x);
    assert NonEmpty([w]) == [w];
    assert NonEmpty([""]) == [];
    assert [] + NonEmpty(x) == NonEmpty(x);
    if events != [] {
      EventsPhraseTrimmed(events);
      NonEmptyConcat(descrOut, [EventsPhrase(events)]);
    } else {
      NonEmptyConcat(descrOut, [EventsPhrase(events)]);
      NonEmptyOfTrimmed(descrOut);
      assert descrOut[0] != "";
    }
    JoinCons(w, NonEmpty(x), " ");
  }

  /** Precipitation of a precipitation list is itself. */
  lemma {:induction false} PrecipitationIdempotent(ns: seq<Name>)
    ensures Precipitation(Precipitation(ns)) == Precipitation(ns)
  {
    if ns != [] {
      PrecipitationIdempotent(ns[1..]);
      PrecipitationConcat(if IsPrecipitation(ns[0]) then [ns[0]] else [], Precipitation(ns[1..]));
    }
  }

  lemma {:induction false} PrecipitationConcat(a: seq<Name>, b: seq<Name>)
    ensures Precipitation(a + b) == Precipitation(a) + Precipitation(b)
  {
    if a == [] {
      assert a + b == b;
    } else {
      assert (a + b)[1..] == a[1..] + b;
      PrecipitationConcat(a[1..], b);
    }
  }

  /** With a thunderstorm descriptor, phenomena that are not precipitation
      leave no trace in the phrase. */
  lemma ThunderKeepsOnlyPrecipitation(events: seq<Name>, descriptors: seq<Name>, sign: string)
    requires Thunderstorm in descriptors
    ensures Phrase(events, descriptors, sign) == Phrase(Precipitation(events), descriptors, sign)
  {
    PrecipitationIdempotent(events);
  }

  /** A lone thunderstorm renders "гроза", after the feminine intensity word
      when a sign is given, whatever non-precipitation accompanies it. */
  lemma LoneThunderstorm(events: seq<Name>, sign: string)
    requires Precipitation(events) == []
    ensures Phrase(events, [Thunderstorm], sign)
         == if sign == "" then THUNDER_WORD else IntensityForms(sign).fem + " " + THUNDER_WORD
  {
    assert RemoveFirst([Thunderstorm], Thunderstorm) == [];
    assert NonEmpty([ThunderBase(sign)]) == [ThunderBase(sign)] by {
      ThunderBaseTrimmed(sign);
    }
  }

  /** A thunderstorm descriptor becomes the head: the other descriptors agree
      with the feminine singular "гроза", and only the precipitation of the
      phenomena follows it. */
  lemma ThunderstormHead(events: seq<Name>, descriptors: seq<Name>, sign: string)
    requires Thunderstorm in descriptors
    ensures Phrase(events, descriptors, sign)
         == ThunderPhrase(AgreedDescriptors(RemoveFirst(descriptors, Thunderstorm), Fem, Singular), Precipitation(events), sign)
  {
    assert Head(events, descriptors) == Thunderstorm;
    assert GenderNumber(Thunderstorm) == (Fem, Singular);
  }

  /** "+TSRA": a heavy thunderstorm with rain. */
  lemma HeavyThunderstormWithRain()
    ensures Phrase([Rain], [Thunderstorm], "+") == "сильная гроза с дождём"
  {
    ThunderstormHead([Rain], [Thunderstorm], "+");
    assert RemoveFirst([Thunderstorm], Thunderstorm) == [];
    assert Precipitation([Rain]) == [Rain];
    ThunderWithOne(Rain, "+");
    assert ThunderBase("+") == "сильная гроза";
    assert Preposition(Instr(Rain)) == "с";
  }

  /** A thunderstorm with one precipitation and no other descriptor. */
  lemma ThunderWithOne(p: Name, sign: string)
    ensures ThunderPhrase([], [p], sign) == ThunderBase(sign) + " " + Preposition(Instr(p)) + " " + Instr(p)
  {
    var last := ThunderBase(sign) + " " + Preposition(Instrs([p])[0]) + " " + ListPhrase(Instrs([p]));
    ThunderBaseTrimmed(sign);
    assert [] + [last] == [last];
    assert NonEmpty([last]) == [last];
  }

  /** A plural head takes the plural forms: every descriptor with forms is
      written in its plural form, and '+' or '-' writes the plural intensity
      adjective in front of the moderate phrase. */
  lemma PluralHeadAgrees(events: seq<Name>, descriptors: seq<Name>, sign: string)
    requires events != [] || descriptors != []
    requires Thunderstorm !in events && Thunderstorm !in descriptors
    requires GenderNumber(Head(events, descriptors)).1 == Plural
    ensures forall k :: 0 <= k < |descriptors| && DescriptorForms(descriptors[k]).Some? ==>
              AgreedDescriptors(descriptors, GenderNumber(Head(events, descriptors)).0, Plural)[k]
              == DescriptorForms(descriptors[k]).value.plural
    ensures sign == "+" || sign == "-" ==>
              Phrase(events, descriptors, sign) == IntensityForms(sign).plural + " " + Phrase(events, descriptors, "")
  {
    var (g, num) := GenderNumber(Head(events, descriptors));
    PluralDescriptorForms(descriptors, g);
    if sign == "+" || sign == "-" {
      SignPrefixesAgreedWord(events, descriptors, sign);
      PluralIntensity(sign, g, num);
    }
  }

  lemma PluralIntensity(sign: string, g: Gender, num: GNumber)
    requires num == Plural
    ensures IntensityWordFor(sign, g, num) == IntensityForms(sign).plural
  {
  }

  lemma PluralDescriptorForms(ds: seq<Name>, g: Gender)
    ensures forall k :: 0 <= k < |ds| && DescriptorForms(ds[k]).Some? ==>
              AgreedDescriptors(ds, g, Plural)[k] == DescriptorForms(ds[k]).value.plural
  {
    assert FormKey(g, Plural) == PluralG;
  }

  /** Without a thunderstorm the phrase is the plain phrase agreeing with the head. */
  lemma PlainUnfold(events: seq<Name>, descriptors: seq<Name>, sign: string)
    requires events != [] || descriptors != []
    requires Thunderstorm !in events && Thunderstorm !in descriptors
    ensures Phrase(events, descriptors, sign)
         == PlainPhrase(AgreedDescriptors(descriptors, GenderNumber(Head(events, descriptors)).0, GenderNumber(Head(events, descriptors)).1),
                        events, sign, GenderNumber(Head(events, descriptors)).0, GenderNumber(Head(events, descriptors)).1)
  {
  }

  /** One descriptor and one phenomenon, no sign and no thunderstorm: the
      descriptor agreeing with the phenomenon, then the phenomenon. */
  lemma DescribedPhenomenon(e: Name, d: Name)
    requires e != Thunderstorm && d != Thunderstorm
    ensures Phrase([e], [d], "") == DescrForm(d, GenderNumber(e).0, GenderNumber(e).1) + " " + Spell(e)
  {
    var (g, num) := GenderNumber(e);
    var df := DescrForm(d, g, num);
    assert Head([e], [d]) == e;
    assert AgreedDescriptors([d], g, num) == [df];
    PlainUnfold([e], [d], "");
    DescrFormTrimmed(d, g, num);
    PlainOfPair(df, e, g, num);
  }

  lemma PlainOfPair(df: string, e: Name, g: Gender, num: GNumber)
    requires Trimmed(df)
    ensures PlainPhrase([df], [e], "", g, num) == df + " " + Spell(e)
  {
    SpellTrimmed(e);
    PlainPhraseTrimmed([df], [e], "", g, num);
    assert IntensitySlot("", g, num) == "" && EventsPhrase([e]) == Spell(e);
    JoinWordsPair(df, Spell(e));
  }

  /** "-FZPL": light freezing ice pellets, every word plural. */
  lemma LightFreezingIcePellets()
    ensures Phrase([IcePellets], [Freezing], "-") == "слабые" + " " + "переохлажденные" + " " + "ледяные шарики"
  {
    assert GenderNumber(IcePellets) == (PluralG, Plural);
    assert DescrForm(Freezing, PluralG, Plural) == "переохлажденные";
    assert IntensityForms("-").plural == "слабые";
    PluralHeadAgrees([IcePellets], [Freezing], "-");
    DescribedPhenomenon(IcePellets, Freezing);
    SpacedAssoc("слабые", "переохлажденные", "ледяные шарики");
  }

  /** "со" is chosen exactly for the phenomena whose instrumental form starts
      with 'с' or 'ш': snow, snow grains and squall. */
  lemma PrepositionByPhenomenon(n: Name)
    requires PhenomenonEntryOf(n).Some?
    ensures Preposition(Instr(n)) == "со" <==> n in {Snow, SnowGrains, Squall}
  {
    if n in {Drizzle, Rain, Snow, SnowGrains, IceCrystals, IcePellets, Hail, SmallHail} {
      PrepositionPrecipitation(n);
    } else if n in {UnknownPrecipitation, Mist, Fog, Smoke, VolcanicAsh, Dust, Sand, Haze} {
      PrepositionObscuration(n);
    } else {
      PrepositionOther(n);
    }
  }

  lemma PrepositionPrecipitation(n: Name)
    requires n in {Drizzle, Rain, Snow, SnowGrains, IceCrystals, IcePellets, Hail, SmallHail}
    ensures Preposition(Instr(n)) == "со" <==> n in {Snow, SnowGrains}
  {
  }

  lemma PrepositionObscuration(n: Name)
    requires n in {UnknownPrecipitation, Mist, Fog, Smoke, VolcanicAsh, Dust, Sand, Haze}
    ensures Preposition(Instr(n)) == "с"
  {
  }

  lemma PrepositionOther(n: Name)
    requires PhenomenonEntryOf(n).Some?
    requires n !in {Drizzle, Rain, Snow, SnowGrains, IceCrystals, IcePellets, Hail, SmallHail}
    requires n !in {UnknownPrecipitation, Mist, Fog, Smoke, VolcanicAsh, Dust, Sand, Haze}
    ensures Preposition(Instr(n)) == "со" <==> n == Squall
  {
  }

  // ---------------------------------------------------------------------
  // decode_weather_token
  // ---------------------------------------------------------------------

  /** re.findall('[A-Z]{2}', s): pairs of capitals, scanned left to right
      without overlap; a character that starts no pair is skipped. */
  function FindPairs(s: string): (codes: seq<string>)
    ensures forall k :: 0 <= k < |codes| ==> |codes[k]| == 2 && IsUpper(codes[k][0]) && IsUpper(codes[k][1])
    decreases |s|
  {
    if |s| < 2 then []
    else if IsUpper(s[0]) && IsUpper(s[1]) then [s[..2]] + FindPairs(s[2..])
    else FindPairs(s[1..])
  }

  /** The codes laid end to end. */
  function Concat(codes: seq<string>): string
  {
    if codes == [] then "" else codes[0] + Concat(codes[1..])
  }

  predicate IsCapitalPair(c: string) { |c| == 2 && IsUpper(c[0]) && IsUpper(c[1]) }

  /** A token made of capital pairs is scanned back into exactly those pairs. */
  lemma {:induction false} FindPairsOfConcat(codes: seq<string>)
    requires forall k :: 0 <= k < |codes| ==> IsCapitalPair(codes[k])
    ensures FindPairs(Concat(codes)) == codes
  {
    if codes != [] {
      var s := Concat(codes);
      assert s[..2] == codes[0];
      assert s[2..] == Concat(codes[1..]);
      FindPairsOfConcat(codes[1..]);
    }
  }

  /** How one capital pair is read: descriptors are looked up first (so TS
      is a descriptor), then phenomena; anything else is dropped. */
  datatype CodeClass = DescriptorOf(d: Name) | PhenomenonOf(p: Name) | Dropped

  function Classify(code: string): (r: CodeClass)
    ensures r.DescriptorOf? <==> DescriptorCode(code).Some?
    ensures r.DescriptorOf? ==> DescriptorCode(code) == Some(r.d)
    ensures r.PhenomenonOf? <==> DescriptorCode(code).None? && WeatherCode(code).Some?
    ensures r.PhenomenonOf? ==> WeatherCode(code) == Some(r.p)
  {
    match DescriptorCode(code)
    case Some(n) => DescriptorOf(n)
    case None => match WeatherCode(code) case Some(n) => PhenomenonOf(n) case None => Dropped
  }

  /** "TS" is in both tables, and the descriptor table wins: a thunderstorm
      code is read as a descriptor, which the phrase then promotes to head. */
  lemma ThunderstormCodeIsDescriptor()
    ensures WeatherCode("TS") == Some(Thunderstorm)
    ensures Classify("TS") == DescriptorOf(Thunderstorm)
  {
  }

  /** The descriptor names of the codes, in order. */
  function CodeDescriptors(codes: seq<string>): (r: seq<Name>)
  {
    if codes == [] then []
    else
      var c := codes[|codes| - 1];
      CodeDescriptors(codes[..|codes| - 1]) + (match Classify(c) case DescriptorOf(n) => [n] case _ => [])
  }

  /** The phenomenon names of the codes that are no descriptor, in order;
      codes in neither table are dropped. */
  function CodePhenomena(codes: seq<string>): (r: seq<Name>)
  {
    if codes == [] then []
    else
      var c := codes[|codes| - 1];
      CodePhenomena(codes[..|codes| - 1]) + (match Classify(c) case PhenomenonOf(n) => [n] case _ => [])
  }

  /** A weather token taken apart: the sign, the phenomena and the descriptors. */
  datatype Decomposition = Decomposition(sign: string, events: seq<Name>, descriptors: seq<Name>)

  /** A leading '+' or '-'. */
  function SignOf(tok: string): (sign: string)
    ensures sign == "" || (|tok| > 0 && sign == tok[..1] && (sign == "+" || sign == "-"))
    ensures |tok| > 0 && (tok[0] == '+' || tok[0] == '-') ==> sign == tok[..1]
  {
    if tok != [] && (tok[0] == '+' || tok[0] == '-') then tok[..1] else ""
  }

  const BLSN_CODE: string := "BLSN"
  const DRSN_CODE: string := "DRSN"

  /** The token with its sign removed and the BLSN and DRSN groups cut out. */
  function Residue(tok: string): string
  {
    var body := tok[|SignOf(tok)|..];
    var body1 := if Contains(body, BLSN_CODE) then RemoveAll(body, BLSN_CODE) else body;
    if Contains(body1, DRSN_CODE) then RemoveAll(body1, DRSN_CODE) else body1
  }

  /** The compound phenomena found before the pair scan: blowing snow, then drifting snow. */
  function CompoundEvents(tok: string): seq<Name>
  {
    var body := tok[|SignOf(tok)|..];
    var body1 := if Contains(body, BLSN_CODE) then RemoveAll(body, BLSN_CODE) else body;
    (if Contains(body, BLSN_CODE) then [BlowingSnow] else []) + (if Contains(body1, DRSN_CODE) then [DriftingSnow] else [])
  }

  function Decompose(tok: string): Decomposition
  {
    var codes := FindPairs(Residue(tok));
    Decomposition(SignOf(tok), CompoundEvents(tok) + CodePhenomena(codes), CodeDescriptors(codes))
  }

  /** The compound phenomena lead the list of events, and blowing snow is
      among them exactly when the unsigned token holds BLSN. */
  lemma CompoundsComeFirst(tok: string)
    ensures var n := |CompoundEvents(tok)|;
      n <= |Decompose(tok).events| && Decompose(tok).events[..n] == CompoundEvents(tok)
    ensures BlowingSnow in CompoundEvents(tok) <==> Contains(tok[|SignOf(tok)|..], BLSN_CODE)
  {
  }

  /** The phrase decode_weather_token returns. */
  function TokenPhrase(tok: string): string
  {
    var d := Decompose(tok);
    Phrase(d.events, d.descriptors, d.sign)
  }

  /** decode_weather_token: strips the sign, cuts out BLSN and DRSN as
      phenomena, classifies each remaining capital pair, and joins. */
  method DecodeWeatherToken(tok: string) returns (phrase: string)
    ensures phrase == TokenPhrase(tok)
  {
    if tok == [] {
      return "";
    }
    var sign := "";
    var rest := tok;
    if tok[0] == '+' || tok[0] == '-' {
      sign := tok[..1];
      rest := tok[1..];
    }
    var events: seq<Name> := [];
    var descriptors: seq<Name> := [];
    if Contains(rest, BLSN_CODE) {
      events := events + [BlowingSnow];
      rest := RemoveAll(rest, BLSN_CODE);
    }
    if Contains(rest, DRSN_CODE) {
      events := events + [DriftingSnow];
      rest := RemoveAll(rest, DRSN_CODE);
    }
    assert events == CompoundEvents(tok) && rest == Residue(tok);
    events, descriptors := ScanPairs(FindPairs(rest), events);
    phrase := JoinWeatherEvents(events, descriptors, sign);
  }

  /** The loop of decode_weather_token over the capital pairs: each pair is
      appended to the descriptors or to the phenomena found so far, or dropped. */
  method ScanPairs(codes: seq<string>, found: seq<Name>) returns (events: seq<Name>, descriptors: seq<Name>)
    ensures events == found + CodePhenomena(codes)
    ensures descriptors == CodeDescriptors(codes)
  {
    events, descriptors := found, [];
    for k := 0 to |codes|
      invariant descriptors == CodeDescriptors(codes[..k])
      invariant events == found + CodePhenomena(codes[..k])
    {
      assert codes[..k + 1][..k] == codes[..k];
      ghost var before := CodePhenomena(codes[..k]);
      match Classify(codes[k]) {
        case DescriptorOf(n) =>
          descriptors := descriptors + [n];
        case PhenomenonOf(n) =>
          assert found + before + [n] == found + (before + [n]);
          events := events + [n];
        case Dropped =>
      }
    }
    assert codes[..|codes|] == codes;
  }
}
