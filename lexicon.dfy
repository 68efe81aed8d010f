/** The constant tables of the decoder. The phenomenon and descriptor tables
    are those of main5.py (main3.py holds the same ones); the cloud, runway
    and braking tables are word for word the same in all four versions.
    The earlier versions' phenomenon tables are views of these, defined in
    the modules that use them. */
module Lexicon {
  import opened Text

  /** Grammatical gender, and the key of a four-form paradigm:
      'м', 'ж', 'ср' and 'мн' (plural-only nouns carry 'мн' as their gender). */
  datatype Gender = Masc | Fem | Neut | PluralG

  /** Grammatical number: 'ед' or 'мн'. */
  datatype GNumber = Singular | Plural

  /** A paradigm of four forms keyed by gender, plural last. */
  datatype Forms = Forms(masc: string, fem: string, neut: string, plural: string)
  {
    function Get(key: Gender): string
    {
      match key
      case Masc => masc
      case Fem => fem
      case Neut => neut
      case PluralG => plural
    }
  }

  /** The grammar of one phenomenon (a row of WEATHER_DATA without its name). */
  datatype PhenomenonEntry = PhenomenonEntry(gender: Gender, number: GNumber, instr: string)

  /** The paradigm key used for agreement: plural number selects the plural
      form, otherwise the gender does. */
  function FormKey(g: Gender, n: GNumber): (key: Gender)
    ensures n == Plural ==> key == PluralG
    ensures n == Singular ==> key == g
  {
    if n == Plural then PluralG else g
  }

  /** Every word the tables hold, one constructor per distinct string. */
  datatype Name =
    | Drizzle | Rain | Snow | SnowGrains | IceCrystals | IcePellets | Hail | SmallHail
    | UnknownPrecipitation | Mist | Fog | Smoke | VolcanicAsh | Dust | Sand | Haze
    | Spray | DustWhirls | Squall | Duststorm | Sandstorm | DriftingSnow | BlowingSnow | Thunderstorm
    | Thin | Patches | Partial | Showery | Freezing | Vicinity | Recent | ShoweryV1

  /** The word as it is written. */
  function Spell(n: Name): string
  {
    match n
    case Drizzle => "морось"
    case Rain => "дождь"
    case Snow => "снег"
    case SnowGrains => "снежные зерна"
    case IceCrystals => "ледяные иглы"
    case IcePellets => "ледяные шарики"
    case Hail => "град"
    case SmallHail => "мелкий град/снежная крупа"
    case UnknownPrecipitation => "неопределенные осадки"
    case Mist => "дымка"
    case Fog => "туман"
    case Smoke => "дым"
    case VolcanicAsh => "вулканический пепел"
    case Dust => "пыль"
    case Sand => "песок"
    case Haze => "мгла"
    case Spray => "водяная пыль"
    case DustWhirls => "пыльные/песчаные вихри"
    case Squall => "шквал"
    case Duststorm => "пыльная буря"
    case Sandstorm => "песчаная буря"
    case DriftingSnow => "поземок"
    case BlowingSnow => "низовая метель"
    case Thunderstorm => "гроза"
    case Thin => "тонкий"
    case Patches => "клочья"
    case Partial => "частичный"
    case Showery => "ливневой"
    case Freezing => "переохлажденный"
    case Vicinity => "вблизи"
    case Recent => "недавний"
    case ShoweryV1 => "ливневый"
  }

  /** WEATHER_DATA without its names: code -> the phenomenon it names. */
  function WeatherCode(code: string): Option<Name>
  {
    if |code| == 2 then PhenomenonPair(code[0], code[1])
    else if code == "DRSN" then Some(DriftingSnow)
    else if code == "BLSN" then Some(BlowingSnow)
    else None
  }

  /** The two-letter rows of WEATHER_DATA, keyed by the two letters. */
  function PhenomenonPair(a: char, b: char): Option<Name>
  {
    if a == 'D' && b == 'Z' then Some(Drizzle)
    else if a == 'R' && b == 'A' then Some(Rain)
    else if a == 'S' && b == 'N' then Some(Snow)
    else if a == 'S' && b == 'G' then Some(SnowGrains)
    else if a == 'I' && b == 'C' then Some(IceCrystals)
    else if a == 'P' && b == 'L' then Some(IcePellets)
    else if a == 'G' && b == 'R' then Some(Hail)
    else if a == 'G' && b == 'S' then Some(SmallHail)
    else if a == 'U' && b == 'P' then Some(UnknownPrecipitation)
    else if a == 'B' && b == 'R' then Some(Mist)
    else if a == 'F' && b == 'G' then Some(Fog)
    else if a == 'F' && b == 'U' then Some(Smoke)
    else if a == 'V' && b == 'A' then Some(VolcanicAsh)
    else if a == 'D' && b == 'U' then Some(Dust)
    else if a == 'S' && b == 'A' then Some(Sand)
    else if a == 'H' && b == 'Z' then Some(Haze)
    else if a == 'P' && b == 'Y' then Some(Spray)
    else if a == 'P' && b == 'O' then Some(DustWhirls)
    else if a == 'S' && b == 'Q' then Some(Squall)
    else if a == 'D' && b == 'S' then Some(Duststorm)
    else if a == 'S' && b == 'S' then Some(Sandstorm)
    else if a == 'T' && b == 'S' then Some(Thunderstorm)
    else None
  }

  /** WEATHER_GRAMMAR_BY_NAME: the grammar of a phenomenon name. */
  function PhenomenonEntryOf(n: Name): Option<PhenomenonEntry>
  {
    match n
    case Drizzle => Some(PhenomenonEntry(Fem, Singular, "моросью"))
    case Rain => Some(PhenomenonEntry(Masc, Singular, "дождём"))
    case Snow => Some(PhenomenonEntry(Masc, Singular, "снегом"))
    case SnowGrains => Some(PhenomenonEntry(PluralG, Plural, "снежными зёрнами"))
    case IceCrystals => Some(PhenomenonEntry(PluralG, Plural, "ледяными иглами"))
    case IcePellets => Some(PhenomenonEntry(PluralG, Plural, "ледяными шариками"))
    case Hail => Some(PhenomenonEntry(Masc, Singular, "градом"))
    case SmallHail => Some(PhenomenonEntry(Masc, Singular, "мелким градом/снежной крупой"))
    case UnknownPrecipitation => Some(PhenomenonEntry(PluralG, Plural, "неопределёнными осадками"))
    case Mist => Some(PhenomenonEntry(Fem, Singular, "дымкой"))
    case Fog => Some(PhenomenonEntry(Masc, Singular, "туманом"))
    case Smoke => Some(PhenomenonEntry(Masc, Singular, "дымом"))
    case VolcanicAsh => Some(PhenomenonEntry(Masc, Singular, "вулканическим пеплом"))
    case Dust => Some(PhenomenonEntry(Fem, Singular, "пылью"))
    case Sand => Some(PhenomenonEntry(Masc, Singular, "песком"))
    case Haze => Some(PhenomenonEntry(Fem, Singular, "мглой"))
    case Spray => Some(PhenomenonEntry(Fem, Singular, "водяной пылью"))
    case DustWhirls => Some(PhenomenonEntry(PluralG, Plural, "пыльными/песчаными вихрями"))
    case Squall => Some(PhenomenonEntry(Masc, Singular, "шквалом"))
    case Duststorm => Some(PhenomenonEntry(Fem, Singular, "пыльной бурей"))
    case Sandstorm => Some(PhenomenonEntry(Fem, Singular, "песчаной бурей"))
    case DriftingSnow => Some(PhenomenonEntry(Masc, Singular, "поземком"))
    case BlowingSnow => Some(PhenomenonEntry(Fem, Singular, "низовой метелью"))
    case Thunderstorm => Some(PhenomenonEntry(Fem, Singular, "грозой"))
    case _ => None
  }

  /** DESCRIPTORS_DATA without its forms: code -> descriptor name. */
  function DescriptorCode(code: string): Option<Name>
  {
    if |code| == 2 then DescriptorPair(code[0], code[1])
    else None
  }

  /** DESCRIPTORS_DATA keyed by the two letters. */
  function DescriptorPair(a: char, b: char): Option<Name>
  {
    if a == 'M' && b == 'I' then Some(Thin)
    else if a == 'B' && b == 'C' then Some(Patches)
    else if a == 'P' && b == 'R' then Some(Partial)
    else if a == 'D' && b == 'R' then Some(DriftingSnow)
    else if a == 'B' && b == 'L' then Some(BlowingSnow)
    else if a == 'S' && b == 'H' then Some(Showery)
    else if a == 'T' && b == 'S' then Some(Thunderstorm)
    else if a == 'F' && b == 'Z' then Some(Freezing)
    else if a == 'V' && b == 'C' then Some(Vicinity)
    else if a == 'R' && b == 'E' then Some(Recent)
    else None
  }

  /** The forms of the descriptor with this name; None for the thunderstorm row (empty forms) and for names that are no descriptor. */
  function DescriptorForms(n: Name): Option<Forms>
  {
    match n
    case Thin => Some(Forms("тонкий", "тонкая", "тонкое", "тонкие"))
    case Patches => Some(Forms("клочковый", "клочковая", "клочковое", "клочковые"))
    case Partial => Some(Forms("частичный", "частичная", "частичное", "частичные"))
    case DriftingSnow => Some(Forms("поземный", "поземная", "поземное", "поземные"))
    case BlowingSnow => Some(Forms("низовой", "низовая", "низовое", "низовые"))
    case Showery => Some(Forms("ливневый", "ливневая", "ливневое", "ливневые"))
    case Freezing => Some(Forms("переохлажденный", "переохлажденная", "переохлажденное", "переохлажденные"))
    case Vicinity => Some(Forms("вблизи", "вблизи", "вблизи", "вблизи"))
    case Recent => Some(Forms("недавний", "недавняя", "недавнее", "недавние"))
    case _ => None
  }

  /** The thunderstorm word the phrase engines write as their base. */
  const THUNDER_WORD: string := "гроза"

  /** Distinct constructors are distinct strings, so comparing names as
      strings (what the decoders do) is comparing constructors. */
  lemma {:induction false} SpellInjective(a: Name, b: Name)
    ensures Spell(a) == Spell(b) ==> a == b
  {
    SpellFingerprint(a);
    SpellFingerprint(b);
    FingerprintInjective(a, b);
  }

  /** A fingerprint of each spelling: its length, its first letter and its
      next-to-last letter. No two names share one. */
  function Fingerprint(n: Name): (int, char, char)
  {
    match n
    case Drizzle => (6, 'м', 'с')
    case Rain => (5, 'д', 'д')
    case Snow => (4, 'с', 'е')
    case SnowGrains => (13, 'с', 'н')
    case IceCrystals => (12, 'л', 'л')
    case IcePellets => (14, 'л', 'к')
    case Hail => (4, 'г', 'а')
    case SmallHail => (25, 'м', 'п')
    case UnknownPrecipitation => (21, 'н', 'к')
    case Mist => (5, 'д', 'к')
    case Fog => (5, 'т', 'а')
    case Smoke => (3, 'д', 'ы')
    case VolcanicAsh => (19, 'в', 'е')
    case Dust => (4, 'п', 'л')
    case Sand => (5, 'п', 'о')
    case Haze => (4, 'м', 'л')
    case Spray => (12, 'в', 'л')
    case DustWhirls => (22, 'п', 'р')
    case Squall => (5, 'ш', 'а')
    case Duststorm => (12, 'п', 'р')
    case Sandstorm => (13, 'п', 'р')
    case DriftingSnow => (7, 'п', 'о')
    case BlowingSnow => (14, 'н', 'л')
    case Thunderstorm => (5, 'г', 'з')
    case Thin => (6, 'т', 'и')
    case Patches => (6, 'к', 'ь')
    case Partial => (9, 'ч', 'ы')
    case Showery => (8, 'л', 'о')
    case Freezing => (15, 'п', 'ы')
    case Vicinity => (6, 'в', 'з')
    case Recent => (8, 'н', 'и')
    case ShoweryV1 => (8, 'л', 'ы')
  }

  /** The name a fingerprint belongs to, if any. */
  function NameOfFingerprint(k: (int, char, char)): Option<Name>
  {
    if k == (6, 'м', 'с') then Some(Drizzle)
    else if k == (5, 'д', 'д') then Some(Rain)
    else if k == (4, 'с', 'е') then Some(Snow)
    else if k == (13, 'с', 'н') then Some(SnowGrains)
    else if k == (12, 'л', 'л') then Some(IceCrystals)
    else if k == (14, 'л', 'к') then Some(IcePellets)
    else if k == (4, 'г', 'а') then Some(Hail)
    else if k == (25, 'м', 'п') then Some(SmallHail)
    else if k == (21, 'н', 'к') then Some(UnknownPrecipitation)
    else if k == (5, 'д', 'к') then Some(Mist)
    else if k == (5, 'т', 'а') then Some(Fog)
    else if k == (3, 'д', 'ы') then Some(Smoke)
    else if k == (19, 'в', 'е') then Some(VolcanicAsh)
    else if k == (4, 'п', 'л') then Some(Dust)
    else if k == (5, 'п', 'о') then Some(Sand)
    else if k == (4, 'м', 'л') then Some(Haze)
    else if k == (12, 'в', 'л') then Some(Spray)
    else if k == (22, 'п', 'р') then Some(DustWhirls)
    else if k == (5, 'ш', 'а') then Some(Squall)
    else if k == (12, 'п', 'р') then Some(Duststorm)
    else if k == (13, 'п', 'р') then Some(Sandstorm)
    else if k == (7, 'п', 'о') then Some(DriftingSnow)
    else if k == (14, 'н', 'л') then Some(BlowingSnow)
    else if k == (5, 'г', 'з') then Some(Thunderstorm)
    else if k == (6, 'т', 'и') then Some(Thin)
    else if k == (6, 'к', 'ь') then Some(Patches)
    else if k == (9, 'ч', 'ы') then Some(Partial)
    else if k == (8, 'л', 'о') then Some(Showery)
    else if k == (15, 'п', 'ы') then Some(Freezing)
    else if k == (6, 'в', 'з') then Some(Vicinity)
    else if k == (8, 'н', 'и') then Some(Recent)
    else if k == (8, 'л', 'ы') then Some(ShoweryV1)
    else None
  }

  lemma FingerprintInjective(a: Name, b: Name)
    ensures Fingerprint(a) == Fingerprint(b) ==> a == b
  {
    FingerprintRoundTrip(a);
    FingerprintRoundTrip(b);
  }

  lemma FingerprintRoundTrip(n: Name)
    ensures NameOfFingerprint(Fingerprint(n)) == Some(n)
  {
    if n.Drizzle? || n.Rain? || n.Snow? || n.SnowGrains? || n.IceCrystals? || n.IcePellets? || n.Hail? || n.SmallHail?
       || n.UnknownPrecipitation? || n.Mist? || n.Fog? || n.Smoke? || n.VolcanicAsh? || n.Dust? || n.Sand? || n.Haze? {
      FingerprintRoundTripFirstHalf(n);
    } else {
      FingerprintRoundTripSecondHalf(n);
    }
  }

  lemma FingerprintRoundTripFirstHalf(n: Name)
    requires n.Drizzle? || n.Rain? || n.Snow? || n.SnowGrains? || n.IceCrystals? || n.IcePellets? || n.Hail? || n.SmallHail?
       || n.UnknownPrecipitation? || n.Mist? || n.Fog? || n.Smoke? || n.VolcanicAsh? || n.Dust? || n.Sand? || n.Haze?
    ensures NameOfFingerprint(Fingerprint(n)) == Some(n)
  {
  }

  lemma FingerprintRoundTripSecondHalf(n: Name)
    requires !(n.Drizzle? || n.Rain? || n.Snow? || n.SnowGrains? || n.IceCrystals? || n.IcePellets? || n.Hail? || n.SmallHail?
       || n.UnknownPrecipitation? || n.Mist? || n.Fog? || n.Smoke? || n.VolcanicAsh? || n.Dust? || n.Sand? || n.Haze?)
    ensures NameOfFingerprint(Fingerprint(n)) == Some(n)
  {
  }

  lemma SpellFingerprint(n: Name)
    ensures |Spell(n)| >= 2
    ensures Fingerprint(n) == (|Spell(n)|, Spell(n)[0], Spell(n)[|Spell(n)| - 2])
  {
    if n.Drizzle? || n.Rain? || n.Snow? || n.SnowGrains? || n.IceCrystals? || n.IcePellets? || n.Hail? || n.SmallHail?
       || n.UnknownPrecipitation? || n.Mist? || n.Fog? || n.Smoke? || n.VolcanicAsh? || n.Dust? || n.Sand? || n.Haze? {
      SpellFingerprintFirstHalf(n);
    } else {
      SpellFingerprintSecondHalf(n);
    }
  }

  lemma SpellFingerprintFirstHalf(n: Name)
    requires n.Drizzle? || n.Rain? || n.Snow? || n.SnowGrains? || n.IceCrystals? || n.IcePellets? || n.Hail? || n.SmallHail?
       || n.UnknownPrecipitation? || n.Mist? || n.Fog? || n.Smoke? || n.VolcanicAsh? || n.Dust? || n.Sand? || n.Haze?
    ensures |Spell(n)| >= 2
    ensures Fingerprint(n) == (|Spell(n)|, Spell(n)[0], Spell(n)[|Spell(n)| - 2])
  {
  }

  lemma SpellFingerprintSecondHalf(n: Name)
    requires !(n.Drizzle? || n.Rain? || n.Snow? || n.SnowGrains? || n.IceCrystals? || n.IcePellets? || n.Hail? || n.SmallHail?
       || n.UnknownPrecipitation? || n.Mist? || n.Fog? || n.Smoke? || n.VolcanicAsh? || n.Dust? || n.Sand? || n.Haze?)
    ensures |Spell(n)| >= 2
    ensures Fingerprint(n) == (|Spell(n)|, Spell(n)[0], Spell(n)[|Spell(n)| - 2])
  {
  }

  /** Every coded phenomenon has its grammar row. */
  lemma WeatherCodeHasEntry(code: string)
    ensures WeatherCode(code).Some? ==> PhenomenonEntryOf(WeatherCode(code).value).Some?
  {
  }

  /** PRECIPITATION_LIKE. */
  predicate IsPrecipitation(n: Name)
  {
    n in {Drizzle, Rain, Snow, SnowGrains, IceCrystals, IcePellets, Hail, SmallHail, UnknownPrecipitation}
  }

  /** INTENSITY_FORMS.get(sign, INTENSITY_FORMS['']). */
  function IntensityForms(sign: string): Forms
  {
    if sign == "+" then Forms("сильный", "сильная", "сильное", "сильные")
    else if sign == "-" then Forms("слабый", "слабая", "слабое", "слабые")
    else Forms("умеренный", "умеренная", "умеренное", "умеренные")
  }

  /** CLOUDS.get(code, code). */
  function CloudAmountText(code: string): string
  {
    if code == "FEW" then "мало (1–2/8)"
    else if code == "SCT" then "рассеянные (3–4/8)"
    else if code == "BKN" then "значительная (5–7/8)"
    else if code == "OVC" then "сплошная (8/8)"
    else if code == "NSC" then "нет значимых облаков"
    else if code == "SKC" then "ясно (sky clear)"
    else if code == "CLR" then "ясно (clear)"
    else if code == "CAVOK" then "CAVOK (видимость ≥10 км, без облаков и явлений)"
    else code
  }

  /** CLOUD_TYPES.get(code, code). */
  function CloudTypeText(code: string): string
  {
    if code == "CB" then "кучево-дождевые (CB)"
    else if code == "TCU" then "мощные кучевые (TCU)"
    else code
  }

  /** RUNWAY_TYPE.get(c, c): deposit (code table 0919). */
  function RunwayTypeText(c: char): string
  {
    match c
    case '0' => "сухо"
    case '1' => "влажно"
    case '2' => "мокро/лужи"
    case '3' => "иней/изморозь"
    case '4' => "сухой снег"
    case '5' => "мокрый снег"
    case '6' => "слякоть"
    case '7' => "лед"
    case '8' => "укатанный снег"
    case '9' => "замерзшая/неровная поверхность"
    case '/' => "нет данных"
    case _ => [c]
  }

  /** RUNWAY_COVER.get(c, c): extent of the deposit (code table 0519). */
  function RunwayCoverText(c: char): string
  {
    match c
    case '1' => "<10%"
    case '2' => "11–25%"
    case '5' => "26–50%"
    case '9' => "51–100%"
    case '/' => "нет данных"
    case _ => [c]
  }

  /** BRAKING: the named braking-action bands (code table 0366). */
  function BrakingBand(code: string): Option<string>
  {
    if code == "95" then Some("хорошая (≥0.40)")
    else if code == "94" then Some("средне-хорошая (0.36–0.39)")
    else if code == "93" then Some("средняя (0.30–0.35)")
    else if code == "92" then Some("плохо-средняя (0.26–0.29)")
    else if code == "91" then Some("плохая (≤0.25)")
    else if code == "99" then Some("ненадежно")
    else if code == "//" then Some("нет данных")
    else None
  }
}
