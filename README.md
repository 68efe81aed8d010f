# Russian METAR/SPECI decoder, four versions

The repository holds four successive versions of one decoder for the aerodrome
routine and special weather reports (FM 15 METAR and FM 16 SPECI of WMO-No. 306,
*Manual on Codes*, Volume I.1). Each version turns a report such as
`METAR UUEE 211230Z 24005MPS 9999 -SHRASN BKN020CB 12/08 Q1012 NOSIG RMK QFE745/0994`
into Russian text lines: "Аэродром: UUEE", "Ветер 240° 5 м/с", "Явления: слабый
ливневой дождь со снегом", and so on. The newest version, `main5.py`, also
fills a structured record of the same report.

The model covers three parts of each version.

- **The present-weather phrase engine.** It splits a weather group into an
  intensity sign, descriptors and phenomena (code table 4678) and renders one
  phrase whose adjectives agree in gender and number with the head word:
  - `main5.py`/`main3.py`: modules `Lexicon` and `PhraseV5`;
  - `main2.py`: module `PhraseV2`;
  - `main.py`: module `PhraseV1`.
- **The group decoders.** These render cloud layers, the runway-state group
  (code tables 0919, 0519, 1079 and 0366) with its braking action, and the
  wind, RVR and temperature groups (module `Fields`). The token shapes that
  the source matches with regular expressions are hand-written predicates and
  parsers (module `Patterns`). `Text` holds the string operations of Python
  that the source relies on: `split`, `strip`, `replace`, `in`, `join`,
  integer parsing and printing.
- **`decode_metar`.** This is a cursor loop over the tokens of the report.
  Patterns are tried in a fixed order and the first match wins.
  - The loop looks ahead after WS.
  - A second visibility group edits the previous line.
  - The remarks after RMK end the loop.
  - Module `Report` models it for all four versions:
    - `main3.py` is `main5.py` without the record;
    - `main2.py` and `main.py` differ in the weather engine, the remark rules, the station test and the handling of an undecodable runway group.
  - Module `Remarks` holds the two remark sub-scanners.
  - Module `ReportV5` models `main5.py`'s loop, which fills the record alongside the text.
  - Module `ReportProps` states properties of the loop shared by the versions.

Every imperative part of the source is a method (with a loop where the source
loops), proved equal to a specification function. The properties of the source are stated as lemmas
about those functions:
- the `decode_metar` loops;
- the scanning loops of the weather decoders;
- `join_weather_events`, whose edits to its two lists the method makes on local copies;
- the remark loops;
- the runway decoders that append to a result list.

## Model

| member | source | states |
|---|---|---|
| Text.Hundredths | main5.py:481-483 | `f"{n/100:.2f}"` for a whole number of hundredths: the whole part n / 100 written in decimal without leading zeros, a point, then exactly two digits; the two parts read back as n / 100 and n % 100 |
| Text.NatToStringRoundTrip | main5.py:372 | printing a whole number as decimal text and reading it back gives the number |
| Text.SplitOnTwo | main5.py:464 | `str.split('/')` of `a + "/" + b`, with no '/' in a or b, gives exactly [a, b] |
| Lexicon.SpellInjective | main5.py:65 | no two weather names are spelled alike, so the reverse lookup by name in WEATHER_GRAMMAR_BY_NAME is unambiguous |
| Lexicon.WeatherCodeHasEntry | main5.py:18-49 | every phenomenon code of WEATHER_DATA has a grammar entry (gender, number, instrumental form) |
| Patterns.ParseWind | main5.py:100 | a parsed wind group is well formed: direction of three digits, VRB or 000; speed and gust of 2-3 digits; unit KT, MPS or KMH. Its groups print back to exactly the token |
| Patterns.ParseWindToken | main5.py:100 | every well-formed wind group written out is parsed back into the same groups |
| Patterns.ParseVarWind | main5.py:101 | a variable-wind match is two three-digit bearings around 'V', rebuilding the token |
| Patterns.ParseVis | main5.py:102 | a visibility match is four digits followed by at most two direction letters, rebuilding the token |
| Patterns.ParseRvr | main5.py:103 | an RVR match starts with 'R' and names a runway of two digits and an optional side letter |
| Patterns.ParseCloudWith | main5.py:104 | a cloud match has a known amount, a height of three digits (or '///' where the version's pattern allows it) and a type CB or TCU |
| Patterns.ParseCloudToken | main.py:86 | a cloud group written out from amount, height and type is parsed back into exactly those groups |
| Patterns.SlashedBaseRejected | main.py:86 | main.py's pattern has no '///' height: an amount followed by '///' (and an optional CB or TCU) is no cloud group, so "FEW///" falls through to the later branches of the decoder |
| Patterns.ParseVerticalVisibility | main5.py:105 | a vertical-visibility match carries three digits or '///' |
| Patterns.ParseTemp | main5.py:106 | a temperature match is two halves, each M?dd or '//', around one '/', rebuilding the token |
| Patterns.ParseLetterFourDigits | main5.py:107-108 | a Q or A group is the letter followed by exactly four digits |
| Patterns.ParseRunway6 | main5.py:110 | a six-digit runway-state match has a two-digit runway and six state digits |
| Patterns.ParseRunwayVar | main5.py:111 | a variable runway-state body is 4-6 characters, each a digit or '/' |
| Patterns.OrderedIsAnyOrder | main2.py:133-138 | every token of main2.py's weather pattern (at most three descriptors, then phenomena) also matches main5.py's pattern (codes in any order) |
| Patterns.PhenomenonChunksAreChunks | main5.py:112-115 | a run of phenomenon codes alone is a token body of main5.py's pattern |
| Fields.DecodeCloud | main5.py:258-260 | a token that is no cloud group is returned unchanged |
| Fields.DecodeCloudOfGroups | main5.py:261-269 | a cloud group decodes to the amount wording, then the base clause, then the type clause |
| Fields.CloudBaseMetresAndFeet | main5.py:264-265 | a numeric base is printed in metres and in feet, reading back as 30 and 100 times the coded height |
| Fields.CloudBaseMissing | main5.py:264-265 | a '///' base is "основание: нет данных" |
| Fields.CavokIgnoresRest | main5.py:263 | a CAVOK group decodes to the fixed CAVOK wording whatever follows it |
| Fields.RunwayHeader | main5.py:280-283 | the header names all runways exactly for 88 and the previous report exactly for 99 |
| Fields.DecodeBraking | main5.py:271-278 | every braking line starts with the "Сцепление" label |
| Fields.BrakingCoefficientReadsBack | main5.py:274-276 | a numeric code outside the table is a coefficient printed as code / 100 in decimal, a point and two digits, whose units and hundredths read back as the code |
| Fields.BrakingCodeEchoed | main5.py:277-278 | a non-numeric code outside the table is echoed after "код" |
| Fields.ThicknessMillimetres | main5.py:296 | depths 1-90 are printed in millimetres and read back as the code |
| Fields.ThicknessCodeEchoed | main5.py:290-302 | a two-digit depth code is echoed as "код NN" exactly for 91, 95, 96 and 97 |
| Fields.RunwayDigitsText | main5.py:285-306 | the method that appends header, deposit, extent, depth and braking lines returns the decode_runway_digits text |
| Fields.RunwayBodyText | main5.py:308-323 | the method that appends only the present parts of a variable body returns the decode_runway_body text |
| Fields.RunwayBodyShape | main5.py:308-323 | a body of four or more characters gives the header, at most three state lines and the braking line for its last two characters; a shorter body gives a raw state code line |
| Fields.RunwayBodyMissingDepth | main5.py:316-317 | "//" before the braking code reports the depth as missing |
| Fields.DecodeRunway | main5.py:325-337 | decode_runway returns None exactly when no marker (CLRD, CLSD, SNOCLO, RRRR with 99) and neither runway shape applies |
| Fields.RunwayGuardUndecodable | main5.py:496 | among tokens the runway branch accepts, the only undecodable ones carry RRRR without 99 and match no other marker or shape |
| Fields.WindDefaultsToKnots | main5.py:368 | a wind group without a unit reads as knots |
| Fields.WindGustAppends | main5.py:373 | a gust adds ", порывы N" in the same unit to the wind line |
| Fields.RvrLineWithoutTrend | main5.py:423-425 | without a trend letter the RVR line ends at the value, with no trailing space |
| Fields.TempMinus | main5.py:465-466 | an M prefix prints as '-' and reads as the negative value; without it the value is positive |
| Fields.TempSplitAgrees | main5.py:463-466 | when neither half is '//', the split as written gives the same two halves as the pattern's groups |
| Fields.TempSplitFailsOnMissing | main3.py:404 | when a half is '//', the split as written fails (Python raises ValueError) |
| Fields.TempSplitCounterexample | main5.py:464 | "15///" matches the temperature pattern as ("15", "//") but the split as written fails on it |
| Fields.KindOf | main5.py:349-604 | the first-match-wins dispatch: the station branch is taken exactly for a four-letter token in station position |
| Fields.RvrBeforeRunwayState | main5.py:417-419 | "R28/1900" has the runway-state shape too, but the earlier RVR branch wins |
| PhraseV5.AgreedDescriptors | main5.py:165 | each descriptor is rendered in the form agreeing with the head |
| PhraseV5.Precipitation | main5.py:169 | the precipitation-like events, and only they, each one taken from the events |
| PhraseV5.RemoveFirst | main5.py:156 | list.remove drops exactly one occurrence of the thunderstorm |
| PhraseV5.JoinWeatherEvents | main5.py:146-215 | the method, which promotes the thunderstorm on local copies of the two lists, returns the specified phrase on the lists as given |
| PhraseV5.PrecipitationSkipsThunder | main5.py:155 | promoting the thunderstorm to the events changes no precipitation list |
| PhraseV5.PhraseEmptyIff | main5.py:150-151 | the phrase is empty exactly when there are no events and no descriptors |
| PhraseV5.EventsPhraseTrimmed | main5.py:194-204 | the joined events never start or end with a space |
| PhraseV5.ThunderPhraseTrimmed | main5.py:168-191 | the thunderstorm phrase never starts or ends with a space |
| PhraseV5.PlainPhraseTrimmed | main5.py:206-215 | the plain phrase is intensity, descriptors and events joined by single spaces, with no space at either end |
| PhraseV5.ModerateIntensityElided | main5.py:209-211 | a sign other than '+' and '-' adds no word: the phrase equals the one without a sign |
| PhraseV5.SignPrefixesAgreedWord | main5.py:207-213 | '+' or '-' puts exactly one intensity word, agreeing with the head, in front of the unsigned phrase |
| PhraseV5.PrecipitationIdempotent | main5.py:169 | filtering the precipitation twice changes nothing |
| PhraseV5.PrecipitationConcat | main5.py:169 | the filter distributes over concatenation, so order is kept |
| PhraseV5.ThunderKeepsOnlyPrecipitation | main5.py:168-191 | with a thunderstorm, events that are not precipitation do not affect the phrase |
| PhraseV5.LoneThunderstorm | main5.py:170-173 | a thunderstorm without precipitation is "гроза", after the feminine intensity word only when a sign is given |
| PhraseV5.ThunderstormHead | main5.py:153-191 | with a thunderstorm descriptor the other descriptors agree with the feminine singular "гроза" and only the precipitation of the events follows it |
| PhraseV5.HeavyThunderstormWithRain | main5.py:153-191 | "+TSRA" renders as "сильная гроза с дождём" |
| PhraseV5.PluralHeadAgrees | main5.py:126-141 | a plural head takes the plural form of every descriptor that has forms, and '+' or '-' writes the plural intensity adjective before the unsigned phrase |
| PhraseV5.DescribedPhenomenon | main5.py:206-215 | one descriptor and one phenomenon without sign or thunderstorm render as the agreeing descriptor, a space and the phenomenon |
| PhraseV5.LightFreezingIcePellets | main5.py:146-215 | light freezing ice pellets render with every word plural: "слабые переохлажденные ледяные шарики" |
| PhraseV5.PrepositionByPhenomenon | main5.py:187 | "со" is chosen exactly for snow, snow grains and squall, whose instrumental forms start with 'с' or 'ш' |
| PhraseV5.FindPairs | main5.py:245 | re.findall('[A-Z]{2}') yields only pairs of capitals |
| PhraseV5.FindPairsOfConcat | main5.py:245 | a token made of capital pairs is scanned back into exactly those pairs |
| PhraseV5.ThunderstormCodeIsDescriptor | main5.py:247-251 | "TS" is in the weather table too, yet the descriptor lookup comes first, so it is read as a thunderstorm descriptor |
| PhraseV5.SignOf | main5.py:228-231 | the sign is the token's first character when that is '+' or '-', and empty otherwise |
| PhraseV5.CompoundsComeFirst | main5.py:237-242 | BLSN and DRSN are taken out as phenomena before the scan; blowing snow is among them exactly when the unsigned token holds BLSN |
| PhraseV5.ScanPairs | main5.py:247-251 | the loop appends each pair to the descriptors or the phenomena, in order |
| PhraseV5.DecodeWeatherToken | main5.py:221-253 | the method returns the phrase of the token's sign, compound phenomena and classified pairs |
| PhraseV2.WithoutThunder | main2.py:196-198 | the descriptors loop skips "гроза" and keeps every other descriptor |
| PhraseV2.DescrOut2SkipsThunder | main2.py:195-204 | the rendered descriptors are those other than "гроза", agreeing with the head |
| PhraseV2.Thunder2NonEmpty | main2.py:210-230 | the thunderstorm phrase is never empty and has no space at either end |
| PhraseV2.Plain2NonEmpty | main2.py:232-271 | without a thunderstorm, a group with any code gives a non-empty phrase |
| PhraseV2.Phrase2EmptyIff | main2.py:173-174 | the phrase is empty exactly when there are no events and no descriptors |
| PhraseV2.ThunderFirstPrecipitationOnly | main2.py:212-224 | with a thunderstorm, only the first precipitation is rendered: further events change nothing |
| PhraseV2.VicinityTakesNoIntensity | main2.py:264-267 | a phrase starting with "вблизи " takes no intensity word |
| PhraseV2.SignPrefixes2 | main2.py:263-269 | otherwise '+' or '-' puts the agreeing intensity word in front of the unsigned phrase |
| PhraseV2.ScanCode2 | main2.py:400-412 | VC and the descriptor table come before the phenomenon table; TS is never a phenomenon |
| PhraseV2.Scan2 | main2.py:398-414 | every code read consumes two characters of the token |
| PhraseV2.Scan2Step | main2.py:399-414 | one step of the scan: VC, a descriptor or a phenomenon advances by two, anything else by one |
| PhraseV2.ScanPairs2 | main2.py:398-414 | the while loop advancing by two or one returns the specified scan |
| PhraseV2.DecodeWeatherToken2 | main2.py:384-418 | the method returns the phrase of the token's sign and scan |
| PhraseV2.ScanOrderedGroup | main2.py:133-138 | a group of the pattern is read whole: at most three descriptors, at least one phenomenon, two characters per code |
| PhraseV2.ScanPhenomenonChunks | main2.py:136-137 | a run of phenomenon codes is read as that many phenomena and no descriptor |
| PhraseV2.DescriptorChunkScanned | main2.py:135 | a descriptor code of the pattern is scanned as a descriptor |
| PhraseV2.PhenomenonChunkScanned | main2.py:136-137 | a phenomenon code of the pattern is scanned as a phenomenon |
| PhraseV2.OrderedWeatherWritesLine2 | main2.py:526-529 | every token of the weather pattern gives a non-empty phrase, so the weather branch always writes its line |
| PhraseV1.Instr1 | main.py:29-52 | WEATHER_INSTR has an instrumental form exactly for the WEATHER words |
| PhraseV1.JoinEvents1AgreesWithV5 | main.py:106-124 | on the phenomena a group can hold, main.py joins events exactly as main5.py does |
| PhraseV1.JoinEvents1Fallback | main.py:119-122 | a second word missing from the table is written as it is ("с" + the word), unlike main5.py; the branch is unreachable from main.py's decoder, whose WEATHER words all have an instrumental form |
| PhraseV1.JoinEvents1Trimmed | main.py:106-124 | a non-empty join never starts or ends with a space |
| PhraseV1.ScanWeather1 | main.py:141-151 | the `while tok` loop cutting two characters or one off the front returns the specified scan |
| PhraseV1.JoinParts1 | main.py:153-159 | filling the parts list slot by slot and joining gives the specified phrase |
| PhraseV1.DecodeWeather1 | main.py:126-159 | the method returns the phrase of the token's prefix and scan |
| PhraseV1.Scan1IsScan2 | main.py:141-151 | main.py and main2.py read a group into the same codes; only the word for SH differs |
| PhraseV1.ScanOrderedGroup1 | main.py:96-101 | a group of the pattern is read whole, with at least one phenomenon |
| PhraseV1.SkipsNonLetter | main.py:149-151 | a character that starts no code is skipped |
| PhraseV1.Phrase1Prefix | main.py:155-159 | a word in the intensity slot goes in front of the rest, separated by one space |
| PhraseV1.Phrase1Vicinity | main.py:134-136 | "вблизи" in the intensity slot reads as a leading VC descriptor |
| PhraseV1.SignWord1 | main.py:131-133 | '+' or '-' adds exactly one ungendered word in front of the rest of the group |
| Remarks.Remarks5 | main5.py:549-592 | the remark scanner makes one record per token or per two-token phrase |
| Remarks.RemarkText5 | main5.py:572-586 | every remark line is an indented "  - " item |
| Remarks.ScanRemarks5 | main5.py:549-592 | the loop stepping by two for a phrase and by one otherwise returns the specified records and lines |
| Remarks.RemarksOneByOne | main5.py:574-592 | without OBSC each token is one remark of its own |
| Remarks.RemarksPairFromLeft | main5.py:557-570 | phrases are matched from the left, so "MT OBST OBSC" is an unknown MT and obscured obstacles |
| Remarks.RemarkLines5Shape | main3.py:448-449 | the "Ремарки:" header is written exactly when a token follows RMK, then one line per remark |
| Remarks.QfeLine5 | main5.py:574-577 | "QFEa/b" reads "Давление QFE a мм рт.ст. (доп. b мм рт.ст." |
| Remarks.IndexOf | main2.py:554 | the first position of the character |
| Remarks.RemarkLoop2 | main2.py:550-571 | main2.py's and main.py's remark for-loop returns the specified lines |
| Remarks.QfeLineSplit | main2.py:551-557 | main2.py splits the QFE value at its first '/'; main.py (main.py:340) prints it raw |
| Remarks.ObscuredWording | main2.py:560-565 | OBST and MT are worded as obscured exactly when OBSC is anywhere among the remarks, and OBSC writes nothing |
| Remarks.RemarkLines2Count | main.py:339-347 | one labelled line per remark token that is not OBSC |
| Remarks.RemarkLineLabelled | main2.py:551-571 | a token writes nothing exactly when it is OBSC; every other line carries the "Ремарка: " label |
| Report.Tokens | main5.py:340 | the report's tokens are non-empty and contain no whitespace |
| Report.TokensHaveNoEquals | main5.py:340 | no token contains '=' |
| Report.WindShear | main5.py:521-533 | WS consumes at most two further tokens, all inside the report |
| Report.VisibilityStep | main5.py:397-409 | the visibility branch appends a line or rewrites the last one as specified |
| Report.WeatherStep | main.py:318-321 | the weather branch computes the version's phrase |
| Report.Branch | main2.py:428-545 | a single-token branch applies its entry to the lines |
| Report.RemarkStep | main2.py:548-572 | the RMK branch computes the version's remark lines |
| Report.Advance | main5.py:496-594 | a classified step moves the cursor forward, and either ends with the final lines (RMK) or keeps the lines still to be produced unchanged |
| Report.Step | main5.py:345-604 | one iteration of the loop, classified by the first-match-wins dispatch, keeps the same invariant |
| Report.DecodeReport | main2.py:420-580 | the cursor loop of any version returns that version's report text |
| Report.DecodeMetar3 | main3.py:338-488 | main3.py's decode_metar returns the text half of main5.py's |
| Report.DecodeMetar2 | main2.py:420-580 | main2.py's decode_metar returns its report text |
| Report.DecodeMetar1 | main.py:245-354 | main.py's decode_metar returns its report text |
| ReportProps.VisibilityEditsLastLine | main5.py:399-409 | a visibility group edits the last line exactly when it is not 9999 and the last line is a visibility line; otherwise it appends; nothing before the edited line changes |
| ReportProps.VisibilityEndsText | main5.py:397-409 | after a visibility group the last line is a visibility line |
| ReportProps.NswForecastIff | main5.py:513-514 | NSW gives the forecast wording exactly when the previous line starts with "Тренд" |
| ReportProps.ShearSparesRmk | main5.py:521-533 | the tokens WS consumes are never RMK |
| ReportProps.RmkKind | main5.py:540 | the remarks branch is taken exactly for the token RMK |
| ReportProps.NoRemarks | main5.py:543-546 | RMK at the end of a report writes nothing |
| ReportProps.RemarksAppendOnly | main5.py:540-594 | everything after the first RMK contributes only its remark lines, appended after the lines of the body |
| ReportProps.MetarEntry | main5.py:596-599 | METAR writes nothing in main5.py/main3.py and an "(неизвестно)" line in main2.py/main.py |
| ReportProps.MetarWordUnknown | main2.py:574-576 | a METAR token in the loop adds the unknown line in main2.py and main.py and nothing in main5.py |
| ReportProps.FirstTokenNotStation | main5.py:349 | the first token is never taken as the station |
| ReportProps.StationAsWrittenDiffers | main.py:251 | main.py's station test agrees with the corrected one everywhere except index 0, where it reads the last token |
| ReportProps.RunwayLineAsWritten1 | main.py:315-316 | main.py's runway branch line is None exactly when decode_runway finds nothing |
| ReportProps.RunwayAsWrittenFails | main.py:315-316 | "RRRR" after a station is classified as a runway state but decodes to None |
| ReportProps.RunwayLineGuarded | main2.py:518-523 | the guarded runway branch writes the decoded state, or "(неизвестно) t" when there is none; never an empty line |
| ReportV5.RecordStep | main5.py:349-517 | each single-token branch updates the record as specified |
| ReportV5.Advance5 | main5.py:496-594 | a classified step keeps both the lines and the record still to be produced |
| ReportV5.Step5 | main5.py:345-604 | one iteration of main5.py's loop keeps the invariant on the text and on the record |
| ReportV5.DecodeMetar5 | main5.py:339-607 | decode_metar returns the report text and the record |
| ReportV5.VisibilityRecordedPerToken | main5.py:410-413 | the record gains one visibility entry per token, with the metres and the direction, even when the text only edits a line |
| ReportV5.WindOverwritesVariability | main5.py:376-392 | a wind group after the variability replaces the whole wind entry; the variability after the wind keeps it |
| ReportV5.WindOfGroups | main5.py:366-382 | the recorded direction is variable exactly for VRB; a missing unit is KT; a gust is recorded exactly when present |
| ReportV5.UnknownSkipsReportWords | main5.py:596-602 | the record's unknown list never holds METAR, SPECI or TAF |
| ReportV5.UnknownKept | main5.py:596-602 | no step adds METAR, SPECI or TAF to the unknown list |
| ReportV5.UnknownLineIffEntry | main5.py:597-602 | an unknown token writes its line exactly when it enters the unknown list |
| ReportV5.WeatherLineIffEntry | main5.py:504-510 | the weather branch writes a line exactly when it records an entry, and the line carries the recorded phrase |
| ReportV5.RemarksHeaderIffEntry | main5.py:543-546 | the remarks record exists exactly when the header line is written, with one decoded entry per remark line |
| ReportV5.RecordGrows | main5.py:339-607 | over the whole loop the record's lists only grow |
| ReportV5.StepGrows | main5.py:349-602 | no branch shortens a list of the record |

## Left out

- The demonstration blocks under `__main__` and the JSON printing of the record: input and output only.
- Floating point: the inHg pressure and the braking coefficient are whole numbers of hundredths, printed with two decimals.
  - A whole number divided by 100.0 and printed with `:.2f` shows exactly its hundredths, which is what Text.Hundredths writes.
- Regular expressions: each fixed pattern is a hand-written predicate or parser.
  - `\d` and `isdigit()` accept ASCII digits only.
  - Python accepts other Unicode digits; a report is ASCII.
- The record's dictionaries are datatypes:
  - an absent key is `None` or an empty list;
  - a key set on an existing dictionary (`metar_data['wind']['variability']`) is a field update.
- Wording of the code tables (CLOUDS, RUNWAY_TYPE, RUNWAY_COVER, BRAKING, the weather and descriptor names): constant strings; only their first letter is inspected.
- `decode_weather_token` computes each weather phrase once in main5.py. The model computes it twice:
  - once in Report.Branch for the text;
  - once in ReportV5.RecordStep for the record.
  Both use the same function, so the result is the same.
- The main loop of main5.py and main3.py uses the temperature pattern's groups. The split as written (`t.split('/')`) is modelled separately; see Findings.
- main.py's unguarded runway line and its station test at index 0 are modelled as written in ReportProps. The report text of main.py (Report.DecodeMetar1) uses the corrected runway line and station test; see Findings.
- The `try`/`except` around the cloud height in main2.py is not a separate path: the pattern only admits three digits or '///' there.
- Patterns.ParseVarWind: states that a match rebuilds the token, not that every token of the shape is accepted.
- Patterns.ParseVis: states that a match rebuilds the token, not that every token of the shape is accepted.
- Patterns.ParseRvr: states the runway part of a match only, not the value, the maximum or the trend.
- Patterns.ParseVerticalVisibility: states the shape of the value, not that every token of the shape is accepted.
- Patterns.ParseTemp: states that a match rebuilds the token, not that every token of the shape is accepted.
- Patterns.ParseLetterFourDigits: states that a match rebuilds the token, not that every token of the shape is accepted.
- Patterns.ParseRunway6: states the shape of the two parts, not that they rebuild the token.
- Patterns.ParseRunwayVar: states the characters of the body only.
- Report.WindShear: its contract bounds the look-ahead. The choice between "ALL RWY", "RWY…" and nothing is in its definition, and ReportProps.ShearSparesRmk uses it.
- Remarks.Remarks5: its contract bounds the number of records. What each record is, is stated by Remarks.RemarksOneByOne and Remarks.RemarksPairFromLeft.

## Findings

| source | as written | input that shows it | evidently intended | confidence | as-written member | corrected member |
|---|---|---|---|---|---|---|
| main5.py:464 (also main3.py:404) | `T, Td = t.split('/')` needs exactly two pieces, so the "нет данных" branch for a '//' half is dead and the call raises ValueError | `15///` (dew point missing) or `/////` | take the two halves as the pattern's groups, as main2.py:499 does | not executed | Fields.TempSplitCounterexample | Fields.TempSplitAgrees |
| main.py:251 | at index 0, `tokens[i-1]` is the last token, so a leading four-letter word is a station when the report ends in METAR or SPECI | `ULLI METAR` | test the previous token only when there is one (`i > 0`), as main2.py:428 does | not executed | ReportProps.StationAsWrittenDiffers | ReportProps.FirstTokenNotStation |
| main.py:315-316 | the runway branch appends `decode_runway(t)` unguarded; for a token it accepts but cannot decode, None enters the list and the final join raises TypeError | `METAR ULLI RRRR` | write "(неизвестно) t" when nothing is decoded, as main2.py:519-523 does | not executed | ReportProps.RunwayAsWrittenFails | ReportProps.RunwayLineGuarded |
