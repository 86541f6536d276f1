/** The domain vocabulary of types.ts: three string enumerations and the
    records that make up the persisted lawn state. */
module Types {
  import opened Wrappers

  datatype GrassType = CoolSeason | WarmSeason

  datatype SoilType = Clay | Sandy | Loam | Unsure

  datatype LawnCondition = Healthy | Yellowing | Patchy | Stressed

  /** The string value each enumeration member carries (what a template
      literal prints when it interpolates the member). */
  function GrassTypeText(g: GrassType): string
  {
    match g
    case CoolSeason => "Cool-Season (Fescue, Bluegrass, Ryegrass)"
    case WarmSeason => "Warm-Season (Bermuda, St. Augustine, Zoysia)"
  }

  function SoilTypeText(s: SoilType): string
  {
    match s
    case Clay => "Clay"
    case Sandy => "Sandy"
    case Loam => "Loam"
    case Unsure => "Unsure / Default"
  }

  function ConditionText(c: LawnCondition): string
  {
    match c
    case Healthy => "Healthy & Green"
    case Yellowing => "Yellowing / Nutrient Deficient"
    case Patchy => "Patchy / Thin"
    case Stressed => "Heat/Drought Stressed"
  }

  /** The reverse lookup of a string enumeration: the member whose value is
      `text`, if there is one. */
  function ParseGrassType(text: string): (g: Option<GrassType>)
    ensures g.Some? ==> GrassTypeText(g.value) == text
  {
    if text == "Cool-Season (Fescue, Bluegrass, Ryegrass)" then Some(CoolSeason)
    else if text == "Warm-Season (Bermuda, St. Augustine, Zoysia)" then Some(WarmSeason)
    else None
  }

  function ParseSoilType(text: string): (s: Option<SoilType>)
    ensures s.Some? ==> SoilTypeText(s.value) == text
  {
    if text == "Clay" then Some(Clay)
    else if text == "Sandy" then Some(Sandy)
    else if text == "Loam" then Some(Loam)
    else if text == "Unsure / Default" then Some(Unsure)
    else None
  }

  function ParseCondition(text: string): (c: Option<LawnCondition>)
    ensures c.Some? ==> ConditionText(c.value) == text
  {
    if text == "Healthy & Green" then Some(Healthy)
    else if text == "Yellowing / Nutrient Deficient" then Some(Yellowing)
    else if text == "Patchy / Thin" then Some(Patchy)
    else if text == "Heat/Drought Stressed" then Some(Stressed)
    else None
  }

  /** Reading a member's string value back gives the member again. */
  lemma EnumTextsRoundTrip(g: GrassType, s: SoilType, c: LawnCondition)
    ensures ParseGrassType(GrassTypeText(g)) == Some(g)
    ensures ParseSoilType(SoilTypeText(s)) == Some(s)
    ensures ParseCondition(ConditionText(c)) == Some(c)
  {
  }

  /** Distinct members carry distinct strings. */
  lemma EnumTextsInjective(g1: GrassType, g2: GrassType, s1: SoilType, s2: SoilType,
                           c1: LawnCondition, c2: LawnCondition)
    ensures GrassTypeText(g1) == GrassTypeText(g2) ==> g1 == g2
    ensures SoilTypeText(s1) == SoilTypeText(s2) ==> s1 == s2
    ensures ConditionText(c1) == ConditionText(c2) ==> c1 == c2
  {
    EnumTextsRoundTrip(g1, s1, c1);
    EnumTextsRoundTrip(g2, s2, c2);
  }

  /** The first character tells the grass types apart. */
  lemma GrassTypeFirstChar(g: GrassType)
    ensures |GrassTypeText(g)| > 0 && (GrassTypeText(g)[0] == 'C' <==> g == CoolSeason)
  {
    match g
    case CoolSeason =>
      var text := GrassTypeText(g);
      assert text == "Cool-Season (Fescue, Bluegrass, Ryegrass)" && text[0] == 'C';
    case WarmSeason =>
      var text := GrassTypeText(g);
      assert text == "Warm-Season (Bermuda, St. Augustine, Zoysia)" && text[0] == 'W';
  }

  /** No condition's text followed by `tail` equals another's followed by
      `tail`: the characters at positions 0 and 3 tell them apart. */
  lemma ConditionTextsPrefixFree(c1: LawnCondition, c2: LawnCondition, tail: string)
    requires ConditionText(c1) + tail == ConditionText(c2) + tail
    ensures c1 == c2
  {
    var t1, t2 := ConditionText(c1), ConditionText(c2);
    assert |t1| > 3 && |t2| > 3;
    assert (t1 + tail)[0] == t1[0] && (t1 + tail)[3] == t1[3];
    assert (t2 + tail)[0] == t2[0] && (t2 + tail)[3] == t2[3];
  }

  /** A double-precision JavaScript number, kept opaque: only the text that
      string interpolation prints for it is observable in this model. */
  datatype JsNumber = JsNumber(shown: string)

  datatype Location = Location(lat: JsNumber, lng: JsNumber, city: Option<string>)

  datatype UserProfile = UserProfile(
    location: Option<Location>,
    grassType: GrassType,
    soilType: SoilType,
    lastFertilized: Option<string>,
    condition: LawnCondition)

  datatype FertilizerRecommendation = FertilizerRecommendation(
    productName: string,
    npkRatio: string,
    applicationRate: string,
    timing: string,
    bestPractices: seq<string>,
    reasoning: string,
    nextStepDate: string)

  datatype ApplicationLog = ApplicationLog(id: string, date: string, productUsed: string, notes: string)

  /** The aggregate root: everything the application persists. */
  datatype LawnState = LawnState(
    profile: UserProfile,
    history: seq<ApplicationLog>,
    recommendation: Option<FertilizerRecommendation>,
    healthScore: int,
    lawnImage: Option<string>)
}
