/**
 The fixed mock catalog the dashboard filters (`MOCK_PROPERTIES`), the city
 and type lists offered by the dashboard, and what the filter returns on it
 for the criteria the dashboard's buttons produce.
 */
module Catalog {

  import opened Nullable
  import opened Text
  import opened Listings

  function FudScholarsLodge(): Property {
    Property(
      id := "1",
      title := "FUD Scholars Lodge",
      location := "Ibrahim Aliyu Bypass",
      city := "Dutse",
      price := 150000,
      kind := SelfCon,
      tags := ["FUD Students", "Campus Proximity"],
      imageUrl := "https://picsum.photos/800/600?random=1",
      description := "Affordable " + "self-contained " + "room " + "just " + "5 " + "minutes " + "walk " + "from " + "Federal " + "University " + "Dutse " + "main " + "gate. " + "Ideal " + "for " + "serious " + "students.",
      proximity := Some("5 mins to FUD Gate"),
      amenities := ["Borehole Water", "Fenced", "Security", "Study Area"])
  }

  function TakurAwaCorpersLodge(): Property {
    Property(
      id := "2",
      title := "Takur Awa Corpers Lodge",
      location := "Takur Awa",
      city := "Dutse",
      price := 300000,
      kind := Flat,
      tags := ["NYSC Friendly", "Modern"],
      imageUrl := "https://picsum.photos/800/600?random=2",
      description := "A " + "clean " + "1-bedroom " + "flat " + "perfect " + "for " + "Corpers " + "serving " + "in " + "ministries. " + "Quiet " + "environment " + "with " + "good " + "road " + "access.",
      proximity := Some("Near State Secretariat"),
      amenities := ["Tiled Floors", "Kitchen Cabinet", "Running Water", "Veranda"])
  }

  function PolyRoadStudio(): Property {
    Property(
      id := "3",
      title := "Poly Road Studio",
      location := "Kiyawa Road",
      city := "Dutse",
      price := 120000,
      kind := Studio,
      tags := ["Budget", "Poly Students"],
      imageUrl := "https://picsum.photos/800/600?random=3",
      description := "Compact " + "studio " + "apartment " + "near " + "Jigawa " + "State " + "Polytechnic. " + "Ideal " + "for " + "students " + "on " + "a " + "strict " + "budget.",
      proximity := Some("Opposite Jigawa Poly"),
      amenities := ["Water Tank", "Electricity", "Local Security"])
  }

  function GraExecutiveSuite(): Property {
    Property(
      id := "4",
      title := "GRA Executive Suite",
      location := "GRA",
      city := "Dutse",
      price := 600000,
      kind := Flat,
      tags := ["Premium", "Secure"],
      imageUrl := "https://picsum.photos/800/600?random=4",
      description := "Luxury " + "2-bedroom " + "apartment " + "in " + "the " + "Government " + "Reservation " + "Area. " + "24/7 " + "security " + "and " + "serene " + "atmosphere.",
      proximity := Some("Central Business District"),
      amenities := ["AC", "Generator", "Uniformed Security", "Car Park"])
  }

  function GidaDubuVilla(): Property {
    Property(
      id := "5",
      title := "Gida Dubu Villa",
      location := "Gida Dubu Estate",
      city := "Dutse",
      price := 250000,
      kind := SelfCon,
      tags := ["Quiet", "Spacious"],
      imageUrl := "https://picsum.photos/800/600?random=5",
      description := "Spacious " + "self-con " + "in " + "the " + "popular " + "Gida " + "Dubu " + "housing " + "estate. " + "Good " + "community " + "vibe " + "and " + "regular " + "power " + "supply.",
      proximity := Some("10 mins to Dutse Market"),
      amenities := ["Stable Power", "Water Board", "Fenced"])
  }

  function YadiStudentCompound(): Property {
    Property(
      id := "6",
      title := "Yadi Student Compound",
      location := "Yadi",
      city := "Dutse",
      price := 90000,
      kind := Shared,
      tags := ["Social", "Cheap"],
      imageUrl := "https://picsum.photos/800/600?random=6",
      description := "Shared " + "room " + "option " + "in " + "a " + "lively " + "student " + "compound " + "at " + "Yadi. " + "Very " + "social " + "environment, " + "make " + "friends " + "easily.",
      proximity := Some("Near FUD Back Gate"),
      amenities := ["Common Room", "Well Water", "Big Compound"])
  }

  /** `MOCK_PROPERTIES`, in source order. */
  function MockProperties(): seq<Property> {
    [FudScholarsLodge(), TakurAwaCorpersLodge(), PolyRoadStudio(), GraExecutiveSuite(), GidaDubuVilla(), YadiStudentCompound()]
  }

  /** `CITIES`: the only city the dashboard offers. */
  function Cities(): seq<string> {
    ["Dutse"]
  }

  /** `PROPERTY_TYPES`: the options of the type select. "Duplex" is a valid
      category but is not offered. */
  function PropertyTypes(): seq<string> {
    ["Self-Con", "Flat", "Studio", "Shared"]
  }

  // ---------------------------------------------------------------------------
  // Facts about the data
  // ---------------------------------------------------------------------------

  /** Six listings whose ids are "1" to "6" in order, so no two share an id. */
  lemma CatalogIds()
    ensures |MockProperties()| == 6
    ensures forall i :: 0 <= i < 6 ==> MockProperties()[i].id == [('1' as int + i) as char]
    ensures forall i, j :: 0 <= i < j < |MockProperties()| ==> MockProperties()[i].id != MockProperties()[j].id
  {
    forall i, j | 0 <= i < j < 6
      ensures MockProperties()[i].id != MockProperties()[j].id
    {
      assert MockProperties()[i].id[0] != MockProperties()[j].id[0];
    }
  }

  /** Every listing is in Dutse, the one entry of `CITIES`, so the initial
      city criterion removes nothing. */
  lemma CatalogAllInDutse()
    ensures Cities() == ["Dutse"]
    ensures forall p :: p in MockProperties() ==> p.city in Cities() && MatchesCity(p, InitialFilters())
  {
  }

  /** Every listing's category is one the type select offers. */
  lemma CatalogTypesOffered()
    ensures forall p :: p in MockProperties() ==> TypeName(p.kind) in PropertyTypes()
  {
  }

  /** Every price is positive and within the initial ceiling of 5,000,000. */
  lemma CatalogPricesWithinCeiling()
    ensures forall p :: p in MockProperties() ==> 0 < p.price <= InitialFilters().maxPrice
  {
  }

  // ---------------------------------------------------------------------------
  // What the filter returns on the catalog
  // ---------------------------------------------------------------------------

  /** The initial criteria, which "Clear all filters" restores from any
      criteria, show the whole catalog. */
  lemma InitialFiltersShowAll(f: FilterState)
    ensures Filter(MockProperties(), InitialFilters()) == MockProperties()
    ensures Filter(MockProperties(), ClearFilters(f)) == MockProperties()
  {
    forall p | p in MockProperties()
      ensures Matches(p, InitialFilters())
    {
      EmptySearchMatchesAll(p);
    }
    FilterKeepsAll(MockProperties(), InitialFilters());
  }

  /** With a ceiling of 100,000 and otherwise initial criteria, only the Yadi
      compound (90,000) is left. */
  lemma CeilingOf100000()
    ensures Filter(MockProperties(), InitialFilters().(maxPrice := 100000)) == [YadiStudentCompound()]
  {
    var f := InitialFilters().(maxPrice := 100000);
    EmptySearchMatchesAll(YadiStudentCompound());
    FilterSingle(MockProperties(), f, 5);
  }

  // ---------------------------------------------------------------------------
  // Which listings the nav-button searches miss
  //
  // Each miss is shown on the three searched fields of the listing, written
  // out, with one letter of the lower-cased query per field that the field
  // lacks in either case.
  // ---------------------------------------------------------------------------

  /** The letters of the lower-cased query "Poly". */
  lemma PolyLetters()
    ensures 'p' in ToLower("Poly") && 'o' in ToLower("Poly") && 'l' in ToLower("Poly") && 'y' in ToLower("Poly")
  {
    assert ToLower("Poly")[0] == 'p' && ToLower("Poly")[1] == 'o' && ToLower("Poly")[2] == 'l' && ToLower("Poly")[3] == 'y';
  }

  /** The letters of the lower-cased query "FUD". */
  lemma FUDLetters()
    ensures 'f' in ToLower("FUD") && 'u' in ToLower("FUD") && 'd' in ToLower("FUD")
  {
    assert ToLower("FUD")[0] == 'f' && ToLower("FUD")[1] == 'u' && ToLower("FUD")[2] == 'd';
  }

  /** The letters of the lower-cased query "Corpers". */
  lemma CorpersLetters()
    ensures 'c' in ToLower("Corpers") && 'o' in ToLower("Corpers") && 'r' in ToLower("Corpers") && 'p' in ToLower("Corpers") && 'e' in ToLower("Corpers") && 's' in ToLower("Corpers")
  {
    assert ToLower("Corpers")[0] == 'c' && ToLower("Corpers")[1] == 'o' && ToLower("Corpers")[2] == 'r' && ToLower("Corpers")[3] == 'p' && ToLower("Corpers")[4] == 'e' && ToLower("Corpers")[6] == 's';
  }

  /** The letters of the lower-cased query "Takur". */
  lemma TakurLetters()
    ensures 't' in ToLower("Takur") && 'a' in ToLower("Takur") && 'k' in ToLower("Takur") && 'u' in ToLower("Takur") && 'r' in ToLower("Takur")
  {
    assert ToLower("Takur")[0] == 't' && ToLower("Takur")[1] == 'a' && ToLower("Takur")[2] == 'k' && ToLower("Takur")[3] == 'u' && ToLower("Takur")[4] == 'r';
  }

  lemma FudScholarsLodgeLacksPoly()
    ensures LacksLetter("FUD Scholars Lodge", 'p')
      && LacksLetter("Ibrahim Aliyu Bypass", 'o')
      && LacksLetter("FUD Students", 'p')
      && LacksLetter("Campus Proximity", 'l')
  {
  }

  lemma FudScholarsLodgeMissesPoly()
    ensures !SearchHits("FUD Scholars Lodge", "Ibrahim Aliyu Bypass", ["FUD Students", "Campus Proximity"], "Poly")
  {
    PolyLetters();
    FudScholarsLodgeLacksPoly();
    SearchMisses("FUD Scholars Lodge", "Ibrahim Aliyu Bypass", ["FUD Students", "Campus Proximity"], "Poly", 'p', 'o', ['p', 'l']);
  }

  lemma FudScholarsLodgeLacksCorpers()
    ensures LacksLetter("FUD Scholars Lodge", 'p')
      && LacksLetter("Ibrahim Aliyu Bypass", 'c')
      && LacksLetter("FUD Students", 'c')
      && LacksLetter("Campus Proximity", 'e')
  {
  }

  lemma FudScholarsLodgeMissesCorpers()
    ensures !SearchHits("FUD Scholars Lodge", "Ibrahim Aliyu Bypass", ["FUD Students", "Campus Proximity"], "Corpers")
  {
    CorpersLetters();
    FudScholarsLodgeLacksCorpers();
    SearchMisses("FUD Scholars Lodge", "Ibrahim Aliyu Bypass", ["FUD Students", "Campus Proximity"], "Corpers", 'p', 'c', ['c', 'e']);
  }

  lemma FudScholarsLodgeLacksTakur()
    ensures LacksLetter("FUD Scholars Lodge", 't')
      && LacksLetter("Ibrahim Aliyu Bypass", 't')
      && LacksLetter("FUD Students", 'a')
      && LacksLetter("Campus Proximity", 'k')
  {
  }

  lemma FudScholarsLodgeMissesTakur()
    ensures !SearchHits("FUD Scholars Lodge", "Ibrahim Aliyu Bypass", ["FUD Students", "Campus Proximity"], "Takur")
  {
    TakurLetters();
    FudScholarsLodgeLacksTakur();
    SearchMisses("FUD Scholars Lodge", "Ibrahim Aliyu Bypass", ["FUD Students", "Campus Proximity"], "Takur", 't', 't', ['a', 'k']);
  }

  /** The searches "Poly", "Corpers", "Takur" miss the FudScholarsLodge listing. */
  lemma FudScholarsLodgeMisses()
    ensures !MatchesSearch(FudScholarsLodge(), "Poly")
    ensures !MatchesSearch(FudScholarsLodge(), "Corpers")
    ensures !MatchesSearch(FudScholarsLodge(), "Takur")
  {
    FudScholarsLodgeMissesPoly();
    FudScholarsLodgeMissesCorpers();
    FudScholarsLodgeMissesTakur();
  }

  lemma TakurAwaCorpersLodgeLacksPoly()
    ensures LacksLetter("Takur Awa Corpers Lodge", 'y')
      && LacksLetter("Takur Awa", 'p')
      && LacksLetter("NYSC Friendly", 'p')
      && LacksLetter("Modern", 'p')
  {
  }

  lemma TakurAwaCorpersLodgeMissesPoly()
    ensures !SearchHits("Takur Awa Corpers Lodge", "Takur Awa", ["NYSC Friendly", "Modern"], "Poly")
  {
    PolyLetters();
    TakurAwaCorpersLodgeLacksPoly();
    SearchMisses("Takur Awa Corpers Lodge", "Takur Awa", ["NYSC Friendly", "Modern"], "Poly", 'y', 'p', ['p', 'p']);
  }

  lemma TakurAwaCorpersLodgeLacksFUD()
    ensures LacksLetter("Takur Awa Corpers Lodge", 'f')
      && LacksLetter("Takur Awa", 'f')
      && LacksLetter("NYSC Friendly", 'u')
      && LacksLetter("Modern", 'f')
  {
  }

  lemma TakurAwaCorpersLodgeMissesFUD()
    ensures !SearchHits("Takur Awa Corpers Lodge", "Takur Awa", ["NYSC Friendly", "Modern"], "FUD")
  {
    FUDLetters();
    TakurAwaCorpersLodgeLacksFUD();
    SearchMisses("Takur Awa Corpers Lodge", "Takur Awa", ["NYSC Friendly", "Modern"], "FUD", 'f', 'f', ['u', 'f']);
  }

  /** The searches "Poly", "FUD" miss the TakurAwaCorpersLodge listing. */
  lemma TakurAwaCorpersLodgeMisses()
    ensures !MatchesSearch(TakurAwaCorpersLodge(), "Poly")
    ensures !MatchesSearch(TakurAwaCorpersLodge(), "FUD")
  {
    TakurAwaCorpersLodgeMissesPoly();
    TakurAwaCorpersLodgeMissesFUD();
  }

  lemma PolyRoadStudioLacksFUD()
    ensures LacksLetter("Poly Road Studio", 'f')
      && LacksLetter("Kiyawa Road", 'f')
      && LacksLetter("Budget", 'f')
      && LacksLetter("Poly Students", 'f')
  {
  }

  lemma PolyRoadStudioMissesFUD()
    ensures !SearchHits("Poly Road Studio", "Kiyawa Road", ["Budget", "Poly Students"], "FUD")
  {
    FUDLetters();
    PolyRoadStudioLacksFUD();
    SearchMisses("Poly Road Studio", "Kiyawa Road", ["Budget", "Poly Students"], "FUD", 'f', 'f', ['f', 'f']);
  }

  lemma PolyRoadStudioLacksCorpers()
    ensures LacksLetter("Poly Road Studio", 'c')
      && LacksLetter("Kiyawa Road", 'c')
      && LacksLetter("Budget", 'c')
      && LacksLetter("Poly Students", 'c')
  {
  }

  lemma PolyRoadStudioMissesCorpers()
    ensures !SearchHits("Poly Road Studio", "Kiyawa Road", ["Budget", "Poly Students"], "Corpers")
  {
    CorpersLetters();
    PolyRoadStudioLacksCorpers();
    SearchMisses("Poly Road Studio", "Kiyawa Road", ["Budget", "Poly Students"], "Corpers", 'c', 'c', ['c', 'c']);
  }

  lemma PolyRoadStudioLacksTakur()
    ensures LacksLetter("Poly Road Studio", 'k')
      && LacksLetter("Kiyawa Road", 't')
      && LacksLetter("Budget", 'a')
      && LacksLetter("Poly Students", 'a')
  {
  }

  lemma PolyRoadStudioMissesTakur()
    ensures !SearchHits("Poly Road Studio", "Kiyawa Road", ["Budget", "Poly Students"], "Takur")
  {
    TakurLetters();
    PolyRoadStudioLacksTakur();
    SearchMisses("Poly Road Studio", "Kiyawa Road", ["Budget", "Poly Students"], "Takur", 'k', 't', ['a', 'a']);
  }

  /** The searches "FUD", "Corpers", "Takur" miss the PolyRoadStudio listing. */
  lemma PolyRoadStudioMisses()
    ensures !MatchesSearch(PolyRoadStudio(), "FUD")
    ensures !MatchesSearch(PolyRoadStudio(), "Corpers")
    ensures !MatchesSearch(PolyRoadStudio(), "Takur")
  {
    PolyRoadStudioMissesFUD();
    PolyRoadStudioMissesCorpers();
    PolyRoadStudioMissesTakur();
  }

  lemma GraExecutiveSuiteLacksPoly()
    ensures LacksLetter("GRA Executive Suite", 'p')
      && LacksLetter("GRA", 'p')
      && LacksLetter("Premium", 'o')
      && LacksLetter("Secure", 'p')
  {
  }

  lemma GraExecutiveSuiteMissesPoly()
    ensures !SearchHits("GRA Executive Suite", "GRA", ["Premium", "Secure"], "Poly")
  {
    PolyLetters();
    GraExecutiveSuiteLacksPoly();
    SearchMisses("GRA Executive Suite", "GRA", ["Premium", "Secure"], "Poly", 'p', 'p', ['o', 'p']);
  }

  lemma GraExecutiveSuiteLacksFUD()
    ensures LacksLetter("GRA Executive Suite", 'f')
      && LacksLetter("GRA", 'f')
      && LacksLetter("Premium", 'f')
      && LacksLetter("Secure", 'f')
  {
  }

  lemma GraExecutiveSuiteMissesFUD()
    ensures !SearchHits("GRA Executive Suite", "GRA", ["Premium", "Secure"], "FUD")
  {
    FUDLetters();
    GraExecutiveSuiteLacksFUD();
    SearchMisses("GRA Executive Suite", "GRA", ["Premium", "Secure"], "FUD", 'f', 'f', ['f', 'f']);
  }

  lemma GraExecutiveSuiteLacksCorpers()
    ensures LacksLetter("GRA Executive Suite", 'o')
      && LacksLetter("GRA", 'c')
      && LacksLetter("Premium", 'c')
      && LacksLetter("Secure", 'o')
  {
  }

  lemma GraExecutiveSuiteMissesCorpers()
    ensures !SearchHits("GRA Executive Suite", "GRA", ["Premium", "Secure"], "Corpers")
  {
    CorpersLetters();
    GraExecutiveSuiteLacksCorpers();
    SearchMisses("GRA Executive Suite", "GRA", ["Premium", "Secure"], "Corpers", 'o', 'c', ['c', 'o']);
  }

  lemma GraExecutiveSuiteLacksTakur()
    ensures LacksLetter("GRA Executive Suite", 'k')
      && LacksLetter("GRA", 't')
      && LacksLetter("Premium", 't')
      && LacksLetter("Secure", 't')
  {
  }

  lemma GraExecutiveSuiteMissesTakur()
    ensures !SearchHits("GRA Executive Suite", "GRA", ["Premium", "Secure"], "Takur")
  {
    TakurLetters();
    GraExecutiveSuiteLacksTakur();
    SearchMisses("GRA Executive Suite", "GRA", ["Premium", "Secure"], "Takur", 'k', 't', ['t', 't']);
  }

  /** The searches "Poly", "FUD", "Corpers", "Takur" miss the GraExecutiveSuite listing. */
  lemma GraExecutiveSuiteMisses()
    ensures !MatchesSearch(GraExecutiveSuite(), "Poly")
    ensures !MatchesSearch(GraExecutiveSuite(), "FUD")
    ensures !MatchesSearch(GraExecutiveSuite(), "Corpers")
    ensures !MatchesSearch(GraExecutiveSuite(), "Takur")
  {
    GraExecutiveSuiteMissesPoly();
    GraExecutiveSuiteMissesFUD();
    GraExecutiveSuiteMissesCorpers();
    GraExecutiveSuiteMissesTakur();
  }

  lemma GidaDubuVillaLacksPoly()
    ensures LacksLetter("Gida Dubu Villa", 'p')
      && LacksLetter("Gida Dubu Estate", 'p')
      && LacksLetter("Quiet", 'p')
      && LacksLetter("Spacious", 'l')
  {
  }

  lemma GidaDubuVillaMissesPoly()
    ensures !SearchHits("Gida Dubu Villa", "Gida Dubu Estate", ["Quiet", "Spacious"], "Poly")
  {
    PolyLetters();
    GidaDubuVillaLacksPoly();
    SearchMisses("Gida Dubu Villa", "Gida Dubu Estate", ["Quiet", "Spacious"], "Poly", 'p', 'p', ['p', 'l']);
  }

  lemma GidaDubuVillaLacksFUD()
    ensures LacksLetter("Gida Dubu Villa", 'f')
      && LacksLetter("Gida Dubu Estate", 'f')
      && LacksLetter("Quiet", 'f')
      && LacksLetter("Spacious", 'f')
  {
  }

  lemma GidaDubuVillaMissesFUD()
    ensures !SearchHits("Gida Dubu Villa", "Gida Dubu Estate", ["Quiet", "Spacious"], "FUD")
  {
    FUDLetters();
    GidaDubuVillaLacksFUD();
    SearchMisses("Gida Dubu Villa", "Gida Dubu Estate", ["Quiet", "Spacious"], "FUD", 'f', 'f', ['f', 'f']);
  }

  lemma GidaDubuVillaLacksCorpers()
    ensures LacksLetter("Gida Dubu Villa", 'c')
      && LacksLetter("Gida Dubu Estate", 'c')
      && LacksLetter("Quiet", 'c')
      && LacksLetter("Spacious", 'r')
  {
  }

  lemma GidaDubuVillaMissesCorpers()
    ensures !SearchHits("Gida Dubu Villa", "Gida Dubu Estate", ["Quiet", "Spacious"], "Corpers")
  {
    CorpersLetters();
    GidaDubuVillaLacksCorpers();
    SearchMisses("Gida Dubu Villa", "Gida Dubu Estate", ["Quiet", "Spacious"], "Corpers", 'c', 'c', ['c', 'r']);
  }

  lemma GidaDubuVillaLacksTakur()
    ensures LacksLetter("Gida Dubu Villa", 't')
      && LacksLetter("Gida Dubu Estate", 'k')
      && LacksLetter("Quiet", 'a')
      && LacksLetter("Spacious", 't')
  {
  }

  lemma GidaDubuVillaMissesTakur()
    ensures !SearchHits("Gida Dubu Villa", "Gida Dubu Estate", ["Quiet", "Spacious"], "Takur")
  {
    TakurLetters();
    GidaDubuVillaLacksTakur();
    SearchMisses("Gida Dubu Villa", "Gida Dubu Estate", ["Quiet", "Spacious"], "Takur", 't', 'k', ['a', 't']);
  }

  /** The searches "Poly", "FUD", "Corpers", "Takur" miss the GidaDubuVilla listing. */
  lemma GidaDubuVillaMisses()
    ensures !MatchesSearch(GidaDubuVilla(), "Poly")
    ensures !MatchesSearch(GidaDubuVilla(), "FUD")
    ensures !MatchesSearch(GidaDubuVilla(), "Corpers")
    ensures !MatchesSearch(GidaDubuVilla(), "Takur")
  {
    GidaDubuVillaMissesPoly();
    GidaDubuVillaMissesFUD();
    GidaDubuVillaMissesCorpers();
    GidaDubuVillaMissesTakur();
  }

  lemma YadiStudentCompoundLacksPoly()
    ensures LacksLetter("Yadi Student Compound", 'l')
      && LacksLetter("Yadi", 'p')
      && LacksLetter("Social", 'p')
      && LacksLetter("Cheap", 'o')
  {
  }

  lemma YadiStudentCompoundMissesPoly()
    ensures !SearchHits("Yadi Student Compound", "Yadi", ["Social", "Cheap"], "Poly")
  {
    PolyLetters();
    YadiStudentCompoundLacksPoly();
    SearchMisses("Yadi Student Compound", "Yadi", ["Social", "Cheap"], "Poly", 'l', 'p', ['p', 'o']);
  }

  lemma YadiStudentCompoundLacksFUD()
    ensures LacksLetter("Yadi Student Compound", 'f')
      && LacksLetter("Yadi", 'f')
      && LacksLetter("Social", 'f')
      && LacksLetter("Cheap", 'f')
  {
  }

  lemma YadiStudentCompoundMissesFUD()
    ensures !SearchHits("Yadi Student Compound", "Yadi", ["Social", "Cheap"], "FUD")
  {
    FUDLetters();
    YadiStudentCompoundLacksFUD();
    SearchMisses("Yadi Student Compound", "Yadi", ["Social", "Cheap"], "FUD", 'f', 'f', ['f', 'f']);
  }

  lemma YadiStudentCompoundLacksCorpers()
    ensures LacksLetter("Yadi Student Compound", 'r')
      && LacksLetter("Yadi", 'c')
      && LacksLetter("Social", 'r')
      && LacksLetter("Cheap", 'o')
  {
  }

  lemma YadiStudentCompoundMissesCorpers()
    ensures !SearchHits("Yadi Student Compound", "Yadi", ["Social", "Cheap"], "Corpers")
  {
    CorpersLetters();
    YadiStudentCompoundLacksCorpers();
    SearchMisses("Yadi Student Compound", "Yadi", ["Social", "Cheap"], "Corpers", 'r', 'c', ['r', 'o']);
  }

  lemma YadiStudentCompoundLacksTakur()
    ensures LacksLetter("Yadi Student Compound", 'k')
      && LacksLetter("Yadi", 't')
      && LacksLetter("Social", 't')
      && LacksLetter("Cheap", 't')
  {
  }

  lemma YadiStudentCompoundMissesTakur()
    ensures !SearchHits("Yadi Student Compound", "Yadi", ["Social", "Cheap"], "Takur")
  {
    TakurLetters();
    YadiStudentCompoundLacksTakur();
    SearchMisses("Yadi Student Compound", "Yadi", ["Social", "Cheap"], "Takur", 'k', 't', ['t', 't']);
  }

  /** The searches "Poly", "FUD", "Corpers", "Takur" miss the YadiStudentCompound listing. */
  lemma YadiStudentCompoundMisses()
    ensures !MatchesSearch(YadiStudentCompound(), "Poly")
    ensures !MatchesSearch(YadiStudentCompound(), "FUD")
    ensures !MatchesSearch(YadiStudentCompound(), "Corpers")
    ensures !MatchesSearch(YadiStudentCompound(), "Takur")
  {
    YadiStudentCompoundMissesPoly();
    YadiStudentCompoundMissesFUD();
    YadiStudentCompoundMissesCorpers();
    YadiStudentCompoundMissesTakur();
  }


  /** The search terms of the search box examples and the nav buttons, each
      with the one catalog position it hits. */
  predicate KnownHit(q: string, k: nat) {
    (q == "Poly" && k == 2) || (q == "FUD" && k == 0) || (q == "Corpers" && k == 1) || (q == "Takur" && k == 1)
  }

  /** For each of those terms, no listing but its hit matches the search. */
  lemma SearchMissesOthers(q: string, k: nat)
    requires KnownHit(q, k)
    ensures forall j :: 0 <= j < 6 && j != k ==> !Matches(MockProperties()[j], SetSearch(InitialFilters(), q))
  {
    forall j | 0 <= j < 6 && j != k
      ensures !Matches(MockProperties()[j], SetSearch(InitialFilters(), q))
    {
      if j == 0 {
        assert MockProperties()[j] == FudScholarsLodge();
        FudScholarsLodgeMisses();
      } else if j == 1 {
        assert MockProperties()[j] == TakurAwaCorpersLodge();
        TakurAwaCorpersLodgeMisses();
      } else if j == 2 {
        assert MockProperties()[j] == PolyRoadStudio();
        PolyRoadStudioMisses();
      } else if j == 3 {
        assert MockProperties()[j] == GraExecutiveSuite();
        GraExecutiveSuiteMisses();
      } else if j == 4 {
        assert MockProperties()[j] == GidaDubuVilla();
        GidaDubuVillaMisses();
      } else if j == 5 {
        assert MockProperties()[j] == YadiStudentCompound();
        YadiStudentCompoundMisses();
      }
    }
  }

  /** Searching "Poly" finds only the Poly Road studio. */
  lemma SearchPoly()
    ensures Filter(MockProperties(), SetSearch(InitialFilters(), "Poly")) == [PolyRoadStudio()]
  {
    var f := SetSearch(InitialFilters(), "Poly");
    assert ToLower(f.search) == "poly";
    assert StartsWith(ToLower(PolyRoadStudio().title), ToLower("Poly"));
    SearchMissesOthers("Poly", 2);
    FilterSingle(MockProperties(), f, 2);
  }

  /** The "FUD Lodges" button finds only the FUD Scholars lodge: the Yadi
      compound mentions FUD only in its proximity note, which search does not
      read. */
  lemma SearchFud()
    ensures Filter(MockProperties(), SetSearch(InitialFilters(), "FUD")) == [FudScholarsLodge()]
  {
    var f := SetSearch(InitialFilters(), "FUD");
    assert ToLower(f.search) == "fud";
    assert StartsWith(ToLower(FudScholarsLodge().title), ToLower("FUD"));
    SearchMissesOthers("FUD", 0);
    FilterSingle(MockProperties(), f, 0);
  }

  /** The "Corpers Lodge" button finds only the Takur Awa lodge. */
  lemma SearchCorpers()
    ensures Filter(MockProperties(), SetSearch(InitialFilters(), "Corpers")) == [TakurAwaCorpersLodge()]
  {
    var f := SetSearch(InitialFilters(), "Corpers");
    assert ToLower(f.search) == "corpers";
    assert OccursAt(ToLower(TakurAwaCorpersLodge().title), ToLower("Corpers"), 10);
    ContainsIffOccurs(ToLower(TakurAwaCorpersLodge().title), ToLower("Corpers"));
    SearchMissesOthers("Corpers", 1);
    FilterSingle(MockProperties(), f, 1);
  }

  /** The "Takur Listings" button finds only the Takur Awa lodge. */
  lemma SearchTakur()
    ensures Filter(MockProperties(), SetSearch(InitialFilters(), "Takur")) == [TakurAwaCorpersLodge()]
  {
    var f := SetSearch(InitialFilters(), "Takur");
    assert ToLower(f.search) == "takur";
    assert StartsWith(ToLower(TakurAwaCorpersLodge().title), ToLower("Takur"));
    SearchMissesOthers("Takur", 1);
    FilterSingle(MockProperties(), f, 1);
  }
}
