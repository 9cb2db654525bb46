// The six table transformers of utils/module_functions.py, as the batch of
// rows each one appends to its destination table. A raw frame is a sequence
// of records whose nullable cells are Options; every pandas step (rename,
// projection, dropna, drop_duplicates, merge, column assignment) is a
// function over sequences.

module Transformers {
  import opened Frames
  import opened Keys

  // ----- raw frames, as read from the table files -----

  datatype CompetitionRecord = CompetitionRecord(
    id: Option<string>, name: Option<string>, countryId: Option<string>, cityName: Option<string>,
    day: Option<int>, month: Option<int>, year: Option<int>)

  datatype EventRecord = EventRecord(id: Option<string>, name: Option<string>)

  datatype CountryRecord = CountryRecord(id: Option<string>, name: Option<string>, continentId: Option<string>)

  datatype ContinentRecord = ContinentRecord(id: Option<string>, name: Option<string>)

  datatype ResultRecord = ResultRecord(competitionId: Option<string>, eventId: Option<string>, personCountryId: Option<string>)

  // ----- destination rows, columns in table order -----

  /** A row of Competition or Puzzle: (Id, Name). */
  datatype IdNameRow = IdNameRow(id: string, name: string)

  /** A row of Time: (Id, Date_day, Date_month, Date_year). */
  datatype TimeRow = TimeRow(id: string, dateDay: int, dateMonth: int, dateYear: int)

  /** A row of Localization: (Id, City, Country, Continent). */
  datatype LocalizationRow = LocalizationRow(id: string, city: string, country: string, continent: string)

  /** A row of Nationality: (Id, Name, Continent); Name may be null. */
  datatype NationalityRow = NationalityRow(id: string, name: Option<string>, continent: string)

  /** The foreign-key columns of Attendance:
      (Competition_id, Localization_id, Puzzle_id, Nationality_id, Time_id). */
  datatype FactKey = FactKey(competitionId: string, localizationId: string, puzzleId: string,
                             nationalityId: string, timeId: string)

  /** A row of Attendance: (Number_of_participants, the five foreign keys). */
  datatype AttendanceRow = AttendanceRow(numberOfParticipants: nat, key: FactKey)

  // ----- Competition and Puzzle -----

  /** dropna() runs on every column of the frame, not only on Id and Name. */
  predicate CompetitionComplete(c: CompetitionRecord)
  {
    c.id.Some? && c.name.Some? && c.countryId.Some? && c.cityName.Some?
    && c.day.Some? && c.month.Some? && c.year.Some?
  }

  function CompetitionIdName(c: CompetitionRecord): Option<IdNameRow>
  {
    if CompetitionComplete(c) then Some(IdNameRow(c.id.value, c.name.value)) else None
  }

  /** competitions_data_preparation: rename id->Id and name->Name, dropna,
      astype(str), keep only Id and Name. */
  function CompetitionBatch(df: seq<CompetitionRecord>): (r: seq<IdNameRow>)
    ensures |r| <= |df|
  {
    FilterMap(df, CompetitionIdName)
  }

  /** The Competition batch holds exactly the (Id, Name) of the rows without
      a null cell. */
  lemma CompetitionBatchRows(df: seq<CompetitionRecord>, o: IdNameRow)
    ensures o in CompetitionBatch(df) <==>
      exists c :: c in df && CompetitionComplete(c) && o == IdNameRow(c.id.value, c.name.value)
  {
    var r := CompetitionBatch(df);
    if o in r {
      var j :| 0 <= j < |r| && r[j] == o;
      FilterMapSound(df, CompetitionIdName, j);
      var i :| 0 <= i < |df| && CompetitionIdName(df[i]) == Some(r[j]);
      assert df[i] in df;
    }
    if exists c :: c in df && CompetitionComplete(c) && o == IdNameRow(c.id.value, c.name.value) {
      var c :| c in df && CompetitionComplete(c) && o == IdNameRow(c.id.value, c.name.value);
      var i :| 0 <= i < |df| && df[i] == c;
      FilterMapComplete(df, CompetitionIdName, i);
    }
  }

  /** Row order is kept and rows are independent: the batch of two deltas read
      one after the other is the batch of both appended. */
  lemma CompetitionBatchAppend(first: seq<CompetitionRecord>, second: seq<CompetitionRecord>)
    ensures CompetitionBatch(first + second) == CompetitionBatch(first) + CompetitionBatch(second)
  {
    FilterMapAppend(first, second, CompetitionIdName);
  }

  predicate EventComplete(e: EventRecord)
  {
    e.id.Some? && e.name.Some?
  }

  function EventIdName(e: EventRecord): Option<IdNameRow>
  {
    if EventComplete(e) then Some(IdNameRow(e.id.value, e.name.value)) else None
  }

  /** puzzle_data_preparation: the Competition rules applied to the Events frame. */
  function PuzzleBatch(df: seq<EventRecord>): (r: seq<IdNameRow>)
    ensures |r| <= |df|
  {
    FilterMap(df, EventIdName)
  }

  /** The Puzzle batch holds exactly the (Id, Name) of the events without a null cell. */
  lemma PuzzleBatchRows(df: seq<EventRecord>, o: IdNameRow)
    ensures o in PuzzleBatch(df) <==>
      exists e :: e in df && EventComplete(e) && o == IdNameRow(e.id.value, e.name.value)
  {
    var r := PuzzleBatch(df);
    if o in r {
      var j :| 0 <= j < |r| && r[j] == o;
      FilterMapSound(df, EventIdName, j);
      var i :| 0 <= i < |df| && EventIdName(df[i]) == Some(r[j]);
      assert df[i] in df;
    }
    if exists e :: e in df && EventComplete(e) && o == IdNameRow(e.id.value, e.name.value) {
      var e :| e in df && EventComplete(e) && o == IdNameRow(e.id.value, e.name.value);
      var i :| 0 <= i < |df| && df[i] == e;
      FilterMapComplete(df, EventIdName, i);
    }
  }

  lemma PuzzleBatchAppend(first: seq<EventRecord>, second: seq<EventRecord>)
    ensures PuzzleBatch(first + second) == PuzzleBatch(first) + PuzzleBatch(second)
  {
    FilterMapAppend(first, second, EventIdName);
  }

  // ----- Time -----

  /** The (day, month, year) columns of a competition, when none is null. */
  function DateOf(c: CompetitionRecord): Option<(int, int, int)>
  {
    if c.day.Some? && c.month.Some? && c.year.Some?
    then Some((c.day.value, c.month.value, c.year.value)) else None
  }

  function TimeRowOf(date: (int, int, int)): TimeRow
  {
    TimeRow(TimeId(date.0, date.1, date.2), date.0, date.1, date.2)
  }

  /** time_data_preparation: keep day/month/year, rename, dropna,
      drop_duplicates, derive Id, order the columns (Id, Date_day,
      Date_month, Date_year). */
  function TimeBatch(df: seq<CompetitionRecord>): (r: seq<TimeRow>)
    ensures |r| <= |df|
  {
    MapSeq(Dedup(FilterMap(df, DateOf)), TimeRowOf)
  }

  /** Every Time row is the date of some competition, under the Id of that date. */
  lemma TimeBatchSound(df: seq<CompetitionRecord>, o: TimeRow)
    requires o in TimeBatch(df)
    ensures o.id == TimeId(o.dateDay, o.dateMonth, o.dateYear)
    ensures exists c :: c in df && DateOf(c) == Some((o.dateDay, o.dateMonth, o.dateYear))
  {
    var dates := FilterMap(df, DateOf);
    var d := Dedup(dates);
    var r := MapSeq(d, TimeRowOf);
    var j :| 0 <= j < |r| && r[j] == o;
    var date := d[j];
    assert o == TimeRowOf(date);
    DedupProperties(dates);
    assert date in dates;
    var k :| 0 <= k < |dates| && dates[k] == date;
    FilterMapSound(df, DateOf, k);
    var i :| 0 <= i < |df| && DateOf(df[i]) == Some(date);
    assert df[i] in df;
  }

  /** Every date of a competition has its Time row. */
  lemma TimeBatchComplete(df: seq<CompetitionRecord>, c: CompetitionRecord)
    requires c in df && DateOf(c).Some?
    ensures TimeRowOf(DateOf(c).value) in TimeBatch(df)
  {
    var dates := FilterMap(df, DateOf);
    var d := Dedup(dates);
    var i :| 0 <= i < |df| && df[i] == c;
    FilterMapComplete(df, DateOf, i);
    DedupProperties(dates);
    var j :| 0 <= j < |d| && d[j] == DateOf(c).value;
    assert TimeBatch(df)[j] == TimeRowOf(d[j]);
  }

  /** One row per distinct date, so no two rows of a batch share an Id. */
  lemma TimeBatchIdsDistinct(df: seq<CompetitionRecord>)
    ensures forall a, b :: 0 <= a < b < |TimeBatch(df)| ==> TimeBatch(df)[a].id != TimeBatch(df)[b].id
  {
    var dates := FilterMap(df, DateOf);
    var d := Dedup(dates);
    var r := MapSeq(d, TimeRowOf);
    DedupProperties(dates);
    forall a, b | 0 <= a < b < |r| ensures r[a].id != r[b].id {
      assert d[a] != d[b];
      TimeIdInjective(d[a].0, d[a].1, d[a].2, d[b].0, d[b].1, d[b].2);
    }
  }

  // ----- Localization -----

  function CompetitionCountryKey(c: CompetitionRecord): Option<string> { c.countryId }

  function CountryIdKey(k: CountryRecord): Option<string> { k.id }

  function ContinentIdKey(t: ContinentRecord): Option<string> { t.id }

  /** The continentId column after the first merge: null when no country matched. */
  function JoinedContinentKey(p: (CompetitionRecord, Option<CountryRecord>)): Option<string>
  {
    if p.1.Some? then p.1.value.continentId else None
  }

  /** (City, Country, Continent) of a joined row, when none is null. */
  function PlaceOf(q: ((CompetitionRecord, Option<CountryRecord>), Option<ContinentRecord>)): Option<(string, string, string)>
  {
    var c, k, t := q.0.0, q.0.1, q.1;
    if c.cityName.Some? && k.Some? && k.value.name.Some? && t.Some? && t.value.name.Some?
    then Some((c.cityName.value, k.value.name.value, t.value.name.value)) else None
  }

  /** Competitions left-joined to Countries on countryId, then to Continents
      on continentId. */
  function LocalizationJoin(competitions: seq<CompetitionRecord>, countries: seq<CountryRecord>,
                            continents: seq<ContinentRecord>): seq<((CompetitionRecord, Option<CountryRecord>), Option<ContinentRecord>)>
  {
    LeftJoin(LeftJoin(competitions, countries, CompetitionCountryKey, CountryIdKey),
             continents, JoinedContinentKey, ContinentIdKey)
  }

  function LocalizationRowOf(db: UnicodeDb): ((string, string, string)) -> LocalizationRow
  {
    (place: (string, string, string)) => LocalizationRow(PlaceKey(db, place.0, place.1), place.0, place.1, place.2)
  }

  function LocalizationRowId(o: LocalizationRow): string { o.id }

  /** The distinct (City, Country, Continent) triples left after the join,
      the projection, dropna and drop_duplicates. */
  function LocalizationPlaces(competitions: seq<CompetitionRecord>, countries: seq<CountryRecord>,
                              continents: seq<ContinentRecord>): seq<(string, string, string)>
  {
    Dedup(FilterMap(LocalizationJoin(competitions, countries, continents), PlaceOf))
  }

  /** localization_data_preparation: join, keep City/Country/Continent,
      dropna, drop_duplicates, derive Id from the lower-cased city and
      country name, drop_duplicates(subset='Id') keeping the first. */
  function LocalizationBatch(db: UnicodeDb, competitions: seq<CompetitionRecord>,
                             countries: seq<CountryRecord>, continents: seq<ContinentRecord>): (r: seq<LocalizationRow>)
    ensures |r| <= |LocalizationPlaces(competitions, countries, continents)|
  {
    DedupBy(MapSeq(LocalizationPlaces(competitions, countries, continents), LocalizationRowOf(db)), LocalizationRowId)
  }

  /** localization_data_preparation raises when no place survives dropna:
      apply(axis=1) on an empty frame hands back the whole four-column
      frame, which cannot be assigned to the single column Id. */
  predicate LocalizationRaises(competitions: seq<CompetitionRecord>, countries: seq<CountryRecord>,
                               continents: seq<ContinentRecord>)
  {
    LocalizationPlaces(competitions, countries, continents) == []
  }

  /** The call raises exactly when it would have nothing to insert. */
  lemma LocalizationRaisesIffEmpty(db: UnicodeDb, competitions: seq<CompetitionRecord>,
                                   countries: seq<CountryRecord>, continents: seq<ContinentRecord>)
    ensures LocalizationRaises(competitions, countries, continents)
            <==> LocalizationBatch(db, competitions, countries, continents) == []
  {
    var places := LocalizationPlaces(competitions, countries, continents);
    var rows := MapSeq(places, LocalizationRowOf(db));
    if places != [] {
      DedupByCovers(rows, LocalizationRowId, 0);
    }
  }

  /** Of several places whose Ids collide, the row kept is the first one's. */
  lemma LocalizationKeepsFirst(db: UnicodeDb, competitions: seq<CompetitionRecord>,
                               countries: seq<CountryRecord>, continents: seq<ContinentRecord>, j: int)
    requires 0 <= j < |LocalizationBatch(db, competitions, countries, continents)|
    ensures exists i :: (0 <= i < |LocalizationPlaces(competitions, countries, continents)|
      && var places := LocalizationPlaces(competitions, countries, continents);
         && LocalizationBatch(db, competitions, countries, continents)[j] == LocalizationRowOf(db)(places[i])
         && forall k :: 0 <= k < i ==> PlaceKey(db, places[k].0, places[k].1) != PlaceKey(db, places[i].0, places[i].1))
  {
    var places := LocalizationPlaces(competitions, countries, continents);
    var rows := MapSeq(places, LocalizationRowOf(db));
    DedupByKeepsFirst(rows, LocalizationRowId, j);
    var i :| 0 <= i < |rows| && DedupBy(rows, LocalizationRowId)[j] == rows[i] && !SeenBefore(rows, LocalizationRowId, i);
    forall k | 0 <= k < i ensures PlaceKey(db, places[k].0, places[k].1) != PlaceKey(db, places[i].0, places[i].1) {
      assert LocalizationRowId(rows[k]) != LocalizationRowId(rows[i]);
    }
  }

  /** The source rows a place is drawn from: a competition in that city whose
      countryId matches a country of that name, whose continentId matches a
      continent of that name (missing keys match each other, as in pandas). */
  predicate Located(competitions: seq<CompetitionRecord>, countries: seq<CountryRecord>,
                    continents: seq<ContinentRecord>, city: string, country: string, continent: string)
  {
    exists c, k, t :: c in competitions && k in countries && t in continents
      && k.id == c.countryId && t.id == k.continentId
      && c.cityName == Some(city) && k.name == Some(country) && t.name == Some(continent)
  }

  /** No two rows of a Localization batch share an Id. */
  lemma LocalizationIdsDistinct(db: UnicodeDb, competitions: seq<CompetitionRecord>,
                                countries: seq<CountryRecord>, continents: seq<ContinentRecord>)
    ensures var r := LocalizationBatch(db, competitions, countries, continents);
      forall a, b :: 0 <= a < b < |r| ==> r[a].id != r[b].id
  {
    var places := Dedup(FilterMap(LocalizationJoin(competitions, countries, continents), PlaceOf));
    DedupByDistinct(MapSeq(places, LocalizationRowOf(db)), LocalizationRowId);
  }

  /** A place read off a joined row is located. */
  lemma PlaceOfLocated(competitions: seq<CompetitionRecord>, countries: seq<CountryRecord>,
                       continents: seq<ContinentRecord>, q: ((CompetitionRecord, Option<CountryRecord>), Option<ContinentRecord>))
    requires q in LocalizationJoin(competitions, countries, continents) && PlaceOf(q).Some?
    ensures Located(competitions, countries, continents, PlaceOf(q).value.0, PlaceOf(q).value.1, PlaceOf(q).value.2)
  {
    var j1 := LeftJoin(competitions, countries, CompetitionCountryKey, CountryIdKey);
    LeftJoinSound(j1, continents, JoinedContinentKey, ContinentIdKey, q);
    LeftJoinSound(competitions, countries, CompetitionCountryKey, CountryIdKey, q.0);
    var c, k, t := q.0.0, q.0.1.value, q.1.value;
    assert c in competitions && k in countries && t in continents;
    assert k.id == c.countryId && t.id == k.continentId;
  }

  /** Every Localization row names a located place, under the key of its city
      and country. */
  lemma LocalizationSound(db: UnicodeDb, competitions: seq<CompetitionRecord>,
                          countries: seq<CountryRecord>, continents: seq<ContinentRecord>, o: LocalizationRow)
    requires o in LocalizationBatch(db, competitions, countries, continents)
    ensures o.id == PlaceKey(db, o.city, o.country)
    ensures Located(competitions, countries, continents, o.city, o.country, o.continent)
  {
    var j2 := LocalizationJoin(competitions, countries, continents);
    var found := FilterMap(j2, PlaceOf);
    var places := Dedup(found);
    var rows := MapSeq(places, LocalizationRowOf(db));
    DedupBySubset(rows, LocalizationRowId, o);
    var i :| 0 <= i < |rows| && rows[i] == o;
    var place := places[i];
    assert o == LocalizationRow(PlaceKey(db, place.0, place.1), place.0, place.1, place.2);
    assert place in found by { DedupProperties(found); }
    var m :| 0 <= m < |found| && found[m] == place;
    FilterMapSound(j2, PlaceOf, m);
    var n :| 0 <= n < |j2| && PlaceOf(j2[n]) == Some(found[m]);
    PlaceOfLocated(competitions, countries, continents, j2[n]);
  }

  /** Every located place has a Localization row with its Id. */
  lemma LocalizationComplete(db: UnicodeDb, competitions: seq<CompetitionRecord>,
                             countries: seq<CountryRecord>, continents: seq<ContinentRecord>,
                             city: string, country: string, continent: string)
    requires Located(competitions, countries, continents, city, country, continent)
    ensures exists o :: o in LocalizationBatch(db, competitions, countries, continents)
                        && o.id == PlaceKey(db, city, country)
  {
    var c, k, t :| c in competitions && k in countries && t in continents
      && k.id == c.countryId && t.id == k.continentId
      && c.cityName == Some(city) && k.name == Some(country) && t.name == Some(continent);
    var j1 := LeftJoin(competitions, countries, CompetitionCountryKey, CountryIdKey);
    var j2 := LocalizationJoin(competitions, countries, continents);
    LeftJoinComplete(competitions, countries, CompetitionCountryKey, CountryIdKey, c);
    assert (c, Some(k)) in j1;
    LeftJoinComplete(j1, continents, JoinedContinentKey, ContinentIdKey, (c, Some(k)));
    var q := ((c, Some(k)), Some(t));
    assert q in j2;
    var found := FilterMap(j2, PlaceOf);
    var n :| 0 <= n < |j2| && j2[n] == q;
    assert PlaceOf(q) == Some((city, country, continent));
    FilterMapComplete(j2, PlaceOf, n);
    var places := Dedup(found);
    DedupProperties(found);
    var i :| 0 <= i < |places| && places[i] == (city, country, continent);
    var rows := MapSeq(places, LocalizationRowOf(db));
    assert LocalizationRowId(rows[i]) == PlaceKey(db, city, country);
    DedupByCovers(rows, LocalizationRowId, i);
    var r := DedupBy(rows, LocalizationRowId);
    var jj :| 0 <= jj < |r| && LocalizationRowId(r[jj]) == LocalizationRowId(rows[i]);
    assert r[jj] in r;
  }

  /** Rows whose city and country names lower-case alike get the same Id,
      since the Id reads them only lower-cased; drop_duplicates(subset='Id')
      then keeps one of them (LocalizationKeepsFirst says which). */
  lemma LocalizationIdIgnoresCase(db: UnicodeDb, a: LocalizationRow, b: LocalizationRow)
    requires SameUpToCase(db, a.city, b.city) && SameUpToCase(db, a.country, b.country)
    requires a.id == PlaceKey(db, a.city, a.country) && b.id == PlaceKey(db, b.city, b.country)
    ensures a.id == b.id
  {
    PlaceKeyIgnoresCase(db, a.city, a.country, b.city, b.country);
  }

  // ----- Nationality -----

  function CountryContinentKey(k: CountryRecord): Option<string> { k.continentId }

  /** The Continent column rule: "Multiple" for "Multiple Continents",
      otherwise the continent name with "n" appended. */
  function ContinentLabel(continent: string): string
  {
    if continent != "Multiple Continents" then continent + "n" else "Multiple"
  }

  /** Different continents keep different labels. */
  lemma ContinentLabelInjective(a: string, b: string)
    requires ContinentLabel(a) == ContinentLabel(b)
    ensures a == b
  {
    var la, lb := ContinentLabel(a), ContinentLabel(b);
    assert la[|la| - 1] == if a != "Multiple Continents" then 'n' else 'e';
    assert lb[|lb| - 1] == if b != "Multiple Continents" then 'n' else 'e';
    if a != "Multiple Continents" && b != "Multiple Continents" {
      assert a == la[..|la| - 1] && b == lb[..|lb| - 1];
    }
  }

  lemma ContinentLabelExamples()
    ensures ContinentLabel("Asia") == "Asian"
    ensures ContinentLabel("Europe") == "Europen"
    ensures ContinentLabel("Multiple Continents") == "Multiple"
  {
  }

  /** dict.get: the nationality label of a country name, or null. */
  function Lookup(nationalities: map<string, string>, countryName: string): Option<string>
  {
    if countryName in nationalities then Some(nationalities[countryName]) else None
  }

  function NationalityOf(nationalities: map<string, string>): ((CountryRecord, Option<ContinentRecord>)) -> Option<NationalityRow>
  {
    (p: (CountryRecord, Option<ContinentRecord>)) =>
      if p.0.name.Some? && p.1.Some? && p.1.value.name.Some?
      then Some(NationalityRow(p.0.name.value, Lookup(nationalities, p.0.name.value), ContinentLabel(p.1.value.name.value)))
      else None
  }

  /** nationality_data_preparation: Countries left-joined to Continents on
      continentId, keep Name/Continent, dropna, relabel Continent, Id := the
      country name, Name := its nationality label (possibly null). */
  function NationalityBatch(countries: seq<CountryRecord>, continents: seq<ContinentRecord>,
                            nationalities: map<string, string>): seq<NationalityRow>
  {
    FilterMap(LeftJoin(countries, continents, CountryContinentKey, ContinentIdKey), NationalityOf(nationalities))
  }

  /** Every Nationality row is a named country with a matched, named continent. */
  lemma NationalitySound(countries: seq<CountryRecord>, continents: seq<ContinentRecord>,
                         nationalities: map<string, string>, o: NationalityRow)
    requires o in NationalityBatch(countries, continents, nationalities)
    ensures o.name == Lookup(nationalities, o.id)
    ensures exists k, t :: (k in countries && t in continents && t.id == k.continentId
      && k.name == Some(o.id) && t.name.Some? && o.continent == ContinentLabel(t.name.value))
  {
    var j := LeftJoin(countries, continents, CountryContinentKey, ContinentIdKey);
    var r := NationalityBatch(countries, continents, nationalities);
    var m :| 0 <= m < |r| && r[m] == o;
    FilterMapSound(j, NationalityOf(nationalities), m);
    var n :| 0 <= n < |j| && NationalityOf(nationalities)(j[n]) == Some(r[m]);
    LeftJoinSound(countries, continents, CountryContinentKey, ContinentIdKey, j[n]);
    var k, t := j[n].0, j[n].1.value;
    assert k in countries && t in continents && t.id == k.continentId;
  }

  /** Every named country with a matched, named continent has its row, even
      when the dictionary has no label for it. */
  lemma NationalityComplete(countries: seq<CountryRecord>, continents: seq<ContinentRecord>,
                            nationalities: map<string, string>, k: CountryRecord, t: ContinentRecord)
    requires k in countries && t in continents && t.id == k.continentId
    requires k.name.Some? && t.name.Some?
    ensures NationalityRow(k.name.value, Lookup(nationalities, k.name.value), ContinentLabel(t.name.value))
            in NationalityBatch(countries, continents, nationalities)
  {
    var j := LeftJoin(countries, continents, CountryContinentKey, ContinentIdKey);
    LeftJoinComplete(countries, continents, CountryContinentKey, ContinentIdKey, k);
    assert (k, Some(t)) in j;
    var n :| 0 <= n < |j| && j[n] == (k, Some(t));
    FilterMapComplete(j, NationalityOf(nationalities), n);
  }

  /** Row order is kept and countries are independent: the batch of two
      country deltas is the batch of both appended. */
  lemma NationalityBatchAppend(first: seq<CountryRecord>, second: seq<CountryRecord>,
                               continents: seq<ContinentRecord>, nationalities: map<string, string>)
    ensures NationalityBatch(first + second, continents, nationalities)
         == NationalityBatch(first, continents, nationalities) + NationalityBatch(second, continents, nationalities)
  {
    LeftJoinAppend(first, second, continents, CountryContinentKey, ContinentIdKey);
    FilterMapAppend(LeftJoin(first, continents, CountryContinentKey, ContinentIdKey),
                    LeftJoin(second, continents, CountryContinentKey, ContinentIdKey),
                    NationalityOf(nationalities));
  }

  // ----- Attendance -----

  function ResultCompetitionKey(r: ResultRecord): Option<string> { r.competitionId }

  function CompetitionIdKey(c: CompetitionRecord): Option<string> { c.id }

  /** Every row of the merged frame matched a competition that has a city
      and a countryId; a row that did not carries NaN there, and .lower()
      raises on it. */
  predicate AttendanceRowsLocated(results: seq<ResultRecord>, competitions: seq<CompetitionRecord>)
  {
    forall p :: p in LeftJoin(results, competitions, ResultCompetitionKey, CompetitionIdKey) ==>
      p.1.Some? && p.1.value.cityName.Some? && p.1.value.countryId.Some?
  }

  /** No competition lacks day, month or year. Otherwise pandas reads a date
      column with a gap as floats, so every Time_id built from it changes
      ("1.0_2_2020"), and an undated competition's Time_id holds "nan",
      which dropna keeps. */
  predicate CompetitionsDated(competitions: seq<CompetitionRecord>)
  {
    forall c :: c in competitions ==> DateOf(c).Some?
  }

  /** The conditions under which attendance_data_preparation neither
      raises on a located row nor formats a key as a float. */
  predicate AttendanceDefined(results: seq<ResultRecord>, competitions: seq<CompetitionRecord>)
  {
    CompetitionsDated(competitions) && AttendanceRowsLocated(results, competitions)
  }

  /** attendance_data_preparation raises at the Localization_id apply: on a
      row without city or countryId, and on an empty merged frame (there
      apply(axis=1) hands back the whole frame, which cannot be assigned to
      one column). The merged frame is empty exactly when Results is. */
  predicate AttendanceRaises(results: seq<ResultRecord>, competitions: seq<CompetitionRecord>)
  {
    results == [] || !AttendanceRowsLocated(results, competitions)
  }

  /** The five foreign keys of a joined row, when none is null: Time_id from
      the competition's date and Localization_id from its city and countryId. */
  function FactKeyOf(db: UnicodeDb): ((ResultRecord, Option<CompetitionRecord>)) -> Option<FactKey>
  {
    (p: (ResultRecord, Option<CompetitionRecord>)) =>
      var r := p.0;
      if p.1.Some? && r.competitionId.Some? && r.eventId.Some? && r.personCountryId.Some?
         && p.1.value.cityName.Some? && p.1.value.countryId.Some? && DateOf(p.1.value).Some?
      then
        var c := p.1.value;
        Some(FactKey(r.competitionId.value, PlaceKey(db, c.cityName.value, c.countryId.value),
                     r.eventId.value, r.personCountryId.value, TimeId(c.day.value, c.month.value, c.year.value)))
      else None
  }

  /** The frame that is grouped: Results left-joined to Competitions on
      competitionId = id, renamed, keys derived, projected and null-dropped. */
  function AttendanceKeys(db: UnicodeDb, results: seq<ResultRecord>, competitions: seq<CompetitionRecord>): seq<FactKey>
    requires CompetitionsDated(competitions)
  {
    FilterMap(LeftJoin(results, competitions, ResultCompetitionKey, CompetitionIdKey), FactKeyOf(db))
  }

  /** groupby(all columns).transform('size'): each row gets the number of rows
      sharing its key tuple. */
  function WithCount(keys: seq<FactKey>): FactKey -> AttendanceRow
  {
    k => AttendanceRow(Occurrences(keys, k), k)
  }

  /** The tail of attendance_data_preparation on the surviving key rows:
      count every row's key tuple, order the columns
      (Number_of_participants, keys...), then drop_duplicates. */
  function GroupSizes(keys: seq<FactKey>): (r: seq<AttendanceRow>)
    ensures |r| <= |keys|
  {
    Dedup(MapSeq(keys, WithCount(keys)))
  }

  /** attendance_data_preparation */
  function AttendanceBatch(db: UnicodeDb, results: seq<ResultRecord>, competitions: seq<CompetitionRecord>): seq<AttendanceRow>
    requires AttendanceDefined(results, competitions)
  {
    GroupSizes(AttendanceKeys(db, results, competitions))
  }

  /** One counted row per distinct key tuple, in first-seen order. */
  lemma GroupSizesIsCountedKeys(keys: seq<FactKey>)
    ensures GroupSizes(keys) == MapSeq(Dedup(keys), WithCount(keys))
  {
    DedupMapInjective(keys, WithCount(keys));
  }

  /** No two rows share a key tuple. */
  lemma GroupSizesKeysDistinct(keys: seq<FactKey>)
    ensures var r := GroupSizes(keys);
      forall a, b :: 0 <= a < b < |r| ==> r[a].key != r[b].key
  {
    GroupSizesIsCountedKeys(keys);
    DedupProperties(keys);
  }

  /** Each row carries the number of key rows with its tuple, at least 1. */
  lemma GroupSizesCounts(keys: seq<FactKey>, o: AttendanceRow)
    requires o in GroupSizes(keys)
    ensures o.numberOfParticipants == Occurrences(keys, o.key) >= 1
  {
    var d := Dedup(keys);
    GroupSizesIsCountedKeys(keys);
    DedupProperties(keys);
    var i :| 0 <= i < |d| && GroupSizes(keys)[i] == o;
    assert o == WithCount(keys)(d[i]);
    assert d[i] in keys;
  }

  /** Every key tuple has its row. */
  lemma GroupSizesCover(keys: seq<FactKey>, k: FactKey)
    requires k in keys
    ensures exists o :: o in GroupSizes(keys) && o.key == k
  {
    var d := Dedup(keys);
    GroupSizesIsCountedKeys(keys);
    DedupProperties(keys);
    var i :| 0 <= i < |d| && d[i] == k;
    assert GroupSizes(keys)[i] in GroupSizes(keys);
  }

  /** The total of Number_of_participants over a batch. */
  function TotalParticipants(rows: seq<AttendanceRow>): nat
  {
    if |rows| == 0 then 0
    else TotalParticipants(rows[..|rows| - 1]) + rows[|rows| - 1].numberOfParticipants
  }

  lemma {:induction false} TotalOfCounted(d: seq<FactKey>, keys: seq<FactKey>)
    ensures TotalParticipants(MapSeq(d, WithCount(keys))) == SumOccurrences(d, keys)
  {
    if |d| > 0 {
      TotalOfCounted(d[..|d| - 1], keys);
      assert MapSeq(d, WithCount(keys))[..|d| - 1] == MapSeq(d[..|d| - 1], WithCount(keys));
    }
  }

  /** The counts add up to the number of key rows. */
  lemma GroupSizesTotal(keys: seq<FactKey>)
    ensures TotalParticipants(GroupSizes(keys)) == |keys|
  {
    GroupSizesIsCountedKeys(keys);
    TotalOfCounted(Dedup(keys), keys);
    SumOccurrencesOfDistinct(keys);
  }

  /** Every key tuple comes from a result row and the competition it matched. */
  lemma AttendanceKeySound(db: UnicodeDb, results: seq<ResultRecord>, competitions: seq<CompetitionRecord>, k: FactKey)
    requires CompetitionsDated(competitions)
    requires k in AttendanceKeys(db, results, competitions)
    ensures exists r, c :: (r in results && c in competitions && c.id == r.competitionId
      && r.competitionId == Some(k.competitionId) && r.eventId == Some(k.puzzleId)
      && r.personCountryId == Some(k.nationalityId)
      && c.cityName.Some? && c.countryId.Some? && DateOf(c).Some?
      && k.localizationId == PlaceKey(db, c.cityName.value, c.countryId.value)
      && k.timeId == TimeRowOf(DateOf(c).value).id)
  {
    var j := LeftJoin(results, competitions, ResultCompetitionKey, CompetitionIdKey);
    var keys := AttendanceKeys(db, results, competitions);
    var m :| 0 <= m < |keys| && keys[m] == k;
    FilterMapSound(j, FactKeyOf(db), m);
    var n :| 0 <= n < |j| && FactKeyOf(db)(j[n]) == Some(keys[m]);
    LeftJoinSound(results, competitions, ResultCompetitionKey, CompetitionIdKey, j[n]);
    var r, c := j[n].0, j[n].1.value;
    assert r in results && c in competitions && c.id == r.competitionId;
  }

  /** Every result matched to a competition with a city and a countryId, with its own
      three keys present, contributes its fact key. */
  lemma AttendanceKeyComplete(db: UnicodeDb, results: seq<ResultRecord>, competitions: seq<CompetitionRecord>,
                              r: ResultRecord, c: CompetitionRecord)
    requires CompetitionsDated(competitions)
    requires r in results && c in competitions && c.id == r.competitionId
    requires r.competitionId.Some? && r.eventId.Some? && r.personCountryId.Some?
    requires c.cityName.Some? && c.countryId.Some?
    ensures FactKey(r.competitionId.value, PlaceKey(db, c.cityName.value, c.countryId.value), r.eventId.value,
                    r.personCountryId.value, TimeRowOf(DateOf(c).value).id)
            in AttendanceKeys(db, results, competitions)
  {
    var j := LeftJoin(results, competitions, ResultCompetitionKey, CompetitionIdKey);
    LeftJoinComplete(results, competitions, ResultCompetitionKey, CompetitionIdKey, r);
    assert (r, Some(c)) in j;
    var n :| 0 <= n < |j| && j[n] == (r, Some(c));
    FilterMapComplete(j, FactKeyOf(db), n);
  }

  /** Attendance's Time_id is built as Time's Id: every Time_id is the Id of
      a row of the Time batch of the same competitions. */
  lemma AttendanceTimeIdsInTime(db: UnicodeDb, results: seq<ResultRecord>, competitions: seq<CompetitionRecord>)
    requires CompetitionsDated(competitions)
    ensures forall k :: k in AttendanceKeys(db, results, competitions) ==>
      exists t :: t in TimeBatch(competitions) && t.id == k.timeId
  {
    forall k | k in AttendanceKeys(db, results, competitions)
      ensures exists t :: t in TimeBatch(competitions) && t.id == k.timeId
    {
      AttendanceKeySound(db, results, competitions, k);
      var r, c :| r in results && c in competitions && DateOf(c).Some? && k.timeId == TimeRowOf(DateOf(c).value).id;
      TimeBatchComplete(competitions, c);
    }
  }
}
