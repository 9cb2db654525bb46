// The destination database the six transformers load into: each table is a
// sequence of rows that to_sql(..., if_exists='append') extends. Whether the
// insert raises (a constraint violation, a locked file, ...) is decided
// outside the code, so it is the parameter writeSucceeds; the insert runs in
// one transaction, so a failed insert adds no row, and the exception is
// logged and swallowed, so every transformer still returns true. Two
// transformers can raise before the insert; they report an Outcome.

module Warehouse {
  import opened Frames
  import opened Keys
  import opened Transformers

  /** How a call ends: it returns a value, or an exception escapes it. */
  datatype Outcome = Returned(value: bool) | Raised

  class Store {
    var competition: seq<IdNameRow>
    var puzzle: seq<IdNameRow>
    var time: seq<TimeRow>
    var localization: seq<LocalizationRow>
    var nationality: seq<NationalityRow>
    var attendance: seq<AttendanceRow>

    /** A database whose six tables have been created and are empty. */
    constructor ()
      ensures competition == [] && puzzle == [] && time == []
      ensures localization == [] && nationality == [] && attendance == []
    {
      competition, puzzle, time := [], [], [];
      localization, nationality, attendance := [], [], [];
    }

    /** competitions_data_preparation */
    method CompetitionsDataPreparation(df: seq<CompetitionRecord>, writeSucceeds: bool) returns (ok: bool)
      modifies this`competition
      ensures ok
      ensures competition == old(competition) + (if writeSucceeds then CompetitionBatch(df) else [])
    {
      var result := CompetitionBatch(df);
      if writeSucceeds {
        competition := competition + result;
      }
      return true;
    }

    /** puzzle_data_preparation */
    method PuzzleDataPreparation(df: seq<EventRecord>, writeSucceeds: bool) returns (ok: bool)
      modifies this`puzzle
      ensures ok
      ensures puzzle == old(puzzle) + (if writeSucceeds then PuzzleBatch(df) else [])
    {
      var result := PuzzleBatch(df);
      if writeSucceeds {
        puzzle := puzzle + result;
      }
      return true;
    }

    /** time_data_preparation */
    method TimeDataPreparation(df: seq<CompetitionRecord>, writeSucceeds: bool) returns (ok: bool)
      modifies this`time
      ensures ok
      ensures time == old(time) + (if writeSucceeds then TimeBatch(df) else [])
    {
      var result := TimeBatch(df);
      if writeSucceeds {
        time := time + result;
      }
      return true;
    }

    /** localization_data_preparation: raises, inserting nothing, when no
        place survives dropna. */
    method LocalizationDataPreparation(db: UnicodeDb, competitionsDf: seq<CompetitionRecord>,
                                       countriesDf: seq<CountryRecord>, continentsDf: seq<ContinentRecord>,
                                       writeSucceeds: bool) returns (outcome: Outcome)
      modifies this`localization
      ensures outcome == if LocalizationRaises(competitionsDf, countriesDf, continentsDf) then Raised else Returned(true)
      ensures localization == old(localization)
        + (if outcome.Returned? && writeSucceeds then LocalizationBatch(db, competitionsDf, countriesDf, continentsDf) else [])
    {
      if LocalizationRaises(competitionsDf, countriesDf, continentsDf) {
        return Raised;
      }
      var result := LocalizationBatch(db, competitionsDf, countriesDf, continentsDf);
      if writeSucceeds {
        localization := localization + result;
      }
      return Returned(true);
    }

    /** nationality_data_preparation */
    method NationalityDataPreparation(countriesDf: seq<CountryRecord>, continentsDf: seq<ContinentRecord>,
                                      nationalities: map<string, string>, writeSucceeds: bool) returns (ok: bool)
      modifies this`nationality
      ensures ok
      ensures nationality == old(nationality)
        + (if writeSucceeds then NationalityBatch(countriesDf, continentsDf, nationalities) else [])
    {
      var result := NationalityBatch(countriesDf, continentsDf, nationalities);
      if writeSucceeds {
        nationality := nationality + result;
      }
      return true;
    }

    /** attendance_data_preparation, for competitions that all carry a date
        (else the keys are formatted as floats): raises, inserting nothing,
        on an empty Results frame or a result whose competition has no city
        or countryId. */
    method AttendanceDataPreparation(db: UnicodeDb, resultsDf: seq<ResultRecord>,
                                     competitionsDf: seq<CompetitionRecord>, writeSucceeds: bool) returns (outcome: Outcome)
      requires CompetitionsDated(competitionsDf)
      modifies this`attendance
      ensures outcome == if AttendanceRaises(resultsDf, competitionsDf) then Raised else Returned(true)
      ensures attendance == old(attendance)
        + (if outcome.Returned? && writeSucceeds then AttendanceBatch(db, resultsDf, competitionsDf) else [])
    {
      if AttendanceRaises(resultsDf, competitionsDf) {
        return Raised;
      }
      var result := AttendanceBatch(db, resultsDf, competitionsDf);
      if writeSucceeds {
        attendance := attendance + result;
      }
      return Returned(true);
    }
  }
}
