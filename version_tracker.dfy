// compare_version: the used-version JSON file and the decision whether the
// archive offered for download is a new version.

module VersionTracker {

  /** One key/value pair of the used-version JSON object, in file order. */
  datatype Entry = Entry(key: string, value: string)

  /** The key compare_version writes under. */
  const UsedVersionKey: string := "used_version"

  /** name.split(".")[0]: the text before the first `.`, or all of name. */
  function VersionToken(name: string): (t: string)
    ensures t <= name
    ensures '.' !in t
    ensures |t| < |name| ==> name[|t|] == '.'
  {
    if |name| == 0 || name[0] == '.' then ""
    else [name[0]] + VersionToken(name[1..])
  }

  /** The decision compare_version returns: true when the record is empty or
      the version token of its first value differs from the file's token. */
  predicate IsNewVersion(record: seq<Entry>, fileName: string)
  {
    record == [] || VersionToken(record[0].value) != VersionToken(fileName)
  }

  /** The used-version file, whose content compare_version reads and rewrites. */
  class UsedVersionFile {
    var record: seq<Entry>

    constructor (initial: seq<Entry>)
      ensures record == initial
    {
      record := initial;
    }

    /** compare_version: rewrites the record to {'used_version': token}
        exactly when the version is new, and reports whether it was. */
    method CompareVersion(fileToDownload: string) returns (updated: bool)
      modifies this
      ensures updated == IsNewVersion(old(record), fileToDownload)
      ensures record == if updated then [Entry(UsedVersionKey, VersionToken(fileToDownload))] else old(record)
    {
      var webVersion := VersionToken(fileToDownload);
      if record == [] {
        record := [Entry(UsedVersionKey, webVersion)];
        return true;
      }
      var usedVersion := VersionToken(record[0].value);
      if usedVersion != webVersion {
        record := [Entry(UsedVersionKey, webVersion)];
        return true;
      }
      return false;
    }
  }

  /** Cutting at the first `.` a second time changes nothing. */
  lemma {:induction false} VersionTokenIdempotent(name: string)
    ensures VersionToken(VersionToken(name)) == VersionToken(name)
  {
    if |name| > 0 && name[0] != '.' {
      VersionTokenIdempotent(name[1..]);
    }
  }

  /** Once a file name has been recorded, the same file name is no longer new. */
  lemma RecordedVersionIsNotNew(fileName: string)
    ensures !IsNewVersion([Entry(UsedVersionKey, VersionToken(fileName))], fileName)
  {
    VersionTokenIdempotent(fileName);
  }

  /** The token of a name is exactly the text before its first `.`. */
  lemma {:induction false} VersionTokenBeforeDot(before: string, after: string)
    requires '.' !in before
    ensures VersionToken(before + "." + after) == before
  {
    var name := before + "." + after;
    if |before| > 0 {
      assert name[0] == before[0];
      assert name[1..] == before[1..] + "." + after;
      VersionTokenBeforeDot(before[1..], after);
    }
  }

  /** The token of "export123.tsv.zip" is "export123". */
  lemma ExampleToken()
    ensures VersionToken("export123.tsv.zip") == "export123"
  {
    assert "export123.tsv.zip" == "export123" + "." + "tsv.zip";
    VersionTokenBeforeDot("export123", "tsv.zip");
  }

  /** The stored value is compared only up to its first `.`, whatever key it
      sits under: a stored "v.tsv.zip" and an offered "v.json" are the same
      version. */
  lemma StoredValueIsCut(key: string, before: string, storedAfter: string, offeredAfter: string, rest: seq<Entry>)
    requires '.' !in before
    ensures !IsNewVersion([Entry(key, before + "." + storedAfter)] + rest, before + "." + offeredAfter)
  {
    VersionTokenBeforeDot(before, storedAfter);
    VersionTokenBeforeDot(before, offeredAfter);
  }
}
