// Key helpers of utils/module_functions.py: the table-file filter
// (valid_table), the identifier slug (generate_id), Python's str() of an
// integer, the day_month_year Time key and the lower-cased city_country key.

module Keys {

  /** str.endswith: the empty suffix matches every string. */
  predicate EndsWith(s: string, suffix: string)
  {
    |suffix| <= |s| && s[|s| - |suffix|..] == suffix
  }

  /** valid_table: does the file name end with one of the needed table names?
      The loop returns at the first table name that matches. */
  method ValidTable(filename: string, neededTables: seq<string>) returns (valid: bool)
    ensures valid <==> exists i :: 0 <= i < |neededTables| && EndsWith(filename, neededTables[i])
  {
    for i := 0 to |neededTables|
      invariant forall k :: 0 <= k < i ==> !EndsWith(filename, neededTables[k])
    {
      if EndsWith(filename, neededTables[i]) {
        return true;
      }
    }
    return false;
  }

  // ----- generate_id -----

  /** The facts Python's `re` and `str` take from the Unicode database:
      which characters `\w` matches (letters, digits, `_`), and a
      one-to-one character mapping standing for `str.lower`. The real
      `str.lower` is not such a mapping for every character: it expands a
      few (`İ`) and lowers `Σ` by context (`ς` at the end of a word). */
  datatype UnicodeDb = UnicodeDb(isWord: char -> bool, toLower: char -> char)

  /** `\s` on a str pattern: the characters for which str.isspace() holds. */
  predicate IsSpace(c: char)
  {
    || c == ' ' || ('\t' <= c <= '\r') || ('\U{1C}' <= c <= '\U{1F}')
    || c == '\U{85}' || c == '\U{A0}' || c == '\U{1680}' || ('\U{2000}' <= c <= '\U{200A}')
    || c == '\U{2028}' || c == '\U{2029}' || c == '\U{202F}' || c == '\U{205F}' || c == '\U{3000}'
  }

  /** The characters the pattern `[^\w\s-]` does not match, and so keeps. */
  predicate Kept(db: UnicodeDb, c: char)
  {
    db.isWord(c) || IsSpace(c) || c == '-'
  }

  /** re.sub(r' ', '_', s) */
  function SpacesToUnderscores(s: string): string
  {
    seq(|s|, i requires 0 <= i < |s| => if s[i] == ' ' then '_' else s[i])
  }

  /** re.sub(r'[^\w\s-]', '', s): drops every character that is not kept. */
  function StripDisallowed(db: UnicodeDb, s: string): (r: string)
    ensures |r| <= |s|
    ensures forall i :: 0 <= i < |r| ==> Kept(db, r[i]) && r[i] in s
    ensures (forall i :: 0 <= i < |s| ==> Kept(db, s[i])) ==> r == s
  {
    if |s| == 0 then ""
    else
      var p := StripDisallowed(db, s[..|s| - 1]);
      var c := s[|s| - 1];
      assert forall x :: x in s[..|s| - 1] ==> x in s;
      assert s == s[..|s| - 1] + [c];
      if Kept(db, c) then p + [c] else p
  }

  /** The substitution works character by character: a kept character
      stays, any other vanishes, and the output of a concatenation is the
      concatenation of the outputs. */
  lemma {:induction false} StripDisallowedAppend(db: UnicodeDb, a: string, b: string)
    ensures StripDisallowed(db, a + b) == StripDisallowed(db, a) + StripDisallowed(db, b)
    ensures |b| == 1 ==> StripDisallowed(db, b) == if Kept(db, b[0]) then b else ""
    decreases |b|
  {
    if |b| == 0 {
      assert a + b == a;
    } else {
      var b', c := b[..|b| - 1], b[|b| - 1];
      assert (a + b)[..|a + b| - 1] == a + b';
      StripDisallowedAppend(db, a, b');
      if |b| == 1 {
        assert b' == "";
      }
    }
  }

  /** generate_id */
  function GenerateId(db: UnicodeDb, s: string): (r: string)
    ensures |r| <= |s|
    ensures ' ' !in r
    ensures forall i :: 0 <= i < |r| ==> Kept(db, r[i])
  {
    StripDisallowed(db, SpacesToUnderscores(s))
  }

  /** The identifier is built character by character: a space becomes `_`
      (kept when `_` is a word character, as it is for `\w`), any other
      kept character stays, the rest vanish, and concatenations map to
      concatenations; so kept characters survive in their order. */
  lemma GenerateIdAppend(db: UnicodeDb, a: string, b: string)
    ensures GenerateId(db, a + b) == GenerateId(db, a) + GenerateId(db, b)
    ensures |b| == 1 ==> GenerateId(db, b) == if b[0] == ' ' then (if db.isWord('_') then "_" else "")
                                             else if Kept(db, b[0]) then b else ""
  {
    assert SpacesToUnderscores(a + b) == SpacesToUnderscores(a) + SpacesToUnderscores(b);
    StripDisallowedAppend(db, SpacesToUnderscores(a), SpacesToUnderscores(b));
    StripDisallowedAppend(db, "", SpacesToUnderscores(b));
    if |b| == 1 {
      assert "" + SpacesToUnderscores(b) == SpacesToUnderscores(b);
    }
  }

  /** A generated identifier is its own identifier. */
  lemma GenerateIdIdempotent(db: UnicodeDb, s: string)
    ensures GenerateId(db, GenerateId(db, s)) == GenerateId(db, s)
  {
    var r := GenerateId(db, s);
    assert SpacesToUnderscores(r) == r;
  }

  /** A string of kept characters only loses its spaces, each turned into `_`
      (a word character). */
  lemma GenerateIdOfKeptText(db: UnicodeDb, s: string)
    requires db.isWord('_')
    requires forall i :: 0 <= i < |s| ==> Kept(db, s[i])
    ensures GenerateId(db, s) == SpacesToUnderscores(s)
  {
  }

  /** str.lower, character by character. */
  function Lower(db: UnicodeDb, s: string): (r: string)
    ensures |r| == |s|
  {
    seq(|s|, i requires 0 <= i < |s| => db.toLower(s[i]))
  }

  /** Two strings whose characters lower-case alike, position by position,
      under the abstract toLower; this is the model's reading of "differ
      only in letter case", and PlaceKey depends on its arguments only
      through their lower-cased forms. */
  predicate SameUpToCase(db: UnicodeDb, a: string, b: string)
  {
    |a| == |b| && forall i :: 0 <= i < |a| ==> db.toLower(a[i]) == db.toLower(b[i])
  }

  /** generate_id(f"{city.lower()}_{region.lower()}"): the Localization Id
      (region = country name) and the Attendance Localization_id
      (region = country id) are both built this way. */
  function PlaceKey(db: UnicodeDb, city: string, region: string): (r: string)
    ensures ' ' !in r
    ensures |r| <= |city| + 1 + |region|
  {
    GenerateId(db, Lower(db, city) + "_" + Lower(db, region))
  }

  /** Arguments that lower-case alike give the same place key: the key
      reads its arguments only after lower-casing them. */
  lemma PlaceKeyIgnoresCase(db: UnicodeDb, city: string, region: string, city': string, region': string)
    requires SameUpToCase(db, city, city') && SameUpToCase(db, region, region')
    ensures PlaceKey(db, city, region) == PlaceKey(db, city', region')
  {
    assert Lower(db, city) == Lower(db, city');
    assert Lower(db, region) == Lower(db, region');
  }

  // ----- str(int) and the Time key -----

  function DigitChar(d: int): char
    requires 0 <= d < 10
  {
    ('0' as int + d) as char
  }

  predicate IsDigit(c: char)
  {
    '0' <= c <= '9'
  }

  /** Decimal digits of a natural number, as str() prints them. */
  function NatToString(n: nat): (s: string)
    ensures |s| >= 1
    ensures forall i :: 0 <= i < |s| ==> IsDigit(s[i])
    ensures s[0] == '0' ==> n == 0
  {
    if n < 10 then [DigitChar(n)] else NatToString(n / 10) + [DigitChar(n % 10)]
  }

  /** The value of a string of decimal digits. */
  function DigitsValue(s: string): nat
    requires forall i :: 0 <= i < |s| ==> IsDigit(s[i])
  {
    if |s| == 0 then 0
    else
      assert IsDigit(s[|s| - 1]);
      DigitsValue(s[..|s| - 1]) * 10 + (s[|s| - 1] as int - '0' as int)
  }

  /** Reading back the digits of n gives n. */
  lemma {:induction false} NatToStringRoundTrip(n: nat)
    ensures DigitsValue(NatToString(n)) == n
  {
    if n >= 10 {
      var s := NatToString(n);
      NatToStringRoundTrip(n / 10);
      assert s[..|s| - 1] == NatToString(n / 10);
    }
  }

  /** str() of a Python int: a minus sign before the digits of a negative value. */
  function IntToString(i: int): (s: string)
    ensures |s| >= 1
    ensures '_' !in s
  {
    if i < 0 then "-" + NatToString(-i) else NatToString(i)
  }

  /** str() on integers is injective. */
  lemma IntToStringInjective(a: int, b: int)
    requires IntToString(a) == IntToString(b)
    ensures a == b
  {
    NatToStringRoundTrip(if a < 0 then -a else a);
    NatToStringRoundTrip(if b < 0 then -b else b);
    assert IntToString(a)[0] == '-' <==> a < 0;
    assert IntToString(b)[0] == '-' <==> b < 0;
    if a < 0 {
      assert NatToString(-a) == IntToString(a)[1..];
      assert NatToString(-b) == IntToString(b)[1..];
    }
  }

  /** str(day) + '_' + str(month) + '_' + str(year) */
  function TimeId(day: int, month: int, year: int): string
  {
    IntToString(day) + "_" + IntToString(month) + "_" + IntToString(year)
  }

  /** Splitting "a_b" at its first `_` recovers a and b when a has no `_`. */
  lemma {:induction false} SplitAtUnderscore(a: string, b: string, a': string, b': string)
    requires '_' !in a && '_' !in a'
    requires a + "_" + b == a' + "_" + b'
    ensures a == a' && b == b'
  {
    var s := a + "_" + b;
    assert s == a' + "_" + b';
    assert s[|a|] == '_' && s[|a'|] == '_';
    assert forall i :: 0 <= i < |a| ==> s[i] == a[i] != '_';
    assert forall i :: 0 <= i < |a'| ==> s[i] == a'[i] != '_';
    assert |a| == |a'|;
    assert a == s[..|a|] == a';
    assert b == s[|a| + 1..] == b';
  }

  /** Two Time Ids are equal exactly when their (day, month, year) triples are. */
  lemma TimeIdInjective(d: int, m: int, y: int, d': int, m': int, y': int)
    ensures TimeId(d, m, y) == TimeId(d', m', y') <==> d == d' && m == m' && y == y'
  {
    if TimeId(d, m, y) == TimeId(d', m', y') {
      var sd, sm, sy := IntToString(d), IntToString(m), IntToString(y);
      var sd', sm', sy' := IntToString(d'), IntToString(m'), IntToString(y');
      assert TimeId(d, m, y) == sd + "_" + (sm + "_" + sy);
      assert TimeId(d', m', y') == sd' + "_" + (sm' + "_" + sy');
      SplitAtUnderscore(sd, sm + "_" + sy, sd', sm' + "_" + sy');
      SplitAtUnderscore(sm, sy, sm', sy');
      IntToStringInjective(d, d');
      IntToStringInjective(m, m');
      IntToStringInjective(y, y');
    }
  }
}
