// single_table_pipeline and get_number_of_rows: read only the lines of a
// table file that the previous run has not seen.

module RowDelta {
  import opened Frames

  /** What a delta read returns: the header line, the unread data lines and
      the file's new line count (header included). */
  datatype Delta = Delta(header: string, rows: seq<string>, total: nat)

  const DefaultPrefix: string := "WCA_export_"
  const DefaultExt: string := ".tsv"

  /** f'{table_prefix}{table_name}{file_ext}': the file name a table is read
      from and its line count is recorded under. */
  function TableFileName(tablePrefix: string, tableName: string, fileExt: string): string
  {
    tablePrefix + tableName + fileExt
  }

  /** The line count recorded by the previous run: the value under key, or 0
      when the map is empty or lacks the key. */
  function PriorRowCount(lastNumberOfRows: map<string, nat>, key: string): (n: nat)
    ensures n == (if key in lastNumberOfRows then lastNumberOfRows[key] else 0)
  {
    if |lastNumberOfRows| != 0 then
      (if key in lastNumberOfRows then lastNumberOfRows[key] else 0)
    else 0
  }

  /** get_number_of_rows: counts the lines of the file one by one. */
  method GetNumberOfRows(lines: seq<string>) returns (numLines: nat)
    ensures numLines == |lines|
  {
    numLines := 0;
    for i := 0 to |lines|
      invariant numLines == i
    {
      numLines := numLines + 1;
    }
  }

  function Max(a: int, b: int): int { if a < b then b else a }

  function Min(a: int, b: int): int { if a < b then a else b }

  /** The lines read_csv reads under skiprows=range(1, prior): line i is
      skipped exactly when 1 <= i < prior, so the header line always stays. */
  function SkipRows(lines: seq<string>, prior: nat): (r: seq<string>)
    ensures |lines| >= 1 ==> |r| >= 1 && r[0] == lines[0]
  {
    if |lines| == 0 then []
    else
      var n := |lines| - 1;
      SkipRows(lines[..n], prior) + (if 1 <= n < prior then [] else [lines[n]])
  }

  /** Skipping rows 1 .. prior-1 leaves the header followed by every line
      from index max(prior, 1) on (none when prior reaches the end). */
  lemma {:induction false} SkipRowsIsSlice(lines: seq<string>, prior: nat)
    requires |lines| >= 1
    ensures SkipRows(lines, prior) == [lines[0]] + lines[Min(Max(prior, 1), |lines|)..]
  {
    var n := |lines| - 1;
    if n >= 1 {
      SkipRowsIsSlice(lines[..n], prior);
      if n >= prior {
        assert lines[Max(prior, 1)..] == lines[..n][Max(prior, 1)..] + [lines[n]];
      }
    }
  }

  /** The delta read of a file of lines given the prior line count: nothing
      when the count is unchanged or has shrunk; otherwise the header and
      the data lines that skiprows=range(1, prior) leaves. */
  function ReadDelta(lines: seq<string>, prior: nat): (r: Option<Delta>)
    ensures r.None? <==> |lines| <= prior
  {
    if prior == |lines| then None
    else if |lines| - prior < 0 then None
    else
      var read := SkipRows(lines, prior);
      Some(Delta(read[0], read[1..], |lines|))
  }

  /** single_table_pipeline: the file's lines stand for the file read from
      disk, and the pandas column selection is not modelled. */
  method SingleTablePipeline(
    tableName: string,
    lines: seq<string>,
    lastNumberOfRows: map<string, nat>,
    tablePrefix: string := DefaultPrefix,
    fileExt: string := DefaultExt)
    returns (r: Option<Delta>)
    ensures r == ReadDelta(lines, PriorRowCount(lastNumberOfRows, TableFileName(tablePrefix, tableName, fileExt)))
  {
    var rowsCardinalities: nat;
    if |lastNumberOfRows| != 0 {
      var key := TableFileName(tablePrefix, tableName, fileExt);
      rowsCardinalities := if key in lastNumberOfRows then lastNumberOfRows[key] else 0;
    } else {
      rowsCardinalities := 0;
    }
    var newNumberOfRows := GetNumberOfRows(lines);
    if rowsCardinalities == newNumberOfRows {
      return None;
    }
    var differenceBetweenVersions := newNumberOfRows - rowsCardinalities;
    if differenceBetweenVersions < 0 {
      return None;
    }
    var read := SkipRows(lines, rowsCardinalities);
    return Some(Delta(read[0], read[1..], newNumberOfRows));
  }

  /** A read returns the header, exactly the lines from index max(prior, 1)
      on, and the full line count. */
  lemma ReadDeltaContents(lines: seq<string>, prior: nat)
    requires prior < |lines|
    ensures ReadDelta(lines, prior) == Some(Delta(lines[0], lines[Max(prior, 1)..], |lines|))
  {
    SkipRowsIsSlice(lines, prior);
  }

  /** First run: a header and N data lines give the N data lines and a count
      of N + 1. */
  lemma FirstRunReadsEverything(header: string, data: seq<string>)
    ensures ReadDelta([header] + data, 0) == Some(Delta(header, data, |data| + 1))
  {
    ReadDeltaContents([header] + data, 0);
    assert ([header] + data)[1..] == data;
  }

  /** Recording the count a read returned makes the next read of the same
      file return nothing. */
  lemma RereadIsEmpty(lines: seq<string>, prior: nat)
    requires ReadDelta(lines, prior).Some?
    ensures ReadDelta(lines, ReadDelta(lines, prior).value.total) == None
  {
  }

  /** When a file only grows by appended lines, the first read and the read
      after recording its count together return every data line once, in order. */
  lemma IncrementalReadsReassemble(before: seq<string>, after: seq<string>)
    requires |before| >= 1 && before <= after
    ensures var first := ReadDelta(before, 0).value;
      first.total == |before| &&
      (ReadDelta(after, first.total).None? <==> |after| == |before|) &&
      (|after| == |before| ==> first.rows == after[1..]) &&
      (|after| > |before| ==> ReadDelta(after, first.total).value.header == first.header &&
                              first.rows + ReadDelta(after, first.total).value.rows == after[1..])
  {
    ReadDeltaContents(before, 0);
    var first := ReadDelta(before, 0).value;
    assert first.rows == before[1..];
    if |after| > |before| {
      ReadDeltaContents(after, |before|);
      var second := ReadDelta(after, |before|).value;
      assert second.rows == after[|before|..];
      assert after[1..] == after[1..|before|] + after[|before|..];
      assert before[1..] == after[1..|before|];
      assert second.header == after[0] == before[0];
    } else {
      assert before == after;
    }
  }
}
