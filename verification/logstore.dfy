/**
 The two log files as abstract state (SHM/monitor.py lines 48-55 and 93-103):
 the tabular file (metrics.csv) and the line-delimited JSON file
 (metrics.jsonl), each absent or holding a sequence of lines. CSV quoting,
 JSON encoding and number formatting are abstract: a line is the record it
 encodes.
 */
module LogStore {
  import opened Wrappers

  /** The five fields written per sample, in column order. */
  datatype Record = Record(ts: string, host: string, cpu: real, ram: real, mbps: real)

  /** A line of metrics.csv: the fixed five-column header, or one data row. */
  datatype CsvLine = CsvHeader | CsvRow(record: Record)

  /** Both files; `None` means the file does not exist. A JSON line is the
      record it encodes. */
  datatype LogState = LogState(csv: Option<seq<CsvLine>>, jsonl: Option<seq<Record>>)

  /** A fresh log directory: neither file exists. */
  const Empty: LogState := LogState(None, None)

  /** The lines of a file; an absent file reads as empty, which is also what
      opening it for appending creates. */
  function Lines<T>(f: Option<seq<T>>): seq<T>
  {
    f.GetOr([])
  }

  /** `ensure_logs`: create the CSV file with its header and the JSON file
      empty, each only if it does not exist yet. */
  function EnsureLogs(s: LogState): (r: LogState)
    ensures r.csv.Some? && r.jsonl.Some?
    ensures s.csv.Some? ==> r.csv == s.csv
    ensures s.jsonl.Some? ==> r.jsonl == s.jsonl
    ensures s.csv.None? ==> Lines(r.csv) == [CsvHeader]
    ensures s.jsonl.None? ==> Lines(r.jsonl) == []
  {
    LogState(
      if s.csv.None? then Some([CsvHeader]) else s.csv,
      if s.jsonl.None? then Some([]) else s.jsonl)
  }

  /** `append_logs`: one row onto the CSV file and one line onto the JSON
      file, both opened in append mode (which creates a missing file). */
  function AppendLogs(s: LogState, rec: Record): (r: LogState)
    ensures r.csv.Some? && r.jsonl.Some?
    ensures |Lines(r.csv)| == |Lines(s.csv)| + 1 && |Lines(r.jsonl)| == |Lines(s.jsonl)| + 1
    ensures Lines(r.csv)[..|Lines(s.csv)|] == Lines(s.csv)
    ensures Lines(r.jsonl)[..|Lines(s.jsonl)|] == Lines(s.jsonl)
    ensures Lines(r.csv)[|Lines(s.csv)|] == CsvRow(rec)
    ensures Lines(r.jsonl)[|Lines(s.jsonl)|] == rec
  {
    LogState(Some(Lines(s.csv) + [CsvRow(rec)]), Some(Lines(s.jsonl) + [rec]))
  }

  /** One invocation's effect on the files: `ensure_logs`, then
      `append_logs` of the sample's record. */
  function LogStep(s: LogState, rec: Record): (r: LogState)
    ensures r.csv.Some? && r.jsonl.Some?
    ensures AppendOnly(s, r)
    ensures Lines(r.csv) == Lines(EnsureLogs(s).csv) + [CsvRow(rec)]
    ensures Lines(r.jsonl) == Lines(EnsureLogs(s).jsonl) + [rec]
    ensures s.csv.None? ==> Lines(r.csv) == [CsvHeader, CsvRow(rec)]
    ensures Consistent(s) ==> Consistent(r)
  {
    AppendLogs(EnsureLogs(s), rec)
  }

  /** `a` is an initial part of `b`: nothing in `a` was rewritten or removed. */
  predicate IsPrefix<T(==)>(a: seq<T>, b: seq<T>)
  {
    |a| <= |b| && b[..|a|] == a
  }

  /** Neither file lost or changed a line between `s` and `t`. */
  predicate AppendOnly(s: LogState, t: LogState)
  {
    IsPrefix(Lines(s.csv), Lines(t.csv)) && IsPrefix(Lines(s.jsonl), Lines(t.jsonl))
  }

  /** The store invariant: both files exist, the CSV file is the header
      followed only by data rows, and the i-th JSON line carries the same
      record as the i-th CSV data row. */
  predicate Consistent(s: LogState)
  {
    && s.csv.Some? && s.jsonl.Some?
    && |s.csv.value| == |s.jsonl.value| + 1
    && s.csv.value[0] == CsvHeader
    && forall i :: 0 <= i < |s.jsonl.value| ==> s.csv.value[i + 1] == CsvRow(s.jsonl.value[i])
  }

  /** How many header lines the CSV file holds. */
  function HeaderCount(lines: seq<CsvLine>): nat
  {
    multiset(lines)[CsvHeader]
  }

  /** Initialising twice is initialising once. */
  lemma EnsureIdempotent(s: LogState)
    ensures EnsureLogs(EnsureLogs(s)) == EnsureLogs(s)
  {
  }

  /** Initialising never rewrites an existing file. */
  lemma EnsureAppendOnly(s: LogState)
    ensures AppendOnly(s, EnsureLogs(s))
  {
  }

  /** Initialising a fresh directory gives a consistent store: one header,
      no rows, an empty JSON file. */
  lemma EnsureFromEmpty()
    ensures Consistent(EnsureLogs(Empty))
    ensures Lines(EnsureLogs(Empty).csv) == [CsvHeader]
    ensures Lines(EnsureLogs(Empty).jsonl) == []
  {
  }

  /** On a consistent store initialising changes nothing. */
  lemma EnsureOnConsistent(s: LogState)
    requires Consistent(s)
    ensures EnsureLogs(s) == s
  {
  }

  /** Appending one record keeps the store consistent. */
  lemma AppendPreservesConsistent(s: LogState, rec: Record)
    requires Consistent(s)
    ensures Consistent(AppendLogs(s, rec))
  {
  }

  /** Appending rewrites nothing already written. */
  lemma AppendIsAppendOnly(s: LogState, rec: Record)
    ensures AppendOnly(s, AppendLogs(s, rec))
  {
  }

  /** A consistent store's CSV file holds its header exactly once. */
  lemma HeaderExactlyOnce(s: LogState)
    requires Consistent(s)
    ensures HeaderCount(s.csv.value) == 1
  {
    var csv := s.csv.value;
    var rows := csv[1..];
    assert csv == [CsvHeader] + rows;
    assert CsvHeader !in rows by {
      forall i | 0 <= i < |rows| ensures rows[i] != CsvHeader {
        assert rows[i] == csv[i + 1] == CsvRow(s.jsonl.value[i]);
      }
    }
  }

  /** Appending to a directory whose CSV file is missing creates it without a
      header: `ensure_logs` must run first for the header to exist. */
  lemma AppendToMissingCsvHasNoHeader(jsonl: Option<seq<Record>>, rec: Record)
    ensures HeaderCount(Lines(AppendLogs(LogState(None, jsonl), rec).csv)) == 0
  {
  }

  /** On a consistent store one invocation appends exactly the record's row
      and JSON line, and the store stays consistent. */
  lemma LogStepOnConsistent(s: LogState, rec: Record)
    requires Consistent(s)
    ensures LogStep(s, rec) == LogState(Some(s.csv.value + [CsvRow(rec)]), Some(s.jsonl.value + [rec]))
    ensures Consistent(LogStep(s, rec))
  {
  }

  /** The CSV data rows for a list of records. */
  function RowsOf(rs: seq<Record>): (rows: seq<CsvLine>)
    ensures |rows| == |rs|
    ensures forall k :: 0 <= k < |rs| ==> rows[k] == CsvRow(rs[k])
  {
    seq(|rs|, k requires 0 <= k < |rs| => CsvRow(rs[k]))
  }

  /** The store after initialising an empty directory and appending `rs`. */
  function Initialised(rs: seq<Record>): LogState
  {
    LogState(Some([CsvHeader] + RowsOf(rs)), Some(rs))
  }

  /** Such a store is consistent and holds one header line. */
  lemma InitialisedIsConsistent(rs: seq<Record>)
    ensures Consistent(Initialised(rs))
    ensures HeaderCount(Initialised(rs).csv.value) == 1
  {
    var t := Initialised(rs);
    forall i | 0 <= i < |rs| ensures t.csv.value[i + 1] == CsvRow(rs[i]) {
      assert t.csv.value[i + 1] == RowsOf(rs)[i];
    }
    HeaderExactlyOnce(t);
  }
}
