/**
 One invocation of the monitor (`collect` and `main`, SHM/monitor.py lines
 37-46 and 105-125): initialise the logs, sample, evaluate alerts, append the
 sample to both logs, and notify only when some alert fired. The per-run
 inputs the operating system supplies are fields of `Invocation`; the host
 name (`socket.gethostname()`, line 29) is the separate `host` parameter.
 */
module Monitor {
  import opened Wrappers
  import opened Config
  import opened Throughput
  import opened Alerts
  import opened Message
  import opened Notify
  import opened LogStore

  /** What one run observes of its host: the clock, the CPU and memory
      readings, the two network counter snapshots, and whether `wall` and
      `mail` are installed and raise when invoked. */
  datatype Invocation = Invocation(
    ts: string,
    cpu: real,
    mem: real,
    before: NetCounters,
    after: NetCounters,
    wallOnPath: bool,
    wallRaises: bool,
    mailOnPath: bool,
    mailRaises: bool
  )

  /** What one run produces: the new log state, the alerts, and, when a
      notification was composed, its text and where it went. */
  datatype Outcome = Outcome(
    logs: LogState,
    alerts: seq<Alert>,
    message: Option<string>,
    terminal: Option<TerminalChannel>,
    email: Delivery
  )

  /** `collect`: the readings, with throughput over the floored window. */
  function Collect(c: Config, inv: Invocation): (s: Sample)
    ensures s.cpu == inv.cpu && s.ram == inv.mem
    ensures s.mbps * EffectiveWindow(c.sampleSeconds) * BitsPerMegabit
            == ByteDelta(inv.before, inv.after) as real * 8.0
  {
    Sample(inv.cpu, inv.mem, Mbps(inv.before, inv.after, c.sampleSeconds))
  }

  /** The record `append_logs` writes for a sample: the run's timestamp and
      host, and the sample itself, which reads back unchanged. */
  function RecordOf(host: string, ts: string, s: Sample): (r: Record)
    ensures r.ts == ts && r.host == host
    ensures Sample(r.cpu, r.ram, r.mbps) == s
  {
    Record(ts, host, s.cpu, s.ram, s.mbps)
  }

  /** `main`, for one invocation against log state `s`. */
  function Run(c: Config, host: string, render: Alert -> string,
               inv: Invocation, s: LogState): (o: Outcome)
    ensures o.alerts == Evaluate(Collect(c, inv), c)
    ensures o.message.Some? <==> o.alerts != []
    ensures o.terminal.Some? <==> o.alerts != []
    ensures o.email != NotSent ==> o.alerts != [] && c.emailTo != []
    ensures o.alerts != [] ==>
              && o.message == Some(MessageText(inv.ts, host, o.alerts, render, c.csvPath))
              && o.terminal == Some(TerminalChannelFor(inv.wallOnPath, inv.wallRaises))
              && o.email == EmailDelivery(c, inv.mailOnPath, inv.mailRaises)
    ensures o.logs == LogStep(s, RecordOf(host, inv.ts, Collect(c, inv)))
    ensures AppendOnly(s, o.logs)
    ensures Lines(o.logs.jsonl) == Lines(EnsureLogs(s).jsonl) + [RecordOf(host, inv.ts, Collect(c, inv))]
    ensures Lines(o.logs.csv) == Lines(EnsureLogs(s).csv) + [CsvRow(RecordOf(host, inv.ts, Collect(c, inv)))]
  {
    var logs0 := EnsureLogs(s);
    var sample := Collect(c, inv);
    var alerts := Evaluate(sample, c);
    var logs := LogStep(s, RecordOf(host, inv.ts, sample));
    EnsureAppendOnly(s);
    AppendIsAppendOnly(logs0, RecordOf(host, inv.ts, sample));
    if alerts == [] then
      Outcome(logs, alerts, None, None, NotSent)
    else
      Outcome(logs, alerts,
              Some(MessageText(inv.ts, host, alerts, render, c.csvPath)),
              Some(TerminalChannelFor(inv.wallOnPath, inv.wallRaises)),
              EmailDelivery(c, inv.mailOnPath, inv.mailRaises))
  }

  /** The log state after running each invocation in turn from `s`. */
  function RunAll(c: Config, host: string, render: Alert -> string,
                  invs: seq<Invocation>, s: LogState): LogState
    decreases |invs|
  {
    if invs == [] then s
    else RunAll(c, host, render, invs[1..], Run(c, host, render, invs[0], s).logs)
  }

  /** When every reading is below its threshold nothing is composed and no
      channel is used, yet the sample is still logged. */
  lemma QuietRunOnlyLogs(c: Config, host: string, render: Alert -> string,
                         inv: Invocation, s: LogState)
    requires inv.cpu < c.cpuWarn as real && inv.mem < c.ramWarn as real
    requires Collect(c, inv).mbps < c.netWarnMbps
    ensures var o := Run(c, host, render, inv, s);
            o.alerts == [] && o.message == None && o.terminal == None && o.email == NotSent
            && |Lines(o.logs.jsonl)| == |Lines(EnsureLogs(s).jsonl)| + 1
  {
  }

  /** A run on a fresh or consistent store leaves it consistent. */
  lemma RunPreservesConsistent(c: Config, host: string, render: Alert -> string,
                               inv: Invocation, s: LogState)
    requires s == Empty || Consistent(s)
    ensures Consistent(Run(c, host, render, inv, s).logs)
  {
  }

  /** Any number of runs rewrite nothing already in either file. */
  lemma {:induction false} RunAllAppendOnly(c: Config, host: string, render: Alert -> string,
                                           invs: seq<Invocation>, s: LogState)
    ensures AppendOnly(s, RunAll(c, host, render, invs, s))
    decreases |invs|
  {
    if invs != [] {
      var s1 := Run(c, host, render, invs[0], s).logs;
      RunAllAppendOnly(c, host, render, invs[1..], s1);
      var t := RunAll(c, host, render, invs[1..], s1);
      assert Lines(t.csv)[..|Lines(s.csv)|] == Lines(s1.csv)[..|Lines(s.csv)|];
      assert Lines(t.jsonl)[..|Lines(s.jsonl)|] == Lines(s1.jsonl)[..|Lines(s.jsonl)|];
    }
  }

  /** The records N invocations write, in order. */
  function RecordsOf(c: Config, host: string, invs: seq<Invocation>): (rs: seq<Record>)
    ensures |rs| == |invs|
    ensures forall k :: 0 <= k < |invs| ==> rs[k].ts == invs[k].ts
  {
    seq(|invs|, k requires 0 <= k < |invs| => RecordOf(host, invs[k].ts, Collect(c, invs[k])))
  }

  /** The records of a non-empty run list: the first run's, then the rest. */
  lemma RecordsOfCons(c: Config, host: string, invs: seq<Invocation>)
    requires invs != []
    ensures RecordsOf(c, host, invs)
            == [RecordOf(host, invs[0].ts, Collect(c, invs[0]))] + RecordsOf(c, host, invs[1..])
  {
  }

  /** Sequence concatenation regroups freely. */
  lemma AppendAssoc<T>(a: seq<T>, b: seq<T>, c: seq<T>)
    ensures a + b + c == a + (b + c)
  {
  }

  /** Rows of a record list with a first element. */
  lemma RowsOfCons(rec: Record, rs: seq<Record>)
    ensures RowsOf([rec] + rs) == [CsvRow(rec)] + RowsOf(rs)
  {
  }

  /** From a consistent store, N runs append exactly N rows to the CSV file
      and the same N records to the JSON file, in invocation order. */
  lemma {:induction false} RunAllOnConsistent(c: Config, host: string, render: Alert -> string,
                                             invs: seq<Invocation>, s: LogState)
    requires Consistent(s)
    ensures RunAll(c, host, render, invs, s)
            == LogState(Some(s.csv.value + RowsOf(RecordsOf(c, host, invs))),
                        Some(s.jsonl.value + RecordsOf(c, host, invs)))
    decreases |invs|
  {
    if invs == [] {
      assert s.csv.value + [] == s.csv.value && s.jsonl.value + [] == s.jsonl.value;
    } else {
      var rec := RecordOf(host, invs[0].ts, Collect(c, invs[0]));
      var s1 := Run(c, host, render, invs[0], s).logs;
      assert s1 == LogStep(s, rec);
      LogStepOnConsistent(s, rec);
      RunAllOnConsistent(c, host, render, invs[1..], s1);
      var rs, rs1 := RecordsOf(c, host, invs), RecordsOf(c, host, invs[1..]);
      RecordsOfCons(c, host, invs);
      RowsOfCons(rec, rs1);
      var csv, jsonl := s.csv.value, s.jsonl.value;
      AppendAssoc(csv, [CsvRow(rec)], RowsOf(rs1));
      AppendAssoc(jsonl, [rec], rs1);
    }
  }

  /** From an empty log directory, N > 0 runs give the initialised store
      holding exactly the N invocations' records: the first run creates both
      files, every later one finds them. */
  lemma RunAllFromEmpty(c: Config, host: string, render: Alert -> string, invs: seq<Invocation>)
    requires invs != []
    ensures RunAll(c, host, render, invs, Empty) == Initialised(RecordsOf(c, host, invs))
  {
    var s0 := EnsureLogs(Empty);
    EnsureFromEmpty();
    assert Run(c, host, render, invs[0], Empty).logs == Run(c, host, render, invs[0], s0).logs;
    assert RunAll(c, host, render, invs, Empty) == RunAll(c, host, render, invs, s0);
    RunAllOnConsistent(c, host, render, invs, s0);
    var rs := RecordsOf(c, host, invs);
    assert s0.csv.value == [CsvHeader] && s0.jsonl.value == [];
    assert [] + rs == rs;
  }

  /** From an empty log directory, N > 0 runs leave one header line and N
      rows in the CSV file and N lines in the JSON file, and the timestamp of
      the i-th JSON line is the first field of the i-th CSV row. */
  lemma HistoryFromEmpty(c: Config, host: string, render: Alert -> string, invs: seq<Invocation>)
    requires invs != []
    ensures var t := RunAll(c, host, render, invs, Empty);
            && Consistent(t)
            && HeaderCount(t.csv.value) == 1
            && |t.csv.value| == |invs| + 1
            && |t.jsonl.value| == |invs|
            && forall i :: 0 <= i < |invs| ==>
                 && t.jsonl.value[i].ts == invs[i].ts
                 && t.csv.value[i + 1].CsvRow?
                 && t.csv.value[i + 1].record.ts == t.jsonl.value[i].ts
  {
    var rs := RecordsOf(c, host, invs);
    RunAllFromEmpty(c, host, render, invs);
    InitialisedIsConsistent(rs);
  }

  /** Two runs against an empty directory give one header, two data rows
      and two JSON lines. */
  lemma TwoRunsFromEmpty(c: Config, host: string, render: Alert -> string,
                         first: Invocation, second: Invocation)
    ensures var t := RunAll(c, host, render, [first, second], Empty);
            && t.csv.Some? && t.jsonl.Some?
            && HeaderCount(t.csv.value) == 1 && |t.csv.value| == 3 && |t.jsonl.value| == 2
  {
    HistoryFromEmpty(c, host, render, [first, second]);
  }
}
