/**
 The alert evaluator of `main` (SHM/monitor.py lines 110-116): each of the
 three readings is compared with its threshold using `>=`, and every breach
 yields one alert, in the fixed order CPU, RAM, NET. An alert is kept as
 structured data; its text rendering is left abstract.
 */
module Alerts {
  import opened Config

  datatype Metric = CPU | RAM | NET

  /** One threshold breach: which metric, the observed value, the threshold. */
  datatype Alert = Alert(metric: Metric, value: real, threshold: real)

  /** Position of a metric in the alert list order. */
  function Rank(m: Metric): nat
  {
    match m
    case CPU => 0
    case RAM => 1
    case NET => 2
  }

  /** The sampled value of metric `m`. */
  function Reading(s: Sample, m: Metric): real
  {
    match m
    case CPU => s.cpu
    case RAM => s.ram
    case NET => s.mbps
  }

  /** The configured threshold of metric `m`; the integer thresholds are
      compared as numbers, exactly as Python compares a float with an int. */
  function Threshold(c: Config, m: Metric): real
  {
    match m
    case CPU => c.cpuWarn as real
    case RAM => c.ramWarn as real
    case NET => c.netWarnMbps
  }

  /** Metric `m` breaches its threshold; the boundary is inclusive. */
  predicate Breaches(s: Sample, c: Config, m: Metric)
  {
    Reading(s, m) >= Threshold(c, m)
  }

  /** The alert that a breach of `m` produces. */
  function AlertFor(s: Sample, c: Config, m: Metric): Alert
  {
    Alert(m, Reading(s, m), Threshold(c, m))
  }

  /** `a` mentions metric `m`. */
  predicate Mentions(a: seq<Alert>, m: Metric)
  {
    exists i :: 0 <= i < |a| && a[i].metric == m
  }

  /** Metrics strictly increase along `a`: CPU before RAM before NET, and
      hence no metric twice. */
  predicate StrictlyOrdered(a: seq<Alert>)
  {
    forall i, j :: 0 <= i < j < |a| ==> Rank(a[i].metric) < Rank(a[j].metric)
  }

  /** The contract the source gives its alert list, stated without reference
      to how it is built: ordered, one alert per breached metric and none for
      the others, each alert carrying the sampled value and its threshold. */
  predicate IsAlertListFor(s: Sample, c: Config, a: seq<Alert>)
  {
    && StrictlyOrdered(a)
    && (Mentions(a, CPU) <==> Breaches(s, c, CPU))
    && (Mentions(a, RAM) <==> Breaches(s, c, RAM))
    && (Mentions(a, NET) <==> Breaches(s, c, NET))
    && (forall i :: 0 <= i < |a| ==> a[i] == AlertFor(s, c, a[i].metric))
  }

  /** The alert list `main` builds: CPU, then RAM, then NET, each present
      when its reading meets its threshold. */
  function Evaluate(s: Sample, c: Config): (a: seq<Alert>)
    ensures IsAlertListFor(s, c, a)
    ensures |a| <= 3
    ensures forall i :: 0 <= i < |a| ==> a[i].value >= a[i].threshold
    ensures a == [] <==> !Breaches(s, c, CPU) && !Breaches(s, c, RAM) && !Breaches(s, c, NET)
  {
    var cpu := if Breaches(s, c, CPU) then [AlertFor(s, c, CPU)] else [];
    var ram := if Breaches(s, c, RAM) then [AlertFor(s, c, RAM)] else [];
    var net := if Breaches(s, c, NET) then [AlertFor(s, c, NET)] else [];
    var a := cpu + ram + net;
    assert Mentions(a, CPU) <==> Breaches(s, c, CPU) by {
      if Breaches(s, c, CPU) { assert a[0].metric == CPU; }
    }
    assert Mentions(a, RAM) <==> Breaches(s, c, RAM) by {
      if Breaches(s, c, RAM) { assert a[|cpu|].metric == RAM; }
    }
    assert Mentions(a, NET) <==> Breaches(s, c, NET) by {
      if Breaches(s, c, NET) { assert a[|cpu| + |ram|].metric == NET; }
    }
    a
  }

  /** The independent reference: the breached metrics, in the order given. */
  function BreachedAmong(s: Sample, c: Config, ms: seq<Metric>): (a: seq<Alert>)
    ensures |a| <= |ms|
  {
    if ms == [] then []
    else if Breaches(s, c, ms[0]) then [AlertFor(s, c, ms[0])] + BreachedAmong(s, c, ms[1..])
    else BreachedAmong(s, c, ms[1..])
  }

  /** Evaluation agrees with filtering CPU, RAM, NET through the breach test. */
  lemma EvaluateIsFilter(s: Sample, c: Config)
    ensures Evaluate(s, c) == BreachedAmong(s, c, [CPU, RAM, NET])
  {
    var net := if Breaches(s, c, NET) then [AlertFor(s, c, NET)] else [];
    var ram := if Breaches(s, c, RAM) then [AlertFor(s, c, RAM)] else [];
    var cpu := if Breaches(s, c, CPU) then [AlertFor(s, c, CPU)] else [];
    assert [NET][1..] == [];
    assert BreachedAmong(s, c, [NET]) == net;
    assert [RAM, NET][1..] == [NET];
    assert BreachedAmong(s, c, [RAM, NET]) == ram + net;
    assert [CPU, RAM, NET][1..] == [RAM, NET];
    assert BreachedAmong(s, c, [CPU, RAM, NET]) == cpu + (ram + net);
    assert cpu + (ram + net) == cpu + ram + net;
  }

  /** The contract determines the list: any list that meets it is the one
      `main` builds. */
  lemma AlertListUnique(s: Sample, c: Config, a: seq<Alert>)
    requires IsAlertListFor(s, c, a)
    ensures a == Evaluate(s, c)
  {
    var e := Evaluate(s, c);
    assert forall m :: Mentions(a, m) <==> Mentions(e, m) by {
      forall m ensures Mentions(a, m) <==> Mentions(e, m) {
        match m
        case CPU =>
        case RAM =>
        case NET =>
      }
    }
    OrderedListDeterminedByMetrics(a, e);
  }

  /** In a strictly ordered list, a metric mentioned after the head is not
      the head's metric, so a list starting with the same metric mentions it
      after its head too. */
  lemma TailMentions(a: seq<Alert>, b: seq<Alert>, m: Metric)
    requires StrictlyOrdered(a) && a != [] && b != []
    requires a[0].metric == b[0].metric
    requires Mentions(b, m)
    requires Mentions(a[1..], m)
    ensures Mentions(b[1..], m)
  {
    var k :| 0 <= k < |a[1..]| && a[1..][k].metric == m;
    assert a[k + 1].metric == m;
    var l :| 0 <= l < |b| && b[l].metric == m;
    assert l != 0;
    assert b[1..][l - 1].metric == m;
  }

  /** Two strictly ordered lists that mention the same metrics, each alert
      fixed by its metric, are equal. */
  lemma OrderedListDeterminedByMetrics(a: seq<Alert>, b: seq<Alert>)
    requires StrictlyOrdered(a) && StrictlyOrdered(b)
    requires forall m :: Mentions(a, m) <==> Mentions(b, m)
    requires forall i, j :: 0 <= i < |a| && 0 <= j < |b| && a[i].metric == b[j].metric ==> a[i] == b[j]
    ensures a == b
    decreases |a| + |b|
  {
    if a == [] || b == [] {
      if a != [] {
        assert Mentions(a, a[0].metric);
      } else if b != [] {
        assert Mentions(b, b[0].metric);
      }
    } else {
      // The first element of each list is the least-ranked metric either mentions.
      assert Mentions(a, a[0].metric);
      var j :| 0 <= j < |b| && b[j].metric == a[0].metric;
      assert Mentions(b, b[0].metric);
      var i :| 0 <= i < |a| && a[i].metric == b[0].metric;
      assert a[0] == b[0];
      var a', b' := a[1..], b[1..];
      forall m ensures Mentions(a', m) <==> Mentions(b', m) {
        if Mentions(a', m) {
          assert Mentions(a, m) by { var k :| 0 <= k < |a'| && a'[k].metric == m; assert a[k + 1] == a'[k]; }
          TailMentions(a, b, m);
        }
        if Mentions(b', m) {
          assert Mentions(b, m) by { var k :| 0 <= k < |b'| && b'[k].metric == m; assert b[k + 1] == b'[k]; }
          TailMentions(b, a, m);
        }
      }
      OrderedListDeterminedByMetrics(a', b');
    }
  }

  /** A CPU reading equal to its threshold alerts. */
  lemma CpuBoundaryIsInclusive(c: Config)
    requires c.cpuWarn == 85
    ensures Mentions(Evaluate(Sample(85.0, 0.0, 0.0), c), CPU)
  {
  }

  /** A CPU reading just below its threshold does not alert. */
  lemma CpuJustBelowDoesNotAlert(c: Config)
    requires c.cpuWarn == 85
    ensures !Mentions(Evaluate(Sample(84.9, 0.0, 0.0), c), CPU)
  {
  }

  /** With CPU_WARN=10 and the default RAM and network limits, the
      readings 50.0 / 20.0 / 5.0 give exactly the CPU alert. */
  lemma ForcedCpuBreach(csvPath: string)
    ensures Evaluate(Sample(50.0, 20.0, 5.0), Defaults(csvPath).(cpuWarn := 10))
            == [Alert(CPU, 50.0, 10.0)]
  {
  }
}
