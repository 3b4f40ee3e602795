/**
 Composition of the alert notification (SHM/monitor.py lines 120-123): a
 header naming the timestamp and host, one "- " line per alert in alert
 order, a blank line, and a line naming the tabular log. The text of a single
 alert (its number formatting) is the abstract `render`.
 */
module Message {
  import opened Alerts

  /** The first line of every notification. */
  function Header(ts: string, host: string): string
  {
    "[System Health Alert @ " + ts + " on " + host + "]"
  }

  /** The last line of every notification. */
  function LogLocation(csvPath: string): string
  {
    "Log: " + csvPath
  }

  /** One "- "-prefixed line per alert, in the same order. */
  function Bullets(alerts: seq<Alert>, render: Alert -> string): (lines: seq<string>)
    ensures |lines| == |alerts|
    ensures forall i :: 0 <= i < |alerts| ==> lines[i] == "- " + render(alerts[i])
  {
    if alerts == [] then []
    else ["- " + render(alerts[0])] + Bullets(alerts[1..], render)
  }

  /** Python's `sep.join(xs)`. */
  function Join(sep: string, xs: seq<string>): string
  {
    if |xs| == 0 then ""
    else if |xs| == 1 then xs[0]
    else xs[0] + sep + Join(sep, xs[1..])
  }

  /** Python's `s.split("\n")`: never empty, one piece more than newlines. */
  function SplitLines(s: string): (pieces: seq<string>)
    ensures |pieces| >= 1
  {
    if s == [] then [""]
    else
      var rest := SplitLines(s[1..]);
      if s[0] == '\n' then [""] + rest
      else [[s[0]] + rest[0]] + rest[1..]
  }

  /** The notification text exactly as `main` concatenates it: it opens with
      the header line and closes with a blank line and the log location. */
  function MessageText(ts: string, host: string, alerts: seq<Alert>,
                       render: Alert -> string, csvPath: string): (text: string)
    ensures |text| >= |Header(ts, host)| + 3 + |LogLocation(csvPath)|
    ensures text[..|Header(ts, host)| + 1] == Header(ts, host) + "\n"
    ensures text[|text| - |LogLocation(csvPath)| - 2..] == "\n\n" + LogLocation(csvPath)
  {
    var h, body, tail := Header(ts, host) + "\n", Join("\n", Bullets(alerts, render)), "\n" + "\n" + LogLocation(csvPath);
    var text := h + body + tail;
    assert text == h + (body + tail);
    assert text[..|h|] == h;
    assert text[|text| - |tail|..] == tail;
    text
  }

  /** The notification as a list of lines: header, bullets, blank, log location. */
  function MessageLines(ts: string, host: string, alerts: seq<Alert>,
                        render: Alert -> string, csvPath: string): (lines: seq<string>)
    ensures |lines| == |alerts| + 3
    ensures lines[0] == Header(ts, host)
    ensures forall i :: 0 <= i < |alerts| ==> lines[i + 1] == "- " + render(alerts[i])
    ensures lines[|alerts| + 1] == ""
    ensures lines[|alerts| + 2] == LogLocation(csvPath)
  {
    [Header(ts, host)] + Bullets(alerts, render) + ["", LogLocation(csvPath)]
  }

  /** None of the pieces a message is built from contains a newline. */
  predicate SingleLinePieces(ts: string, host: string, alerts: seq<Alert>,
                             render: Alert -> string, csvPath: string)
  {
    && '\n' !in ts && '\n' !in host && '\n' !in csvPath
    && forall i :: 0 <= i < |alerts| ==> '\n' !in render(alerts[i])
  }

  /** Joining two non-empty lists is joining their joins. */
  lemma {:induction false} JoinAppend(sep: string, xs: seq<string>, ys: seq<string>)
    requires |xs| >= 1 && |ys| >= 1
    ensures Join(sep, xs + ys) == Join(sep, xs) + sep + Join(sep, ys)
  {
    if |xs| == 1 {
      assert (xs + ys)[1..] == ys;
    } else {
      assert (xs + ys)[1..] == xs[1..] + ys;
      JoinAppend(sep, xs[1..], ys);
    }
  }

  /** A string without newlines splits into itself. */
  lemma {:induction false} SplitSingleLine(a: string)
    requires '\n' !in a
    ensures SplitLines(a) == [a]
  {
    if a != [] {
      SplitSingleLine(a[1..]);
      assert [a[0]] + a[1..] == a;
    }
  }

  /** Splitting at the first newline peels off the line before it. */
  lemma {:induction false} SplitFirstLine(a: string, b: string)
    requires '\n' !in a
    ensures SplitLines(a + "\n" + b) == [a] + SplitLines(b)
  {
    var s := a + "\n" + b;
    if a == [] {
      assert s[1..] == b;
    } else {
      assert s[1..] == a[1..] + "\n" + b;
      SplitFirstLine(a[1..], b);
      assert [a[0]] + a[1..] == a;
    }
  }

  /** Splitting undoes joining with newlines when no line has one. */
  lemma {:induction false} SplitJoin(xs: seq<string>)
    requires |xs| >= 1
    requires forall i :: 0 <= i < |xs| ==> '\n' !in xs[i]
    ensures SplitLines(Join("\n", xs)) == xs
  {
    if |xs| == 1 {
      SplitSingleLine(xs[0]);
    } else {
      SplitFirstLine(xs[0], Join("\n", xs[1..]));
      SplitJoin(xs[1..]);
    }
  }

  /** With at least one alert, the concatenated text is the line list joined
      with newlines. */
  lemma TextJoinsLines(ts: string, host: string, alerts: seq<Alert>,
                       render: Alert -> string, csvPath: string)
    requires alerts != []
    ensures MessageText(ts, host, alerts, render, csvPath)
            == Join("\n", MessageLines(ts, host, alerts, render, csvPath))
  {
    var h, b, t := [Header(ts, host)], Bullets(alerts, render), ["", LogLocation(csvPath)];
    JoinAppend("\n", h, b);
    JoinAppend("\n", h + b, t);
    assert t[1..] == [LogLocation(csvPath)];
  }

  /** Read back line by line, the notification is the header, one "- " line
      per alert in order, a blank line and the log location line: |alerts| + 3 lines. */
  lemma MessageRoundTrip(ts: string, host: string, alerts: seq<Alert>,
                         render: Alert -> string, csvPath: string)
    requires alerts != []
    requires SingleLinePieces(ts, host, alerts, render, csvPath)
    ensures SplitLines(MessageText(ts, host, alerts, render, csvPath))
            == MessageLines(ts, host, alerts, render, csvPath)
    ensures |SplitLines(MessageText(ts, host, alerts, render, csvPath))| == |alerts| + 3
  {
    var lines := MessageLines(ts, host, alerts, render, csvPath);
    TextJoinsLines(ts, host, alerts, render, csvPath);
    forall i | 0 <= i < |lines| ensures '\n' !in lines[i] {
      if 0 < i <= |alerts| {
        assert lines[i] == "- " + render(alerts[i - 1]);
      }
    }
    SplitJoin(lines);
  }

  /** Without alerts the concatenation is the header, a newline, then two
      more newlines and the log location. */
  lemma EmptyAlertText(ts: string, host: string, render: Alert -> string, csvPath: string)
    ensures MessageText(ts, host, [], render, csvPath)
            == Header(ts, host) + "\n" + ("\n" + ("\n" + LogLocation(csvPath)))
  {
    assert Bullets([], render) == [];
    assert Join("\n", Bullets([], render)) == "";
  }

  /** A line, two blank lines and a line, joined by newlines, split back. */
  lemma SplitTwoBlanks(h: string, l: string)
    requires '\n' !in h && '\n' !in l
    ensures SplitLines(h + "\n" + ("\n" + ("\n" + l))) == [h, "", "", l]
  {
    var t2 := "\n" + l;
    var t1 := "\n" + t2;
    SplitSingleLine(l);
    assert "" + "\n" + l == t2;
    SplitFirstLine("", l);
    assert "" + "\n" + t2 == t1;
    SplitFirstLine("", t2);
    SplitFirstLine(h, t1);
  }

  /** Without any alert the same concatenation would read back as the header,
      two blank lines and the log location. */
  lemma EmptyAlertTextDiffers(ts: string, host: string, render: Alert -> string, csvPath: string)
    requires SingleLinePieces(ts, host, [], render, csvPath)
    ensures SplitLines(MessageText(ts, host, [], render, csvPath))
            == [Header(ts, host), "", "", LogLocation(csvPath)]
  {
    EmptyAlertText(ts, host, render, csvPath);
    SplitTwoBlanks(Header(ts, host), LogLocation(csvPath));
  }
}
