# System health monitor — Dafny model

A model of the single-shot host health sampler in `SHM/monitor.py`. One
invocation initialises two append-only log files (`metrics.csv` with a
five-column header, `metrics.jsonl` with one JSON object per line), takes one
sample of CPU %, RAM % and network throughput, compares the sample with three
thresholds, appends the sample to both logs, and, only when some threshold is
met or exceeded, composes an alert message and hands it to the terminal
broadcast and e-mail channels.

Modules, following the script's pieces:

- `Config` — the parsed settings (`CPU_WARN`, `RAM_WARN`, `NET_WARN_Mbps`,
  `SAMPLE_SECONDS`, `EMAIL_TO`, `SMTP_HOST`, the CSV path) and the `Sample`.
- `Throughput` — `bytes_to_mbps` and the window floors used by `collect`.
- `Alerts` — the alert list of `main` as structured `Alert(metric, value, threshold)` values.
- `Message` — the notification text, both as the literal concatenation `main`
  builds and as a list of lines, with Python's `join` and `split("\n")`.
- `Notify` — which terminal channel and which e-mail channel carry a message.
- `LogStore` — the two files as `Option<seq<…>>` state; `ensure_logs` and
  `append_logs` as transitions; the consistency invariant.
- `Monitor` — `collect` and one run of `main`, and any number of runs in sequence.
- `Wrappers` — the `Option` type.

The per-run inputs the operating system supplies (the clock, the psutil
readings, the two network counter snapshots, whether `wall` and `mail` exist
and whether invoking them raises) are fields of `Monitor.Invocation`. The host
name from `socket.gethostname()` (SHM/monitor.py:29) is the separate `host`
parameter of `Monitor.Run` and `Monitor.RunAll`, and the CSV path, which
depends on the user's home directory (SHM/monitor.py:19, 27), is
`Config.csvPath`. Numbers are Dafny `real`s, not IEEE floats. Log lines are
the records they encode, so CSV quoting, JSON encoding and decimal formatting
are abstract; the text of one alert is an abstract `render: Alert -> string`.

Behaviour of the code worth knowing, which the model follows:

- Only a failing `mail` or `wall` invocation is caught (SHM/monitor.py:62-65,
  73-78); an SMTP, STARTTLS or login error propagates out of `main` after both
  logs were appended (SHM/monitor.py:86-91, 118-125). `Notify.EmailDelivery`
  returning `ViaSmtp` means SMTP is the channel tried, not that it succeeded.
- Any window below 0.001 s, not only a zero or negative one, is divided by the
  0.001 floor, while the sleep is `max(0, window)` (SHM/monitor.py:41, 45);
  see `Throughput.WindowFloorBelowMinimum`.
- `append_logs` opens both files in append mode, which creates a missing file;
  a CSV file created that way has no header (`LogStore.AppendToMissingCsvHasNoHeader`).
  `main` always runs `ensure_logs` first, so this never happens in a run.

## Model

| member | source | states |
|---|---|---|
| Config.Defaults | SHM/monitor.py:13-21 | without overrides the thresholds are CPU 85 %, memory 90 % and network 200 Mbps, the window is 2 seconds, and there is neither a recipient nor an SMTP host |
| Alerts.Evaluate | SHM/monitor.py:110-116 | the alert list is strictly ordered CPU, RAM, NET (so at most one alert per metric and at most three); a metric has an alert exactly when its reading is `>=` its threshold; each alert carries the sampled value and its threshold; the list is empty exactly when all three readings are below their thresholds |
| Alerts.EvaluateIsFilter | SHM/monitor.py:110-116 | the alert list equals the independent reference: CPU, RAM, NET filtered through the inclusive breach test |
| Alerts.AlertListUnique | SHM/monitor.py:110-116 | any list that is ordered, mentions exactly the breached metrics and carries their values and thresholds is the list `main` builds |
| Alerts.OrderedListDeterminedByMetrics | SHM/monitor.py:110-116 | two strictly ordered alert lists that mention the same metrics, with the same alert per metric, are equal |
| Alerts.CpuBoundaryIsInclusive | SHM/monitor.py:111-112 | a CPU reading of 85 against a threshold of 85 produces a CPU alert |
| Alerts.CpuJustBelowDoesNotAlert | SHM/monitor.py:111-112 | a CPU reading of 84.9 against a threshold of 85 produces no CPU alert |
| Alerts.ForcedCpuBreach | SHM/monitor.py:110-116 | with CPU threshold 10 and default RAM/NET thresholds, readings 50 / 20 / 5 give exactly one alert, CPU 50 against 10 |
| Message.Bullets | SHM/monitor.py:122 | one line per alert, the i-th being "- " followed by the i-th alert's rendering |
| Message.MessageLines | SHM/monitor.py:120-123 | the notification has `len(alerts) + 3` lines: the header naming timestamp and host, the bullets in alert order, an empty line, and "Log: " with the CSV path |
| Message.JoinAppend | SHM/monitor.py:122 | joining two non-empty line lists with a separator is joining each and putting the separator between |
| Message.SplitJoin | SHM/monitor.py:122 | splitting at newlines recovers any non-empty list of newline-free lines joined with newlines |
| Message.MessageText | SHM/monitor.py:121-123 | the text `main` concatenates opens with the header line and a newline and closes with a blank line and the "Log: " line; `TextJoinsLines` and `MessageRoundTrip` state its full line structure |
| Message.TextJoinsLines | SHM/monitor.py:121-123 | with at least one alert, the concatenated text is exactly the line list joined with newlines |
| Message.MessageRoundTrip | SHM/monitor.py:120-123 | when the timestamp, host, CSV path and alert renderings contain no newline, the text sent, read back line by line, is the header, one "- " line per alert in order, a blank line and the log location line: `len(alerts) + 3` lines |
| Message.EmptyAlertTextDiffers | SHM/monitor.py:120-123 | when the timestamp, host and CSV path contain no newline, without alerts the same concatenation would read back as exactly four lines: the header, two blank lines and the log location line |
| Throughput.BytesToMbps | SHM/monitor.py:34-35 | the result times the divisor times 10^6 is the byte count times 8; it is non-negative for a non-negative count over a positive window |
| Throughput.EffectiveWindow | SHM/monitor.py:45 | the divisor is the larger of 0.001 and the window, hence at least 0.001 and positive, so the division is always defined |
| Throughput.SleepSeconds | SHM/monitor.py:41 | the sleep is the larger of 0 and the window, never negative |
| Throughput.Mbps | SHM/monitor.py:40-45 | throughput times the floored window times 10^6 is 8 times the sent-plus-received byte delta; non-negative when both counters did not decrease |
| Throughput.WindowIsSleepAboveFloor | SHM/monitor.py:41-45 | for a window of at least 0.001 s the divisor and the sleep both equal the window |
| Throughput.WindowFloorBelowMinimum | SHM/monitor.py:41-45 | below 0.001 s the divisor is the floor 0.001 while the sleep is shorter |
| Throughput.MbpsMonotone | SHM/monitor.py:34-35 | over a positive window, more bytes never give lower throughput |
| Notify.TerminalChannelFor | SHM/monitor.py:60-67 | the message goes to `wall` exactly when `wall` is installed and its invocation does not raise, otherwise to standard output |
| Notify.EmailAttempts | SHM/monitor.py:69-91 | no attempt without a recipient; `mail` is tried exactly when a recipient is set and `mail` is on the PATH; SMTP is tried exactly when a recipient is set, `mail` is absent or raised, and a host is configured; when both are tried, `mail` comes first |
| Notify.EmailDelivery | SHM/monitor.py:69-91 | nothing is sent without a recipient; `mail` delivers exactly when a recipient is set and `mail` exists and does not raise; SMTP is used exactly when a recipient is set, `mail` is absent or raised, and an SMTP host is set |
| Notify.DeliveryIsLastSuccessfulAttempt | SHM/monitor.py:69-91 | the chosen channel agrees with the attempt list: SMTP iff SMTP was tried, `mail` iff it was tried and did not raise, nothing iff no attempt or only a raising `mail` |
| LogStore.EnsureLogs | SHM/monitor.py:48-55 | afterwards both files exist; an existing file is left as it was; a missing CSV file gets exactly the header line and a missing JSON file is empty |
| LogStore.AppendLogs | SHM/monitor.py:93-103 | each file grows by exactly one line, every earlier line unchanged, the new CSV row and the new JSON line carrying the same record |
| LogStore.LogStep | SHM/monitor.py:106-118 | `ensure_logs` then `append_logs`, as `main` runs them: both files exist afterwards, nothing earlier is rewritten, the CSV file is the initialised one plus the record's row (a missing CSV file becomes the header followed by that row) and the JSON file the initialised one plus the record, and a consistent store stays consistent |
| LogStore.EnsureIdempotent | SHM/monitor.py:48-55 | running `ensure_logs` twice is the same as once |
| LogStore.EnsureAppendOnly | SHM/monitor.py:48-55 | `ensure_logs` never removes or rewrites a line of either file |
| LogStore.EnsureFromEmpty | SHM/monitor.py:48-55 | on a fresh directory `ensure_logs` yields a consistent store: the header alone and an empty JSON file |
| LogStore.EnsureOnConsistent | SHM/monitor.py:48-55 | on a consistent store `ensure_logs` changes nothing |
| LogStore.AppendPreservesConsistent | SHM/monitor.py:93-103 | appending a record keeps the header first, only data rows after it, and the i-th JSON line equal to the i-th data row |
| LogStore.AppendIsAppendOnly | SHM/monitor.py:93-103 | `append_logs` never removes or rewrites a line of either file |
| LogStore.HeaderExactlyOnce | SHM/monitor.py:50-53 | a consistent CSV file contains the header line exactly once |
| LogStore.AppendToMissingCsvHasNoHeader | SHM/monitor.py:94-96 | appending to a missing CSV file creates it with no header line |
| LogStore.LogStepOnConsistent | SHM/monitor.py:93-103 | on a consistent store, `ensure_logs` followed by `append_logs` appends exactly the record's row and JSON line and stays consistent |
| LogStore.InitialisedIsConsistent | SHM/monitor.py:48-55 | a store holding the header followed by one row per record, and the same records as JSON lines, is consistent and has its header exactly once |
| Monitor.Collect | SHM/monitor.py:37-46 | the sample keeps the CPU and memory readings, and its throughput times the floored window times 10^6 is 8 times the byte delta |
| Monitor.RecordOf | SHM/monitor.py:96-103 | the record written to both files carries the run's timestamp and host, and its three numbers read back as exactly the sample |
| Monitor.Run | SHM/monitor.py:105-125 | the alerts are those of the sample; a message exists exactly when some alert fired, and then it is the composed `MessageText`, the terminal channel is `TerminalChannelFor` of the `wall` inputs and the e-mail outcome is `EmailDelivery` of the configuration and `mail` inputs; without alerts nothing is sent; the sample is appended to both logs whether or not an alert fired, and nothing earlier is rewritten |
| Monitor.QuietRunOnlyLogs | SHM/monitor.py:110-125 | with every reading below its threshold there are no alerts, no message, no terminal or e-mail delivery, and still one JSON line is appended |
| Monitor.RunPreservesConsistent | SHM/monitor.py:105-118 | a run on a fresh or consistent store leaves it consistent |
| Monitor.RunAllAppendOnly | SHM/monitor.py:105-118 | any number of runs, from any state, rewrite no line already in either file |
| Monitor.RunAllOnConsistent | SHM/monitor.py:105-118 | from a consistent store N runs append exactly N CSV rows and the same N JSON records, in invocation order |
| Monitor.RunAllFromEmpty | SHM/monitor.py:105-118 | from an empty directory N > 0 runs give the header followed by the N invocations' rows, and their N records as JSON lines: the first run creates both files, later runs find them |
| Monitor.HistoryFromEmpty | SHM/monitor.py:105-118 | from an empty directory N > 0 runs leave one header line plus N rows in the CSV file and N JSON lines, the i-th JSON line's timestamp being the i-th invocation's and the first field of the i-th CSV row |
| Monitor.TwoRunsFromEmpty | SHM/monitor.py:105-118 | two runs against an empty directory give one header, two data rows and two JSON lines |

## Left out

- Monitor.Run: a failing print to standard output in `notify_terminal` (SHM/monitor.py:65, 67) is not modelled. Every alert line contains "≥", so on a terminal whose encoding cannot represent it the print raises, which ends the run before `notify_email` (line 125) and the summary line. The model assumes printing succeeds, so its `email` field is what would be attempted after a successful print.
- A failing open or write in `ensure_logs`/`append_logs` (SHM/monitor.py:48-55, 93-103): the error ends the run and can leave the CSV file one row ahead of the JSON file, breaking the row/line correspondence; the model assumes every write succeeds.
- The psutil readings, the import-time check for psutil and `time.sleep` (SHM/monitor.py:6-10, 37-46): operating-system calls; their results are fields of `Invocation`.
- Invoking `wall`, `mail` and `smtplib` (SHM/monitor.py:57-91): only the channel decision is modelled. Whether `mail` raised is an input; this also covers `has_cmd` finding `mail` on the PATH while `/usr/bin/mail` is what gets run. A non-zero exit of `mail` is not an exception, so it counts as delivered.
- The SMTP message headers (subject, From fallback, To), STARTTLS and login (SHM/monitor.py:80-91): library calls with no decision the rest of the run depends on.
- Parsing environment variables with `int()` / `float()` and creating the log directory (SHM/monitor.py:13-29, 49): configuration is the given `Config` value.
- IEEE floating point, `:.1f` / `:.3f` formatting and `round` (SHM/monitor.py:96, 100-102, 112-116, 127): numbers are reals; a log line holds the record's values, and the text of an alert is the abstract `render`.
- CSV quoting, JSON encoding and `datetime.isoformat` (SHM/monitor.py:31-32, 94-103): lines and timestamps are opaque values.
- The summary line printed at the end of a run (SHM/monitor.py:127): output formatting only.
- Concurrent runs against the same log directory: the code takes no lock, so interleavings are not modelled; runs are sequential.
- An SMTP failure ending the process: the model records SMTP as the chosen channel and does not model the exception.
