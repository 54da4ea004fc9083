# Network readiness check: scan loop and run controller

A Dafny model of the core of the Liquid Galaxy network diagnostics tool
(`app.py`). The tool probes a fixed, ordered catalog of ten services on
127.0.0.1. For the port-123 clock-synchronization service the code calls the NTP
client as `c.request(host, port)`. Every other port gets a TCP connect with a
10-second timeout. The scan runs on a
background thread (`PortChecker`). It pushes `(port, status)` events onto a FIFO
queue and writes a plain-text report. A controller (`Application`) starts at most
one checker at a time, forwards cancellation to it, and polls the queue until the
`(0, finished)` sentinel arrives.

The modules follow the program:

- `Catalog`: `REQUIRED_PORTS`, `NTP_PORT` and `SOCKET_TIMEOUT`.
- `Probes`: the requests the checks send, and the dispatch between them.
- `Events`: the statuses, the events and the ok/error classification.
- `Decimal`: how a port number is printed in the report.
- `Scan`: a specification, written as functions, of the events, requests and
  report text that one run produces.
- `Channels`: the shared queue.
- `Checker`: the `PortChecker` class and its loop, proved against `Scan`.
- `Controller`: the `Application` class and a whole diagnostics session.

The network is an oracle `Network = Probe -> Outcome`. It gives each request
the checker sends an answer: no error, or an error with its text. The checker
keeps a log of the requests it sends. That log makes the dispatch (NTP for port
123, TCP for the rest) and the rule "cancelled targets are never probed"
statements about the model.

The consumer thread's `quit()` is modelled in two ways:

- as `Application.Cancel` before the scan thread runs;
- as the `cancelAt` argument of `PortChecker.Run`. This is the loop top at which
  the call lands. At that point the loop performs `Quit` itself, just before it
  reads the flag.

Three points of the code that the model keeps as written:

- The code creates one queue in the `Application` constructor (app.py:42) and
  reuses it for every run. No run gets a fresh queue. `Application.Valid`
  shows the reuse is safe: with no active checker, the queue is empty.
- A completed run pushes 2N+1 events: running and verdict per target, then the
  sentinel. No pending or cancelled status is ever pushed.
- The cancellation note is the `"Quitting!\n"` line that `quit()` appends when it
  is called. A quit made before the thread body starts is lost. This is because
  `run()` resets the report to `"Starting checks...\n"` (app.py:202).

## Model

| member | source | states |
|---|---|---|
| `Catalog.RequiredPortsWellFormed` | app.py:20-31 | the catalog has ten targets; every port is in 1..65535, so port 0 never appears; no port repeats; only the third target uses the NTP port |
| `Probes.ProbeFor` | app.py:219-226 | port 123 and only port 123 goes to the NTP client call; every other port gets a TCP connect with the 10-second socket timeout; both requests carry the target's host and port as the two arguments the code passes (for the NTP call, the arguments as written, not what the client library binds them to) |
| `Probes.ProbeForInjective` | app.py:20-31 | two different targets of a well-formed catalog are never probed with the same request |
| `Events.Verdict` | app.py:228-239 | a check with no error gives `success`; a check with an error gives a failed status carrying that error; the event keeps the target's port and is never `running` or `finished` |
| `Decimal.Text` | app.py:214 | a port is printed as a non-empty run of decimal digits with no leading zero |
| `Decimal.ParseText` | app.py:214 | the printed port reads back as the same number |
| `Decimal.TextInjective` | app.py:214 | different ports are printed differently in the report |
| `Scan.Visited` | app.py:210-212 | a run visits at most the whole catalog; it visits fewer targets only when the flag was already set (then none) or the quit landed at that loop top; it visits all of them exactly when no quit is seen |
| `Scan.VisitStep` | app.py:210-239 | visiting one more target extends the events, requests and report by exactly that target's share |
| `Scan.VisitEventsShape` | app.py:213-239 | visiting N targets pushes 2N events: for each target, in catalog order, `running`, then its verdict from the check it was dispatched to |
| `Scan.RunEventsShape` | app.py:210-241 | a run that visits k targets pushes exactly 2k+1 events: the pairs in catalog order, then the sentinel `(0, finished)` |
| `Scan.RunEndsWithSentinelOnce` | app.py:241 | however the loop ended, normally or through `break`, `finished` appears exactly once, on the last event, which is `(0, finished)` |
| `Scan.SentinelPortUnique` | app.py:210-241 | in a well-formed catalog, port 0 is carried by the sentinel and by no other event |
| `Scan.RunningThenVerdict` | app.py:211-239 | every `running` event is followed at once by a success or failure event for the same port; no cancellation falls between the two |
| `Scan.RequestsShape` | app.py:219-226 | visiting N targets sends N requests, one per target in order, each the one dispatch chooses |
| `Scan.CancelledTargetsUntouched` | app.py:210-212 | the targets from the cancellation point on get no event and are never probed |
| `Scan.VisitEventsPrefix` | app.py:215-238 | the events of a cancelled run are a prefix of the uncancelled run's events, so cancelling never rewrites events already pushed |
| `Scan.VisitReportPrefix` | app.py:214-239 | the report entries of a cancelled run are a prefix of the uncancelled run's entries |
| `Scan.ReportAgreesWithEvents` | app.py:214-239 | the report holds one entry per visited target, in catalog order: `Checking connection to host:port... ` then `successful!` or `Connection failed. Error: <e>`, matching the verdict pushed for that target |
| `Channels.Channel.constructor` | app.py:42 | the queue starts empty |
| `Channels.Channel.Put` | app.py:215-218 | `put` appends at the back |
| `Channels.Channel.Get` | app.py:157 | a non-blocking `get` takes the oldest event, or reports that the queue is empty and leaves it unchanged |
| `Checker.PortChecker.constructor` | app.py:188-193 | a new checker is bound to the given queue, with an empty report, the flag clear, and nothing sent |
| `Checker.PortChecker.Quit` | app.py:205-207 | appends `Quitting!` to the report and sets the flag |
| `Checker.PortChecker.Emit` | app.py:215-218 | one `put` on the shared queue, also recorded in the checker's log of sent events |
| `Checker.PortChecker.Ask` | app.py:220-224 | one network request (the NTP call or the TCP connect): the answer is the network's, and the request is logged |
| `Checker.PortChecker.CheckSocket` | app.py:243-253 | a TCP connect with the socket timeout against the given host and port |
| `Checker.PortChecker.CheckTarget` | app.py:213-239 | for one target: pushes `running`, then its verdict; sends exactly the dispatched request; appends exactly that target's report entry |
| `Checker.PortChecker.CheckAllSockets` | app.py:209-241 | the queue gains exactly the run's events, ending with the sentinel; the report gains only the visited targets' entries (plus the quit note if the quit landed); the flag is never cleared |
| `Checker.PortChecker.Run` | app.py:195-203 | the report restarts at `Starting checks...` and then holds exactly the scan's text; events and requests are as described for `CheckAllSockets` |
| `Controller.Application.constructor` | app.py:41-42 | a new controller has no checker and a fresh, empty queue |
| `Controller.Application.Cancel` | app.py:54-57 | with an active checker, sets its flag and appends its quit note, leaving its sent events and its requests unchanged; with none, touches nothing |
| `Controller.Application.DoChecks` | app.py:141-147 | does nothing while a checker is active; otherwise installs a new checker on the shared queue |
| `Controller.Application.CheckForUpdates` | app.py:155-184 | an empty poll changes nothing; a status event is handed on and removed; the sentinel hands over the report and clears the checker, leaving the queue empty |
| `Controller.Application.Drain` | app.py:155-184 | polling until the sentinel hands over every event of the run in order, then the report, and leaves the controller idle with an empty queue |
| `Controller.Session` | app.py:141-184 | in a full session (start, ignored second start, optional early cancel, the run, polling), the consumer sees exactly the visited targets' events in order and receives exactly the run's report |

## Left out

- All tkinter work is left out as presentation only: widgets, colours, images, the
  report box, the clipboard, `on_close`, `mainloop`, and the lookup of a widget
  by port. The 100 ms `root.after` cadence is one iteration of the `Drain` loop.
- The network itself is left out: `socket.connect` with its timeout and
  `ntplib.NTPClient().request`. These are foreign I/O, modelled as the oracle's
  answer to a logged request. The NTP client's own timeout is not modelled.
- `Probes.ProbeFor`: the NTP request records the two arguments of
  `c.request(host, port)` (app.py:222) as written. In the ntplib signature
  `request(host, version=2, port='ntp', timeout=5)` the second positional
  argument binds to `version`, so the call probably asks for NTP version 123 and
  fails inside the library (not executed; ntplib is not part of this model).
  The oracle is unconstrained, so the model also admits a successful NTP check,
  which the program as written likely never produces; an error from that
  call is handled like any other failed check.
- `Checker.PortChecker.CheckSocket`: `socket.socket(...)` and `settimeout`
  (app.py:247-248) run outside the `try` at app.py:249. An exception there (for
  example, no free file descriptors) escapes `check_all_sockets`, so the thread
  dies without putting the sentinel of app.py:241. In the program the poll
  then reschedules forever and `self.checker` never clears, so every later
  start is refused. The model does not have this path: every check returns an
  outcome, and `Scan.RunEndsWithSentinelOnce` holds only for runs that do not
  take it.
- Threading is left out: `threading.Thread`, `start()`, daemon threads and the
  queue's locking. The thread body `Run` runs in one piece relative to polling.
  Because the queue is FIFO, polls that would interleave with it see the same
  events in the same order.
- `Checker.PortChecker.CheckAllSockets`: a quit that arrives during a check is
  modelled as landing at the next loop top. In the program, its `Quitting!`
  line can fall in the middle of that target's report entry. A quit after the
  last loop top is left to `Application.Cancel` after `Run`. That changes the
  report and no event.
- `Checker.PortChecker.Run` does not forbid a second execution on the same
  checker. In the program, `Thread.start` forbids it; the model relies on its
  callers running it once.
- Python specifics are left out: the `is` comparisons of status strings, the
  truthiness of exception objects, and the text of `str(e)`. An error is an opaque
  string.
- Memory visibility of the quit flag and the unsynchronised `+=` on the report
  from two threads are not modelled.
