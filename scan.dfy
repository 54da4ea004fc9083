/** What one scan run produces, as functions of the catalog, the network's
    answers and the point at which it was cancelled: the events it puts on the
    queue, the requests it sends and the report text it writes (app.py, lines
    195-241). The checker's loop is proved against these functions; the lemmas
    below state what they promise. */
module Scan {
  import opened Catalog
  import opened Probes
  import opened Events
  import Decimal

  const StartMarker: string := "Starting checks...\n"
  const QuitMarker: string := "Quitting!\n"
  const SuccessLine: string := "successful!\n"

  /** Written to the report before a target is probed. */
  function CheckingLine(t: Target): string {
    "Checking connection to " + t.host + ":" + Decimal.Text(t.port) + "... "
  }

  function FailureLine(cause: string): string {
    "Connection failed. Error: " + cause + "\n"
  }

  /** Written to the report once a target's check returned. */
  function ResultLine(o: Outcome): string {
    match o
    case Reachable => SuccessLine
    case Unreachable(cause) => FailureLine(cause)
  }

  /** The two events of a visited target: running, then its verdict. */
  function TargetEvents(t: Target, net: Network): seq<Event> {
    [Event(t.port, Running), Verdict(t.port, net(ProbeFor(t)))]
  }

  /** Events of visiting the targets `ts` in order. */
  function VisitEvents(ts: seq<Target>, net: Network): seq<Event>
    decreases |ts|
  {
    if ts == [] then [] else VisitEvents(ts[..|ts| - 1], net) + TargetEvents(ts[|ts| - 1], net)
  }

  /** Network requests sent while visiting the targets `ts` in order. */
  function Requests(ts: seq<Target>): seq<Probe>
    decreases |ts|
  {
    if ts == [] then [] else Requests(ts[..|ts| - 1]) + [ProbeFor(ts[|ts| - 1])]
  }

  /** The report entry of a visited target. */
  function TargetReport(t: Target, net: Network): string {
    CheckingLine(t) + ResultLine(net(ProbeFor(t)))
  }

  /** Report text written while visiting the targets `ts` in order. */
  function VisitReport(ts: seq<Target>, net: Network): string
    decreases |ts|
  {
    if ts == [] then "" else VisitReport(ts[..|ts| - 1], net) + TargetReport(ts[|ts| - 1], net)
  }

  /** Number of catalog targets a run of `n` targets visits. The quit flag is
      read once at the top of every iteration: `quitFirst` says it was set
      before the run began, `cancelAt` is the loop top at which the consumer's
      quit lands (a value of `n` or more: it does not land during the loop). */
  function Visited(quitFirst: bool, cancelAt: nat, n: nat): (k: nat)
    ensures k <= n
    ensures k < n ==> quitFirst || k == cancelAt
    ensures k == n <==> n == 0 || (!quitFirst && cancelAt >= n)
    ensures quitFirst ==> k == 0
    ensures !quitFirst && cancelAt < n ==> k == cancelAt
  {
    if quitFirst then 0 else if cancelAt < n then cancelAt else n
  }

  /** Whether the consumer's quit is reached at all: the loop stops at the
      first loop top that sees the flag set, so a quit planned for a later
      loop top never happens inside the run. */
  predicate QuitLands(quitFirst: bool, cancelAt: nat, n: nat) {
    cancelAt < n && (quitFirst ==> cancelAt == 0)
  }

  /** All events of a run that visited the first `k` targets. */
  function RunEvents(cat: seq<Target>, net: Network, k: nat): seq<Event>
    requires k <= |cat|
  {
    VisitEvents(cat[..k], net) + [Sentinel]
  }

  /** Report text the scan loop appends: one entry per visited target, then
      the quit note if the consumer's quit landed during the loop. */
  function ScanText(cat: seq<Target>, net: Network, quitFirst: bool, cancelAt: nat): string {
    var k := Visited(quitFirst, cancelAt, |cat|);
    VisitReport(cat[..k], net) + (if QuitLands(quitFirst, cancelAt, |cat|) then QuitMarker else "")
  }

  lemma AppendAssoc<T>(a: seq<T>, b: seq<T>, c: seq<T>)
    ensures a + b + c == a + (b + c)
  {
  }

  /** The two forms the scan's report text takes: with the quit note, or
      without it. */
  lemma ScanTextCases(cat: seq<Target>, net: Network, quitFirst: bool, cancelAt: nat, prefix: string)
    ensures var done := VisitReport(cat[..Visited(quitFirst, cancelAt, |cat|)], net);
      prefix + ScanText(cat, net, quitFirst, cancelAt) ==
        if QuitLands(quitFirst, cancelAt, |cat|) then prefix + done + QuitMarker else prefix + done
  {
  }

  /** Visiting one more target of `cat` extends events, requests and report
      by that target's share. */
  lemma VisitStep(cat: seq<Target>, net: Network, i: nat)
    requires i < |cat|
    ensures VisitEvents(cat[..i + 1], net) == VisitEvents(cat[..i], net) + TargetEvents(cat[i], net)
    ensures Requests(cat[..i + 1]) == Requests(cat[..i]) + [ProbeFor(cat[i])]
    ensures VisitReport(cat[..i + 1], net) == VisitReport(cat[..i], net) + TargetReport(cat[i], net)
  {
    assert cat[..i + 1][..i] == cat[..i];
  }

  /** The event stream of visiting `ts`: for every target, in order, its
      running event followed by its verdict. */
  lemma {:induction false} VisitEventsShape(ts: seq<Target>, net: Network)
    ensures |VisitEvents(ts, net)| == 2 * |ts|
    ensures forall i :: 0 <= i < |ts| ==>
      VisitEvents(ts, net)[2 * i] == Event(ts[i].port, Running) &&
      VisitEvents(ts, net)[2 * i + 1] == Verdict(ts[i].port, net(ProbeFor(ts[i])))
    decreases |ts|
  {
    if ts != [] {
      var init := ts[..|ts| - 1];
      VisitEventsShape(init, net);
      forall i | 0 <= i < |ts|
        ensures VisitEvents(ts, net)[2 * i] == Event(ts[i].port, Running)
        ensures VisitEvents(ts, net)[2 * i + 1] == Verdict(ts[i].port, net(ProbeFor(ts[i])))
      {
        if i < |ts| - 1 {
          assert ts[i] == init[i];
        }
      }
    }
  }

  /** A run that visited `k` targets pushes exactly 2k+1 events: running and
      verdict for every visited target in catalog order, then the sentinel. */
  lemma RunEventsShape(cat: seq<Target>, net: Network, k: nat)
    requires k <= |cat|
    ensures |RunEvents(cat, net, k)| == 2 * k + 1
    ensures RunEvents(cat, net, k)[2 * k] == Sentinel
    ensures forall i :: 0 <= i < k ==>
      RunEvents(cat, net, k)[2 * i] == Event(cat[i].port, Running) &&
      RunEvents(cat, net, k)[2 * i + 1] == Verdict(cat[i].port, net(ProbeFor(cat[i])))
  {
    var ts := cat[..k];
    VisitEventsShape(ts, net);
    forall i | 0 <= i < k
      ensures RunEvents(cat, net, k)[2 * i] == Event(cat[i].port, Running)
      ensures RunEvents(cat, net, k)[2 * i + 1] == Verdict(cat[i].port, net(ProbeFor(cat[i])))
    {
      assert ts[i] == cat[i];
    }
  }

  /** However the run ended, the finished status appears exactly once, on the
      last event, and that event is the sentinel. */
  lemma RunEndsWithSentinelOnce(cat: seq<Target>, net: Network, k: nat)
    requires k <= |cat|
    ensures SentinelOnlyLast(RunEvents(cat, net, k))
  {
    var r := RunEvents(cat, net, k);
    RunEventsShape(cat, net, k);
    forall j | 0 <= j < |r| - 1
      ensures r[j].status != Finished
    {
      var i := j / 2;
      assert j == 2 * i || j == 2 * i + 1;
      assert r[2 * i + 1] == Verdict(cat[i].port, net(ProbeFor(cat[i])));
    }
  }

  /** In a well-formed catalog the sentinel's port 0 is carried by the last
      event and by no other. */
  lemma SentinelPortUnique(cat: seq<Target>, net: Network, k: nat)
    requires WellFormed(cat)
    requires k <= |cat|
    ensures forall j :: 0 <= j < |RunEvents(cat, net, k)| ==>
      (RunEvents(cat, net, k)[j].port == 0 <==> j == 2 * k)
  {
    var r := RunEvents(cat, net, k);
    RunEventsShape(cat, net, k);
    forall j | 0 <= j < |r|
      ensures r[j].port == 0 <==> j == 2 * k
    {
      if j < 2 * k {
        var i := j / 2;
        assert j == 2 * i || j == 2 * i + 1;
        assert ValidPort(cat[i].port);
      }
    }
  }

  /** A target that got its running event always gets its verdict next: no
      cancellation falls between the two. */
  lemma RunningThenVerdict(cat: seq<Target>, net: Network, k: nat)
    requires k <= |cat|
    ensures forall j :: 0 <= j < |RunEvents(cat, net, k)| && RunEvents(cat, net, k)[j].status == Running ==>
      j + 1 < |RunEvents(cat, net, k)| &&
      RunEvents(cat, net, k)[j + 1].port == RunEvents(cat, net, k)[j].port &&
      (RunEvents(cat, net, k)[j + 1].status == Success || RunEvents(cat, net, k)[j + 1].status.Failed?)
  {
    var r := RunEvents(cat, net, k);
    RunEventsShape(cat, net, k);
    forall j | 0 <= j < |r| && r[j].status == Running
      ensures j + 1 < |r| && r[j + 1].port == r[j].port
      ensures r[j + 1].status == Success || r[j + 1].status.Failed?
    {
      var i := j / 2;
      assert j == 2 * i || j == 2 * i + 1;
      assert r[2 * i + 1] == Verdict(cat[i].port, net(ProbeFor(cat[i])));
      assert j == 2 * i;
    }
  }

  /** The requests sent while visiting `ts`: one per target, in order, each
      the check `ProbeFor` dispatches to. */
  lemma {:induction false} RequestsShape(ts: seq<Target>)
    ensures |Requests(ts)| == |ts|
    ensures forall i :: 0 <= i < |ts| ==> Requests(ts)[i] == ProbeFor(ts[i])
    decreases |ts|
  {
    if ts != [] {
      var init := ts[..|ts| - 1];
      RequestsShape(init);
      forall i | 0 <= i < |ts| - 1
        ensures Requests(ts)[i] == ProbeFor(ts[i])
      {
        assert ts[i] == init[i];
      }
    }
  }

  /** Targets at or after the point of cancellation are never probed and get
      no event of any kind. */
  lemma CancelledTargetsUntouched(cat: seq<Target>, net: Network, k: nat, i: nat)
    requires WellFormed(cat)
    requires k <= i < |cat|
    ensures forall e :: e in RunEvents(cat, net, k) ==> e.port != cat[i].port
    ensures ProbeFor(cat[i]) !in Requests(cat[..k])
  {
    var r := RunEvents(cat, net, k);
    RunEventsShape(cat, net, k);
    forall e | e in r
      ensures e.port != cat[i].port
    {
      var j :| 0 <= j < |r| && r[j] == e;
      if j < 2 * k {
        var h := j / 2;
        assert j == 2 * h || j == 2 * h + 1;
        assert cat[h].port != cat[i].port;
      } else {
        assert ValidPort(cat[i].port);
      }
    }
    RequestsShape(cat[..k]);
    forall h | 0 <= h < k
      ensures Requests(cat[..k])[h] != ProbeFor(cat[i])
    {
      assert cat[..k][h] == cat[h];
      ProbeForInjective(cat, h, i);
    }
  }

  /** Visiting fewer targets emits a prefix of the events of visiting more:
      cancelling never rewrites events already pushed. */
  lemma {:induction false} VisitEventsPrefix(ts: seq<Target>, net: Network, k: nat)
    requires k <= |ts|
    ensures VisitEvents(ts[..k], net) <= VisitEvents(ts, net)
    decreases |ts|
  {
    if k < |ts| {
      var init := ts[..|ts| - 1];
      VisitEventsPrefix(init, net, k);
      assert init[..k] == ts[..k];
    } else {
      assert ts[..k] == ts;
    }
  }

  /** Likewise the report: a cancelled run's entries are a prefix of those of
      the run it was cut from. */
  lemma {:induction false} VisitReportPrefix(ts: seq<Target>, net: Network, k: nat)
    requires k <= |ts|
    ensures VisitReport(ts[..k], net) <= VisitReport(ts, net)
    decreases |ts|
  {
    if k < |ts| {
      var init := ts[..|ts| - 1];
      VisitReportPrefix(init, net, k);
      assert init[..k] == ts[..k];
    } else {
      assert ts[..k] == ts;
    }
  }

  /** Report text for a terminal status. */
  function StatusLine(s: Status): string {
    match s
    case Success => SuccessLine
    case Failed(cause) => FailureLine(cause)
    case _ => ""
  }

  /** The report that the event stream `evs` describes: per target, its
      checking line and the text of its terminal event. */
  function Transcript(ts: seq<Target>, evs: seq<Event>): string
    requires |evs| == 2 * |ts|
    decreases |ts|
  {
    if ts == [] then ""
    else Transcript(ts[..|ts| - 1], evs[..|evs| - 2]) + CheckingLine(ts[|ts| - 1]) + StatusLine(evs[|evs| - 1].status)
  }

  /** The report agrees with the events: every entry names the target's host
      and port, and its result line is the one for the verdict pushed for
      that target. */
  lemma {:induction false} ReportAgreesWithEvents(ts: seq<Target>, net: Network)
    ensures |VisitEvents(ts, net)| == 2 * |ts|
    ensures VisitReport(ts, net) == Transcript(ts, VisitEvents(ts, net))
    decreases |ts|
  {
    if ts != [] {
      var init := ts[..|ts| - 1];
      var t := ts[|ts| - 1];
      var o := net(ProbeFor(t));
      ReportAgreesWithEvents(init, net);
      var evs := VisitEvents(ts, net);
      assert evs == VisitEvents(init, net) + TargetEvents(t, net);
      assert evs[..|evs| - 2] == VisitEvents(init, net);
      assert StatusLine(Verdict(t.port, o).status) == ResultLine(o);
      AppendAssoc(VisitReport(init, net), CheckingLine(t), ResultLine(o));
    }
  }
}
