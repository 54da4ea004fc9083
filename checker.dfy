/** The scan thread, `PortChecker` in app.py (lines 187-253): it walks the
    catalog, pushes status events on the shared queue, writes the report and
    stops at the first loop top that sees its quit flag. */
module Checker {
  import opened Catalog
  import opened Probes
  import opened Events
  import opened Scan
  import opened Channels

  class PortChecker {
    /** The queue shared with the controller. */
    const queue: Channel
    /** The catalog the loop walks: always REQUIRED_PORTS. */
    const targets: seq<Target>
    /** The report text, appended to as the run goes. */
    var report: string
    /** The quit flag; set by `Quit`, read at every loop top, never cleared. */
    var q: bool
    /** Network requests this checker has sent, in order: a log kept for the
        proofs only, like `sent`. */
    ghost var requests: seq<Probe>
    /** Events this checker has put on the queue, in order. */
    ghost var sent: seq<Event>

    constructor (queue: Channel)
      ensures this.queue == queue && targets == RequiredPorts
      ensures report == "" && !q
      ensures requests == [] && sent == []
    {
      this.queue := queue;
      targets := RequiredPorts;
      report := "";
      q := false;
      requests := [];
      sent := [];
    }

    /** Called from the controller's thread to cancel the run. */
    method Quit()
      modifies this`report, this`q
      ensures report == old(report) + QuitMarker
      ensures q
    {
      report := report + QuitMarker;
      q := true;
    }

    /** One `queue.put`. */
    method Emit(e: Event)
      modifies this`sent, queue
      ensures queue.items == old(queue.items) + [e]
      ensures sent == old(sent) + [e]
    {
      queue.Put(e);
      sent := sent + [e];
    }

    /** One exchange with the network. */
    method Ask(net: Network, p: Probe) returns (o: Outcome)
      modifies this`requests
      ensures o == net(p)
      ensures requests == old(requests) + [p]
    {
      o := net(p);
      requests := requests + [p];
    }

    /** `check_socket`: a TCP connect with the socket timeout; no error means
        the port accepts connections. */
    method CheckSocket(net: Network, host: string, port: nat) returns (o: Outcome)
      modifies this`requests
      ensures o == net(TcpConnect(host, port, SOCKET_TIMEOUT))
      ensures requests == old(requests) + [TcpConnect(host, port, SOCKET_TIMEOUT)]
    {
      o := Ask(net, TcpConnect(host, port, SOCKET_TIMEOUT));
    }

    /** The thread body: reset the report, then scan. */
    method Run(net: Network, cancelAt: nat)
      modifies this, queue
      ensures queue.items == old(queue.items) + RunEvents(targets, net, Visited(old(q), cancelAt, |targets|))
      ensures sent == old(sent) + RunEvents(targets, net, Visited(old(q), cancelAt, |targets|))
      ensures requests == old(requests) + Requests(targets[..Visited(old(q), cancelAt, |targets|)])
      ensures report == StartMarker + ScanText(targets, net, old(q), cancelAt)
      ensures q == (old(q) || QuitLands(old(q), cancelAt, |targets|))
    {
      report := StartMarker;
      CheckAllSockets(net, cancelAt);
    }

    /** One iteration of the scan loop past the quit check: announce the
        target, dispatch its check, push and record the verdict. */
    method CheckTarget(net: Network, t: Target)
      modifies this`report, this`requests, this`sent, queue
      ensures queue.items == old(queue.items) + TargetEvents(t, net)
      ensures sent == old(sent) + TargetEvents(t, net)
      ensures requests == old(requests) + [ProbeFor(t)]
      ensures report == old(report) + TargetReport(t, net)
    {
      ghost var before := report;
      report := report + CheckingLine(t);
      Emit(Event(t.port, Running));
      var outcome: Outcome;
      if t.port == NTP_PORT {
        outcome := Ask(net, NtpRequest(t.host, t.port));
      } else {
        outcome := CheckSocket(net, t.host, t.port);
      }
      if outcome.Unreachable? {
        report := report + FailureLine(outcome.cause);
        Emit(Event(t.port, Failed(outcome.cause)));
      } else {
        Emit(Event(t.port, Success));
        report := report + SuccessLine;
      }
      AppendAssoc(before, CheckingLine(t), ResultLine(outcome));
    }

    /** The scan loop. The consumer's quit, when it lands during the loop,
        lands at loop top `cancelAt`: it is performed there, just before the
        flag is read. */
    method CheckAllSockets(net: Network, cancelAt: nat)
      modifies this, queue
      ensures queue.items == old(queue.items) + RunEvents(targets, net, Visited(old(q), cancelAt, |targets|))
      ensures sent == old(sent) + RunEvents(targets, net, Visited(old(q), cancelAt, |targets|))
      ensures requests == old(requests) + Requests(targets[..Visited(old(q), cancelAt, |targets|)])
      ensures report == old(report) + ScanText(targets, net, old(q), cancelAt)
      ensures q == (old(q) || QuitLands(old(q), cancelAt, |targets|))
    {
      var i := 0;
      while i < |targets|
        invariant i <= |targets|
        invariant i > 0 ==> !old(q) && i <= cancelAt
        invariant q == old(q)
        invariant queue.items == old(queue.items) + VisitEvents(targets[..i], net)
        invariant sent == old(sent) + VisitEvents(targets[..i], net)
        invariant requests == old(requests) + Requests(targets[..i])
        invariant report == old(report) + VisitReport(targets[..i], net)
      {
        if i == cancelAt {
          Quit();
        }
        if q {
          break;
        }
        CheckTarget(net, targets[i]);
        VisitStep(targets, net, i);
        AppendAssoc(old(queue.items), VisitEvents(targets[..i], net), TargetEvents(targets[i], net));
        AppendAssoc(old(sent), VisitEvents(targets[..i], net), TargetEvents(targets[i], net));
        AppendAssoc(old(requests), Requests(targets[..i]), [ProbeFor(targets[i])]);
        AppendAssoc(old(report), VisitReport(targets[..i], net), TargetReport(targets[i], net));
        i := i + 1;
      }
      ScanTextCases(targets, net, old(q), cancelAt, old(report));
      assert i == Visited(old(q), cancelAt, |targets|);
      Emit(Sentinel);
      AppendAssoc(old(queue.items), VisitEvents(targets[..i], net), [Sentinel]);
      AppendAssoc(old(sent), VisitEvents(targets[..i], net), [Sentinel]);
    }
  }
}
