/** The run controller of `Application` in app.py (lines 34-57, 141-184), with
    the widgets stripped out: it starts at most one checker at a time, passes
    cancellation on to it, and polls the shared queue until the finished
    sentinel arrives. */
module Controller {
  import opened Catalog
  import opened Probes
  import opened Events
  import opened Scan
  import opened Channels
  import opened Checker

  /** What one poll hands to the presentation layer: nothing new, a status
      event to display, or the final report. After `Done` the poll is not
      rescheduled; after the other two it is. */
  datatype Update = Idle | Progress(event: Event) | Done(report: string)

  class Application {
    /** The active checker, if any. */
    var checker: PortChecker?
    /** The one progress queue, created once and reused by every run. */
    const queue: Channel
    /** How many of the active checker's events have been polled. */
    ghost var consumed: nat

    /** At most one checker is active and the queue holds only the unpolled
        tail of its events; with no checker the queue is empty, so events of
        two runs never mix. */
    ghost predicate Valid()
      reads this, queue, checker
    {
      if checker == null then queue.items == []
      else
        checker.queue == queue &&
        ((checker.sent == [] && consumed == 0 && queue.items == []) ||
         (SentinelOnlyLast(checker.sent) && consumed < |checker.sent| &&
          queue.items == checker.sent[consumed..]))
    }

    constructor ()
      ensures Valid()
      ensures checker == null && fresh(queue)
    {
      checker := null;
      queue := new Channel();
      consumed := 0;
    }

    /** The cancel button: quit the active checker; with none, do nothing. */
    method Cancel()
      requires Valid()
      modifies checker
      ensures Valid()
      ensures checker == old(checker)
      ensures checker != null ==> checker.q && checker.report == old(checker.report) + QuitMarker
      ensures checker != null ==> checker.sent == old(checker.sent) && checker.requests == old(checker.requests)
    {
      if checker != null {
        checker.Quit();
      }
    }

    /** The run button: ignored while a checker is active, otherwise a new
        checker on the shared queue. Its thread body is `PortChecker.Run`. */
    method DoChecks()
      requires Valid()
      modifies this
      ensures Valid()
      ensures old(checker) != null ==> checker == old(checker) && consumed == old(consumed)
      ensures old(checker) == null ==>
        checker != null && fresh(checker) && checker.queue == queue && checker.targets == RequiredPorts &&
        checker.report == "" && !checker.q && checker.requests == [] && checker.sent == []
    {
      if checker != null {
        return;
      }
      checker := new PortChecker(queue);
      consumed := 0;
    }

    /** One timer tick: take the next event, if any, without blocking. The
        finished sentinel hands over the checker's report and clears the
        checker, so a later start is allowed. */
    method CheckForUpdates() returns (u: Update)
      requires Valid()
      modifies this, queue
      ensures Valid()
      ensures old(queue.items) == [] ==>
        u == Idle && checker == old(checker) && queue.items == []
      ensures old(queue.items) != [] && old(queue.items[0]).status == Finished ==>
        u == Done(old(checker.report)) && checker == null && queue.items == []
      ensures old(queue.items) != [] && old(queue.items[0]).status != Finished ==>
        u == Progress(old(queue.items[0])) && checker == old(checker) &&
        queue.items == old(queue.items)[1..]
    {
      var p := queue.Get();
      if p.None? {
        u := Idle;
        return;
      }
      if p.value.status == Finished {
        var report := checker.report;
        checker := null;
        consumed := 0;
        u := Done(report);
        return;
      }
      consumed := consumed + 1;
      u := Progress(p.value);
    }

    /** The polling cycle: `check_for_updates` reschedules itself until the
        sentinel arrives. Once the active checker has run, polling hands over
        every one of its events in order, then its report, and leaves the
        controller ready for the next start with the queue empty. */
    method Drain() returns (seen: seq<Event>, report: string)
      requires Valid()
      requires checker != null && consumed == 0 && SentinelOnlyLast(checker.sent)
      modifies this, queue
      ensures Valid()
      ensures checker == null && queue.items == []
      ensures seen + [Sentinel] == old(checker.sent)
      ensures report == old(checker.report)
    {
      var c := checker;
      ghost var events := c.sent;
      seen := [];
      report := "";
      var done := false;
      while !done
        invariant Valid()
        invariant c.sent == events && c.report == old(checker.report)
        invariant !done ==> checker == c && consumed == |seen|
        invariant |seen| < |events| && seen == events[..|seen|]
        invariant done ==> checker == null && |seen| == |events| - 1 && report == c.report
        decreases !done, |events| - |seen|
      {
        var u := CheckForUpdates();
        if u.Done? {
          done := true;
          report := u.report;
        } else {
          assert events[..|seen| + 1] == seen + [events[|seen|]];
          seen := seen + [u.event];
        }
      }
      assert seen + [Sentinel] == events;
    }
  }

  lemma DropLast<T>(a: seq<T>, b: seq<T>, x: T)
    requires a + [x] == b + [x]
    ensures a == b
  {
    assert a == (a + [x])[..|a|];
    assert b == (b + [x])[..|b|];
  }

  /** One diagnostics session on a new application: press the run button
      (twice: the second press is ignored), optionally cancel before the scan
      thread starts, let the thread run with the consumer's quit landing at
      loop top `cancelAt`, then poll until the report arrives. The consumer
      sees every event of the run in order, and receives the run's report. */
  method Session(net: Network, cancelFirst: bool, cancelAt: nat) returns (seen: seq<Event>, report: string)
    ensures seen == VisitEvents(RequiredPorts[..Visited(cancelFirst, cancelAt, |RequiredPorts|)], net)
    ensures report == StartMarker + ScanText(RequiredPorts, net, cancelFirst, cancelAt)
  {
    var app := new Application();
    app.DoChecks();
    var c := app.checker;
    app.DoChecks();
    if cancelFirst {
      app.Cancel();
    }
    c.Run(net, cancelAt);
    RunEndsWithSentinelOnce(RequiredPorts, net, Visited(cancelFirst, cancelAt, |RequiredPorts|));
    seen, report := app.Drain();
    DropLast(seen, VisitEvents(RequiredPorts[..Visited(cancelFirst, cancelAt, |RequiredPorts|)], net), Sentinel);
  }

}
