/** The status events the scan puts on the progress queue: `(port, status)`
    tuples in app.py, where the status is one of the strings 'running',
    'success', 'finished' or the error of a failed check (app.py, lines 12-18,
    215-241). */
module Events {
  import opened Probes

  datatype Status = Running | Success | Failed(cause: string) | Finished

  datatype Event = Event(port: nat, status: Status)

  /** End of run: port 0, which no catalog target uses. */
  const Sentinel: Event := Event(0, Finished)

  /** The terminal event of a probed target: success when the check raised
      nothing, otherwise a failure carrying the check's error. */
  function Verdict(port: nat, o: Outcome): (e: Event)
    ensures e.port == port
    ensures e.status == Success <==> o == Reachable
    ensures e.status.Failed? <==> o.Unreachable?
    ensures e.status.Failed? ==> e.status.cause == o.cause
    ensures e.status != Running && e.status != Finished
  {
    match o
    case Reachable => Event(port, Success)
    case Unreachable(cause) => Event(port, Failed(cause))
  }

  /** Only the sentinel ends a run, exactly once, as its last event. */
  ghost predicate SentinelOnlyLast(s: seq<Event>) {
    |s| > 0 && s[|s| - 1] == Sentinel &&
    forall j :: 0 <= j < |s| - 1 ==> s[j].status != Finished
  }
}
