/** The reachability checks seen from the scan loop. The network itself is not
    modelled: a `Network` is an oracle that answers each request the checker
    issues with an outcome (app.py, lines 219-226 and 243-253). */
module Probes {
  import opened Catalog

  /** A request to the network: the NTP client call, holding the two
      arguments the code passes to it as written, or a TCP connect bounded by
      a timeout in seconds. */
  datatype Probe =
    | NtpRequest(host: string, port: nat)
    | TcpConnect(host: string, port: nat, timeout: nat)

  /** What a check reports: no error, or an error with its text. */
  datatype Outcome = Reachable | Unreachable(cause: string)

  type Network = Probe -> Outcome

  /** The check the scan loop runs for a target: the NTP client call for the
      clock-synchronization port, a TCP connect with SOCKET_TIMEOUT for every
      other port, always against the target's own host and port. */
  function ProbeFor(t: Target): (p: Probe)
    ensures p.NtpRequest? <==> t.port == NTP_PORT
    ensures p.TcpConnect? ==> p.timeout == SOCKET_TIMEOUT
    ensures p.host == t.host && p.port == t.port
  {
    if t.port == NTP_PORT then NtpRequest(t.host, t.port)
    else TcpConnect(t.host, t.port, SOCKET_TIMEOUT)
  }

  /** Different targets of a well-formed catalog are never probed alike. */
  lemma ProbeForInjective(cat: seq<Target>, i: nat, j: nat)
    requires WellFormed(cat)
    requires i < |cat| && j < |cat| && i != j
    ensures ProbeFor(cat[i]) != ProbeFor(cat[j])
  {
  }
}
