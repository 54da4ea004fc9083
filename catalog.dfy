/** The fixed, ordered catalog of services the diagnostics tool probes, and the
    constants that go with it (app.py, lines 9-31). */
module Catalog {

  /** The clock-synchronization port; it is probed through the NTP client. */
  const NTP_PORT: nat := 123

  /** Seconds a TCP connect may take before it counts as failed. */
  const SOCKET_TIMEOUT: nat := 10

  /** One service to probe: its port, what it is for, and the host to ask. */
  datatype Target = Target(port: nat, description: string, host: string)

  const RequiredPorts: seq<Target> := [
    Target(22, "Support", "127.0.0.1"),
    Target(80, "Web server", "127.0.0.1"),
    Target(123, "Clock synchronization", "127.0.0.1"),
    Target(443, "Secure web server", "127.0.0.1"),
    Target(3022, "lol testing", "127.0.0.1"),
    Target(5831, "TCP portapt", "127.0.0.1"),
    Target(5832, "TCP portapt", "127.0.0.1"),
    Target(11371, "Secure verification server", "127.0.0.1"),
    Target(31767, "Monitoring", "127.0.0.1"),
    Target(42873, "Content synchronization", "127.0.0.1")
  ]

  predicate ValidPort(p: nat) {
    1 <= p <= 65535
  }

  /** Every port is a real TCP/UDP port (so never the sentinel's 0) and no port
      appears twice, so an event's port identifies its target. */
  predicate WellFormed(cat: seq<Target>) {
    (forall i :: 0 <= i < |cat| ==> ValidPort(cat[i].port)) &&
    (forall i, j :: 0 <= i < j < |cat| ==> cat[i].port != cat[j].port)
  }

  lemma RequiredPortsWellFormed()
    ensures |RequiredPorts| == 10
    ensures WellFormed(RequiredPorts)
    ensures forall i :: 0 <= i < |RequiredPorts| ==> (RequiredPorts[i].port == NTP_PORT <==> i == 2)
  {
  }
}
