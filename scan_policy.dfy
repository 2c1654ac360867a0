/**
  The deterministic core of the port scanner, stated as pure functions:
  the service-name lookup, the list of ports a scan covers, the per-port
  retry policy of a worker, and what draining a whole work list produces.
  The imperative code in PortScanner is proved against these definitions.
 */
module ScanPolicy {

  /** The classification of one connection attempt. */
  datatype Outcome = Open | Refused | TimedOut | OtherError

  /** Refused and timed-out attempts are retried; the other outcomes end the port. */
  predicate Transient(o: Outcome) {
    o == Refused || o == TimedOut
  }

  /**
    The network, as seen by a worker: the outcome of the connection attempt
    with the given index (0, 1, 2, ...) on the given port of the target host.
   */
  type Prober = (int, nat) -> Outcome

  /** The number of attempts a worker makes per port unless told otherwise. */
  const DefaultRetries: int := 3

  /** What the service-name fallback returns when the database has no entry. */
  const UnknownService: string := "unknown"

  /** An entry of the result list: an open port and its service name. */
  datatype OpenPort = OpenPort(port: int, service: string)

  /** One call of the prober: the port and the index of the attempt. */
  datatype Call = Call(port: int, attempt: nat)

  // ---------------------------------------------------------------------
  // Service names
  // ---------------------------------------------------------------------

  /** The platform's services database; a missing entry is the lookup error. */
  function LookupService(services: map<int, string>, port: int): (r: Option<string>)
    ensures r.Some? <==> port in services
    ensures r.Some? ==> r.value == services[port]
  {
    if port in services then Some(services[port]) else None
  }

  datatype Option<T> = None | Some(value: T)

  /**
    The service name reported for an open port: the database entry, or
    "unknown" when the lookup fails. Never fails itself.
   */
  function ServiceName(services: map<int, string>, port: int): (name: string)
    ensures port in services ==> name == services[port]
    ensures port !in services ==> name == UnknownService
  {
    match LookupService(services, port)
    case Some(n) => n
    case None => UnknownService
  }

  // ---------------------------------------------------------------------
  // The work list
  // ---------------------------------------------------------------------

  /** The ports start, start + 1, ..., end, in that order; empty when start > end. */
  function PortRange(start: int, end: int): (r: seq<int>)
    ensures |r| == if start <= end then end - start + 1 else 0
    ensures forall k :: 0 <= k < |r| ==> r[k] == start + k
    decreases end - start
  {
    if start > end then [] else PortRange(start, end - 1) + [end]
  }

  /** No port occurs twice. */
  predicate Distinct(ports: seq<int>) {
    forall i, j :: 0 <= i < j < |ports| ==> ports[i] != ports[j]
  }

  /** The work list is strictly ascending, so it holds every port of the range once. */
  lemma PortRangeContents(start: int, end: int)
    ensures forall i, j :: 0 <= i < j < |PortRange(start, end)| ==> PortRange(start, end)[i] < PortRange(start, end)[j]
    ensures Distinct(PortRange(start, end))
    ensures forall p :: p in PortRange(start, end) <==> start <= p <= end
  {
    var r := PortRange(start, end);
    forall p | start <= p <= end
      ensures p in r
    {
      assert r[p - start] == p;
    }
  }

  // ---------------------------------------------------------------------
  // The retry policy for one port
  // ---------------------------------------------------------------------

  /** How the attempts on one port ended. */
  datatype Fate =
    | Recorded    // an attempt connected: the port goes into the result list
    | Exhausted   // every allowed attempt was refused or timed out
    | Abandoned   // an attempt failed in some other way: no further attempts

  /** The fate of a port and the number of connection attempts made on it. */
  datatype PortScan = PortScan(fate: Fate, attempts: nat)

  function Max(a: int, b: int): int {
    if a < b then b else a
  }

  /**
    The worker's retry loop on `port` when `attempt` attempts have already
    been refused or timed out and at most `retries` attempts are allowed.
   */
  function AttemptFrom(probe: Prober, port: int, retries: int, attempt: nat): (r: PortScan)
    ensures attempt <= r.attempts <= Max(attempt, retries)
    ensures r.fate == Exhausted ==> r.attempts == Max(attempt, retries)
    decreases retries - attempt
  {
    if attempt >= retries then PortScan(Exhausted, attempt)
    else match probe(port, attempt)
      case Open => PortScan(Recorded, attempt + 1)
      case OtherError => PortScan(Abandoned, attempt + 1)
      case Refused => AttemptFrom(probe, port, retries, attempt + 1)
      case TimedOut => AttemptFrom(probe, port, retries, attempt + 1)
  }

  /** What a worker does with one dequeued port. */
  function ScanOne(probe: Prober, port: int, retries: int): PortScan {
    AttemptFrom(probe, port, retries, 0)
  }

  /**
    The attempts on a port: never more than `retries`, none at all when
    `retries <= 0`; every attempt but the last was refused or timed out,
    and the last one decides the fate.
   */
  lemma {:induction false} AttemptFromShape(probe: Prober, port: int, retries: int, attempt: nat)
    ensures var r := AttemptFrom(probe, port, retries, attempt);
      && (forall k :: attempt <= k < r.attempts - 1 ==> Transient(probe(port, k)))
      && (r.attempts == attempt ==> r.fate == Exhausted && retries <= attempt)
      && (r.attempts > attempt ==>
            && (r.fate == Recorded <==> probe(port, r.attempts - 1) == Open)
            && (r.fate == Abandoned <==> probe(port, r.attempts - 1) == OtherError)
            && (r.fate == Exhausted <==> Transient(probe(port, r.attempts - 1))))
    decreases retries - attempt
  {
    if attempt < retries && Transient(probe(port, attempt)) {
      AttemptFromShape(probe, port, retries, attempt + 1);
    }
  }

  lemma ScanOneShape(probe: Prober, port: int, retries: int)
    ensures var r := ScanOne(probe, port, retries);
      && r.attempts <= Max(0, retries)
      && (retries <= 0 ==> r == PortScan(Exhausted, 0))
      && (forall k :: 0 <= k < r.attempts - 1 ==> Transient(probe(port, k)))
      && (r.attempts > 0 ==>
            && (r.fate == Recorded <==> probe(port, r.attempts - 1) == Open)
            && (r.fate == Abandoned <==> probe(port, r.attempts - 1) == OtherError)
            && (r.fate == Exhausted <==> Transient(probe(port, r.attempts - 1))))
  {
    AttemptFromShape(probe, port, retries, 0);
  }

  /**
    The first attempt that is neither refused nor timed out ends the port
    at once: Open records it, any other error abandons it, and exactly
    that many attempts were made.
   */
  lemma {:induction false} FirstDecisiveAttempt(probe: Prober, port: int, retries: int, attempt: nat, j: nat)
    requires attempt <= j < retries
    requires forall k :: attempt <= k < j ==> Transient(probe(port, k))
    requires !Transient(probe(port, j))
    ensures AttemptFrom(probe, port, retries, attempt)
         == PortScan(if probe(port, j) == Open then Recorded else Abandoned, j + 1)
    decreases j - attempt
  {
    if attempt < j {
      FirstDecisiveAttempt(probe, port, retries, attempt + 1, j);
    }
  }

  /** A connection on attempt j, after j refusals or timeouts, records the port after j + 1 attempts. */
  lemma OpenIsRecorded(probe: Prober, port: int, retries: int, j: nat)
    requires j < retries
    requires forall k :: 0 <= k < j ==> Transient(probe(port, k))
    requires probe(port, j) == Open
    ensures ScanOne(probe, port, retries) == PortScan(Recorded, j + 1)
  {
    FirstDecisiveAttempt(probe, port, retries, 0, j);
  }

  /** Any other error on attempt j abandons the port after j + 1 attempts; on the first attempt, after one. */
  lemma OtherErrorAbandons(probe: Prober, port: int, retries: int, j: nat)
    requires j < retries
    requires forall k :: 0 <= k < j ==> Transient(probe(port, k))
    requires probe(port, j) == OtherError
    ensures ScanOne(probe, port, retries) == PortScan(Abandoned, j + 1)
  {
    FirstDecisiveAttempt(probe, port, retries, 0, j);
  }

  /** When every attempt is refused or times out, exactly `retries` attempts are made and the port is not recorded. */
  lemma {:induction false} AllTransientExhausts(probe: Prober, port: int, retries: int, attempt: nat)
    requires forall k :: attempt <= k < retries ==> Transient(probe(port, k))
    ensures AttemptFrom(probe, port, retries, attempt) == PortScan(Exhausted, Max(attempt, retries))
    decreases retries - attempt
  {
    if attempt < retries {
      AllTransientExhausts(probe, port, retries, attempt + 1);
    }
  }

  // ---------------------------------------------------------------------
  // Draining a work list
  // ---------------------------------------------------------------------

  /** The result-list entries one port contributes. */
  function Found(probe: Prober, services: map<int, string>, port: int, retries: int): (found: seq<OpenPort>)
    ensures |found| <= 1
    ensures found != [] <==> ScanOne(probe, port, retries).fate == Recorded
    ensures found != [] ==> found[0] == OpenPort(port, ServiceName(services, port))
  {
    if ScanOne(probe, port, retries).fate == Recorded
    then [OpenPort(port, ServiceName(services, port))]
    else []
  }

  /** The entries appended, in order, while `ports` are taken off the queue one by one. */
  function Drain(probe: Prober, services: map<int, string>, ports: seq<int>, retries: int): seq<OpenPort> {
    if ports == [] then []
    else Found(probe, services, ports[0], retries) + Drain(probe, services, ports[1..], retries)
  }

  /** The attempts 0 .. n - 1 on one port, in order. */
  function CallsOf(port: int, n: nat): (calls: seq<Call>)
    ensures |calls| == n
  {
    if n == 0 then [] else CallsOf(port, n - 1) + [Call(port, n - 1)]
  }

  /** The k-th of those calls is attempt k on that port. */
  lemma {:induction false} CallsOfAt(port: int, n: nat, k: nat)
    requires k < n
    ensures CallsOf(port, n)[k] == Call(port, k)
  {
    if k < n - 1 {
      CallsOfAt(port, n - 1, k);
    }
  }

  /** Every prober call made, in order, while `ports` are taken off the queue one by one. */
  function DrainCalls(probe: Prober, ports: seq<int>, retries: int): seq<Call> {
    if ports == [] then []
    else CallsOf(ports[0], ScanOne(probe, ports[0], retries).attempts) + DrainCalls(probe, ports[1..], retries)
  }

  /** Taking one more port off the queue appends its entries to those of the ports before it. */
  lemma {:induction false} DrainAppend(probe: Prober, services: map<int, string>, ports: seq<int>, port: int, retries: int)
    ensures Drain(probe, services, ports + [port], retries)
         == Drain(probe, services, ports, retries) + Found(probe, services, port, retries)
  {
    var xs := ports + [port];
    if ports == [] {
      assert xs[1..] == [];
    } else {
      assert xs[0] == ports[0] && xs[1..] == ports[1..] + [port];
      DrainAppend(probe, services, ports[1..], port, retries);
    }
  }

  /** Taking one more port off the queue appends its attempts to those on the ports before it. */
  lemma {:induction false} DrainCallsAppend(probe: Prober, ports: seq<int>, port: int, retries: int)
    ensures DrainCalls(probe, ports + [port], retries)
         == DrainCalls(probe, ports, retries) + CallsOf(port, ScanOne(probe, port, retries).attempts)
  {
    var xs := ports + [port];
    if ports == [] {
      assert xs[1..] == [];
    } else {
      assert xs[0] == ports[0] && xs[1..] == ports[1..] + [port];
      DrainCallsAppend(probe, ports[1..], port, retries);
    }
  }

  /** The calls of a log that concern one port. */
  function CallsOn(calls: seq<Call>, port: int): seq<Call> {
    if calls == [] then []
    else (if calls[0].port == port then [calls[0]] else []) + CallsOn(calls[1..], port)
  }

  /**
    A result-list entry appears exactly for the ports of the work list whose
    attempts ended in a connection, with the service name of that port.
   */
  lemma {:induction false} DrainMembership(probe: Prober, services: map<int, string>, ports: seq<int>, retries: int)
    ensures forall e :: e in Drain(probe, services, ports, retries) <==>
      && e.port in ports
      && ScanOne(probe, e.port, retries).fate == Recorded
      && e.service == ServiceName(services, e.port)
  {
    if ports != [] {
      DrainMembership(probe, services, ports[1..], retries);
      assert ports == [ports[0]] + ports[1..];
    }
  }

  /** No port occurs twice in a result list. */
  predicate DistinctPorts(d: seq<OpenPort>) {
    forall i, j :: 0 <= i < j < |d| ==> d[i].port != d[j].port
  }

  /** When the work list holds no port twice, the result list holds no port twice. */
  lemma {:induction false} DrainDistinct(probe: Prober, services: map<int, string>, ports: seq<int>, retries: int)
    requires Distinct(ports)
    ensures DistinctPorts(Drain(probe, services, ports, retries))
  {
    if ports != [] {
      var rest := Drain(probe, services, ports[1..], retries);
      var head := Found(probe, services, ports[0], retries);
      var d := head + rest;
      assert Distinct(ports[1..]);
      DrainDistinct(probe, services, ports[1..], retries);
      DrainMembership(probe, services, ports[1..], retries);
      assert ports[0] !in ports[1..];
      forall i, j | 0 <= i < j < |d|
        ensures d[i].port != d[j].port
      {
        if i < |head| {
          assert d[i].port == ports[0];
          assert d[j] == rest[j - |head|];
          assert rest[j - |head|] in rest;
        } else {
          assert d[i] == rest[i - |head|] && d[j] == rest[j - |head|];
        }
      }
    }
  }

  /** An open port of a duplicate-free work list is recorded exactly once, with its service name. */
  lemma OpenPortRecordedOnce(probe: Prober, services: map<int, string>, ports: seq<int>, retries: int, p: int)
    requires Distinct(ports)
    requires p in ports
    requires ScanOne(probe, p, retries).fate == Recorded
    ensures OpenPort(p, ServiceName(services, p)) in Drain(probe, services, ports, retries)
    ensures var d := Drain(probe, services, ports, retries);
      forall i, j :: 0 <= i < |d| && 0 <= j < |d| && d[i].port == p && d[j].port == p ==> i == j
  {
    DrainMembership(probe, services, ports, retries);
    DrainDistinct(probe, services, ports, retries);
  }

  lemma {:induction false} CallsOnAppend(a: seq<Call>, b: seq<Call>, port: int)
    ensures CallsOn(a + b, port) == CallsOn(a, port) + CallsOn(b, port)
  {
    if a == [] {
      assert a + b == b;
    } else {
      var ab := a + b;
      assert ab[0] == a[0] && ab[1..] == a[1..] + b;
      var head := if a[0].port == port then [a[0]] else [];
      CallsOnAppend(a[1..], b, port);
      calc {
        CallsOn(ab, port);
        head + CallsOn(a[1..] + b, port);
        head + (CallsOn(a[1..], port) + CallsOn(b, port));
        (head + CallsOn(a[1..], port)) + CallsOn(b, port);
        CallsOn(a, port) + CallsOn(b, port);
      }
    }
  }

  lemma {:induction false} CallsOnCallsOf(q: int, n: nat, port: int)
    ensures CallsOn(CallsOf(q, n), port) == if q == port then CallsOf(q, n) else []
  {
    if n > 0 {
      CallsOnCallsOf(q, n - 1, port);
      CallsOnAppend(CallsOf(q, n - 1), [Call(q, n - 1)], port);
      assert CallsOn([Call(q, n - 1)], port) == (if q == port then [Call(q, n - 1)] else []) + CallsOn([], port);
    }
  }

  /**
    Over a duplicate-free work list, the prober is called on each listed port
    exactly as often as the retry policy says, with attempt indices 0, 1, ...,
    and never on a port that is not listed.
   */
  lemma {:induction false} DrainCallsPerPort(probe: Prober, ports: seq<int>, retries: int, port: int)
    requires Distinct(ports)
    ensures CallsOn(DrainCalls(probe, ports, retries), port)
         == if port in ports then CallsOf(port, ScanOne(probe, port, retries).attempts) else []
  {
    if ports != [] {
      var q := ports[0];
      var n := ScanOne(probe, q, retries).attempts;
      assert Distinct(ports[1..]);
      DrainCallsPerPort(probe, ports[1..], retries, port);
      CallsOnAppend(CallsOf(q, n), DrainCalls(probe, ports[1..], retries), port);
      CallsOnCallsOf(q, n, port);
      assert ports == [q] + ports[1..];
      assert q == port ==> port !in ports[1..];
    }
  }

  /**
    Draining the work list for start .. end: each port of the range, and no
    other, gets the attempts the retry policy prescribes, numbered from 0;
    the result list holds exactly the ports of the range that connected,
    each once, with its service name.
   */
  lemma ScanRangeSummary(probe: Prober, services: map<int, string>, start: int, end: int, retries: int, port: int)
    ensures CallsOn(DrainCalls(probe, PortRange(start, end), retries), port)
         == if start <= port <= end then CallsOf(port, ScanOne(probe, port, retries).attempts) else []
    ensures forall e :: e in Drain(probe, services, PortRange(start, end), retries) <==>
      && start <= e.port <= end
      && ScanOne(probe, e.port, retries).fate == Recorded
      && e.service == ServiceName(services, e.port)
    ensures DistinctPorts(Drain(probe, services, PortRange(start, end), retries))
  {
    PortRangeContents(start, end);
    DrainCallsPerPort(probe, PortRange(start, end), retries, port);
    DrainMembership(probe, services, PortRange(start, end), retries);
    DrainDistinct(probe, services, PortRange(start, end), retries);
  }

  /**
    The scan of ports 79 to 81 against a host where only port 80 accepts
    connections, and port 80 is "http": the result list is exactly one entry.
   */
  lemma LocalhostExample(probe: Prober, services: map<int, string>)
    requires forall port, attempt :: probe(port, attempt) == if port == 80 then Open else Refused
    requires services == map[80 := "http"]
    ensures Drain(probe, services, PortRange(79, 81), DefaultRetries) == [OpenPort(80, "http")]
  {
    var r := PortRange(79, 81);
    assert r == [79, 80, 81];
    AllTransientExhausts(probe, 79, DefaultRetries, 0);
    AllTransientExhausts(probe, 81, DefaultRetries, 0);
    OpenIsRecorded(probe, 80, DefaultRetries, 0);
    assert r[1..] == [80, 81] && r[1..][1..] == [81] && r[1..][1..][1..] == [];
    assert Found(probe, services, 79, DefaultRetries) == [];
    assert Found(probe, services, 80, DefaultRetries) == [OpenPort(80, "http")];
    assert Found(probe, services, 81, DefaultRetries) == [];
    assert Drain(probe, services, [81], DefaultRetries) == [];
    assert Drain(probe, services, [80, 81], DefaultRetries) == [OpenPort(80, "http")];
  }
}
