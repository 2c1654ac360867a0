/**
  The scanner itself: the range check on the arguments, the construction
  of the work queue, the worker's drain-and-retry loop, and the scan as a
  whole, with the global result list as a field of `Scanner`.
 */
module PortScanner {
  import opened ScanPolicy
  import opened WorkQueue

  datatype Result<T, E> = Success(value: T) | Failure(error: E)

  /** A validated request: the first and last port to scan. */
  datatype ScanRequest = ScanRequest(start: int, end: int)

  /** The usage error reported for a reversed range. */
  const RangeError: string := "Starting port must be less than or equal to the ending port."

  /**
    The argument check: a range whose start lies after its end is refused
    with a usage error; any other range is accepted as given.
   */
  function PrepareArgs(start: int, end: int): (r: Result<ScanRequest, string>)
    ensures r.Success? <==> start <= end
    ensures r.Success? ==> r.value == ScanRequest(start, end)
    ensures r.Failure? ==> r.error == RangeError
  {
    if start > end then Failure(RangeError) else Success(ScanRequest(start, end))
  }

  /**
    A fresh queue holding the ports start .. end in ascending order, each
    one an unfinished task.
   */
  method PreparePortQueue(start: int, end: int) returns (q: PortQueue)
    ensures fresh(q)
    ensures q.items == PortRange(start, end)
    ensures q.unfinished == |q.items|
  {
    q := new PortQueue();
    var port := start;
    while port < end + 1
      invariant start <= port && (port <= end + 1 || port == start)
      invariant q.items == PortRange(start, port - 1)
      invariant q.unfinished == |q.items|
      decreases end + 1 - port
    {
      q.Put(port);
      port := port + 1;
    }
  }

  lemma ConcatAssoc<T>(a: seq<T>, b: seq<T>, c: seq<T>)
    ensures (a + b) + c == a + (b + c)
  {
  }

  class Scanner {
    /** The platform's services database, fixed for the whole scan. */
    const services: map<int, string>
    /** The result list, shared by all workers; entries are only ever appended. */
    var openPorts: seq<OpenPort>
    /** Every connection attempt made, in order. */
    ghost var calls: seq<Call>
    /** Every port marked done on the work queue, in order. */
    ghost var finished: seq<int>

    constructor (services: map<int, string>)
      ensures this.services == services
      ensures openPorts == [] && calls == [] && finished == []
    {
      this.services := services;
      openPorts := [];
      calls := [];
      finished := [];
    }

    /**
      The attempts on one dequeued port: up to `retries` connection
      attempts, stopping at the first connection, which appends the port
      and its service name to the result list, or at the first error other
      than a refusal or a timeout.
     */
    method ProbePort(probe: Prober, port: int, retries: int) returns (success: bool)
      modifies this`openPorts, this`calls
      ensures success <==> ScanOne(probe, port, retries).fate == Recorded
      ensures openPorts == old(openPorts) + Found(probe, services, port, retries)
      ensures calls == old(calls) + CallsOf(port, ScanOne(probe, port, retries).attempts)
    {
      var attempt: nat := 0;
      success := false;
      while attempt < retries
        invariant AttemptFrom(probe, port, retries, attempt) == ScanOne(probe, port, retries)
        invariant calls == old(calls) + CallsOf(port, attempt)
        invariant openPorts == old(openPorts) && !success
        decreases retries - attempt
      {
        var outcome := probe(port, attempt);
        ConcatAssoc(old(calls), CallsOf(port, attempt), [Call(port, attempt)]);
        calls := calls + [Call(port, attempt)];
        match outcome
        case Open =>
          var service := ServiceName(services, port);
          openPorts := openPorts + [OpenPort(port, service)];
          success := true;
          break;
        case Refused =>
          attempt := attempt + 1;
        case TimedOut =>
          attempt := attempt + 1;
        case OtherError =>
          break;
      }
    }

    /**
      One worker: until the queue is empty, take a port and make up to
      `retries` connection attempts on it. A connection appends the port
      and its service name to the result list and ends the attempts; a
      refusal or a timeout uses up one attempt; any other error ends the
      attempts at once. Each port taken is marked done exactly once.
     */
    method ScanPort(probe: Prober, queue: PortQueue, retries: int)
      requires queue.unfinished >= |queue.items|
      modifies this, queue
      ensures queue.items == []
      ensures queue.unfinished == old(queue.unfinished) - |old(queue.items)|
      ensures openPorts == old(openPorts) + Drain(probe, services, old(queue.items), retries)
      ensures calls == old(calls) + DrainCalls(probe, old(queue.items), retries)
      ensures finished == old(finished) + old(queue.items)
    {
      ghost var all := queue.items;
      ghost var done: seq<int> := [];
      var empty := queue.Empty();
      while !empty
        invariant all == done + queue.items
        invariant empty <==> queue.items == []
        invariant queue.unfinished == old(queue.unfinished) - |done|
        invariant queue.unfinished >= |queue.items|
        invariant openPorts == old(openPorts) + Drain(probe, services, done, retries)
        invariant calls == old(calls) + DrainCalls(probe, done, retries)
        invariant finished == old(finished) + done
        decreases |queue.items|
      {
        ghost var waiting := queue.items;
        var port := queue.Get();
        assert waiting == [port] + queue.items;
        ConcatAssoc(done, [port], queue.items);
        assert queue.unfinished >= |waiting| > 0;
        var success := ProbePort(probe, port, retries);
        // Both the connected and the failed branch mark the task done.
        var ok := queue.TaskDone();
        assert ok;
        DrainAppend(probe, services, done, port, retries);
        DrainCallsAppend(probe, done, port, retries);
        ConcatAssoc(old(openPorts), Drain(probe, services, done, retries), Found(probe, services, port, retries));
        ConcatAssoc(old(calls), DrainCalls(probe, done, retries), CallsOf(port, ScanOne(probe, port, retries).attempts));
        ConcatAssoc(old(finished), done, [port]);
        finished := finished + [port];
        done := done + [port];
        empty := queue.Empty();
      }
      assert done == all;
    }

    /**
      The worker pool, run one worker after another: the first worker
      drains the whole queue and every later one finds it empty, so the
      outcome is that of a single worker whenever at least one is started,
      and nothing happens when none is.
     */
    method PrepareThreads(probe: Prober, queue: PortQueue, threads: int)
      requires queue.unfinished >= |queue.items|
      modifies this, queue
      ensures threads <= 0 ==>
        && queue.items == old(queue.items) && queue.unfinished == old(queue.unfinished)
        && openPorts == old(openPorts) && calls == old(calls) && finished == old(finished)
      ensures threads > 0 ==>
        && queue.items == []
        && queue.unfinished == old(queue.unfinished) - |old(queue.items)|
        && openPorts == old(openPorts) + Drain(probe, services, old(queue.items), DefaultRetries)
        && calls == old(calls) + DrainCalls(probe, old(queue.items), DefaultRetries)
        && finished == old(finished) + old(queue.items)
    {
      var started := 0;
      while started < threads
        invariant started == 0 || (0 < started <= threads)
        invariant started == 0 ==>
          && queue.items == old(queue.items) && queue.unfinished == old(queue.unfinished)
          && openPorts == old(openPorts) && calls == old(calls) && finished == old(finished)
        invariant started > 0 ==>
          && queue.items == []
          && queue.unfinished == old(queue.unfinished) - |old(queue.items)|
          && openPorts == old(openPorts) + Drain(probe, services, old(queue.items), DefaultRetries)
          && calls == old(calls) + DrainCalls(probe, old(queue.items), DefaultRetries)
          && finished == old(finished) + old(queue.items)
        decreases threads - started
      {
        ScanPort(probe, queue, DefaultRetries);
        started := started + 1;
      }
    }

    /**
      A whole scan: check the range, fill the queue, let `threads` workers
      drain it with the default number of attempts per port, and hand back
      the result list.
      A reversed range is refused before any queue is built or any
      attempt is made.
     */
    method Run(probe: Prober, start: int, end: int, threads: int) returns (r: Result<seq<OpenPort>, string>)
      modifies this
      ensures r.Failure? <==> start > end
      ensures r.Failure? ==> r.error == RangeError
      ensures r.Failure? ==> openPorts == old(openPorts) && calls == old(calls) && finished == old(finished)
      ensures r.Success? ==> r.value == openPorts
      ensures r.Success? && threads <= 0 ==>
        openPorts == old(openPorts) && calls == old(calls) && finished == old(finished)
      ensures r.Success? && threads > 0 ==>
        && openPorts == old(openPorts) + Drain(probe, services, PortRange(start, end), DefaultRetries)
        && calls == old(calls) + DrainCalls(probe, PortRange(start, end), DefaultRetries)
        && finished == old(finished) + PortRange(start, end)
    {
      var args := PrepareArgs(start, end);
      if args.Failure? {
        return Failure(args.error);
      }
      var queue := PreparePortQueue(args.value.start, args.value.end);
      PrepareThreads(probe, queue, threads);
      r := Success(openPorts);
    }
  }
}
