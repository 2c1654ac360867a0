# Port scanner: a Dafny model of the scan engine

The program is a TCP port scanner. It checks the requested range, puts every
port of the range on a FIFO work queue, and starts a pool of worker threads.
Each worker takes ports off the queue until it finds the queue empty. On each
port it makes up to `retries` (3) connection attempts:

- a connection appends `(port, service name)` to a global result list and
  ends the attempts;
- a refusal or a timeout uses up one attempt;
- any other error ends the attempts at once.

Every port taken off the queue is then marked done on the queue. Service
names come from the platform's services database, with `"unknown"` as the
fallback.

The model has three modules:

- `WorkQueue` (`work_queue.dfy`): the unbounded FIFO queue, as the scanner
  uses it. `PortQueue` holds the waiting ports and the count of tasks not yet
  marked done. It has put, get, empty and task-done.
- `ScanPolicy` (`scan_policy.dfy`): the pure specification.
  - The outcome of one connection attempt (`Open`, `Refused`, `TimedOut`,
    `OtherError`).
  - The prober: an oracle `(port, attempt index) -> Outcome` standing for the
    socket connect against the target host.
  - The service-name lookup over a `map<int, string>`.
  - The ascending port range.
  - The per-port retry state machine: `AttemptFrom` / `ScanOne`, ending in
    `Recorded`, `Exhausted` or `Abandoned` after a known number of attempts.
  - The result entries (`Drain`) and prober calls (`DrainCalls`) produced
    while a work list is drained.
  - The lemmas about all of these.
- `PortScanner` (`port_scanner.dfy`): the imperative code.
  - The argument range check.
  - The `put` loop that fills the queue.
  - The class `Scanner`. It holds the global result list `openPorts` and
    the services database. It also holds two ghost logs: every connection
    attempt (`calls`) and every port marked done (`finished`).
  - The worker's nested loops (`ScanPort`, with the retry loop as
    `ProbePort`).
  - The worker pool (`PrepareThreads`).
  - The whole run (`Run`).

The methods are proved against the `ScanPolicy` functions. The properties
are proved as lemmas about those functions:

- exact attempt counts per outcome;
- at most `retries` attempts, and none when `retries <= 0`;
- every queued port taken and marked done exactly once;
- every open port recorded exactly once with its service name;
- the result list only grows by appending.

## Model

| member | source | states |
|---|---|---|
| `PortScanner.PrepareArgs` | port_scanner.py:31-33 | A range with start > end is refused with the usage error; every other range is accepted unchanged (both directions). |
| `ScanPolicy.ServiceName` | port_scanner.py:44-49 | Total: the database's name for a port with an entry, `"unknown"` for any other port. |
| `ScanPolicy.PortRange` | port_scanner.py:40 | The work list has end - start + 1 entries (none when start > end), and entry k is start + k. |
| `ScanPolicy.PortRangeContents` | port_scanner.py:37-42 | The work list is strictly ascending, holds no port twice, and holds exactly the ports p with start <= p <= end. |
| `PortScanner.PreparePortQueue` | port_scanner.py:37-42 | Returns a new queue holding exactly the range start .. end in ascending order, each port an unfinished task. |
| `WorkQueue.PortQueue.constructor` | port_scanner.py:39 | A new queue is empty, with no unfinished tasks. |
| `WorkQueue.PortQueue.Put` | port_scanner.py:41 | Appends the port at the back and adds one unfinished task. |
| `WorkQueue.PortQueue.Empty` | port_scanner.py:53 | True exactly when no port is waiting. |
| `WorkQueue.PortQueue.Get` | port_scanner.py:54 | Removes and returns the front port; the task count is unchanged. |
| `WorkQueue.PortQueue.TaskDone` | port_scanner.py:74-77 | Succeeds exactly when some task is unfinished and then removes one; otherwise it is an error and nothing changes. |
| `ScanPolicy.AttemptFrom` | port_scanner.py:55-72 | The retry loop never makes more than `retries` attempts in all; when the attempts run out, exactly `retries` were made. |
| `ScanPolicy.AttemptFromShape` | port_scanner.py:57-70 | Every attempt but the last on a port was refused or timed out, and the last one decides the fate: Open means recorded, another error means abandoned, a refusal or timeout means exhausted. |
| `ScanPolicy.ScanOneShape` | port_scanner.py:55-70 | Per port: at most max(0, retries) attempts, none and nothing recorded when retries <= 0; every attempt but the last was refused or timed out; the last decides the fate. |
| `ScanPolicy.FirstDecisiveAttempt` | port_scanner.py:57-70 | The first attempt that is neither refused nor timed out ends the port there, with exactly that many attempts made. |
| `ScanPolicy.OpenIsRecorded` | port_scanner.py:61-66 | A connection on attempt j after j refusals or timeouts records the port after exactly j + 1 attempts; no further attempt is made. |
| `ScanPolicy.OtherErrorAbandons` | port_scanner.py:69-70 | Any other error on attempt j abandons the port after exactly j + 1 attempts (one, when it happens on the first); nothing is recorded. |
| `ScanPolicy.AllTransientExhausts` | port_scanner.py:57-68 | When every attempt is refused or times out, exactly `retries` attempts are made and the port is not recorded. |
| `PortScanner.Scanner.constructor` | port_scanner.py:8-10 | The result list starts empty. |
| `PortScanner.Scanner.ProbePort` | port_scanner.py:55-72 | The retry loop on one port: it succeeds exactly when the policy records the port, appends exactly that port's entry (port and service name) and nothing else, and makes exactly the policy's attempts, numbered from 0. |
| `PortScanner.Scanner.ScanPort` | port_scanner.py:51-77 | A worker stops only when the queue is empty. The result list is the old list plus the entries of the queued ports, in queue order. Every attempt follows the policy. Every queued port is marked done exactly once, in order, and the queue's unfinished count drops by exactly the number of ports taken. |
| `PortScanner.Scanner.PrepareThreads` | port_scanner.py:79-89 | Any number of workers >= 1 drains the queue exactly as one worker does, with no port scanned twice; with no workers nothing changes. |
| `PortScanner.Scanner.Run` | port_scanner.py:97-103 | A reversed range is refused and nothing is queued, probed or recorded. Otherwise the result list is extended by exactly the entries for start .. end, and each port of the range is marked done once. |
| `ScanPolicy.DrainAppend` | port_scanner.py:53-66 | Taking one more port off the queue appends exactly that port's entries to the result list. |
| `ScanPolicy.DrainCallsAppend` | port_scanner.py:53-68 | Taking one more port off the queue appends exactly that port's attempts to the prober calls. |
| `ScanPolicy.DrainMembership` | port_scanner.py:53-66 | An entry is in the result list exactly when its port was queued, its attempts ended in a connection, and its service is that port's name (both directions). |
| `ScanPolicy.DrainDistinct` | port_scanner.py:53-54 | Draining a work list with no repeated port yields a result list with no repeated port. |
| `ScanPolicy.OpenPortRecordedOnce` | port_scanner.py:53-66 | An open port of such a work list appears in the result list exactly once, with its service name. |
| `ScanPolicy.CallsOfAt` | port_scanner.py:55-68 | The k-th attempt on a port carries attempt index k. |
| `ScanPolicy.DrainCallsPerPort` | port_scanner.py:53-70 | Over a work list with no repeated port, the prober is called on each queued port exactly as often as the policy prescribes, and never on a port that is not queued. |
| `ScanPolicy.ScanRangeSummary` | port_scanner.py:37-77 | For the range start .. end: every port of the range and no other gets the attempts the policy prescribes; the result list holds exactly the ports of the range that connected, each once, with its service name. |
| `ScanPolicy.LocalhostExample` | port_scanner.py:37-66 | Scanning ports 79..81 when only port 80 accepts and is named "http" yields exactly the entry (80, "http"). |

## Left out

- Socket work: creating the socket, the 0.5 s timeout, connecting to the host and closing the socket. The prober oracle stands for all of it, and the host address is folded into it.
- Ports outside 0..65535 are not rejected: the socket layer refuses them with an error other than a refusal or a timeout, which the oracle can return as `OtherError`.
- The platform services database: a foreign call, replaced by a `map<int, string>`.
- Thread start and join, and the lock around the result list. The model is sequential.
- The `empty()`-then-`get()` race between workers, where a worker can block forever on `get()`, needs a concurrent model. It is not claimed here.
- PortScanner.Scanner.PrepareThreads: runs the workers one after another instead of in parallel, so it states the outcome of that one schedule, not of every interleaving.
- WorkQueue.PortQueue.Get: on an empty queue the real call blocks; the model requires a non-empty queue, which a sequential worker always has after `empty()` returned false.
- Argument parsing, defaults, `--version`, the usage text and exit status of the range error, and the no-argument default host. Only the start > end check is modelled.
- The unused `verbose` flag.
- Printing the results table.
- Wall-clock timing and its rounding: floating point and the clock.
- If creating the socket itself fails, the cleanup step refers to an unbound name. That path is not modelled.
