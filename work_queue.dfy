/**
  The FIFO work queue the scanner fills with ports and its workers drain:
  an unbounded queue that also counts the tasks not yet marked done.
 */
module WorkQueue {

  class PortQueue {
    /** The ports still waiting, the next one to be taken first. */
    var items: seq<int>
    /** Ports put in and not yet marked done by a worker. */
    var unfinished: nat

    /** A new queue is empty and has no unfinished tasks. */
    constructor ()
      ensures items == [] && unfinished == 0
    {
      items := [];
      unfinished := 0;
    }

    /** Adds a port at the back; every port put in is one more unfinished task. */
    method Put(port: int)
      modifies this
      ensures items == old(items) + [port]
      ensures unfinished == old(unfinished) + 1
    {
      items := items + [port];
      unfinished := unfinished + 1;
    }

    /** Whether no port is waiting. */
    method Empty() returns (empty: bool)
      ensures empty <==> items == []
    {
      empty := |items| == 0;
    }

    /**
      Takes the port at the front. On an empty queue the call would wait for
      a port to be put in; the scanner only calls it after seeing the queue
      non-empty, so that case is excluded here.
     */
    method Get() returns (port: int)
      requires items != []
      modifies this
      ensures port == old(items)[0]
      ensures items == old(items)[1..]
      ensures unfinished == old(unfinished)
    {
      port := items[0];
      items := items[1..];
    }

    /**
      Marks one task done. Marking more tasks done than were put in is an
      error (`ok` is false) and changes nothing.
     */
    method TaskDone() returns (ok: bool)
      modifies this
      ensures ok <==> old(unfinished) > 0
      ensures items == old(items)
      ensures unfinished == if ok then old(unfinished) - 1 else old(unfinished)
    {
      ok := unfinished > 0;
      if ok {
        unfinished := unfinished - 1;
      }
    }
  }
}
