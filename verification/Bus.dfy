/** core/queuebus.py: the work queue, the leases and the event channels in Redis.

    A lease disappears when its time-to-live runs out; that is a step of the
    environment (module System), not of this class. */
module Bus {
  import opened Models

  class QueueBus {
    /** LPUSH puts an id in front, BRPOP takes one from the back. */
    var queue: seq<TaskId>
    var leases: map<TaskId, Token>
    /** Everything that was ever published, oldest first. */
    var published: seq<Event>

    constructor ()
      ensures queue == [] && leases == map[] && published == []
    {
      queue, leases, published := [], map[], [];
    }

    method Enqueue(id: TaskId)
      modifies this`queue
      ensures queue == [id] + old(queue)
    {
      queue := [id] + queue;
    }

    method Dequeue() returns (r: Option<TaskId>)
      modifies this`queue
      ensures r.None? ==> old(queue) == [] && queue == []
      ensures r.Some? ==> old(queue) == queue + [r.value]
    {
      if queue == [] {
        return None;
      }
      r := Some(queue[|queue| - 1]);
      queue := queue[..|queue| - 1];
    }

    method QueuedIds() returns (r: set<TaskId>)
      ensures forall id :: id in r <==> id in queue
    {
      r := set id | id in queue;
    }

    /** SET with NX: a lease that exists is never overwritten. */
    method AcquireLease(id: TaskId, token: Token) returns (ok: bool)
      modifies this`leases
      ensures ok <==> id !in old(leases)
      ensures leases == if ok then old(leases)[id := token] else old(leases)
    {
      ok := id !in leases;
      if ok {
        leases := leases[id := token];
      }
    }

    method LeaseToken(id: TaskId) returns (r: Option<Token>)
      ensures r == if id in leases then Some(leases[id]) else None
    {
      if id in leases {
        return Some(leases[id]);
      }
      return None;
    }

    /** With no other client in between, EXPIRE finds the lease that GET saw. */
    method RenewLease(id: TaskId, token: Token) returns (ok: bool)
      ensures ok <==> id in leases && leases[id] == token
    {
      var held := LeaseToken(id);
      ok := held == Some(token);
    }

    method ReleaseLease(id: TaskId, token: Token)
      modifies this`leases
      ensures leases == if id in old(leases) && old(leases)[id] == token then old(leases) - {id} else old(leases)
    {
      var held := LeaseToken(id);
      if held == Some(token) {
        leases := leases - {id};
      }
    }

    method ActiveLeases() returns (n: nat)
      ensures n == |leases|
    {
      n := |leases|;
    }

    method PublishEvent(e: Event)
      modifies this`published
      ensures published == old(published) + [e]
    {
      published := published + [e];
    }
  }
}
