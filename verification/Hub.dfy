/** The shared ends of a session: the client side of its hub (hub.rs) and its client registry (clients.rs). */
module Hub {
  import opened Sequences

  // What the session does while a client's send waits: how many chunks its bridge takes off the queue,
  // and whether its loop ends.
  datatype Wait = Wait(taken: nat, ended: bool)

  // What the clients of a session share: the fan-in queue, which closes with the session's loop, and the
  // live receivers of the broadcast channel.
  class Hub {
    const capacity: nat
    var open: bool
    var fanIn: seq<Chunk>
    var receivers: set<nat>
    var nextReceiver: nat

    ghost predicate Valid()
      reads this
    {
      && |fanIn| <= capacity && (!open ==> fanIn == [])
      && forall r :: r in receivers ==> r < nextReceiver
    }

    constructor (capacity: nat)
      ensures Valid() && this.capacity == capacity && open && fanIn == [] && receivers == {}
    {
      this.capacity, open, fanIn, receivers, nextReceiver := capacity, true, [], {}, 0;
    }

    method SubscribeOutput() returns (receiver: nat)
      requires Valid()
      modifies this`receivers, this`nextReceiver
      ensures Valid() && receiver !in old(receivers) && receivers == old(receivers) + {receiver}
      ensures SubscriberCount() == old(SubscriberCount()) + 1
    {
      receiver := nextReceiver;
      receivers := receivers + {receiver};
      nextReceiver := nextReceiver + 1;
    }

    // A forward task that ends, or is aborted, drops its receiver; doing so again changes nothing.
    method DropReceiver(receiver: nat)
      requires Valid()
      modifies this`receivers
      ensures Valid() && receivers == old(receivers) - {receiver}
    {
      receivers := receivers - {receiver};
    }

    function SubscriberCount(): nat
      reads this
    {
      |receivers|
    }

    // A send waits until there is room in the queue, or the queue is closed.
    predicate Completes(w: Wait)
      reads this
    {
      !open || w.ended || (w.taken <= |fanIn| && |fanIn| - w.taken < capacity)
    }

    method SendInput(b: Chunk, w: Wait) returns (sent: bool)
      requires Valid() && Completes(w)
      modifies this`open, this`fanIn
      ensures Valid() && sent == open == (old(open) && !w.ended)
      ensures fanIn == if sent then old(fanIn)[w.taken..] + [b] else []
    {
      if w.ended {
        open, fanIn := false, [];
      }
      if !open {
        return false;
      }
      fanIn := fanIn[w.taken..] + [b];
      return true;
    }
  }

  class ClientRecord {
    const id: nat
    const remote: string
    var bytesIn: nat
    var bytesOut: nat
    var kicked: bool

    constructor (id: nat, remote: string)
      ensures this.id == id && this.remote == remote && bytesIn == 0 && bytesOut == 0 && !kicked
    {
      this.id, this.remote, bytesIn, bytesOut, kicked := id, remote, 0, 0, false;
    }
  }

  // 1, 2, ..., n: the identifiers of the first n clients.
  function FirstIds(n: nat): seq<nat> {
    seq(n, i requires 0 <= i < n => i + 1)
  }

  class ClientRegistry {
    var nextId: nat
    var clients: map<nat, ClientRecord>
    ghost var issued: seq<nat>  // every identifier ever handed out, in order

    // Identifiers strictly increase, so none is ever reused.
    ghost predicate Valid()
      reads this
    {
      && issued == FirstIds(nextId)
      && forall id :: id in clients ==> id in issued && clients[id].id == id
    }

    constructor ()
      ensures Valid() && clients == map[] && issued == []
    {
      nextId, clients, issued := 0, map[], [];
    }

    method Attach(remote: string) returns (rec: ClientRecord)
      requires Valid()
      modifies this
      ensures Valid() && fresh(rec)
      ensures rec.remote == remote && rec.bytesIn == 0 && rec.bytesOut == 0 && !rec.kicked
      ensures rec.id !in old(issued) && issued == old(issued) + [rec.id]
      ensures forall k :: 0 <= k < |old(issued)| ==> old(issued)[k] < rec.id
      ensures clients == old(clients)[rec.id := rec]
    {
      nextId := nextId + 1;
      rec := new ClientRecord(nextId, remote);
      clients := clients[nextId := rec];
      issued := issued + [nextId];
    }

    method Detach(id: nat)
      requires Valid()
      modifies this`clients
      ensures Valid() && clients == old(clients) - {id}
    {
      clients := clients - {id};
    }

    // Fires exactly the token of the client named, if it is attached.
    method Kick(id: nat) returns (found: bool)
      requires Valid()
      modifies if id in clients then {clients[id]} else {}
      ensures Valid() && found == (id in clients)
      ensures found ==> clients[id].kicked && clients[id].bytesIn == old(clients[id].bytesIn)
                        && clients[id].bytesOut == old(clients[id].bytesOut)
    {
      found := id in clients;
      if found {
        clients[id].kicked := true;
      }
    }
  }
}
