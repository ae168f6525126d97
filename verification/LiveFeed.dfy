/** The two bounded queues of the live feed: a slot per browser tab or CLI on
    the server, and the forward queue of the CLI. */
module LiveFeed {
  import opened Core

  const CLIENT_BUFFER: nat := 32
  const FORWARD_QUEUE: nat := 100

  // A non-blocking send on a buffered channel.
  predicate HasRoom<T>(queue: seq<T>, capacity: nat) {
    |queue| < capacity
  }

  function Offer<T>(queue: seq<T>, x: T, capacity: nat): seq<T> {
    if HasRoom(queue, capacity) then queue + [x] else queue
  }

  class Client {
    const sessionID: string
    var send: seq<string>

    constructor (sessionID: string)
      ensures this.sessionID == sessionID && send == []
    {
      this.sessionID := sessionID;
      send := [];
    }
  }

  class Broadcaster {
    var clients: map<string, set<Client>>

    // No session is kept without clients, and clients are filed under their own session.
    ghost predicate Valid()
      reads this
    {
      forall id :: id in clients ==> clients[id] != {} && forall c :: c in clients[id] ==> c.sessionID == id
    }

    function Watching(id: string): set<Client>
      reads this
    {
      if id in clients then clients[id] else {}
    }

    constructor ()
      ensures Valid() && clients == map[]
    {
      clients := map[];
    }

    method Register(client: Client)
      requires Valid()
      modifies this
      ensures Valid()
      ensures forall id :: Watching(id) == old(Watching(id)) + if id == client.sessionID then {client} else {}
    {
      if client.sessionID !in clients {
        clients := clients[client.sessionID := {}];
      }
      clients := clients[client.sessionID := clients[client.sessionID] + {client}];
    }

    method Deregister(client: Client)
      requires Valid()
      modifies this
      ensures Valid()
      ensures forall id :: Watching(id) == old(Watching(id)) - if id == client.sessionID then {client} else {}
    {
      var id := client.sessionID;
      if id in clients {
        var rest := clients[id] - {client};
        clients := clients[id := rest];
        if rest == {} {
          clients := clients - {id};
        }
      }
    }

    // Every client of the session is offered the payload once, whatever the
    // others' buffers look like; no other client is touched.
    method Broadcast(id: string, payload: Option<string>)
      requires Valid()
      modifies Watching(id)
      ensures forall c :: c in Watching(id) ==>
                c.send == if payload.Some? then Offer(old(c.send), payload.value, CLIENT_BUFFER) else old(c.send)
      ensures forall c :: c in Watching(id) ==>
                c.send == old(c.send) + if payload.Some? && |old(c.send)| < 32 then [payload.value] else []
    {
      if id !in clients || clients[id] == {} {
        return;
      }
      if payload.None? {
        return;
      }
      var left := clients[id];
      while left != {}
        invariant left <= clients[id]
        invariant forall c :: c in clients[id] ==>
                    c.send == if c in left then old(c.send) else Offer(old(c.send), payload.value, CLIENT_BUFFER)
        decreases |left|
      {
        var client :| client in left;
        left := left - {client};
        if |client.send| < CLIENT_BUFFER {
          client.send := client.send + [payload.value];
        }
      }
    }
  }

  class Forwarder {
    var queue: seq<string>
    ghost var attempted: seq<string>

    constructor ()
      ensures queue == [] && attempted == []
    {
      queue, attempted := [], [];
    }

    method Enqueue(req: string) returns (ok: bool)
      modifies this`queue
      ensures ok == HasRoom(old(queue), FORWARD_QUEUE)
      ensures queue == Offer(old(queue), req, FORWARD_QUEUE)
      ensures (ok <==> |old(queue)| < 100) && queue == old(queue) + if ok then [req] else []
    {
      if |queue| < FORWARD_QUEUE {
        queue := queue + [req];
        return true;
      }
      return false;
    }

    // One turn of the single worker: nothing overtakes and nothing is retried.
    method DeliverNext() returns (req: Option<string>)
      modifies this
      ensures old(queue) == [] ==> req == None && queue == [] && attempted == old(attempted)
      ensures old(queue) != [] ==>
                req == Some(old(queue)[0]) && queue == old(queue)[1..] && attempted == old(attempted) + [old(queue)[0]]
      ensures attempted + queue == old(attempted) + old(queue)
    {
      if queue == [] {
        return None;
      }
      req := Some(queue[0]);
      attempted := attempted + [queue[0]];
      queue := queue[1..];
    }
  }
}
