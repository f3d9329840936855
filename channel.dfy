/** The reload channel: the WebSocket server's tracked clients (`clientTracking: true`) and what
    has been sent to each. */
module ReloadChannel {

  type ClientId = nat

  /** How often `m` occurs in `s`. */
  function Count(s: seq<string>, m: string): nat {
    if |s| == 0 then 0 else Count(s[..|s| - 1], m) + (if s[|s| - 1] == m then 1 else 0)
  }

  /** Every tracked client's outbox gains `msg`; untracked outboxes stay as they are. */
  function Broadcasted(outbox: map<ClientId, seq<string>>, tracked: seq<ClientId>, msg: string)
    : map<ClientId, seq<string>>
  {
    map c | c in outbox :: if c in tracked then outbox[c] + [msg] else outbox[c]
  }

  /** A broadcast gives each client open at that moment exactly one more copy of the message,
      and a client that is not tracked none. */
  lemma BroadcastDeliversOnce(outbox: map<ClientId, seq<string>>, tracked: seq<ClientId>, msg: string, c: ClientId)
    requires c in outbox
    ensures var after := Broadcasted(outbox, tracked, msg);
            && c in after
            && Count(after[c], msg) == Count(outbox[c], msg) + (if c in tracked then 1 else 0)
            && after[c][..|outbox[c]|] == outbox[c]
  {
    var after := Broadcasted(outbox, tracked, msg);
    if c in tracked {
      assert after[c][..|after[c]| - 1] == outbox[c];
    }
  }

  predicate Distinct(s: seq<ClientId>) {
    forall i, j :: 0 <= i < j < |s| ==> s[i] != s[j]
  }

  /** The tracked set without `id`; `WithoutAt` shows the order is kept. */
  function Without(s: seq<ClientId>, id: ClientId): (r: seq<ClientId>)
    ensures forall c :: c in r <==> c in s && c != id
    ensures Distinct(s) ==> Distinct(r)
  {
    if |s| == 0 then []
    else if s[0] == id then Without(s[1..], id)
    else
      var rest := Without(s[1..], id);
      assert Distinct(s) ==> s[0] !in s[1..] by {
        if Distinct(s) {
          forall k | 0 <= k < |s[1..]| ensures s[1..][k] != s[0] {
            assert s[1..][k] == s[k + 1];
          }
        }
      }
      assert Distinct(s) ==> Distinct([s[0]] + rest) by {
        if Distinct(s) {
          forall i, j | 0 <= i < j < |[s[0]] + rest| ensures ([s[0]] + rest)[i] != ([s[0]] + rest)[j] {
            if i == 0 {
              assert ([s[0]] + rest)[j] == rest[j - 1];
            }
          }
        }
      }
      [s[0]] + rest
  }

  /** Removing a client that is not tracked changes nothing. */
  lemma {:induction false} WithoutAbsent(s: seq<ClientId>, id: ClientId)
    requires id !in s
    ensures Without(s, id) == s
  {
    if |s| > 0 {
      assert id !in s[1..];
      WithoutAbsent(s[1..], id);
    }
  }

  /** Removing a tracked client cuts it out at its position: the others keep their order. */
  lemma {:induction false} WithoutAt(s: seq<ClientId>, id: ClientId, k: nat)
    requires Distinct(s) && k < |s| && s[k] == id
    ensures Without(s, id) == s[..k] + s[k + 1..]
  {
    var rest := s[k + 1..];
    assert id !in rest by {
      forall j | 0 <= j < |rest| ensures rest[j] != id {
        assert rest[j] == s[k + 1 + j];
      }
    }
    if k == 0 {
      WithoutAbsent(s[1..], id);
    } else {
      var t := s[1..];
      assert Distinct(t);
      assert s[0] != id;
      WithoutAt(t, id, k - 1);
      assert t[..k - 1] + t[k..] == s[1..k] + s[k + 1..];
      assert s[..k] == [s[0]] + s[1..k];
    }
  }

  class ClientRegistry {
    var clients: seq<ClientId>                   // `wss.clients`, in insertion order
    var outbox: map<ClientId, seq<string>>       // every message sent to each client, in order
    var nextId: ClientId

    ghost predicate Valid()
      reads this
    {
      && Distinct(clients)
      && (forall c :: c in clients ==> c in outbox)
      && (forall c :: c in outbox ==> c < nextId)
    }

    constructor ()
      ensures Valid() && clients == [] && outbox == map[]
    {
      clients, outbox, nextId := [], map[], 0;
    }

    /** A handshake completed: the socket joins the tracked set. */
    method Connect() returns (id: ClientId)
      requires Valid()
      modifies this
      ensures Valid()
      ensures id !in old(outbox)
      ensures clients == old(clients) + [id] && outbox == old(outbox)[id := []]
    {
      id := nextId;
      assert id !in clients;
      clients := clients + [id];
      outbox := outbox[id := []];
      nextId := nextId + 1;
    }

    /** The socket closed: it leaves the tracked set. */
    method Disconnect(id: ClientId)
      requires Valid()
      modifies this
      ensures Valid()
      ensures clients == Without(old(clients), id) && outbox == old(outbox)
    {
      clients := Without(clients, id);
    }

    /** `ws.send(msg)`. */
    method Send(id: ClientId, msg: string)
      requires Valid() && id in outbox
      modifies this
      ensures Valid()
      ensures clients == old(clients) && outbox == old(outbox)[id := old(outbox)[id] + [msg]]
    {
      outbox := outbox[id := outbox[id] + [msg]];
    }

    /** `wss.clients.forEach(ws => ws.send(msg))`. */
    method Broadcast(msg: string)
      requires Valid()
      modifies this
      ensures Valid()
      ensures clients == old(clients) && outbox == Broadcasted(old(outbox), clients, msg)
    {
      var i := 0;
      while i < |clients|
        invariant 0 <= i <= |clients|
        invariant Valid() && clients == old(clients)
        invariant outbox == Broadcasted(old(outbox), clients[..i], msg)
      {
        var c := clients[i];
        assert c !in clients[..i];
        assert clients[..i + 1] == clients[..i] + [c];
        outbox := outbox[c := outbox[c] + [msg]];
        i := i + 1;
      }
      assert clients[..i] == clients;
    }
  }
}
