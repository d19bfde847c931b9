/**
 * The progress channel: the list of open `/progress` connections and the
 * frames written to them.
 *
 * Each connection is an Express response object, created afresh for every
 * request; here a connection is a number drawn from a counter, so two
 * subscriptions never share an identity. Everything the server sends is kept
 * as one trace in the order it happened: each frame written to a progress
 * connection, recording the event it carried (`Wire` gives its text), and
 * each step of handling a download request, so that the order of the two
 * kinds is part of the state.
 */
module Channel {
  import opened Wrappers
  import opened Events

  type ClientId = nat

  /**
   * A step of handling a `/download` request: starting the downloader,
   * answering with a status, sending the file, removing the file.
   */
  datatype Action =
    | Spawn(output: string, url: string)
    | Respond(status: nat, body: string)
    | SendFile(name: string)
    | DeleteFile(name: string)

  /** One entry of the trace: a `res.write` of the frame of `event` to `client`, or a request step. */
  datatype Write =
    | Write(client: ClientId, event: Event)
    | Act(action: Action)

  /**
   * Server-sent events framing: one `data:` field and the blank line that
   * ends the event. The subscriber reads the payload back unchanged.
   */
  function Frame(payload: string): (f: string)
    ensures FrameData(f) == Some(payload)
  {
    var f := "data: " + payload + "\n\n";
    assert f[..6] == "data: ";
    assert f[|f| - 2..] == "\n\n";
    assert f[6..|f| - 2] == payload;
    f
  }

  /**
   * What an `EventSource` reads back as the event's data: the text between
   * the `data: ` prefix and the closing blank line. A real `EventSource`
   * also splits the data at line breaks; this reading agrees with it for
   * payloads without them, which every `Encodable` payload is, since
   * `NeedsNoEscape` rules out control characters.
   */
  function FrameData(frame: string): Option<string> {
    if |frame| >= 8 && frame[..6] == "data: " && frame[|frame| - 2..] == "\n\n" then
      Some(frame[6..|frame| - 2])
    else
      None
  }

  /** The text one write puts on the connection. */
  function Wire(e: Event): string {
    Frame(Payload(e))
  }

  /** `f` applied to every element, in order. */
  function MapSeq<A, B>(f: A -> B, s: seq<A>): seq<B> {
    seq(|s|, i requires 0 <= i < |s| => f(s[i]))
  }

  lemma MapSeqAppend<A, B>(f: A -> B, a: seq<A>, b: seq<A>)
    ensures MapSeq(f, a + b) == MapSeq(f, a) + MapSeq(f, b)
  {
    var l, r := MapSeq(f, a + b), MapSeq(f, a) + MapSeq(f, b);
    forall i | |a| <= i < |l| ensures l[i] == r[i] {
      assert (a + b)[i] == b[i - |a|];
    }
  }

  /** What a subscriber's `JSON.parse(event.data)` reads from a frame. */
  function ReadFrame(frame: string): Option<Event> {
    match FrameData(frame)
    case None => None
    case Some(data) => DecodePayload(data)
  }

  /** A subscriber reads back exactly the event that was sent. */
  lemma WireRoundTrip(e: Event)
    requires Encodable(e)
    ensures ReadFrame(Wire(e)) == Some(e)
  {
  }

  /**
   * The writes one broadcast performs: the event's frame to each client, in
   * list order. There is one write per entry of the list, each carries the
   * event, and each goes to a listed client.
   */
  function FanOut(clients: seq<ClientId>, e: Event): (w: seq<Write>)
    ensures |w| == |clients|
    ensures forall x <- w :: x.Write? && x.event == e && x.client in clients
  {
    seq(|clients|, i requires 0 <= i < |clients| => Write(clients[i], e))
  }

  /** The writes a sequence of broadcasts performs on a fixed list of clients. */
  function Broadcasts(clients: seq<ClientId>, events: seq<Event>): seq<Write> {
    if events == [] then []
    else Broadcasts(clients, events[..|events| - 1]) + FanOut(clients, events[|events| - 1])
  }

  /**
   * The list `filter(client => client !== c)` leaves: every occurrence of
   * `c` is dropped and every other client is kept as often as before.
   */
  function Without(clients: seq<ClientId>, c: ClientId): (r: seq<ClientId>)
    ensures multiset(r) == multiset(clients)[c := 0]
  {
    if clients == [] then []
    else
      assert clients == [clients[0]] + clients[1..];
      (if clients[0] == c then [] else [clients[0]]) + Without(clients[1..], c)
  }

  /** `a` is `b` with some elements left out and the rest in their original order. */
  predicate IsSubsequence(a: seq<ClientId>, b: seq<ClientId>) {
    if a == [] then true
    else if b == [] then false
    else if a[0] == b[0] then IsSubsequence(a[1..], b[1..])
    else IsSubsequence(a, b[1..])
  }

  /** No client occurs twice. */
  ghost predicate Distinct(clients: seq<ClientId>) {
    forall c :: multiset(clients)[c] <= 1
  }

  /** The events whose frames were written to `c`, oldest first. */
  function LogOf(writes: seq<Write>, c: ClientId): seq<Event> {
    if writes == [] then []
    else
      var last := writes[|writes| - 1];
      LogOf(writes[..|writes| - 1], c) + (if last.Write? && last.client == c then [last.event] else [])
  }

  /** A client that no frame went to has an empty log. */
  lemma {:induction false} LogOfAbsent(writes: seq<Write>, c: ClientId)
    requires forall w <- writes :: w.Write? ==> w.client != c
    ensures LogOf(writes, c) == []
    decreases |writes|
  {
    if writes != [] {
      var init := writes[..|writes| - 1];
      assert forall w <- init :: w in writes;
      LogOfAbsent(init, c);
      assert writes[|writes| - 1] in writes;
    }
  }

  /** Removing a client keeps the others in their original relative order. */
  lemma {:induction false} WithoutKeepsOrder(clients: seq<ClientId>, c: ClientId)
    ensures IsSubsequence(Without(clients, c), clients)
  {
    if clients != [] {
      var r := Without(clients, c);
      var rest := Without(clients[1..], c);
      WithoutKeepsOrder(clients[1..], c);
      if clients[0] != c {
        assert r[0] == clients[0] && r[1..] == rest;
      } else {
        assert r == rest;
        if r != [] {
          assert rest[0] in rest;
          assert multiset(rest)[rest[0]] > 0;
        }
      }
    }
  }

  /** Removing a client that is not registered changes nothing. */
  lemma {:induction false} WithoutAbsent(clients: seq<ClientId>, c: ClientId)
    requires c !in clients
    ensures Without(clients, c) == clients
  {
    if clients != [] {
      assert c !in clients[1..];
      WithoutAbsent(clients[1..], c);
    }
  }

  /** A client's log of a concatenation of traces is the concatenation of its logs. */
  lemma {:induction false} LogOfAppend(a: seq<Write>, b: seq<Write>, c: ClientId)
    ensures LogOf(a + b, c) == LogOf(a, c) + LogOf(b, c)
    decreases |b|
  {
    if b == [] {
      assert a + b == a;
    } else {
      var b' := b[..|b| - 1];
      assert (a + b)[..|a + b| - 1] == a + b';
      LogOfAppend(a, b', c);
    }
  }

  /** One broadcast gives each client one copy of the frame per occurrence in the list. */
  lemma {:induction false} LogOfFanOut(clients: seq<ClientId>, e: Event, c: ClientId)
    ensures LogOf(FanOut(clients, e), c) == seq(multiset(clients)[c], _ => e)
    decreases |clients|
  {
    if clients != [] {
      var init := clients[..|clients| - 1];
      var w := FanOut(clients, e);
      assert w[..|w| - 1] == FanOut(init, e);
      LogOfFanOut(init, e, c);
      assert clients == init + [clients[|clients| - 1]];
    }
  }

  /** With distinct clients a broadcast reaches each registered client exactly once and nobody else. */
  lemma LogOfFanOutDistinct(clients: seq<ClientId>, e: Event, c: ClientId)
    requires Distinct(clients)
    ensures LogOf(FanOut(clients, e), c) == if c in clients then [e] else []
  {
    LogOfFanOut(clients, e, c);
  }

  /** One more broadcast on top of a trace adds the event to the log of every registered client. */
  lemma LogAfterFanOut(writes: seq<Write>, clients: seq<ClientId>, e: Event, c: ClientId)
    requires Distinct(clients)
    ensures LogOf(writes + FanOut(clients, e), c) == LogOf(writes, c) + if c in clients then [e] else []
  {
    LogOfAppend(writes, FanOut(clients, e), c);
    LogOfFanOutDistinct(clients, e, c);
  }

  lemma BroadcastsSnoc(clients: seq<ClientId>, events: seq<Event>, e: Event)
    ensures Broadcasts(clients, events + [e]) == Broadcasts(clients, events) + FanOut(clients, e)
  {
    assert (events + [e])[..|events|] == events;
  }

  /** A client registered throughout a run of broadcasts receives every event, in order; others receive none. */
  lemma {:induction false} LogOfBroadcasts(clients: seq<ClientId>, events: seq<Event>, c: ClientId)
    requires Distinct(clients)
    ensures LogOf(Broadcasts(clients, events), c) == if c in clients then events else []
    decreases |events|
  {
    if events != [] {
      var init, e := events[..|events| - 1], events[|events| - 1];
      assert events == init + [e];
      BroadcastsSnoc(clients, init, e);
      LogOfBroadcasts(clients, init, c);
      LogAfterFanOut(Broadcasts(clients, init), clients, e, c);
    }
  }

  /**
   * After a run of broadcasts on top of an earlier trace, each registered
   * client's log has gained exactly the broadcast events; other logs are unchanged.
   */
  lemma LogAfterBroadcasts(writes: seq<Write>, clients: seq<ClientId>, events: seq<Event>, c: ClientId)
    requires Distinct(clients)
    ensures LogOf(writes + Broadcasts(clients, events), c) == LogOf(writes, c) + if c in clients then events else []
  {
    LogOfAppend(writes, Broadcasts(clients, events), c);
    LogOfBroadcasts(clients, events, c);
  }

  lemma {:induction false} BroadcastsAppend(clients: seq<ClientId>, a: seq<Event>, b: seq<Event>)
    ensures Broadcasts(clients, a + b) == Broadcasts(clients, a) + Broadcasts(clients, b)
    decreases |b|
  {
    if b == [] {
      assert a + b == a;
    } else {
      var b', e := b[..|b| - 1], b[|b| - 1];
      assert b == b' + [e];
      assert a + b == (a + b') + [e];
      BroadcastsAppend(clients, a, b');
      BroadcastsSnoc(clients, a + b', e);
      BroadcastsSnoc(clients, b', e);
    }
  }

  class ProgressChannel {
    /** `progressClients`: the open connections, in the order they subscribed. */
    var clients: seq<ClientId>
    /** The identity the next connection receives. */
    var nextId: ClientId
    /** Every frame written so far, to whom, in order. */
    var writes: seq<Write>

    /** Connections are distinct, and every identity in use, listed or written to, was drawn already. */
    ghost predicate Valid()
      reads this
    {
      && Distinct(clients)
      && (forall c <- clients :: c < nextId)
      && (forall w <- writes :: w.Write? ==> w.client < nextId)
    }

    /** The events whose frames connection `c` has received. */
    function Log(c: ClientId): seq<Event>
      reads this
    {
      LogOf(writes, c)
    }

    /** The frames connection `c` has received, as text. */
    function Received(c: ClientId): seq<string>
      reads this
    {
      MapSeq(Wire, LogOf(writes, c))
    }

    constructor ()
      ensures Valid() && clients == [] && writes == []
    {
      clients := [];
      nextId := 0;
      writes := [];
    }

    /**
     * A new `/progress` connection is appended to the list. It is a fresh
     * response object: never listed before and never written to.
     */
    method Subscribe() returns (id: ClientId)
      requires Valid()
      modifies this
      ensures Valid()
      ensures id == old(nextId) && nextId == old(nextId) + 1
      ensures id !in old(clients) && clients == old(clients) + [id]
      ensures writes == old(writes) && Log(id) == [] && Received(id) == []
    {
      id := nextId;
      assert id !in clients;
      assert multiset(clients)[id] == 0;
      assert multiset(clients + [id]) == multiset(clients) + multiset{id};
      LogOfAbsent(writes, id);
      clients := clients + [id];
      nextId := nextId + 1;
    }

    /** A closed connection is filtered out of the list. */
    method Unsubscribe(id: ClientId)
      requires Valid()
      modifies this
      ensures Valid()
      ensures clients == Without(old(clients), id)
      ensures id !in clients
      ensures id !in old(clients) ==> clients == old(clients)
      ensures writes == old(writes) && nextId == old(nextId)
    {
      if id !in clients {
        WithoutAbsent(clients, id);
      }
      clients := Without(clients, id);
      forall c | c in clients ensures c < nextId {
        assert c in multiset(clients);
        assert c in old(clients);
      }
      assert multiset(clients)[id] == 0;
    }

    /** A step of request handling, recorded in order with the frames; no connection receives anything. */
    method Record(a: Action)
      requires Valid()
      modifies this
      ensures Valid() && clients == old(clients) && nextId == old(nextId)
      ensures writes == old(writes) + [Act(a)]
      ensures forall c :: Log(c) == old(Log(c)) && Received(c) == old(Received(c))
    {
      writes := writes + [Act(a)];
      assert writes[..|writes| - 1] == old(writes);
    }

    /** `sendProgress`: writes the event's frame, `Wire(e)`, to every connection, in list order. */
    method Broadcast(e: Event)
      requires Valid()
      modifies this
      ensures Valid() && clients == old(clients) && nextId == old(nextId)
      ensures writes == old(writes) + FanOut(clients, e)
      ensures clients == [] ==> writes == old(writes)
      ensures forall c :: Log(c) == old(Log(c)) + (if c in clients then [e] else [])
      ensures forall c :: Received(c) == old(Received(c)) + (if c in clients then [Wire(e)] else [])
    {
      var i := 0;
      while i < |clients|
        invariant 0 <= i <= |clients|
        invariant clients == old(clients) && nextId == old(nextId)
        invariant writes == old(writes) + FanOut(clients[..i], e)
      {
        assert FanOut(clients[..i + 1], e) == FanOut(clients[..i], e) + [Write(clients[i], e)];
        writes := writes + [Write(clients[i], e)];
        i := i + 1;
      }
      assert clients[..i] == clients;
      forall c ensures Log(c) == old(Log(c)) + (if c in clients then [e] else []) {
        LogOfAppend(old(writes), FanOut(clients, e), c);
        LogOfFanOutDistinct(clients, e, c);
      }
      forall c ensures Received(c) == old(Received(c)) + (if c in clients then [Wire(e)] else []) {
        MapSeqAppend(Wire, old(Log(c)), if c in clients then [e] else []);
      }
    }
  }
}
