/**
 * The realtime gateway: connections, subscriptions, grace windows and the changes kept for clients
 * that dropped. packages/core/src/WebsocketGatewayBase.ts.
 *
 * One gateway without peers. Sockets are named by handles; frames written to a socket wait in
 * `queued` when the gateway defers them, and are in `frames` once sent.
 */
module Gateway {
  import opened Wrappers

  type Client = string
  type Ref = string
  type Handle = nat

  datatype Change = Change(ref: Ref, id: string, body: string)

  datatype Frame = Hello | Sync(cids: seq<Client>, changes: seq<Change>)

  datatype Socket = Socket(id: Option<Client>, refs: set<Ref>, alive: bool, queued: seq<Frame>, frames: seq<Frame>)

  /** Changes kept for a dropped client. */
  const MISSED_LIMIT := 1000

  /** `sockets`: accepted and not closed yet. `pending`: what a running grace window will detach. */
  datatype State = State(
    sockets: map<Handle, Socket>,
    connections: map<Client, Handle>,
    subscriptions: map<Ref, set<Client>>,
    pending: map<Client, set<Ref>>,
    missed: map<Client, seq<Change>>)

  const EMPTY := State(map[], map[], map[], map[], map[])

  // --- The registry ---

  function RefsOf(subscriptions: map<Ref, set<Client>>, client: Client): set<Ref> {
    set ref <- subscriptions | client in subscriptions[ref]
  }

  function Subscribers(subscriptions: map<Ref, set<Client>>, ref: Ref): set<Client> {
    if ref in subscriptions then subscriptions[ref] else {}
  }

  /** The subscriptions once `client` left `refs`; refs nobody is left on go. */
  function Left(subscriptions: map<Ref, set<Client>>, client: Client, refs: set<Ref>): map<Ref, set<Client>> {
    map ref <- subscriptions | ref !in refs || subscriptions[ref] - {client} != {} ::
      if ref in refs then subscriptions[ref] - {client} else subscriptions[ref]
  }

  function Detached(s: State, client: Client, refs: set<Ref>): State {
    var left := s.(subscriptions := Left(s.subscriptions, client, refs));
    if client in s.connections && s.connections[client] in s.sockets then
      var h := s.connections[client];
      left.(sockets := s.sockets[h := s.sockets[h].(refs := s.sockets[h].refs - refs)])
    else left
  }

  function Accepted(s: State, h: Handle): State {
    s.(sockets := s.sockets[h := Socket(None, {}, true, [], [])])
  }

  /** What a client that (re)connects is sent at once: `hello`, then what it missed. */
  function Welcome(s: State, client: Client): seq<Frame> {
    [Hello] + if client in s.missed && s.missed[client] != [] then [Sync([client], s.missed[client])] else []
  }

  function Started(s: State, h: Handle, client: Client): State
    requires h in s.sockets
  {
    var socket := s.sockets[h];
    if socket.id.Some? then s
    else
      var taken := client in s.connections && s.connections[client] in s.sockets;
      var p := if taken then s.connections[client] else h;
      var before := if taken then s.sockets[p].refs else {};
      var kept := if client in s.pending then RefsOf(s.subscriptions, client) else {};
      var sockets := if taken then s.sockets[p := s.sockets[p].(id := None, alive := false)] else s.sockets;
      State(sockets[h := socket.(id := Some(client), refs := before + kept,
        frames := socket.frames + Welcome(s, client))],
            s.connections[client := h], s.subscriptions, s.pending - {client}, s.missed - {client})
  }

  /** The socket closed. Its client keeps its subscriptions for the grace window, if there is one. */
  function Closed(s: State, h: Handle, grace: bool): State
    requires h in s.sockets
  {
    var socket := s.sockets[h];
    var gone := s.(sockets := s.sockets - {h});
    if socket.id.None? then gone
    else
      var client := socket.id.value;
      var off := if client in s.connections && s.connections[client] == h
          then gone.(connections := s.connections - {client}) else gone;
      if socket.refs == {} then off
      else if grace then off.(pending := s.pending[client := socket.refs])
      else Detached(off.(pending := s.pending - {client}), client, socket.refs)
  }

  /** The grace window of a client passed. */
  function Expired(s: State, client: Client): State
    requires client in s.pending
  {
    var over := s.(pending := s.pending - {client});
    if client in s.connections then over
    else Detached(over.(missed := s.missed - {client}), client, s.pending[client])
  }

  function Listened(s: State, ref: Ref, client: Client): State {
    if client !in s.connections || s.connections[client] !in s.sockets then s
    else
      var h := s.connections[client];
      if ref in s.sockets[h].refs || client in Subscribers(s.subscriptions, ref) then s
      else s.(subscriptions := s.subscriptions[ref := Subscribers(s.subscriptions, ref) + {client}],
              sockets := s.sockets[h := s.sockets[h].(refs := s.sockets[h].refs + {ref})])
  }

  /** A client drops its own subscriptions. */
  function Unsubscribed(s: State, h: Handle, refs: set<Ref>): State
    requires h in s.sockets
  {
    if s.sockets[h].id.Some? then Detached(s, s.sockets[h].id.value, refs) else s
  }

  // --- Publishing ---

  function Last(changes: seq<Change>, limit: nat): (r: seq<Change>)
    ensures |r| <= limit
  {
    if |changes| > limit then changes[|changes| - limit..] else changes
  }

  function DocRef(change: Change): Ref {
    change.ref + "/" + change.id
  }

  predicate Reachable(s: State, client: Client) {
    client in s.connections && s.connections[client] in s.sockets && s.sockets[s.connections[client]].alive
  }

  predicate Keeps(s: State, client: Client) {
    !Reachable(s, client) && (client in s.pending || client in s.connections)
  }

  function MissedBy(s: State, client: Client): seq<Change> {
    if client in s.missed then s.missed[client] else []
  }

  /** One item per set the client is in. */
  function Copies<T>(client: Client, one: set<Client>, two: set<Client>, item: T): seq<T> {
    (if client in one then [item] else []) + (if client in two then [item] else [])
  }

  /** What is kept once the clients of `one`, then those of `two`, were offered the change. */
  function Kept(s: State, change: Change, one: set<Client>, two: set<Client>): map<Client, seq<Change>> {
    map client | client in s.missed.Keys + one + two && (client in s.missed || Keeps(s, client)) ::
      if Keeps(s, client)
          && client in one + two then Last(MissedBy(s, client) + Copies(client, one, two, change), MISSED_LIMIT)
      else MissedBy(s, client)
  }

  /** Who is sent the change now, and under which ids. */
  function Targets(s: State, one: set<Client>, two: set<Client>): map<Client, seq<Client>> {
    map client | client in one + two && Reachable(s, client) :: Copies(client, one, two, client)
  }

  /** The deferred frames of a change. */
  function Deferred(s: State, change: Change, targets: map<Client, seq<Client>>): map<Handle, Socket> {
    map h <- s.sockets ::
      var socket := s.sockets[h];
      if socket.id.Some? && socket.id.value in targets && socket.id.value in s.connections
          && s.connections[socket.id.value] == h
      then socket.(queued := socket.queued + [Sync(targets[socket.id.value], [change])])
      else socket
  }

  function Published(s: State, change: Change): State {
    var one, two := Subscribers(s.subscriptions, change.ref), Subscribers(s.subscriptions, DocRef(change));
    s.(sockets := Deferred(s, change, Targets(s, one, two)), missed := Kept(s, change, one, two))
  }

  /** A deferred frame goes out; a dead socket swallows it. */
  function Flushed(s: State, h: Handle): State
    requires h in s.sockets && s.sockets[h].queued != []
  {
    var socket := s.sockets[h];
    s.(sockets := s.sockets[h := socket.(queued := socket.queued[1..],
                                         frames := if socket.alive then socket.frames + [socket.queued[0]]
                                             else socket.frames)])
  }

  /** The transport died; its close event is still to come. */
  function Dead(s: State, h: Handle): State
    requires h in s.sockets
  {
    s.(sockets := s.sockets[h := s.sockets[h].(alive := false)])
  }

  // --- Steps ---

  datatype Step =
    | Accept(h: Handle)
    | Start(h: Handle, client: Client)
    | Close(h: Handle)
    | Die(h: Handle)
    | Expire(client: Client)
    | Listen(ref: Ref, client: Client)
    | Unsubscribe(h: Handle, refs: set<Ref>)
    | Publish(change: Change)
    | Flush(h: Handle)

  /** A closed or dead socket sends nothing; the close of each is seen once. */
  predicate Enabled(s: State, step: Step) {
    match step
    case Accept(h) => h !in s.sockets
    case Start(h, _) => h in s.sockets && s.sockets[h].alive
    case Close(h) => h in s.sockets
    case Die(h) => h in s.sockets
    case Expire(client) => client in s.pending
    case Unsubscribe(h, _) => h in s.sockets && s.sockets[h].alive
    case Flush(h) => h in s.sockets && s.sockets[h].queued != []
    case _ => true
  }

  function Next(s: State, step: Step, grace: bool): State
    requires Enabled(s, step)
  {
    match step
    case Accept(h) => Accepted(s, h)
    case Start(h, client) => Started(s, h, client)
    case Close(h) => Closed(s, h, grace)
    case Die(h) => Dead(s, h)
    case Expire(client) => Expired(s, client)
    case Listen(ref, client) => Listened(s, ref, client)
    case Unsubscribe(h, refs) => Unsubscribed(s, h, refs)
    case Publish(change) => Published(s, change)
    case Flush(h) => Flushed(s, h)
  }

  // --- The invariant ---

  /** A connection and its socket name each other. */
  ghost predicate Wired(s: State) {
    && (forall c <- s.connections :: s.connections[c] in s.sockets && s.sockets[s.connections[c]].id == Some(c))
    && (forall h <- s.sockets :: s.sockets[h].id.Some? ==>
        s.sockets[h].id.value in s.connections && s.connections[s.sockets[h].id.value] == h)
  }

  /** A connected client's socket lists exactly its subscriptions; so does a running grace window. */
  ghost predicate Exact(s: State) {
    && (forall c <- s.connections ::
          s.connections[c] in s.sockets && s.sockets[s.connections[c]].refs == RefsOf(s.subscriptions, c))
    && (forall c <- s.pending :: c !in s.connections && s.pending[c] == RefsOf(s.subscriptions, c))
  }

  ghost predicate Known(s: State, c: Client) {
    c in s.connections || c in s.pending
  }

  /** Nobody is subscribed who is neither connected nor in a grace window; no ref is left without subscribers. */
  ghost predicate Accounted(s: State) {
    && (forall ref <- s.subscriptions :: s.subscriptions[ref] != {})
    && (forall ref <- s.subscriptions, c <- s.subscriptions[ref] :: Known(s, c))
  }

  /** A socket that has not started was sent nothing; a client that can be reached has missed nothing. */
  ghost predicate Quiet(s: State) {
    && (forall h <- s.sockets :: s.sockets[h].alive && s.sockets[h].id.None? ==>
          s.sockets[h].refs == {} && s.sockets[h].queued == [] && s.sockets[h].frames == [])
    && (forall c <- s.missed :: !Reachable(s, c) && |s.missed[c]| <= MISSED_LIMIT)
  }

  ghost predicate Inv(s: State) {
    Wired(s) && Exact(s) && Accounted(s) && Quiet(s)
  }

  lemma AccountedStill(s: State, v: State)
    requires Accounted(s) && v.subscriptions == s.subscriptions
    requires s.connections.Keys + s.pending.Keys <= v.connections.Keys + v.pending.Keys
    ensures Accounted(v)
  {
    forall ref, c | ref in v.subscriptions && c in v.subscriptions[ref]
      ensures Known(v, c)
    {
      assert Known(s, c);
      assert c in s.connections.Keys + s.pending.Keys;
      assert c in v.connections.Keys + v.pending.Keys;
    }
  }

  lemma LeftRefs(subscriptions: map<Ref, set<Client>>, client: Client, refs: set<Ref>, c: Client)
    ensures RefsOf(Left(subscriptions, client, refs), c)
        == RefsOf(subscriptions, c) - (if c == client then refs else {})
  {
    var left := Left(subscriptions, client, refs);
    forall ref | ref in subscriptions && c in subscriptions[ref] && !(c == client && ref in refs)
      ensures ref in left && c in left[ref]
    {
      assert c != client ==> c in subscriptions[ref] - {client};
    }
  }

  lemma LeftOnly(subscriptions: map<Ref, set<Client>>, client: Client, refs: set<Ref>)
    requires forall ref <- subscriptions :: subscriptions[ref] != {}
    ensures forall ref <- Left(subscriptions, client, refs) ::
              && ref in subscriptions && Left(subscriptions, client, refs)[ref] != {}
              && Left(subscriptions, client, refs)[ref] <= subscriptions[ref]
  {
  }

  lemma DetachedIs(s: State, client: Client, refs: set<Ref>)
    requires Wired(s)
    ensures var v := Detached(s, client, refs);
            && v.connections == s.connections && v.pending == s.pending && v.missed == s.missed
                && v.sockets.Keys == s.sockets.Keys
            && v.subscriptions == Left(s.subscriptions, client, refs)
            && forall h <- s.sockets :: v.sockets[h] == s.sockets[h].(refs :=
                 if client in s.connections && s.connections[client] == h then s.sockets[h].refs - refs
                     else s.sockets[h].refs)
  {
    hide Left;
  }

  lemma DetachKeepsWired(s: State, client: Client, refs: set<Ref>)
    requires Wired(s) && Quiet(s)
    ensures Wired(Detached(s, client, refs)) && Quiet(Detached(s, client, refs))
  {
    DetachedIs(s, client, refs);
    hide Detached, Left;
  }

  lemma DetachKeepsExact(s: State, client: Client, refs: set<Ref>)
    requires Wired(s) && Exact(s) && client !in s.pending
    ensures Exact(Detached(s, client, refs))
  {
    DetachedIs(s, client, refs);
    var v := Detached(s, client, refs);
    forall c: Client
      ensures RefsOf(v.subscriptions, c) == RefsOf(s.subscriptions, c) - (if c == client then refs else {})
    {
      LeftRefs(s.subscriptions, client, refs, c);
    }
    hide Detached, Left, RefsOf;
  }

  /** Detaching keeps the registry; a client that is neither connected nor pending must leave all its refs. */
  lemma DetachKeeps(s: State, client: Client, refs: set<Ref>)
    requires Wired(s) && Exact(s) && Quiet(s) && client !in s.pending
    requires forall ref <- s.subscriptions :: s.subscriptions[ref] != {}
    requires forall ref <- s.subscriptions, c <- s.subscriptions[ref] :: Known(s, c) || (c == client && ref in refs)
    ensures Inv(Detached(s, client, refs))
  {
    DetachKeepsWired(s, client, refs);
    DetachKeepsExact(s, client, refs);
    DetachedIs(s, client, refs);
    LeftOnly(s.subscriptions, client, refs);
    var v := Detached(s, client, refs);
    hide Detached, Wired, Exact, Quiet;
    forall ref, c | ref in v.subscriptions && c in v.subscriptions[ref]
      ensures Known(v, c)
    {
      LeftRefs(s.subscriptions, client, refs, c);
      assert ref in RefsOf(v.subscriptions, c);
      assert ref in RefsOf(s.subscriptions, c);
      assert Known(s, c);
    }
  }

  lemma ExpireKeeps(s: State, client: Client)
    requires Inv(s) && client in s.pending
    ensures Inv(Expired(s, client))
    ensures client !in s.connections ==>
              && client !in Expired(s, client).pending && client !in Expired(s, client).missed
              && RefsOf(Expired(s, client).subscriptions, client) == {}
  {
    var over := s.(pending := s.pending - {client}, missed := s.missed - {client});
    LeftRefs(s.subscriptions, client, s.pending[client], client);
    forall ref, c | ref in over.subscriptions && c in over.subscriptions[ref]
      ensures Known(over, c) || (c == client && ref in s.pending[client])
    {
      assert Known(s, c);
      assert ref in RefsOf(s.subscriptions, c);
    }
    hide RefsOf, Left;
    DetachKeeps(over, client, s.pending[client]);
  }

  /** The registry once a started socket is off it, its client's subscriptions still there. */
  function Off(s: State, h: Handle, client: Client): State {
    s.(sockets := s.sockets - {h}, connections := s.connections - {client}, pending := s.pending - {client})
  }

  ghost predicate OffGood(s: State, client: Client, refs: set<Ref>) {
    && Wired(s) && Exact(s) && Quiet(s) && client !in s.pending && client !in s.connections
    && (forall ref <- s.subscriptions :: s.subscriptions[ref] != {})
    && (forall ref <- s.subscriptions, c <- s.subscriptions[ref] :: Known(s, c) || (c == client && ref in refs))
    && refs == RefsOf(s.subscriptions, client)
  }

  lemma OffIsGood(s: State, h: Handle)
    requires Inv(s) && h in s.sockets && s.sockets[h].id.Some?
    ensures var client := s.sockets[h].id.value;
            && client in s.connections && s.connections[client] == h && client !in s.pending
                && s.pending - {client} == s.pending
            && OffGood(Off(s, h, client), client, s.sockets[h].refs)
            && Wired(Off(s, h, client)) && Exact(Off(s, h, client))
  {
    var client, refs := s.sockets[h].id.value, s.sockets[h].refs;
    var off := Off(s, h, client);
    forall ref, c | ref in off.subscriptions && c in off.subscriptions[ref]
      ensures Known(off, c) || (c == client && ref in refs)
    {
      assert Known(s, c);
      assert ref in RefsOf(s.subscriptions, c);
    }
    hide RefsOf, Known;
  }

  lemma GraceIsGood(off: State, client: Client, refs: set<Ref>)
    requires OffGood(off, client, refs)
    ensures Inv(off.(pending := off.pending[client := refs]))
    ensures refs == {} ==> Inv(off)
  {
    var v := off.(pending := off.pending[client := refs]);
    assert Wired(v) && Exact(v) && Quiet(v) by { hide RefsOf; }
    forall ref, c | ref in v.subscriptions && c in v.subscriptions[ref]
      ensures Known(v, c) && (refs == {} ==> Known(off, c))
    {
      assert Known(off, c) || (c == client && ref in refs);
    }
  }

  lemma CloseKeeps(s: State, h: Handle, grace: bool)
    requires Inv(s) && h in s.sockets
    ensures Inv(Closed(s, h, grace))
  {
    var socket := s.sockets[h];
    if socket.id.Some? {
      var client := socket.id.value;
      OffIsGood(s, h);
      GraceIsGood(Off(s, h, client), client, socket.refs);
      if !grace && socket.refs != {} {
        DetachKeeps(Off(s, h, client), client, socket.refs);
      }
      hide Inv, OffGood, RefsOf, Left, Detached;
    } else {
      var v := Closed(s, h, grace);
      hide RefsOf, Left, Detached;
      AccountedStill(s, v);
      assert Wired(v) && Exact(v) && Quiet(v) by { hide Accounted; }
    }
  }

  lemma NobodysRefs(s: State, client: Client)
    requires Accounted(s) && !Known(s, client)
    ensures RefsOf(s.subscriptions, client) == {}
  {
  }

  /** A started socket, seen from the registry: its client's refs are what the client is subscribed to. */
  lemma StartedIs(s: State, h: Handle, client: Client)
    requires Inv(s) && h in s.sockets && s.sockets[h].alive && s.sockets[h].id.None?
    ensures var v := Started(s, h, client);
            && v.connections == s.connections[client := h] && v.subscriptions == s.subscriptions
            && v.pending == s.pending - {client} && v.missed == s.missed - {client}
            && v.sockets.Keys == s.sockets.Keys
            && v.sockets[h] == s.sockets[h].(id := Some(client), refs := RefsOf(s.subscriptions, client),
                frames := Welcome(s, client))
            && (forall p <- s.sockets :: p != h && s.sockets[p].id != Some(client) ==> v.sockets[p] == s.sockets[p])
            && (forall p <- s.sockets :: p != h && s.sockets[p].id == Some(client) ==>
                v.sockets[p] == s.sockets[p].(id := None, alive := false))
  {
    hide RefsOf, Welcome;
    if !Known(s, client) { NobodysRefs(s, client); }
  }

  lemma StartKeepsWiring(s: State, v: State, h: Handle, client: Client)
    requires Wired(s) && Quiet(s) && h in s.sockets && s.sockets[h].id.None?
    requires v.connections == s.connections[client := h] && v.missed == s.missed - {client}
        && v.sockets.Keys == s.sockets.Keys
    requires v.sockets[h].id == Some(client)
    requires forall p <- s.sockets :: p != h && s.sockets[p].id != Some(client) ==> v.sockets[p] == s.sockets[p]
    requires forall p <- s.sockets :: p != h && s.sockets[p].id == Some(client) ==>
        v.sockets[p] == s.sockets[p].(id := None, alive := false)
    ensures Wired(v) && Quiet(v)
  {
  }

  lemma StartKeeps(s: State, h: Handle, client: Client)
    requires Inv(s) && h in s.sockets && s.sockets[h].alive
    ensures Inv(Started(s, h, client))
  {
    if s.sockets[h].id.None? {
      StartedIs(s, h, client);
      var v := Started(s, h, client);
      hide RefsOf, Welcome, Started;
      AccountedStill(s, v);
      StartKeepsWiring(s, v, h, client);
      hide Accounted, Wired;
      assert Exact(v);
    }
  }

  lemma ListenedRefs(subscriptions: map<Ref, set<Client>>, ref: Ref, client: Client, c: Client)
    ensures RefsOf(subscriptions[ref := Subscribers(subscriptions, ref) + {client}], c) == RefsOf(subscriptions, c)
        + (if c == client then {ref} else {})
  {
  }

  lemma ListenedIs(s: State, ref: Ref, client: Client)
    requires Wired(s)
    ensures var v := Listened(s, ref, client);
            v != s ==>
              && client in s.connections && v.connections == s.connections && v.pending == s.pending
                  && v.missed == s.missed
              && v.subscriptions == s.subscriptions[ref := Subscribers(s.subscriptions, ref) + {client}]
              && v.sockets.Keys == s.sockets.Keys
              && forall h <- s.sockets :: v.sockets[h] == s.sockets[h].(refs :=
                   if h == s.connections[client] then s.sockets[h].refs + {ref} else s.sockets[h].refs)
  {
  }

  lemma ConnectedSocket(s: State, client: Client)
    requires Inv(s)
    ensures client in s.connections ==> s.connections[client] in s.sockets
  {
  }

  lemma ListenKeepsExact(s: State, v: State, ref: Ref, client: Client)
    requires Wired(s) && Exact(s) && client in s.connections && v.connections == s.connections && v.pending == s.pending
    requires v.subscriptions == s.subscriptions[ref := Subscribers(s.subscriptions, ref) + {client}]
        && v.sockets.Keys == s.sockets.Keys
    requires forall h <- s.sockets :: v.sockets[h].refs == if h == s.connections[client]
        then s.sockets[h].refs + {ref} else s.sockets[h].refs
    ensures Exact(v)
  {
    forall c: Client
      ensures RefsOf(v.subscriptions, c) == RefsOf(s.subscriptions, c) + (if c == client then {ref} else {})
    {
      ListenedRefs(s.subscriptions, ref, client, c);
    }
    hide RefsOf;
  }

  lemma ListenKeeps(s: State, ref: Ref, client: Client)
    requires Inv(s)
    ensures Inv(Listened(s, ref, client))
  {
    var v := Listened(s, ref, client);
    if v != s {
      ListenedIs(s, ref, client);
      ListenKeepsExact(s, v, ref, client);
      ListenKeepsAccounted(s, v, ref, client);
      ListenKeepsWired(s, v);
      hide Listened, Exact, Accounted, Wired, RefsOf, Subscribers;
    }
  }

  lemma ListenKeepsWired(s: State, v: State)
    requires Wired(s) && v.connections == s.connections && v.sockets.Keys == s.sockets.Keys
    requires forall h <- s.sockets :: v.sockets[h].id == s.sockets[h].id
    ensures Wired(v)
  {
  }

  lemma ListenKeepsAccounted(s: State, v: State, ref: Ref, client: Client)
    requires Accounted(s) && client in s.connections && v.connections == s.connections && v.pending == s.pending
    requires v.subscriptions == s.subscriptions[ref := Subscribers(s.subscriptions, ref) + {client}]
    ensures Accounted(v)
  {
    forall r, c | r in v.subscriptions && c in v.subscriptions[r]
      ensures Known(v, c)
    {
      assert r in s.subscriptions && c in s.subscriptions[r] ==> Known(s, c);
    }
  }

  lemma UnsubscribeKeeps(s: State, h: Handle, refs: set<Ref>)
    requires Inv(s) && h in s.sockets
    ensures Inv(Unsubscribed(s, h, refs))
  {
    if s.sockets[h].id.Some? {
      var client := s.sockets[h].id.value;
      hide RefsOf, Left, Detached;
      DetachKeeps(s, client, refs);
    }
  }

  /** Publishing touches what is kept and what is deferred, nothing of the registry. */
  lemma PublishedIs(s: State, change: Change)
    ensures var v := Published(s, change);
            && v.connections == s.connections && v.subscriptions == s.subscriptions && v.pending == s.pending
            && v.sockets.Keys == s.sockets.Keys
            && (forall h <- s.sockets :: v.sockets[h] == s.sockets[h].(queued := v.sockets[h].queued))
            && (forall h <- s.sockets :: s.sockets[h].id.None? ==> v.sockets[h] == s.sockets[h])
            && (forall c <- v.missed :: Reachable(s, c) ==> c in s.missed)
            && (forall c <- v.missed :: |v.missed[c]| <= MISSED_LIMIT || (c in s.missed && v.missed[c] == s.missed[c]))
  {
    hide Last, Copies, DocRef, Targets;
  }

  lemma PublishKeeps(s: State, change: Change)
    requires Inv(s)
    ensures Inv(Published(s, change))
  {
    PublishedIs(s, change);
    var v := Published(s, change);
    hide Published, RefsOf;
    assert Wired(v) by { hide Exact, Accounted, Quiet; }
    assert Exact(v) by { hide Accounted, Quiet; }
    AccountedStill(s, v);
    assert Quiet(v) by { hide Accounted, Exact; }
  }

  lemma PlainKeeps(s: State, v: State)
    requires Inv(s) && v.connections == s.connections && v.subscriptions == s.subscriptions && v.pending == s.pending
        && v.missed == s.missed
    requires s.sockets.Keys <= v.sockets.Keys
    requires forall h <- s.sockets ::
        && v.sockets[h].id == s.sockets[h].id && v.sockets[h].refs == s.sockets[h].refs
        && (v.sockets[h].alive ==> s.sockets[h].alive)
    requires forall h <- v.sockets :: h !in s.sockets ==> v.sockets[h].id.None?
    requires forall h <- v.sockets :: v.sockets[h].alive && v.sockets[h].id.None? ==>
               (h in s.sockets && v.sockets[h] == s.sockets[h]) || v.sockets[h] == Socket(None, {}, true, [], [])
    ensures Inv(v)
  {
    hide RefsOf;
    assert Wired(v) by { hide Exact, Accounted, Quiet; }
    assert Exact(v) by { hide Accounted, Quiet; }
    AccountedStill(s, v);
    assert Quiet(v) by { hide Accounted, Exact; }
  }

  /** Every step keeps the registry. */
  lemma StepKeeps(s: State, step: Step, grace: bool)
    requires Inv(s) && Enabled(s, step)
    ensures Inv(Next(s, step, grace))
  {
    hide Inv, Started, Closed, Expired, Listened, Unsubscribed, Published;
    match step {
      case Start(h, client) => StartKeeps(s, h, client);
      case Close(h) => CloseKeeps(s, h, grace);
      case Expire(client) => ExpireKeeps(s, client);
      case Listen(ref, client) => ListenKeeps(s, ref, client);
      case Unsubscribe(h, refs) => UnsubscribeKeeps(s, h, refs);
      case Publish(change) => PublishKeeps(s, change);
      case Flush(h) =>
        if s.sockets[h].alive && s.sockets[h].id.None? { NothingToFlush(s, h); }
        PlainKeeps(s, Flushed(s, h));
      case _ => PlainKeeps(s, Next(s, step, grace));
    }
  }

  lemma NothingToFlush(s: State, h: Handle)
    requires Inv(s) && h in s.sockets && s.sockets[h].alive && s.sockets[h].id.None?
    ensures s.sockets[h].queued == []
  {
  }

  // --- Reconnecting ---

  /** The client's transport is gone, and it is still subscribed: its socket is dead, or it is in its grace window. */
  predicate Lost(s: State, client: Client) {
    client in s.pending || (client in s.connections && !Reachable(s, client))
  }

  /** Steps that end or change what the client is owed. */
  predicate Mine(step: Step, client: Client) {
    match step
    case Start(_, c) => c == client
    case Expire(c) => c == client
    case Listen(_, c) => c == client
    case _ => false
  }

  /** What a change owes a client: one item per subscription of it that the change matches. */
  function Owed(refs: set<Ref>, change: Change): seq<Change> {
    (if change.ref in refs then [change] else []) + (if DocRef(change) in refs then [change] else [])
  }

  function OwedBy(refs: set<Ref>, step: Step): seq<Change> {
    if step.Publish? then Owed(refs, step.change) else []
  }

  function OwedAll(refs: set<Ref>, steps: seq<Step>): seq<Change> {
    if steps == [] then [] else OwedAll(refs, steps[..|steps| - 1]) + OwedBy(refs, steps[|steps| - 1])
  }

  lemma LastOfLast(xs: seq<Change>, ys: seq<Change>, limit: nat)
    ensures Last(Last(xs, limit) + ys, limit) == Last(xs + ys, limit)
    ensures |xs| <= limit ==> Last(xs, limit) == xs
  {
  }

  lemma FewMissed(s: State, client: Client)
    requires Inv(s)
    ensures Last(MissedBy(s, client), MISSED_LIMIT) == MissedBy(s, client)
  {
  }

  lemma PublishOwes(s: State, change: Change, client: Client)
    requires Inv(s) && Lost(s, client)
    ensures MissedBy(Published(s, change), client)
        == Last(MissedBy(s, client) + Owed(RefsOf(s.subscriptions, client), change), MISSED_LIMIT)
  {
    FewMissed(s, client);
    hide Last, DocRef;
    assert MissedBy(s, client) + [] == MissedBy(s, client);
    assert Keeps(s, client);
    var one, two := Subscribers(s.subscriptions, change.ref), Subscribers(s.subscriptions, DocRef(change));
    assert Copies(client, one, two, change) == Owed(RefsOf(s.subscriptions, client), change);
  }

  lemma PublishKeepsLost(s: State, change: Change, client: Client)
    requires Inv(s) && Lost(s, client)
    ensures Lost(Published(s, change), client)
  {
    PublishedIs(s, change);
    hide Published;
  }

  /** A step that is not the client's leaves it lost, subscribed as it was, and owed what was published. */
  lemma LostKeeps(s: State, step: Step, client: Client)
    requires Inv(s) && Enabled(s, step) && Lost(s, client) && !Mine(step, client)
        && RefsOf(s.subscriptions, client) != {}
    ensures var v := Next(s, step, true);
            && Lost(v, client) && RefsOf(v.subscriptions, client) == RefsOf(s.subscriptions, client)
            && MissedBy(v, client) == Last(MissedBy(s, client) + OwedBy(RefsOf(s.subscriptions, client), step),
                MISSED_LIMIT)
  {
    var refs := RefsOf(s.subscriptions, client);
    LastOfLast(MissedBy(s, client), [], MISSED_LIMIT);
    assert MissedBy(s, client) + [] == MissedBy(s, client);
    match step {
      case Publish(change) =>
        PublishOwes(s, change, client);
        PublishKeepsLost(s, change, client);
        PublishedIs(s, change);
        hide Published, RefsOf, Owed, Inv;
      case Close(h) => LostClose(s, h, client);
      case Start(h, c) =>
        if s.sockets[h].id.None? { StartedIs(s, h, c); }
        hide RefsOf, Last, Owed, Started, Welcome;
      case Accept(h) => hide RefsOf, Last;
      case Die(h) => hide RefsOf, Last;
      case Flush(h) => hide RefsOf, Last;
      case _ =>
        LostLeft(s, step, client);
        hide RefsOf, Left, Last, Owed, Listened, Unsubscribed, Expired;
    }
  }

  lemma LostClose(s: State, h: Handle, client: Client)
    requires Inv(s) && h in s.sockets && Lost(s, client) && RefsOf(s.subscriptions, client) != {}
    ensures var v := Closed(s, h, true); Lost(v, client) && v.subscriptions == s.subscriptions && v.missed == s.missed
  {
    hide RefsOf, Left, Detached;
  }

  lemma LostLeft(s: State, step: Step, client: Client)
    requires Inv(s) && Enabled(s, step) && Lost(s, client) && !Mine(step, client)
        && (step.Listen? || step.Unsubscribe? || step.Expire?)
    ensures var v := Next(s, step, true);
            Lost(v, client) && RefsOf(v.subscriptions, client) == RefsOf(s.subscriptions, client)
              && MissedBy(v, client) == MissedBy(s, client)
  {
    match step {
      case Listen(ref, c) =>
        ListenedRefs(s.subscriptions, ref, c, client);
        hide RefsOf;
      case Unsubscribe(h, gone) =>
        if s.sockets[h].id.Some? {
          LeftRefs(s.subscriptions, s.sockets[h].id.value, gone, client);
          DetachedIs(s, s.sockets[h].id.value, gone);
        }
        hide RefsOf, Left, Detached;
      case Expire(c) =>
        LeftRefs(s.subscriptions, c, s.pending[c], client);
        hide RefsOf, Left;
    }
  }

  ghost predicate Run(s: State, steps: seq<Step>, v: State, grace: bool)
    decreases |steps|
  {
    if steps == [] then s == v
    else
      var n := |steps| - 1;
      exists m :: Run(s, steps[..n], m, grace) && Enabled(m, steps[n]) && v == Next(m, steps[n], grace)
  }

  /**
   * The registry holds over every run of clients connecting, starting, taking over, subscribing, dropping and
   * timing out.
   */
  lemma {:induction false} RegistryHolds(s: State, steps: seq<Step>, v: State, grace: bool)
    requires Run(s, steps, v, grace) && (s == EMPTY || Inv(s))
    ensures Inv(v)
    decreases |steps|
  {
    hide Enabled, Next, Exact, Wired, Quiet, Accounted;
    NothingYet();
    if steps != [] {
      var n := |steps| - 1;
      var m :| Run(s, steps[..n], m, grace) && Enabled(m, steps[n]) && v == Next(m, steps[n], grace);
      RegistryHolds(s, steps[..n], m, grace);
      StepKeeps(m, steps[n], grace);
    }
  }

  lemma NothingYet()
    ensures Inv(EMPTY)
  {
  }

  lemma NewestAll(had: seq<Change>, owed: seq<Change>, more: seq<Change>)
    ensures Last(Last(had + owed, MISSED_LIMIT) + more, MISSED_LIMIT) == Last(had + (owed + more), MISSED_LIMIT)
  {
    LastOfLast(had + owed, more, MISSED_LIMIT);
    assert had + owed + more == had + (owed + more);
  }

  lemma {:induction false} LostAlong(s: State, steps: seq<Step>, v: State, client: Client)
    requires Inv(s) && Run(s, steps, v, true) && Lost(s, client) && RefsOf(s.subscriptions, client) != {}
    requires forall step <- steps :: !Mine(step, client)
    ensures Inv(v) && Lost(v, client) && RefsOf(v.subscriptions, client) == RefsOf(s.subscriptions, client)
    ensures MissedBy(v, client) == Last(MissedBy(s, client) + OwedAll(RefsOf(s.subscriptions, client), steps),
        MISSED_LIMIT)
    decreases |steps|
  {
    hide Enabled, Next, Inv, RefsOf, Last, Mine, OwedBy, Lost;
    var refs := RefsOf(s.subscriptions, client);
    if steps == [] {
      FewMissed(s, client);
      assert MissedBy(s, client) + [] == MissedBy(s, client);
    } else {
      var n := |steps| - 1;
      var m :| Run(s, steps[..n], m, true) && Enabled(m, steps[n]) && v == Next(m, steps[n], true);
      hide Run, MissedBy;
      assert steps[n] in steps;
      LostAlong(s, steps[..n], m, client);
      StepKeeps(m, steps[n], true);
      LostKeeps(m, steps[n], client);
      NewestAll(MissedBy(s, client), OwedAll(refs, steps[..n]), OwedBy(refs, steps[n]));
    }
  }

  /**
   * A client whose live socket drops and that starts again within its grace window is sent, at once
   * and on a socket nothing else was written to: `hello`, then every change it is owed of those
   * published meanwhile, in order, or the newest 1000.
   */
  lemma ReconnectReplays(s: State, h: Handle, dropped: Step, steps: seq<Step>, v: State, again: Handle, client: Client)
    requires Inv(s) && h in s.sockets && s.sockets[h].alive && s.sockets[h].id == Some(client)
        && s.sockets[h].refs != {}
    requires dropped == Die(h) || dropped == Close(h)
    requires Run(Next(s, dropped, true), steps, v, true) && forall step <- steps :: !Mine(step, client)
    requires Enabled(v, Start(again, client)) && v.sockets[again].id.None?
    ensures var owed := OwedAll(s.sockets[h].refs, steps);
            var socket := Started(v, again, client).sockets[again];
            && socket.frames == [Hello] + (if owed == [] then [] else [Sync([client], Last(owed, MISSED_LIMIT))])
            && socket.queued == [] && socket.refs == s.sockets[h].refs
  {
    var d := Next(s, dropped, true);
    StepKeeps(s, dropped, true);
    DropLoses(s, h, dropped, client);
    LostAlong(d, steps, v, client);
    hide Inv, Next, Last, Run;
    assert MissedBy(d, client) + OwedAll(s.sockets[h].refs, steps) == OwedAll(s.sockets[h].refs, steps);
    InvQuiet(v, again);
    StartedIs(v, again, client);
    LastEmpty(OwedAll(s.sockets[h].refs, steps));
  }

  lemma LastEmpty(changes: seq<Change>)
    ensures Last(changes, MISSED_LIMIT) == [] <==> changes == []
  {
  }

  lemma InvQuiet(s: State, h: Handle)
    requires Inv(s) && h in s.sockets && s.sockets[h].alive && s.sockets[h].id.None?
    ensures s.sockets[h].queued == [] && s.sockets[h].frames == []
  {
  }

  lemma DropLoses(s: State, h: Handle, dropped: Step, client: Client)
    requires Inv(s) && h in s.sockets && s.sockets[h].alive && s.sockets[h].id == Some(client)
        && s.sockets[h].refs != {}
    requires dropped == Die(h) || dropped == Close(h)
    ensures var d := Next(s, dropped, true);
            && Lost(d, client) && d.subscriptions == s.subscriptions
            && RefsOf(s.subscriptions, client) == s.sockets[h].refs && MissedBy(d, client) == []
  {
    hide RefsOf;
  }

  /** A client with one subscription is owed each change that matches it once. */
  lemma OwedOnce(ref: Ref, change: Change)
    ensures Owed({ref}, change) == if change.ref == ref || DocRef(change) == ref then [change] else []
  {
    assert |DocRef(change)| > |change.ref|;
  }

  /** What was written to a socket stays first: later frames come after it. */
  lemma FramesOnlyGrow(s: State, step: Step, grace: bool, h: Handle)
    requires Inv(s) && Enabled(s, step) && h in s.sockets && h in Next(s, step, grace).sockets
    ensures s.sockets[h].frames <= Next(s, step, grace).sockets[h].frames
  {
    match step {
      case Start(g, client) =>
        if s.sockets[g].id.None? { StartedIs(s, g, client); }
        hide Started, Inv;
      case Publish(change) => PublishedIs(s, change); hide Published, Inv;
      case Close(g) => CloseFrames(s, g, grace, h); hide Closed, Inv;
      case Expire(client) =>
        DetachedFrames(s.(pending := s.pending - {client}, missed := s.missed - {client}), client, s.pending[client],
          h);
        hide Detached, Inv;
      case Unsubscribe(g, refs) =>
        if s.sockets[g].id.Some? { DetachedFrames(s, s.sockets[g].id.value, refs, h); }
        hide Detached, Inv;
      case _ => hide Inv;
    }
  }

  /** A close takes its socket away and, without a window, detaches its client from what is left. */
  lemma ClosedIs(s: State, g: Handle, grace: bool) returns (off: State, detached: bool)
    requires g in s.sockets
    ensures off.sockets == s.sockets - {g} && (detached ==> s.sockets[g].id.Some?)
    ensures Closed(s, g, grace)
        == if detached then Detached(off, s.sockets[g].id.value, s.sockets[g].refs) else off
  {
    var socket := s.sockets[g];
    off, detached := s.(sockets := s.sockets - {g}), false;
    if socket.id.Some? {
      var client := socket.id.value;
      if client in s.connections && s.connections[client] == g {
        off := off.(connections := s.connections - {client});
      }
      if socket.refs != {} {
        detached := !grace;
        off := off.(pending := if grace then s.pending[client := socket.refs] else s.pending - {client});
      }
    }
    hide Detached;
  }

  lemma CloseFrames(s: State, g: Handle, grace: bool, h: Handle)
    requires g in s.sockets && h in s.sockets && h in Closed(s, g, grace).sockets
    ensures Closed(s, g, grace).sockets[h].frames == s.sockets[h].frames
    ensures Closed(s, g, grace).sockets[h].queued == s.sockets[h].queued
  {
    var off, detached := ClosedIs(s, g, grace);
    if detached { DetachedFrames(off, s.sockets[g].id.value, s.sockets[g].refs, h); }
    hide Closed, Detached;
  }

  lemma DetachedFrames(s: State, client: Client, refs: set<Ref>, h: Handle)
    requires h in Detached(s, client, refs).sockets || h in s.sockets
    ensures Detached(s, client, refs).sockets.Keys == s.sockets.Keys
    ensures Detached(s, client, refs).sockets[h].frames == s.sockets[h].frames
    ensures Detached(s, client, refs).sockets[h].queued == s.sockets[h].queued
  {
    hide Left;
  }

  // --- Live delivery ---

  /** The client is connected on the socket, and the socket is alive. */
  predicate Live(s: State, client: Client, h: Handle) {
    client in s.connections && s.connections[client] == h && h in s.sockets && s.sockets[h].alive
  }

  /** What the client is to be sent for a change: one frame, with its id once for each ref of it that matches. */
  function FrameFor(refs: set<Ref>, client: Client, change: Change): seq<Frame> {
    var list, document := change.ref in refs, change.ref + "/" + change.id in refs;
    if list && document then [Sync([client, client], [change])]
    else if list || document then [Sync([client], [change])]
    else []
  }

  function DueBy(s: State, step: Step, client: Client, h: Handle): seq<Frame>
    requires h in s.sockets
  {
    if step.Publish? then FrameFor(s.sockets[h].refs, client, step.change) else []
  }

  /** All that is sent or waits to be sent on a socket. */
  function Outgoing(s: State, h: Handle): seq<Frame>
    requires h in s.sockets
  {
    s.sockets[h].frames + s.sockets[h].queued
  }

  lemma PublishSends(s: State, change: Change, client: Client, h: Handle)
    requires Inv(s) && Live(s, client, h)
    ensures var v := Published(s, change);
            && h in v.sockets && v.sockets[h].frames == s.sockets[h].frames
            && v.sockets[h].queued == s.sockets[h].queued + FrameFor(s.sockets[h].refs, client, change)
  {
    hide Kept, Last;
    var one, two := Subscribers(s.subscriptions, change.ref), Subscribers(s.subscriptions, DocRef(change));
    assert s.sockets[h].refs == RefsOf(s.subscriptions, client) && s.sockets[h].id == Some(client);
    assert client in one <==> change.ref in s.sockets[h].refs;
    assert client in two <==> change.ref + "/" + change.id in s.sockets[h].refs;
    hide Inv;
    assert client in Targets(s, one, two) <==> client in one + two;
    assert s.sockets[h].queued + [] == s.sockets[h].queued;
    assert Copies(client, one, two, client) == (if client in one && client in two then [client, client]
        else if client in one + two then [client] else []);
  }

  lemma SendsAlong(s: State, step: Step, client: Client, h: Handle, grace: bool)
    requires Inv(s) && Enabled(s, step) && Live(s, client, h) && Live(Next(s, step, grace), client, h)
    ensures Outgoing(Next(s, step, grace), h) == Outgoing(s, h) + DueBy(s, step, client, h)
  {
    match step {
      case Start(g, c) =>
        if s.sockets[g].id.None? { StartedIs(s, g, c); }
        hide Started, Inv;
      case Publish(change) => PublishSends(s, change, client, h); hide Published, Inv;
      case Close(g) => CloseFrames(s, g, grace, h); hide Closed, Inv;
      case Expire(c) =>
        DetachedFrames(s.(pending := s.pending - {c}, missed := s.missed - {c}), c, s.pending[c], h);
        hide Detached, Inv;
      case Unsubscribe(g, refs) =>
        if s.sockets[g].id.Some? { DetachedFrames(s, s.sockets[g].id.value, refs, h); }
        hide Detached, Inv;
      case Flush(g) =>
        if g == h { FlushSends(s, h); }
        hide Inv, Flushed;
      case _ => hide Inv;
    }
    assert Outgoing(s, h) + [] == Outgoing(s, h);
  }

  /** A deferred frame's turn on a live socket: the oldest goes out. */
  lemma FlushSends(s: State, h: Handle)
    requires h in s.sockets && s.sockets[h].queued != [] && s.sockets[h].alive
    ensures var v := Flushed(s, h);
            && v.sockets[h].frames == s.sockets[h].frames + [s.sockets[h].queued[0]]
            && v.sockets[h].queued == s.sockets[h].queued[1..] && Outgoing(v, h) == Outgoing(s, h)
            && (forall g <- s.sockets :: g != h ==> v.sockets[g] == s.sockets[g])
  {
    assert s.sockets[h].queued == [s.sockets[h].queued[0]] + s.sockets[h].queued[1..];
  }

  /** The steps can be taken from `s`, the client live on its socket all along. */
  ghost predicate StaysLive(s: State, steps: seq<Step>, client: Client, h: Handle, grace: bool)
    decreases |steps|
  {
    Live(s, client, h) &&
    (steps != [] ==> Enabled(s, steps[0]) && StaysLive(Next(s, steps[0], grace), steps[1..], client, h, grace))
  }

  ghost function AfterAll(s: State, steps: seq<Step>, client: Client, h: Handle, grace: bool): State
    requires StaysLive(s, steps, client, h, grace)
    decreases |steps|
  {
    if steps == [] then s else AfterAll(Next(s, steps[0], grace), steps[1..], client, h, grace)
  }

  /** What the client is to be sent for the changes published along the steps, by what it is subscribed to then. */
  ghost function DueAlong(s: State, steps: seq<Step>, client: Client, h: Handle, grace: bool): seq<Frame>
    requires StaysLive(s, steps, client, h, grace)
    decreases |steps|
  {
    if steps == [] then []
    else DueBy(s, steps[0], client, h) + DueAlong(Next(s, steps[0], grace), steps[1..], client, h, grace)
  }

  /**
   * While a client stays connected on a live socket it is sent, in order and once, a frame for each published
   * change that matches what it is subscribed to, and nothing else; with nothing left waiting, all of it is sent.
   */
  lemma {:induction false} LiveDelivery(s: State, steps: seq<Step>, client: Client, h: Handle, grace: bool)
    requires Inv(s) && StaysLive(s, steps, client, h, grace)
    ensures var v := AfterAll(s, steps, client, h, grace);
            && Inv(v) && Live(v, client, h)
            && Outgoing(v, h) == Outgoing(s, h) + DueAlong(s, steps, client, h, grace)
            && (v.sockets[h].queued == [] ==>
                  v.sockets[h].frames == Outgoing(s, h) + DueAlong(s, steps, client, h, grace))
    decreases |steps|
  {
    hide Inv, Enabled, Next, DueBy;
    if steps == [] {
      assert Outgoing(s, h) + [] == Outgoing(s, h);
    } else {
      var next := Next(s, steps[0], grace);
      StepKeeps(s, steps[0], grace);
      assert Live(next, client, h);
      SendsAlong(s, steps[0], client, h, grace);
      LiveDelivery(next, steps[1..], client, h, grace);
      Joins(Outgoing(s, h), DueBy(s, steps[0], client, h), DueAlong(next, steps[1..], client, h, grace));
    }
  }

  lemma Joins<T>(a: seq<T>, b: seq<T>, c: seq<T>)
    ensures a + b + c == a + (b + c)
  {
  }

  /** Who listens is subscribed; who unsubscribes, or is detached, is not any more; nobody else is touched. */
  lemma ListenSubscribes(s: State, ref: Ref, client: Client, c: Client)
    requires Inv(s)
    ensures RefsOf(Listened(s, ref, client).subscriptions, c)
        == RefsOf(s.subscriptions, c) + (if c == client && client in s.connections then {ref} else {})
  {
    ConnectedSocket(s, client);
    ListenedRefs(s.subscriptions, ref, client, c);
    hide Inv;
  }

  lemma UnsubscribeLeaves(s: State, h: Handle, refs: set<Ref>, c: Client)
    requires h in s.sockets
    ensures RefsOf(Unsubscribed(s, h, refs).subscriptions, c)
        == RefsOf(s.subscriptions, c) - (if s.sockets[h].id == Some(c) then refs else {})
  {
    if s.sockets[h].id.Some? { LeftRefs(s.subscriptions, s.sockets[h].id.value, refs, c); }
    hide RefsOf, Left;
  }

  /** A socket that closes is gone with its connection; its client stays subscribed for the window, if there is one. */
  lemma CloseLeaves(s: State, h: Handle, grace: bool, client: Client, c: Client)
    requires Inv(s) && h in s.sockets && s.sockets[h].id == Some(client)
    ensures var v := Closed(s, h, grace);
            && v.sockets.Keys == s.sockets.Keys - {h} && v.connections == s.connections - {client}
            && v.pending.Keys == s.pending.Keys + (if grace && RefsOf(s.subscriptions, client) != {} then {client}
                else {})
            && v.missed == s.missed
            && RefsOf(v.subscriptions, c) == (if c == client && !grace then {} else RefsOf(s.subscriptions, c))
  {
    var refs := s.sockets[h].refs;
    OffIsGood(s, h);
    var off := Off(s, h, client);
    LeftRefs(s.subscriptions, client, refs, c);
    DetachedIs(off, client, refs);
    hide Left, Detached, RefsOf, Inv, OffGood;
    assert s.connections[client] == h && refs == RefsOf(s.subscriptions, client);
  }

  /** A window that passes after its client returned changes nothing for it. */
  lemma ExpireIsLate(s: State, client: Client)
    requires client in s.pending && client in s.connections
    ensures Expired(s, client) == s.(pending := s.pending - {client})
  {
  }

  /** What is kept when there is too much are the newest. */
  lemma NewestAreKept(changes: seq<Change>, limit: nat)
    ensures var kept := Last(changes, limit);
            && |kept| == (if |changes| < limit then |changes| else limit)
            && forall i :: 0 <= i < |kept| ==> kept[i] == changes[|changes| - |kept| + i]
    ensures MISSED_LIMIT == 1000
  {
  }

  /** A change matches the subscriptions of its collection and those of its document, once each. */
  lemma OwedExactly(refs: set<Ref>, change: Change)
    ensures forall c <- Owed(refs, change) :: c == change
    ensures |Owed(refs, change)|
        == (if change.ref in refs then 1 else 0) + (if change.ref + "/" + change.id in refs then 1 else 0)
  {
  }

  // --- The gateway as it runs ---

  lemma LeftTwice(subscriptions: map<Ref, set<Client>>, client: Client, refs: set<Ref>, more: set<Ref>)
    ensures Left(Left(subscriptions, client, refs), client, more) == Left(subscriptions, client, refs + more)
    ensures Left(subscriptions, client, {}) == subscriptions
  {
    var once, both := Left(subscriptions, client, refs), Left(subscriptions, client, refs + more);
    var twice := Left(once, client, more);
    assert forall ref <- subscriptions :: subscriptions[ref] - {client} - {client} == subscriptions[ref] - {client};
    assert forall ref :: ref in twice <==> ref in both;
    assert forall ref <- both :: twice[ref] == both[ref];
  }

  lemma DetachedMore(s: State, client: Client, refs: set<Ref>, ref: Ref)
    requires Wired(s) && Exact(s)
    ensures var v := Detached(s, client, refs);
            && (ref !in v.subscriptions ==> Detached(s, client, refs + {ref}) == v)
            && (ref in v.subscriptions ==>
                  var rest := v.subscriptions[ref] - {client};
                  && (client in v.connections ==> v.connections[client] in v.sockets)
                  && Detached(s, client, refs + {ref}) ==
                     State(if client in v.connections
                       then v.sockets[v.connections[client] :=
                       v.sockets[v.connections[client]].(refs := v.sockets[v.connections[client]].refs - {ref})]
                       else v.sockets,
                           v.connections, if rest == {} then v.subscriptions - {ref} else v.subscriptions[ref := rest],
                             v.pending, v.missed))
    ensures Detached(s, client, {}) == s
  {
    LeftTwice(s.subscriptions, client, refs, {ref});
    LeftRefs(s.subscriptions, client, refs, client);
    LeftOne(Left(s.subscriptions, client, refs), client, ref);
    var v := Detached(s, client, refs);
    if client in s.connections {
      var h := s.connections[client];
      assert v.sockets[h].refs == RefsOf(v.subscriptions, client);
      assert s.sockets[h].refs - (refs + {ref}) == v.sockets[h].refs - {ref};
      assert ref !in v.subscriptions ==> v.sockets[h].refs - {ref} == v.sockets[h].refs;
      assert s.sockets[h].refs - {} == s.sockets[h].refs;
    }
    hide Left, RefsOf;
  }

  lemma LeftOne(subscriptions: map<Ref, set<Client>>, client: Client, ref: Ref)
    ensures ref !in subscriptions ==> Left(subscriptions, client, {ref}) == subscriptions
    ensures ref in subscriptions ==>
              var rest := subscriptions[ref] - {client};
              Left(subscriptions, client, {ref}) == if rest == {} then subscriptions - {ref}
                else subscriptions[ref := rest]
  {
  }

  /** A starting client's refs come from its older connection, or else from what its grace window kept. */
  lemma KnownRefs(s: State, client: Client)
    requires Inv(s)
    ensures client in s.connections ==>
              && s.connections[client] in s.sockets && client !in s.pending
              && s.sockets[s.connections[client]].refs == RefsOf(s.subscriptions, client)
    ensures client !in s.connections && client !in s.pending ==> RefsOf(s.subscriptions, client) == {}
  {
    if !Known(s, client) { NobodysRefs(s, client); }
    hide RefsOf;
  }

  lemma OnlyOnce(s: State, h: Handle, client: Client)
    requires h in s.sockets && s.sockets[h].id.Some?
    ensures Started(s, h, client) == s
  {
  }

  /** Starting, put together from its parts. */
  lemma StartedParts(s: State, h: Handle, client: Client, refs: set<Ref>, frames: seq<Frame>)
    requires Inv(s) && h in s.sockets && s.sockets[h].alive && s.sockets[h].id.None?
    requires refs == RefsOf(s.subscriptions, client) && frames == Welcome(s, client)
    ensures client in s.connections ==> s.connections[client] in s.sockets && s.connections[client] != h
    ensures Started(s, h, client) ==
              var taken := if client in s.connections
                           then s.sockets[s.connections[client] :=
                             s.sockets[s.connections[client]].(id := None, alive := false)]
                           else s.sockets;
              State(taken[h := s.sockets[h].(id := Some(client), refs := refs, frames := frames)],
                    s.connections[client := h], s.subscriptions, s.pending - {client}, s.missed - {client})
  {
    StartedIs(s, h, client);
    hide RefsOf, Welcome;
  }

  /** The sets of clients offered a change, with one more offer to `client`. */
  function Offered(one: set<Client>, two: set<Client>, client: Client, second: bool): (set<Client>, set<Client>) {
    if second then (one, two + {client}) else (one + {client}, two)
  }

  predicate CanOffer(one: set<Client>, two: set<Client>, client: Client, second: bool) {
    if second then client !in two else client !in one && two == {}
  }

  lemma CopiesOnce<T>(one: set<Client>, two: set<Client>, client: Client, second: bool, c: Client, item: T)
    requires CanOffer(one, two, client, second)
    ensures var (more, again) := Offered(one, two, client, second);
            && Copies(c, more, again, item) == Copies(c, one, two, item) + (if c == client then [item] else [])
            && (c in more + again <==> c in one + two || c == client)
  {
  }

  /** Trimming after every change keeps the newest, like trimming once. */
  lemma KeptAt(s: State, change: Change, one: set<Client>, two: set<Client>, client: Client, second: bool, c: Client)
    requires Inv(s) && CanOffer(one, two, client, second)
    ensures var (more, again) := Offered(one, two, client, second);
            var before, after := Kept(s, change, one, two), Kept(s, change, more, again);
            var had := if client in before then before[client] else [];
            if c == client && Keeps(s, client) then c in after && after[c] == Last(had + [change], MISSED_LIMIT)
            else (c in after <==> c in before) && (c in after ==> after[c] == before[c])
  {
    var (more, again) := Offered(one, two, client, second);
    CopiesOnce(one, two, client, second, c, change);
    KeptValue(s, change, one, two, c);
    KeptValue(s, change, more, again, c);
    hide Last, Inv, Copies, Reachable, Offered, Kept, CanOffer, Keeps, MissedBy;
    var had, copies := MissedBy(s, c), Copies(c, one, two, change);
    if c == client && Keeps(s, c) {
      NewestAll(had, copies, [change]);
      assert Last([], MISSED_LIMIT) == [] by { FewChanges(); }
    } else {
      assert copies + [] == copies;
    }
  }

  lemma FewChanges()
    ensures Last([], MISSED_LIMIT) == []
  {
  }

  lemma KeptValue(s: State, change: Change, one: set<Client>, two: set<Client>, c: Client)
    requires Inv(s)
    ensures c in Kept(s, change, one, two) <==> c in s.missed || (c in one + two && Keeps(s, c))
    ensures c in Kept(s, change, one, two) ==>
              Kept(s, change, one, two)[c] == Last(MissedBy(s, c)
                + (if Keeps(s, c) then Copies(c, one, two, change) else []), MISSED_LIMIT)
    ensures c !in one + two ==> Copies(c, one, two, change) == []
    ensures c !in s.missed ==> MissedBy(s, c) == []
  {
    FewMissed(s, c);
    assert MissedBy(s, c) + [] == MissedBy(s, c);
    hide Last, Inv, Keeps;
  }

  lemma KeptOnce(s: State, change: Change, one: set<Client>, two: set<Client>, client: Client, second: bool)
    requires Inv(s) && CanOffer(one, two, client, second)
    ensures var (more, again) := Offered(one, two, client, second);
            var before := Kept(s, change, one, two);
            var had := if client in before then before[client] else [];
            Kept(s, change, more, again) == if Keeps(s, client)
              then before[client := Last(had + [change], MISSED_LIMIT)] else before
  {
    hide Kept, Last, Inv;
    forall c: Client
      ensures var (more, again) := Offered(one, two, client, second);
              var before, after := Kept(s, change, one, two), Kept(s, change, more, again);
              var had := if client in before then before[client] else [];
              if c == client && Keeps(s, client) then c in after && after[c] == Last(had + [change], MISSED_LIMIT)
              else (c in after <==> c in before) && (c in after ==> after[c] == before[c])
    {
      KeptAt(s, change, one, two, client, second, c);
    }
  }

  lemma TargetedOnce(s: State, one: set<Client>, two: set<Client>, client: Client, second: bool)
    requires CanOffer(one, two, client, second)
    ensures var (more, again) := Offered(one, two, client, second);
            var before := Targets(s, one, two);
            Targets(s, more, again) ==
              if Reachable(s, client)
                  then before[client := (if client in before then before[client] else []) + [client]] else before
  {
    var (more, again) := Offered(one, two, client, second);
    forall c: Client
      ensures Copies(c, more, again, c) == Copies(c, one, two, c) + (if c == client then [c] else [])
      ensures c in more + again <==> c in one + two || c == client
      ensures c !in one + two ==> Copies(c, one, two, c) == []
    {
      CopiesOnce(one, two, client, second, c, c);
    }
    hide Copies, Reachable, Offered, CanOffer;
  }

  /** After the clients `done` of the first ref, or of the second after all of the first. */
  function KeptSoFar(s: State, change: Change, first: set<Client>, done: set<Client>, second: bool): map<Client,
      seq<Change>> {
    if second then Kept(s, change, first, done) else Kept(s, change, done, {})
  }

  function TargetsSoFar(s: State, first: set<Client>, done: set<Client>, second: bool): map<Client, seq<Client>> {
    if second then Targets(s, first, done) else Targets(s, done, {})
  }

  /** Some of the targets. */
  function Only(targets: map<Client, seq<Client>>, clients: set<Client>): map<Client, seq<Client>> {
    map c <- targets | c in clients :: targets[c]
  }

  lemma OnlyMore(targets: map<Client, seq<Client>>, clients: set<Client>, client: Client)
    ensures client in targets ==> Only(targets, clients + {client}) == Only(targets, clients)[client := targets[client]]
    ensures Only(targets, {}) == map[] && Only(targets, targets.Keys) == targets
    ensures client !in clients ==> client !in Only(targets, clients)
  {
  }

  lemma DeferredOnce(s: State, change: Change, targets: map<Client, seq<Client>>, client: Client, cids: seq<Client>)
    requires Wired(s) && client !in targets && Reachable(s, client)
    ensures Deferred(s, change, targets).Keys == s.sockets.Keys
    ensures var h := s.connections[client];
            var before := Deferred(s, change, targets);
            Deferred(s, change, targets[client := cids])
              == before[h := before[h].(queued := before[h].queued + [Sync(cids, [change])])]
    ensures Deferred(s, change, map[]) == s.sockets
  {
  }

  lemma TargetsReachable(s: State, one: set<Client>, two: set<Client>)
    ensures forall c <- Targets(s, one, two) :: Reachable(s, c)
  {
  }

  lemma InvWired(s: State)
    requires Inv(s)
    ensures Wired(s)
  {
  }

  lemma NobodyOffered(s: State, change: Change)
    requires Inv(s)
    ensures Kept(s, change, {}, {}) == s.missed && Targets(s, {}, {}) == map[]
        && Deferred(s, change, map[]) == s.sockets
  {
    hide Last;
  }

  class WebsocketGateway {
    const grace: bool
    var sockets: map<Handle, Socket>
    var connections: map<Client, Handle>
    var subscriptions: map<Ref, set<Client>>
    var pending: map<Client, set<Ref>>
    var missed: map<Client, seq<Change>>

    function Abs(): State reads this {
      State(sockets, connections, subscriptions, pending, missed)
    }

    ghost predicate Valid() reads this {
      Inv(Abs())
    }

    constructor (disconnectGraceMs: int)
      ensures Valid() && Abs() == EMPTY && grace == (disconnectGraceMs > 0)
    {
      grace := disconnectGraceMs > 0;
      sockets, connections, subscriptions, pending, missed := map[], map[], map[], map[], map[];
    }

    method OnConnection(h: Handle)
      requires Valid() && h !in sockets
      modifies this
      ensures Valid() && Abs() == Accepted(old(Abs()), h)
    {
      StepKeeps(Abs(), Accept(h), grace);
      sockets := sockets[h := Socket(None, {}, true, [], [])];
    }

    /**
     * A client starts on a socket: a newer connection takes over an older one, a returning client gets what
     * it missed.
     */
    method OnStart(h: Handle, id: Client)
      requires Valid() && h in sockets && sockets[h].alive
      modifies this
      ensures Valid() && Abs() == Started(old(Abs()), h, id)
    {
      hide Inv, Started, RefsOf, Welcome;
      StepKeeps(Abs(), Start(h, id), grace);
      if sockets[h].id.Some? {
        OnlyOnce(Abs(), h, id);
        return;
      }
      KnownRefs(Abs(), id);
      StartedParts(Abs(), h, id, RefsOf(subscriptions, id), Welcome(Abs(), id));
      var frames := Welcomed(id);
      var refs: set<Ref> := {};
      if id in connections {
        var previous := connections[id];
        refs := sockets[previous].refs;
        sockets := sockets[previous := sockets[previous].(id := None, alive := false)];
      }
      connections := connections[id := h];
      if id in pending {
        refs := Rebuild(id, refs);
      }
      assert refs == RefsOf(subscriptions, id);
      pending, missed := pending - {id}, missed - {id};
      sockets := sockets[h := sockets[h].(id := Some(id), refs := refs, frames := frames)];
    }

    /** `hello`, then what happened while the client was away, once. */
    method Welcomed(id: Client) returns (frames: seq<Frame>)
      ensures frames == Welcome(Abs(), id)
    {
      frames := [Hello];
      if id in missed && missed[id] != [] {
        frames := frames + [Sync([id], missed[id])];
      }
    }

    /** Every ref the client is still subscribed to. */
    method Rebuild(id: Client, known: set<Ref>) returns (refs: set<Ref>)
      ensures refs == known + RefsOf(subscriptions, id)
    {
      refs := known;
      var left := subscriptions.Keys;
      while left != {}
        invariant left <= subscriptions.Keys
        invariant refs == known + set ref <- subscriptions | ref !in left && id in subscriptions[ref]
        decreases |left|
      {
        var ref :| ref in left;
        if id in subscriptions[ref] {
          refs := refs + {ref};
        }
        left := left - {ref};
      }
    }

    method OnClose(h: Handle)
      requires Valid() && h in sockets
      modifies this
      ensures Valid() && Abs() == Closed(old(Abs()), h, grace)
    {
      StepKeeps(Abs(), Close(h), grace);
      if sockets[h].id.Some? { OffIsGood(Abs(), h); }
      hide Inv, OffGood, Detached, RefsOf, Left, Wired, Exact;
      var socket := sockets[h];
      sockets := sockets - {h};
      if socket.id.None? {
        return;
      }
      var client := socket.id.value;
      connections := connections - {client};
      if socket.refs == {} {
        return;
      }
      pending := pending - {client};
      if grace {
        pending := pending[client := socket.refs];
        assert pending == old(pending)[client := socket.refs];
      } else {
        assert Abs() == Off(old(Abs()), h, client);
        Detach(client, socket.refs);
      }
    }

    method GraceOver(client: Client)
      requires Valid() && client in pending
      modifies this
      ensures Valid() && Abs() == Expired(old(Abs()), client)
    {
      StepKeeps(Abs(), Expire(client), grace);
      var refs := pending[client];
      pending := pending - {client};
      if client in connections {
        return;
      }
      missed := missed - {client};
      Detach(client, refs);
    }

    method UnsubscribeClient(h: Handle, refs: set<Ref>)
      requires Valid() && h in sockets && sockets[h].alive
      modifies this
      ensures Valid() && Abs() == Unsubscribed(old(Abs()), h, refs)
    {
      StepKeeps(Abs(), Unsubscribe(h, refs), grace);
      if sockets[h].id.Some? {
        Detach(sockets[h].id.value, refs);
      }
    }

    method Listen(ref: Ref, client: Client)
      requires Valid()
      modifies this
      ensures Valid() && Abs() == Listened(old(Abs()), ref, client)
    {
      ListenKeeps(Abs(), ref, client);
      ConnectedSocket(Abs(), client);
      hide Inv, Wired, Exact, Accounted, Quiet, RefsOf;
      if client !in connections {
        return;
      }
      var h := connections[client];
      if ref in sockets[h].refs {
        return;
      }
      var listeners := if ref in subscriptions then subscriptions[ref] else {};
      if client in listeners {
        return;
      }
      subscriptions := subscriptions[ref := listeners + {client}];
      sockets := sockets[h := sockets[h].(refs := sockets[h].refs + {ref})];
    }

    /** Take a client off refs, one by one; a ref nobody is left on goes. */
    method Detach(client: Client, refs: set<Ref>)
      requires Wired(Abs()) && Exact(Abs())
      modifies this`subscriptions, this`sockets
      ensures Abs() == Detached(old(Abs()), client, refs)
    {
      hide Left, RefsOf, Detached;
      var left := refs;
      DetachedMore(Abs(), client, {}, "");
      assert refs - left == {};
      while left != {}
        invariant left <= refs && Abs() == Detached(old(Abs()), client, refs - left)
        decreases |left|
      {
        var ref :| ref in left;
        DetachedMore(old(Abs()), client, refs - left, ref);
        assert refs - (left - {ref}) == refs - left + {ref};
        if ref in subscriptions {
          var rest := subscriptions[ref] - {client};
          subscriptions := if rest == {} then subscriptions - {ref} else subscriptions[ref := rest];
          if client in connections {
            var h := connections[client];
            sockets := sockets[h := sockets[h].(refs := sockets[h].refs - {ref})];
          }
        }
        left := left - {ref};
      }
      assert refs - left == refs;
    }

    /** Keep a change for a client that may reconnect, the newest 1000 of them. */
    method KeepMissed(client: Client, change: Change)
      modifies this`missed
      ensures missed == if client in pending || client in connections
                        then old(missed)[client := Last((if client in old(missed) then old(missed)[client] else [])
                          + [change], MISSED_LIMIT)]
                        else old(missed)
    {
      if client !in pending && client !in connections {
        return;
      }
      var kept := (if client in missed then missed[client] else []) + [change];
      if |kept| > MISSED_LIMIT {
        kept := kept[|kept| - MISSED_LIMIT..];
      }
      missed := missed[client := kept];
    }

    /** Offer a change to the subscribers of one ref: who can be reached is a target, for the others it is kept. */
    method Offer(change: Change, ghost s: State, ghost first: set<Client>, clients: set<Client>, sofar: map<Client,
        seq<Client>>, second: bool)
      returns (targets: map<Client, seq<Client>>)
      requires Inv(s) && Abs() == s.(missed := Kept(s, change, first, {})) && sofar == Targets(s, first, {})
      requires !second ==> first == {}
      modifies this`missed
      ensures missed == KeptSoFar(s, change, first, clients, second)
          && targets == TargetsSoFar(s, first, clients, second)
    {
      hide Inv, Kept, Targets, Last, Parted;
      targets := sofar;
      var left := clients;
      ghost var done: set<Client> := {};
      PartedStart(clients);
      while left != {}
        invariant Parted(clients, done, left) && Abs() == s.(missed := missed)
        invariant missed == KeptSoFar(s, change, first, done, second) && targets == TargetsSoFar(s, first, done, second)
        decreases |left|
      {
        var client :| client in left;
        PartedOn(clients, done, left, client);
        KeptOnce(s, change, if second then first else done, if second then done else {}, client, second);
        TargetedOnce(s, if second then first else done, if second then done else {}, client, second);
        if client in connections && connections[client] in sockets && sockets[connections[client]].alive {
          targets := targets[client := (if client in targets then targets[client] else []) + [client]];
        } else {
          KeepMissed(client, change);
        }
        left, done := left - {client}, done + {client};
      }
      PartedEnd(clients, done);
    }

    /** Fan a change out: deferred frames to whoever can be reached, kept for whoever dropped. */
    method Broadcast(change: Change)
      requires Valid()
      modifies this`missed, this`sockets
      ensures Valid() && Abs() == Published(old(Abs()), change)
    {
      ghost var s := Abs();
      PublishKeeps(s, change);
      NobodyOffered(s, change);
      TargetsReachable(s, Subscribers(subscriptions, change.ref), Subscribers(subscriptions, DocRef(change)));
      hide Kept, Targets, Last, Deferred, Inv, Reachable, DocRef, Subscribers;
      var one, two := Subscribers(subscriptions, change.ref), Subscribers(subscriptions, DocRef(change));
      var targets := Offer(change, s, {}, one, map[], false);
      targets := Offer(change, s, one, two, targets, true);
      Defer(s, change, targets);
    }

    method Defer(ghost s: State, change: Change, targets: map<Client, seq<Client>>)
      requires Inv(s) && Abs() == s.(missed := missed) && forall c <- targets :: Reachable(s, c)
      modifies this`sockets
      ensures sockets == Deferred(s, change, targets)
    {
      hide Deferred, Inv, Only, Wired, Parted;
      NobodyOffered(s, change);
      InvWired(s);
      OnlyMore(targets, {}, "");
      var left := targets.Keys;
      ghost var done: set<Client> := {};
      PartedStart(left);
      while left != {}
        invariant Parted(targets.Keys, done, left) && sockets == Deferred(s, change, Only(targets, done))
        decreases |left|
      {
        var client :| client in left;
        PartedOn(targets.Keys, done, left, client);
        OnlyMore(targets, done, client);
        DeferredOnce(s, change, Only(targets, done), client, targets[client]);
        var h := connections[client];
        sockets := sockets[h := sockets[h].(queued := sockets[h].queued + [Sync(targets[client], [change])])];
        left, done := left - {client}, done + {client};
      }
      PartedEnd(targets.Keys, done);
    }

    /** A deferred frame's turn. */
    method Flush(h: Handle)
      requires Valid() && h in sockets && sockets[h].queued != []
      modifies this`sockets
      ensures Valid() && Abs() == Flushed(old(Abs()), h)
      ensures var before, after := old(sockets)[h], sockets[h];
              && after.queued == before.queued[1..]
              && after.frames == before.frames + (if before.alive then [before.queued[0]] else [])
    {
      StepKeeps(Abs(), Step.Flush(h), grace);
      var socket := sockets[h];
      sockets := sockets[h := socket.(queued := socket.queued[1..],
                                      frames := if socket.alive then socket.frames + [socket.queued[0]]
                                          else socket.frames)];
    }
  }
}
