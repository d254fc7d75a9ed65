/**
 * The gateway as a Durable Object: its registry survives eviction through persisted records, socket
 * attachments and one alarm. packages/core/src/cloudflare/HibernatableWebsocketGateway.ts.
 *
 * Storage writes are applied in order. A client starts only while it has no other connection here.
 */
module Hibernation {
  import opened Wrappers
  import Gateway

  type Client = Gateway.Client
  type Ref = Gateway.Ref
  type Handle = Gateway.Handle

  /** An open WebSocket: the client id in its attachment, and the refs the instance in memory lists for it. */
  datatype Link = Link(id: Option<Client>, refs: set<Ref>)

  /** `subscriptions` and `connections` are memory; `links` are the runtime's sockets; the rest is storage. */
  datatype Object = Object(
    subscriptions: map<Ref, set<Client>>,
    connections: map<Client, Handle>,
    links: map<Handle, Link>,
    records: set<(Client, Ref)>,
    expiry: map<Client, int>,
    alarm: Option<int>)

  const SUBSCRIPTION_SWEEP_MS := 600_000

  // --- What the object does ---

  /** Whether anyone is subscribed to `ref` under the records. */
  function RecordedRefs(records: set<(Client, Ref)>): set<Ref> {
    set record <- records :: record.1
  }

  function RecordedClients(records: set<(Client, Ref)>): set<Client> {
    set record <- records :: record.0
  }

  /** The registry the records stand for. */
  function Rebuilt(records: set<(Client, Ref)>): map<Ref, set<Client>> {
    map ref <- RecordedRefs(records) :: set client <- RecordedClients(records) | (client, ref) in records
  }

  /** Move the alarm earlier when needed; never push an existing one back. */
  function Armed(alarm: Option<int>, at: int): Option<int> {
    if alarm.Some? && alarm.value <= at then alarm else Some(at)
  }

  /** Subscribed clients without a connection. */
  function Orphans(records: set<(Client, Ref)>, connections: map<Client, Handle>): set<Client> {
    set record <- records | record.0 !in connections :: record.0
  }

  function Started(o: Object, h: Handle, client: Client): Object
    requires h in o.links
  {
    if o.links[h].id.Some? then o
    else o.(connections := o.connections[client := h],
        links := o.links[h := Link(Some(client), Gateway.RefsOf(o.subscriptions, client))],
            expiry := o.expiry - {client})
  }

  function Registered(o: Object, ref: Ref, client: Client): Object {
    if client !in o.connections || o.connections[client] !in o.links then o
    else
      var h := o.connections[client];
      o.(subscriptions := o.subscriptions[ref := Gateway.Subscribers(o.subscriptions, ref) + {client}],
         links := o.links[h := o.links[h].(refs := o.links[h].refs + {ref})],
         records := o.records + {(client, ref)})
  }

  function Dropped(records: set<(Client, Ref)>, client: Client, refs: set<Ref>): set<(Client, Ref)> {
    set record <- records | !(record.0 == client && record.1 in refs)
  }

  function Detached(o: Object, client: Client, refs: set<Ref>): Object {
    var left := o.(subscriptions := Gateway.Left(o.subscriptions, client, refs),
        records := Dropped(o.records, client, refs));
    if client in o.connections && o.connections[client] in o.links then
      var h := o.connections[client];
      left.(links := o.links[h := o.links[h].(refs := o.links[h].refs - refs)])
    else left
  }

  /** The socket closed at `now`: the client's subscriptions expire after the grace window. */
  function Closed(o: Object, h: Handle, now: int, graceMs: int): Object
    requires h in o.links
  {
    var Link(id, refs) := o.links[h];
    var gone := o.(links := o.links - {h});
    if id.None? then gone
    else
      var client := id.value;
      var off := gone.(connections := o.connections - {client});
      if refs == {} then off
      else if graceMs <= 0 then Detached(off.(expiry := o.expiry - {client}), client, refs)
      else off.(expiry := o.expiry[client := now + graceMs], alarm := Armed(o.alarm, now + graceMs))
  }

  /** Clients whose grace window has passed. */
  function Due(o: Object, now: int): set<Client> {
    set client <- o.expiry | client !in o.connections && o.expiry[client] <= now
  }

  function Without(subscriptions: map<Ref, set<Client>>, clients: set<Client>): map<Ref, set<Client>> {
    map ref <- subscriptions | subscriptions[ref] - clients != {} :: subscriptions[ref] - clients
  }

  function Forgotten(records: set<(Client, Ref)>, clients: set<Client>): set<(Client, Ref)> {
    set record <- records | record.0 !in clients
  }

  /** The expiries an alarm at `now` leaves: those to come, and one for every orphan that has none. */
  function Remaining(o: Object, now: int, graceMs: int): map<Client, int> {
    (map client <- Orphans(Forgotten(o.records, Due(o, now)), o.connections) | client !in o.expiry :: now + graceMs) +
    (map client <- o.expiry | client !in o.connections && o.expiry[client] > now :: o.expiry[client])
  }

  ghost predicate IsEarliest(expiry: map<Client, int>, at: int) {
    (exists client <- expiry :: expiry[client] == at) && forall client <- expiry :: at <= expiry[client]
  }

  /** What an alarm that fired at `now` makes of the object. */
  ghost predicate Alarmed(o: Object, v: Object, now: int, graceMs: int) {
    && v.subscriptions == Without(o.subscriptions, Due(o, now))
    && v.records == Forgotten(o.records, Due(o, now))
    && v.connections == o.connections && v.links == o.links
    && v.expiry == Remaining(o, now, graceMs)
    && (if v.expiry != map[] then v.alarm.Some? && IsEarliest(v.expiry, v.alarm.value)
        else v.alarm == if v.subscriptions != map[] then Some(now + SUBSCRIPTION_SWEEP_MS) else None)
  }

  /** Memory is gone; so are the sockets that closed meanwhile. */
  function Evicted(o: Object, closed: set<Handle>): Object {
    o.(subscriptions := map[], connections := map[], links := map h <- o.links | h !in closed ::
      o.links[h].(refs := {}))
  }

  function Each(clients: set<Client>, at: int): map<Client, int> {
    map c <- clients :: at
  }

  /** What a new instance at `now` makes of what was stored. */
  ghost predicate Restored(o: Object, v: Object, now: int, graceMs: int) {
    && v.records == o.records && v.subscriptions == Rebuilt(o.records)
    && Wired(v) && v.links.Keys == o.links.Keys
    && (forall h <- v.links :: v.links[h].id == o.links[h].id
          && v.links[h].refs == if v.links[h].id.Some? then Gateway.RefsOf(v.subscriptions, v.links[h].id.value)
              else {})
    && (var orphans := Orphans(v.records, v.connections);
        && v.expiry == o.expiry + Each(orphans, now + graceMs)
        && v.alarm == if orphans == {} then o.alarm else Armed(o.alarm, now + graceMs))
  }

  // --- The invariant ---

  ghost predicate Wired(o: Object) {
    && (forall c <- o.connections :: o.connections[c] in o.links && o.links[o.connections[c]].id == Some(c))
    && (forall h <- o.links :: o.links[h].id.Some? ==>
        o.links[h].id.value in o.connections && o.connections[o.links[h].id.value] == h)
  }

  ghost predicate NobodyEmpty(o: Object) {
    forall ref <- o.subscriptions :: o.subscriptions[ref] != {}
  }

  /** The records are the subscriptions in memory. */
  ghost predicate Recorded(o: Object) {
    forall ref, c :: (c, ref) in o.records <==> ref in o.subscriptions && c in o.subscriptions[ref]
  }

  /** Every socket lists its client's refs. */
  ghost predicate Listed(o: Object) {
    forall h <- o.links :: o.links[h].refs == if o.links[h].id.Some?
        then Gateway.RefsOf(o.subscriptions, o.links[h].id.value) else {}
  }

  /** Every subscribed client without a connection has an expiry, and the alarm comes no later. */
  ghost predicate Watched(o: Object) {
    forall c <- Orphans(o.records, o.connections) :: c in o.expiry && o.alarm.Some? && o.alarm.value <= o.expiry[c]
  }

  ghost predicate Good(o: Object) {
    Wired(o) && NobodyEmpty(o) && Recorded(o) && Listed(o) && Watched(o)
  }

  lemma OrphansLess(records: set<(Client, Ref)>, connections: map<Client, Handle>, fewer: set<(Client, Ref)>,
      more: map<Client, Handle>)
    requires fewer <= records && connections.Keys <= more.Keys
    ensures Orphans(fewer, more) <= Orphans(records, connections)
  {
    forall c | c in Orphans(fewer, more)
      ensures c in Orphans(records, connections)
    {
      var record :| record in fewer && record.0 == c && record.0 !in more;
      assert record in records;
    }
  }

  lemma StartKeepsWatched(o: Object, v: Object, client: Client)
    requires Watched(o) && v.records == o.records && v.connections.Keys == o.connections.Keys + {client}
    requires v.expiry == o.expiry - {client} && v.alarm == o.alarm
    ensures Watched(v)
  {
    OrphansLess(o.records, o.connections, v.records, v.connections);
    assert forall c <- Orphans(v.records, v.connections) :: c != client;
    hide Orphans;
  }

  lemma StartKeepsWired(o: Object, v: Object, h: Handle, client: Client)
    requires Wired(o) && Listed(o) && h in o.links && o.links[h].id.None? && client !in o.connections
    requires v.connections == o.connections[client := h] && v.subscriptions == o.subscriptions
    requires v.links == o.links[h := Link(Some(client), Gateway.RefsOf(o.subscriptions, client))]
    ensures Wired(v) && Listed(v)
  {
    hide Gateway.RefsOf;
  }

  lemma StartKeeps(o: Object, h: Handle, client: Client)
    requires Good(o) && h in o.links && client !in o.connections
    ensures Good(Started(o, h, client))
  {
    if o.links[h].id.None? {
      var v := Started(o, h, client);
      StartKeepsWatched(o, v, client);
      StartKeepsWired(o, v, h, client);
      assert Recorded(v) && NobodyEmpty(v) by { SameRecorded(o, v); }
      hide Recorded, NobodyEmpty, Wired, Listed, Watched;
    }
  }

  lemma SameRecorded(o: Object, v: Object)
    requires v.records == o.records && v.subscriptions == o.subscriptions
    ensures (Recorded(o) ==> Recorded(v)) && (NobodyEmpty(o) ==> NobodyEmpty(v))
  {
  }

  /** Registering, seen part by part. */
  lemma RegisteredIs(o: Object, ref: Ref, client: Client)
    requires Wired(o)
    ensures var v := Registered(o, ref, client);
            v != o ==>
              && client in o.connections && v.connections == o.connections && v.expiry == o.expiry && v.alarm == o.alarm
              && v.subscriptions == o.subscriptions[ref := Gateway.Subscribers(o.subscriptions, ref) + {client}]
              && v.records == o.records + {(client, ref)} && v.links.Keys == o.links.Keys
              && forall h <- o.links :: v.links[h]
                  == o.links[h].(refs := o.links[h].refs + if o.links[h].id == Some(client) then {ref} else {})
  {
    assert forall h <- o.links :: o.links[h].refs + {} == o.links[h].refs;
  }

  lemma RegisterKeepsListed(o: Object, v: Object, ref: Ref, client: Client)
    requires Listed(o) && v.links.Keys == o.links.Keys
    requires v.subscriptions == o.subscriptions[ref := Gateway.Subscribers(o.subscriptions, ref) + {client}]
    requires forall h <- o.links ::
        v.links[h] == o.links[h].(refs := o.links[h].refs + if o.links[h].id == Some(client) then {ref} else {})
    ensures Listed(v)
  {
    forall c: Client
      ensures Gateway.RefsOf(v.subscriptions, c) == Gateway.RefsOf(o.subscriptions, c)
          + (if c == client then {ref} else {})
    {
      Gateway.ListenedRefs(o.subscriptions, ref, client, c);
    }
    hide Gateway.RefsOf;
  }

  lemma RegisterRecords(o: Object, v: Object, ref: Ref, client: Client)
    requires Recorded(o) && NobodyEmpty(o) && v.subscriptions
        == o.subscriptions[ref := Gateway.Subscribers(o.subscriptions, ref) + {client}]
    requires v.records == o.records + {(client, ref)}
    ensures Recorded(v) && NobodyEmpty(v)
  {
  }

  lemma RegisterOrphans(o: Object, v: Object, ref: Ref, client: Client)
    requires client in o.connections && v.connections == o.connections && v.records == o.records + {(client, ref)}
    ensures Orphans(v.records, v.connections) == Orphans(o.records, o.connections)
  {
  }

  lemma RegisterKeeps(o: Object, ref: Ref, client: Client)
    requires Good(o)
    ensures Good(Registered(o, ref, client))
  {
    var v := Registered(o, ref, client);
    if v != o {
      RegisteredIs(o, ref, client);
      RegisterKeepsListed(o, v, ref, client);
      RegisterRecords(o, v, ref, client);
      RegisterOrphans(o, v, ref, client);
      hide Registered, Listed, Recorded, NobodyEmpty, Orphans;
    }
  }

  lemma DetachedIs(o: Object, client: Client, refs: set<Ref>)
    requires Wired(o)
    ensures var v := Detached(o, client, refs);
            && v.subscriptions == Gateway.Left(o.subscriptions, client, refs)
                && v.records == Dropped(o.records, client, refs)
            && v.connections == o.connections && v.expiry == o.expiry && v.alarm == o.alarm
                && v.links.Keys == o.links.Keys
            && forall h <- o.links ::
                v.links[h] == o.links[h].(refs := o.links[h].refs - if o.links[h].id == Some(client) then refs else {})
  {
    hide Gateway.Left, Dropped;
    assert forall h <- o.links :: o.links[h].refs - {} == o.links[h].refs;
  }

  lemma DetachKeepsListed(o: Object, v: Object, client: Client, refs: set<Ref>)
    requires Listed(o) && v.links.Keys == o.links.Keys && v.subscriptions == Gateway.Left(o.subscriptions, client, refs)
    requires forall h <- o.links ::
        v.links[h] == o.links[h].(refs := o.links[h].refs - if o.links[h].id == Some(client) then refs else {})
    ensures Listed(v)
  {
    forall c: Client
      ensures Gateway.RefsOf(v.subscriptions, c) == Gateway.RefsOf(o.subscriptions, c) - (if c == client then refs
          else {})
    {
      Gateway.LeftRefs(o.subscriptions, client, refs, c);
    }
    hide Gateway.RefsOf, Gateway.Left;
  }

  lemma DroppedAre(o: Object, v: Object, client: Client, refs: set<Ref>)
    requires Recorded(o) && v.records == Dropped(o.records, client, refs)
        && v.subscriptions == Gateway.Left(o.subscriptions, client, refs)
    ensures Recorded(v)
  {
    forall ref, c
      ensures (c, ref) in v.records <==> ref in v.subscriptions && c in v.subscriptions[ref]
    {
      Gateway.LeftRefs(o.subscriptions, client, refs, c);
      assert ref in Gateway.RefsOf(v.subscriptions, c) <==>
          ref in Gateway.RefsOf(o.subscriptions, c) && !(c == client && ref in refs);
    }
  }

  lemma DetachKeeps(o: Object, client: Client, refs: set<Ref>)
    requires Wired(o) && NobodyEmpty(o) && Recorded(o) && Listed(o)
    ensures var v := Detached(o, client, refs);
            && Wired(v) && NobodyEmpty(v) && Recorded(v) && Listed(v)
            && Orphans(v.records, v.connections) <= Orphans(o.records, o.connections)
            && (Gateway.RefsOf(o.subscriptions, client) <= refs ==> client !in Orphans(v.records, v.connections))
  {
    var v := Detached(o, client, refs);
    DetachedIs(o, client, refs);
    DetachKeepsListed(o, v, client, refs);
    DroppedAre(o, v, client, refs);
    Gateway.LeftOnly(o.subscriptions, client, refs);
    OrphansLess(o.records, o.connections, v.records, v.connections);
    if Gateway.RefsOf(o.subscriptions, client) <= refs { NotOrphan(o, v, client, refs); }
    hide Gateway.RefsOf, Orphans, Gateway.Left, Dropped, Detached, Recorded, Listed;
  }

  lemma NotOrphan(o: Object, v: Object, client: Client, refs: set<Ref>)
    requires Recorded(o) && v.records == Dropped(o.records, client, refs)
        && Gateway.RefsOf(o.subscriptions, client) <= refs
    ensures client !in Orphans(v.records, v.connections)
  {
    forall record | record in v.records
      ensures record.0 != client
    {
      assert (record.0, record.1) in o.records;
      assert record.0 == client ==> record.1 in Gateway.RefsOf(o.subscriptions, client);
    }
  }

  /** The object once a started socket is off it. */
  function Off(o: Object, h: Handle, client: Client): Object {
    o.(links := o.links - {h}, connections := o.connections - {client})
  }

  lemma OffIsGood(o: Object, h: Handle)
    requires Good(o) && h in o.links && o.links[h].id.Some?
    ensures var client := o.links[h].id.value;
            var off := Off(o, h, client);
            && Wired(off) && NobodyEmpty(off) && Recorded(off) && Listed(off)
            && o.links[h].refs == Gateway.RefsOf(o.subscriptions, client) && client in o.connections
                && o.connections[client] == h
            && Orphans(off.records, off.connections) <= Orphans(o.records, o.connections) + {client}
            && (o.links[h].refs == {} ==> Orphans(off.records, off.connections) <= Orphans(o.records, o.connections))
  {
    var client := o.links[h].id.value;
    var off := Off(o, h, client);
    forall c | c in Orphans(off.records, off.connections) && c !in Orphans(o.records, o.connections)
      ensures c == client && o.links[h].refs != {}
    {
      var record :| record in off.records && record.0 == c && c !in off.connections;
      assert (record.0, record.1) in o.records;
      assert c !in o.connections ==> c in Orphans(o.records, o.connections);
      assert record.1 in Gateway.RefsOf(o.subscriptions, c);
    }
    hide Gateway.RefsOf, Orphans;
  }

  lemma CloseKeeps(o: Object, h: Handle, now: int, graceMs: int)
    requires Good(o) && h in o.links
    ensures Good(Closed(o, h, now, graceMs))
  {
    var Link(id, refs) := o.links[h];
    var v := Closed(o, h, now, graceMs);
    if id.None? {
      GoneKeeps(o, v, h);
    } else {
      var off := Off(o, h, id.value);
      OffIsGood(o, h);
      if refs == {} {
        hide Gateway.RefsOf, Orphans, Recorded, Listed, NobodyEmpty, Wired;
      } else if graceMs <= 0 {
        var later := off.(expiry := o.expiry - {id.value});
        SamePlaces(off, later);
        DetachKeeps(later, id.value, refs);
        DetachedIs(later, id.value, refs);
        hide Gateway.RefsOf, Orphans, Recorded, Listed, NobodyEmpty, Wired, Detached, Gateway.Left, Dropped;
      } else {
        SamePlaces(off, v);
        hide Gateway.RefsOf, Orphans, Recorded, Listed, NobodyEmpty, Wired;
      }
    }
  }

  lemma GoneKeeps(o: Object, v: Object, h: Handle)
    requires Good(o) && h in o.links && o.links[h].id.None? && v == o.(links := o.links - {h})
    ensures Good(v)
  {
    assert Recorded(v) && NobodyEmpty(v) && Watched(v) by { SamePlaces(o, o); hide Gateway.RefsOf; }
    hide Gateway.RefsOf, Orphans, Recorded, Watched, NobodyEmpty;
  }

  lemma SamePlaces(o: Object, v: Object)
    requires v.subscriptions == o.subscriptions && v.records == o.records && v.links == o.links
        && v.connections == o.connections
    ensures Wired(o) ==> Wired(v)
    ensures NobodyEmpty(o) ==> NobodyEmpty(v)
    ensures Recorded(o) ==> Recorded(v)
    ensures Listed(o) ==> Listed(v)
  {
    hide Gateway.RefsOf;
  }

  // --- Alarms ---

  lemma WithoutAre(subscriptions: map<Ref, set<Client>>, clients: set<Client>, c: Client)
    ensures Gateway.RefsOf(Without(subscriptions, clients), c) == if c in clients then {}
        else Gateway.RefsOf(subscriptions, c)
  {
    var without := Without(subscriptions, clients);
    forall ref | ref in subscriptions && c in subscriptions[ref] && c !in clients
      ensures ref in without && c in without[ref]
    {
      assert c in subscriptions[ref] - clients;
    }
  }

  lemma WithoutRecorded(o: Object, v: Object, clients: set<Client>)
    requires Recorded(o) && v.subscriptions == Without(o.subscriptions, clients)
        && v.records == Forgotten(o.records, clients)
    ensures Recorded(v) && NobodyEmpty(v)
  {
    forall ref, c
      ensures (c, ref) in v.records <==> ref in v.subscriptions && c in v.subscriptions[ref]
    {
      WithoutAre(o.subscriptions, clients, c);
      assert ref in Gateway.RefsOf(v.subscriptions, c) <==> ref in Gateway.RefsOf(o.subscriptions, c) && c !in clients;
    }
  }

  /** After an alarm the registry holds, and whoever is still away is watched again. */
  lemma AlarmKeeps(o: Object, v: Object, now: int, graceMs: int)
    requires Good(o) && Alarmed(o, v, now, graceMs)
    ensures Good(v)
  {
    WithoutRecorded(o, v, Due(o, now));
    assert Listed(v) by {
      forall h | h in v.links && v.links[h].id.Some?
        ensures Gateway.RefsOf(v.subscriptions, v.links[h].id.value)
            == Gateway.RefsOf(o.subscriptions, v.links[h].id.value)
      {
        WithoutAre(o.subscriptions, Due(o, now), v.links[h].id.value);
      }
      hide Gateway.RefsOf, Recorded, Without;
    }
    assert Wired(v);
    hide Gateway.RefsOf, Recorded, Without, Wired, Listed, NobodyEmpty;
    forall c | c in Orphans(v.records, v.connections)
      ensures c in v.expiry
    {
      var record :| record in v.records && record.0 == c && c !in v.connections;
      assert c !in Due(o, now);
    }
  }

  /**
   * An alarm removes exactly the absent clients whose window has passed, all their subscriptions,
   * records and expiry; everyone else keeps every subscription.
   */
  lemma AlarmExact(o: Object, v: Object, now: int, graceMs: int, client: Client)
    requires Good(o) && Alarmed(o, v, now, graceMs) && graceMs > 0
    ensures client in Orphans(o.records, o.connections) && o.expiry[client] <= now ==>
              && Gateway.RefsOf(v.subscriptions, client) == {} && (forall ref :: (client, ref) !in v.records)
                  && client !in v.expiry
    ensures !(client in Orphans(o.records, o.connections) && o.expiry[client] <= now) ==>
              Gateway.RefsOf(v.subscriptions, client) == Gateway.RefsOf(o.subscriptions, client)
  {
    WithoutAre(o.subscriptions, Due(o, now), client);
    if Gateway.RefsOf(o.subscriptions, client) != {} {
      var ref :| ref in Gateway.RefsOf(o.subscriptions, client);
      assert (client, ref) in o.records;
    }
  }

  // --- Restoring ---

  lemma RebuiltRecorded(o: Object)
    requires o.subscriptions == Rebuilt(o.records)
    ensures Recorded(o) && NobodyEmpty(o)
  {
    forall record | record in o.records
      ensures record.1 in o.subscriptions && record.0 in o.subscriptions[record.1]
    {
      assert record == (record.0, record.1);
    }
  }

  /** What is restored is a registry again, whatever closed while the object was away. */
  lemma RestoreKeeps(o: Object, v: Object, now: int, graceMs: int)
    requires Restored(o, v, now, graceMs)
    ensures Good(v)
  {
    RebuiltRecorded(v);
    hide Gateway.RefsOf, Recorded, NobodyEmpty, Rebuilt, Orphans;
  }

  lemma SameRegistry(a: map<Ref, set<Client>>, b: map<Ref, set<Client>>)
    requires forall ref <- a :: a[ref] != {}
    requires forall ref <- b :: b[ref] != {}
    requires forall ref, c :: (ref in a && c in a[ref]) <==> (ref in b && c in b[ref])
    ensures a == b
  {
    forall ref
      ensures ref in a <==> ref in b
      ensures ref in a && ref in b ==> a[ref] == b[ref]
    {
      if ref in a { var c :| c in a[ref]; assert ref in b; }
      if ref in b { var c :| c in b[ref]; assert ref in a; }
    }
  }

  /**
   * Hibernation is transparent: an instance woken at any later time has the registry the evicted one
   * had, for every client whose socket is still open.
   */
  lemma HibernationIsTransparent(o: Object, closed: set<Handle>, v: Object, now: int, graceMs: int)
    requires Good(o) && Restored(Evicted(o, closed), v, now, graceMs)
    ensures v.subscriptions == o.subscriptions && v.records == o.records
    ensures forall h <- o.links :: h !in closed ==> h in v.links && v.links[h] == o.links[h]
    ensures forall c :: (c in v.connections <==> c in o.connections && o.connections[c] !in closed)
    ensures forall c <- v.connections :: v.connections[c] == o.connections[c]
  {
    RebuiltRecorded(v);
    assert v.subscriptions == o.subscriptions by {
      forall ref, c
        ensures (ref in v.subscriptions && c in v.subscriptions[ref]) <==>
            (ref in o.subscriptions && c in o.subscriptions[ref])
      {
        assert (c, ref) in v.records <==> (c, ref) in o.records;
      }
      SameRegistry(v.subscriptions, o.subscriptions);
    }
    hide Gateway.RefsOf, Recorded, NobodyEmpty, Rebuilt, Orphans;
  }

  // --- Runs ---

  const FRESH := Object(map[], map[], map[], {}, map[], None)

  /** Every step's time is its own: clocks may stand still or run back. */
  datatype Step =
    | Accept(h: Handle)
    | Start(h: Handle, client: Client)
    | Register(ref: Ref, client: Client)
    | Unsubscribe(h: Handle, refs: set<Ref>)
    | Close(h: Handle, now: int)
    | Alarm(now: int)
    | Hibernate(closed: set<Handle>, now: int)

  function Unsubscribed(o: Object, h: Handle, refs: set<Ref>): Object
    requires h in o.links
  {
    if o.links[h].id.Some? then Detached(o, o.links[h].id.value, refs) else o
  }

  ghost predicate Moves(o: Object, step: Step, v: Object, graceMs: int) {
    match step
    case Accept(h) => h !in o.links && v == o.(links := o.links[h := Link(None, {})])
    case Start(h, client) => h in o.links && client !in o.connections && v == Started(o, h, client)
    case Register(ref, client) => v == Registered(o, ref, client)
    case Unsubscribe(h, refs) => h in o.links && v == Unsubscribed(o, h, refs)
    case Close(h, now) => h in o.links && v == Closed(o, h, now, graceMs)
    case Alarm(now) => Alarmed(o, v, now, graceMs)
    case Hibernate(closed, now) => Restored(Evicted(o, closed), v, now, graceMs)
  }

  lemma AcceptKeeps(o: Object, h: Handle)
    requires Good(o) && h !in o.links
    ensures Good(o.(links := o.links[h := Link(None, {})]))
  {
    var v := o.(links := o.links[h := Link(None, {})]);
    assert Recorded(v) && NobodyEmpty(v) && Watched(v) by { hide Gateway.RefsOf; }
    hide Gateway.RefsOf, Orphans, Recorded, Watched, NobodyEmpty;
  }

  lemma UnsubscribeKeeps(o: Object, h: Handle, refs: set<Ref>)
    requires Good(o) && h in o.links
    ensures Good(Unsubscribed(o, h, refs))
  {
    if o.links[h].id.Some? {
      DetachKeeps(o, o.links[h].id.value, refs);
      DetachedIs(o, o.links[h].id.value, refs);
      hide Gateway.RefsOf, Orphans, Recorded, Listed, NobodyEmpty, Wired, Detached, Gateway.Left, Dropped;
    }
  }

  lemma StepKeeps(o: Object, step: Step, v: Object, graceMs: int)
    requires Good(o) && Moves(o, step, v, graceMs)
    ensures Good(v)
  {
    hide Good, Started, Registered, Unsubscribed, Closed, Alarmed, Restored;
    match step {
      case Accept(h) => AcceptKeeps(o, h);
      case Start(h, client) => StartKeeps(o, h, client);
      case Register(ref, client) => RegisterKeeps(o, ref, client);
      case Unsubscribe(h, refs) => UnsubscribeKeeps(o, h, refs);
      case Close(h, now) => CloseKeeps(o, h, now, graceMs);
      case Alarm(now) => AlarmKeeps(o, v, now, graceMs);
      case Hibernate(closed, now) => RestoreKeeps(Evicted(o, closed), v, now, graceMs);
    }
  }

  /**
   * Over every run, hibernations included: the records are the registry, and every subscribed client
   * without a connection has an expiry the alarm does not miss.
   */
  lemma {:induction false} NobodyForgotten(run: seq<Object>, steps: seq<Step>, graceMs: int)
    requires |run| == |steps| + 1 && run[0] == FRESH
    requires forall k :: 0 <= k < |steps| ==> Moves(run[k], steps[k], run[k + 1], graceMs)
    ensures Good(run[|steps|])
    decreases |steps|
  {
    hide Moves, Good;
    if steps == [] {
      NothingYet();
    } else {
      var n := |steps| - 1;
      NobodyForgotten(run[..n + 1], steps[..n], graceMs);
      StepKeeps(run[n], steps[n], run[n + 1], graceMs);
    }
  }

  /**
   * Whom a step takes subscriptions from, and to whom it gives one: everyone else keeps theirs, hibernations
   * included.
   */
  ghost function RefsAfter(o: Object, step: Step, graceMs: int, c: Client): set<Ref>
    requires Good(o) && (step.Unsubscribe? || step.Close? ==> step.h in o.links)
  {
    var refs := Gateway.RefsOf(o.subscriptions, c);
    match step
    case Register(ref, client) => if c == client && c in o.connections then refs + {ref} else refs
    case Unsubscribe(h, gone) => if o.links[h].id == Some(c) then refs - gone else refs
    case Close(h, _) => if graceMs <= 0 && o.links[h].id == Some(c) then {} else refs
    case Alarm(now) => if c !in o.connections && c in o.expiry && o.expiry[c] <= now then {} else refs
    case _ => refs
  }

  lemma RegisterRefs(o: Object, ref: Ref, client: Client, c: Client)
    requires Good(o)
    ensures Gateway.RefsOf(Registered(o, ref, client).subscriptions, c)
        == Gateway.RefsOf(o.subscriptions, c) + (if c == client && c in o.connections then {ref} else {})
  {
    Gateway.ListenedRefs(o.subscriptions, ref, client, c);
    hide Gateway.RefsOf, Gateway.Subscribers, Recorded, Listed, Watched, NobodyEmpty;
  }

  lemma UnsubscribeRefs(o: Object, h: Handle, refs: set<Ref>, c: Client)
    requires Good(o) && h in o.links
    ensures Gateway.RefsOf(Unsubscribed(o, h, refs).subscriptions, c)
        == Gateway.RefsOf(o.subscriptions, c) - (if o.links[h].id == Some(c) then refs else {})
  {
    if o.links[h].id.Some? {
      DetachedIs(o, o.links[h].id.value, refs);
      Gateway.LeftRefs(o.subscriptions, o.links[h].id.value, refs, c);
    }
    hide Gateway.RefsOf, Gateway.Left, Detached, Recorded, Listed, Watched, NobodyEmpty;
  }

  lemma CloseRefs(o: Object, h: Handle, now: int, graceMs: int, c: Client)
    requires Good(o) && h in o.links
    ensures Gateway.RefsOf(Closed(o, h, now, graceMs).subscriptions, c)
        == if graceMs <= 0 && o.links[h].id == Some(c) then {} else Gateway.RefsOf(o.subscriptions, c)
  {
    var refs := o.links[h].refs;
    if o.links[h].id.Some? {
      var client := o.links[h].id.value;
      assert refs == Gateway.RefsOf(o.subscriptions, client);
      Gateway.LeftRefs(o.subscriptions, client, refs, c);
    }
    hide Gateway.RefsOf, Gateway.Left, Dropped, Recorded, Watched, NobodyEmpty, Good;
  }

  lemma SubscriptionsMove(o: Object, step: Step, v: Object, graceMs: int, c: Client)
    requires Good(o) && Moves(o, step, v, graceMs)
    ensures Gateway.RefsOf(v.subscriptions, c) == RefsAfter(o, step, graceMs, c)
  {
    hide Good, Registered, Unsubscribed, Closed, Restored, Gateway.RefsOf, Without;
    match step {
      case Register(ref, client) => RegisterRefs(o, ref, client, c);
      case Unsubscribe(h, refs) => UnsubscribeRefs(o, h, refs, c);
      case Close(h, now) => CloseRefs(o, h, now, graceMs, c);
      case Alarm(now) => WithoutAre(o.subscriptions, Due(o, now), c);
      case Hibernate(closed, now) => HibernationIsTransparent(o, closed, v, now, graceMs);
      case _ =>
    }
  }

  /** Clients connect when they start and are gone when their socket closes, awake or not. */
  lemma ConnectionsMove(o: Object, step: Step, v: Object, graceMs: int, c: Client)
    requires Good(o) && Moves(o, step, v, graceMs)
    ensures c in v.connections <==>
              match step
              case Start(h, client) => c in o.connections || (c == client && o.links[h].id.None?)
              case Close(h, _) => c in o.connections && o.connections[c] != h
              case Hibernate(closed, _) => c in o.connections && o.connections[c] !in closed
              case _ => c in o.connections
  {
    match step {
      case Register(ref, client) => RegisteredIs(o, ref, client);
      case Unsubscribe(h, refs) =>
        if o.links[h].id.Some? { DetachedIs(o, o.links[h].id.value, refs); }
      case Hibernate(closed, now) => HibernationIsTransparent(o, closed, v, now, graceMs);
      case _ =>
    }
    hide Gateway.RefsOf, Recorded, NobodyEmpty;
  }

  /** The window of a client that leaves ends `graceMs` later; one that returns is not waited for any more. */
  lemma WindowsMove(o: Object, step: Step, v: Object, graceMs: int)
    requires Good(o) && Moves(o, step, v, graceMs)
    ensures step.Close? && o.links[step.h].id.Some? && o.links[step.h].refs != {} && graceMs > 0 ==>
              v.expiry == o.expiry[o.links[step.h].id.value := step.now + graceMs]
    ensures step.Start? && o.links[step.h].id.None? ==> v.expiry == o.expiry - {step.client}
    ensures step.Alarm? && v.expiry == map[] && v.subscriptions != map[] ==> v.alarm == Some(step.now + 600_000)
  {
  }

  lemma NothingYet()
    ensures Good(FRESH)
  {
  }

  // --- The object as it runs ---

  /** `at` is the earliest of the expiries of `clients`, if there are any. */
  ghost predicate EarliestOf(expiry: map<Client, int>, clients: set<Client>, at: Option<int>) {
    && clients <= expiry.Keys
    && (at.None? <==> clients == {})
    && (at.Some? ==>
          && (exists client <- clients :: expiry[client] == at.value)
          && forall client <- clients :: at.value <= expiry[client])
  }

  function Sooner(next: Option<int>, at: int): int {
    if next.Some? && next.value < at then next.value else at
  }

  lemma EarliestGrows(expiry: map<Client, int>, clients: set<Client>, next: Option<int>, client: Client)
    requires EarliestOf(expiry, clients, next) && client in expiry
    ensures EarliestOf(expiry, clients + {client}, Some(Sooner(next, expiry[client])))
  {
  }

  lemma WithoutOneMore(subscriptions: map<Ref, set<Client>>, clients: set<Client>, client: Client)
    requires forall ref <- subscriptions :: subscriptions[ref] != {}
    ensures Without(subscriptions, {}) == subscriptions
    ensures var without := Without(subscriptions, clients);
            Gateway.Left(without, client, Gateway.RefsOf(without, client)) == Without(subscriptions, clients + {client})
  {
    assert forall ref <- subscriptions :: subscriptions[ref] - {} == subscriptions[ref];
    var without := Without(subscriptions, clients);
    var left := Gateway.Left(without, client, Gateway.RefsOf(without, client));
    var both := Without(subscriptions, clients + {client});
    forall ref
      ensures ref in left <==> ref in both
      ensures ref in left && ref in both ==> left[ref] == both[ref]
    {
      if ref in subscriptions {
        assert subscriptions[ref] - (clients + {client}) == subscriptions[ref] - clients - {client};
        if ref in without && client !in without[ref] {
          assert without[ref] - {client} == without[ref];
        }
      }
    }
  }

  lemma WithoutMore(o: Object, clients: set<Client>, client: Client)
    requires Recorded(o) && NobodyEmpty(o)
    ensures Without(o.subscriptions, {}) == o.subscriptions && Forgotten(o.records, {}) == o.records
    ensures var subscriptions, records := Without(o.subscriptions, clients), Forgotten(o.records, clients);
            && Gateway.Left(subscriptions, client, Gateway.RefsOf(subscriptions, client))
                == Without(o.subscriptions, clients + {client})
            && Dropped(records, client, Gateway.RefsOf(subscriptions, client))
                == Forgotten(o.records, clients + {client})
  {
    WithoutOneMore(o.subscriptions, clients, client);
    WithoutAre(o.subscriptions, clients, client);
    hide Without, Gateway.Left;
    var subscriptions, records := Without(o.subscriptions, clients), Forgotten(o.records, clients);
    forall record | record in records && record.0 == client
      ensures record.1 in Gateway.RefsOf(subscriptions, client)
    {
      assert (record.0, record.1) in o.records;
      assert record.1 in Gateway.RefsOf(o.subscriptions, client);
    }
    hide Gateway.RefsOf, Recorded;
  }

  /** What the loop over the expiries has made of them: `done` are those seen. */
  ghost predicate Swept(o: Object, subscriptions: map<Ref, set<Client>>, records: set<(Client, Ref)>, now: int,
                        seen: set<Client>, over: set<Client>, next: Option<int>) {
    && subscriptions == Without(o.subscriptions, seen * Due(o, now))
    && records == Forgotten(o.records, seen * Due(o, now))
    && over == (set c <- seen | c in o.connections || c in Due(o, now))
    && EarliestOf(o.expiry, seen - over, next)
    && seen <= o.expiry.Keys
  }

  lemma SweepStarts(o: Object, now: int)
    requires Good(o)
    ensures Swept(o, o.subscriptions, o.records, now, {}, {}, None)
  {
    assert {} * Due(o, now) == {};
    WithoutMore(o, {}, "");
  }

  lemma SweepGoesOn(o: Object, subscriptions: map<Ref, set<Client>>, records: set<(Client, Ref)>, now: int,
                    seen: set<Client>, over: set<Client>, next: Option<int>, c: Client)
    requires Good(o) && Swept(o, subscriptions, records, now, seen, over, next) && c in o.expiry && c !in seen
    ensures c in o.connections ==> Swept(o, subscriptions, records, now, seen + {c}, over + {c}, next)
    ensures c !in o.connections && o.expiry[c] > now ==>
              Swept(o, subscriptions, records, now, seen + {c}, over, Some(Sooner(next, o.expiry[c])))
    ensures c !in o.connections && o.expiry[c] <= now ==>
              Swept(o, Gateway.Left(subscriptions, c, Gateway.RefsOf(subscriptions, c)),
                Dropped(records, c, Gateway.RefsOf(subscriptions, c)), now, seen + {c}, over + {c}, next)
  {
    EarliestGrows(o.expiry, seen - over, next, c);
    WithoutMore(o, seen * Due(o, now), c);
    SeenMore(o, now, seen, over, c);
    hide Without, Forgotten, Gateway.Left, Dropped, Gateway.RefsOf, EarliestOf, Good, Due;
  }

  lemma SeenMore(o: Object, now: int, seen: set<Client>, over: set<Client>, c: Client)
    requires c in o.expiry && c !in seen && over == (set c <- seen | c in o.connections || c in Due(o, now))
    ensures c in Due(o, now) <==> c !in o.connections && o.expiry[c] <= now
    ensures c in Due(o, now) ==> (seen + {c}) * Due(o, now) == seen * Due(o, now) + {c}
    ensures c !in Due(o, now) ==> (seen + {c}) * Due(o, now) == seen * Due(o, now)
    ensures var more := set d <- seen + {c} | d in o.connections || d in Due(o, now);
            if c in o.connections || c in Due(o, now) then more == over + {c} && (seen + {c}) - more == seen - over
            else more == over && (seen + {c}) - more == seen - over + {c}
  {
  }

  lemma SweptKept(o: Object, subscriptions: map<Ref, set<Client>>, records: set<(Client, Ref)>, now: int,
                  seen: set<Client>, over: set<Client>, next: Option<int>)
    requires Swept(o, subscriptions, records, now, seen, over, next)
    ensures EarliestOf(o.expiry, seen - over, next)
  {
  }

  /** Orphans the expiries did not know. */
  function Fresh(o: Object, clients: set<Client>): set<Client> {
    set c <- clients | c !in o.expiry
  }

  lemma FreshGrows(o: Object, seen: set<Client>, c: Client)
    ensures Fresh(o, {}) == {}
    ensures Fresh(o, seen + {c}) == if c in o.expiry then Fresh(o, seen) else Fresh(o, seen) + {c}
  {
  }

  /** The expiries once the clients of `added` were given one; `next` is the earliest that stays. */
  ghost predicate Given(o: Object, expiry: map<Client, int>, kept: set<Client>, added: set<Client>, next: Option<int>,
      at: int) {
    && expiry == Each(added, at) + o.expiry && added !! o.expiry.Keys
    && EarliestOf(expiry, kept + added, next)
  }

  lemma GivenNone(o: Object, kept: set<Client>, next: Option<int>, at: int)
    requires EarliestOf(o.expiry, kept, next)
    ensures Fresh(o, {}) == {} && Given(o, o.expiry, kept, {}, next, at)
  {
    assert Each({}, at) + o.expiry == o.expiry;
    assert kept + {} == kept;
  }

  lemma GivenMore(o: Object, expiry: map<Client, int>, kept: set<Client>, added: set<Client>, next: Option<int>,
      at: int, c: Client)
    requires Given(o, expiry, kept, added, next, at) && c !in o.expiry
    ensures Given(o, expiry[c := at], kept, added + {c}, Some(Sooner(next, at)), at)
  {
    var more := expiry[c := at];
    assert more == Each(added + {c}, at) + o.expiry;
    assert kept + (added + {c}) == kept + added + {c};
    EarliestSame(expiry, more, kept + added, next, c, at);
  }

  lemma EarliestSame(expiry: map<Client, int>, more: map<Client, int>, clients: set<Client>, next: Option<int>,
      c: Client, at: int)
    requires EarliestOf(expiry, clients, next) && more == expiry[c := at] && (c in expiry ==> expiry[c] == at)
    ensures EarliestOf(more, clients + {c}, Some(Sooner(next, at)))
  {
    assert EarliestOf(more, clients, next);
    EarliestGrows(more, clients, next, c);
  }

  /** What the two loops leave is what an alarm makes of the object. */
  lemma AlarmEnds(o: Object, v: Object, over: set<Client>, kept: set<Client>, before: Option<int>, next: Option<int>,
      now: int, graceMs: int)
    requires Swept(o, v.subscriptions, v.records, now, o.expiry.Keys, over, before) && kept == o.expiry.Keys - over
    requires Given(o, v.expiry, kept, Fresh(o, Orphans(v.records, o.connections)), next, now + graceMs)
    ensures v.subscriptions == Without(o.subscriptions, Due(o, now)) && v.records == Forgotten(o.records, Due(o, now))
    ensures v.expiry - over == Remaining(o, now, graceMs)
    ensures next.None? <==> v.expiry - over == map[]
    ensures next.Some? ==> IsEarliest(v.expiry - over, next.value)
  {
    assert o.expiry.Keys * Due(o, now) == Due(o, now);
    RemainingIs(o, v, over, now, graceMs);
    LeftOver(o, v.expiry, over, kept, Fresh(o, Orphans(v.records, o.connections)), next, now + graceMs);
  }

  lemma RemainingIs(o: Object, v: Object, over: set<Client>, now: int, graceMs: int)
    requires over == set c <- o.expiry.Keys | c in o.connections || c in Due(o, now)
    requires v.records == Forgotten(o.records, Due(o, now))
    requires v.expiry == Each(Fresh(o, Orphans(v.records, o.connections)), now + graceMs) + o.expiry
    ensures v.expiry - over == Remaining(o, now, graceMs)
  {
    hide Orphans, Forgotten;
    assert forall c <- o.expiry :: c in over <==> c in o.connections || o.expiry[c] <= now;
  }

  lemma LeftOver(o: Object, expiry: map<Client, int>, over: set<Client>, kept: set<Client>, added: set<Client>,
      next: Option<int>, at: int)
    requires Given(o, expiry, kept, added, next, at) && kept == o.expiry.Keys - over && over <= o.expiry.Keys
    ensures next.None? <==> expiry - over == map[]
    ensures next.Some? ==> IsEarliest(expiry - over, next.value)
  {
    assert (expiry - over).Keys == kept + added;
    assert expiry - over == map[] <==> (expiry - over).Keys == {};
  }

  lemma RebuiltMore(records: set<(Client, Ref)>, record: (Client, Ref))
    ensures Rebuilt({}) == map[]
    ensures var before := Rebuilt(records);
            Rebuilt(records + {record}) == before[record.1 := Gateway.Subscribers(before, record.1) + {record.0}]
  {
    var before, after := Rebuilt(records), Rebuilt(records + {record});
    assert RecordedRefs(records + {record}) == RecordedRefs(records) + {record.1};
    assert RecordedClients(records + {record}) == RecordedClients(records) + {record.0};
    forall ref, c
      ensures (ref in after && c in after[ref]) <==>
          (ref in before && c in before[ref]) || (ref == record.1 && c == record.0)
    {
      RebuiltAre(records, ref, c);
      RebuiltAre(records + {record}, ref, c);
    }
    hide Rebuilt, RecordedClients;
    RebuiltKeys(records);
    RebuiltKeys(records + {record});
    hide RecordedRefs;
    assert after.Keys == before.Keys + {record.1};
    forall ref | ref in after
      ensures after[ref] == if ref == record.1 then Gateway.Subscribers(before, record.1) + {record.0} else before[ref]
    {
    }
  }

  lemma RebuiltKeys(records: set<(Client, Ref)>)
    ensures Rebuilt(records).Keys == RecordedRefs(records)
  {
  }

  lemma RebuiltAre(records: set<(Client, Ref)>, ref: Ref, c: Client)
    ensures (ref in Rebuilt(records) && c in Rebuilt(records)[ref]) <==> (c, ref) in records
  {
    if (c, ref) in records {
      assert (c, ref).1 in RecordedRefs(records) && (c, ref).0 in RecordedClients(records);
    }
  }

  /** No two open sockets carry one client's id. */
  predicate Distinct(links: map<Handle, Link>) {
    forall g, h :: g in links && h in links && links[g].id.Some? && links[g].id == links[h].id ==> g == h
  }

  /** The sockets of `seen` are wrapped: connected, and listing their client's refs. */
  ghost predicate Wrapped(o: Object, subscriptions: map<Ref, set<Client>>, connections: map<Client, Handle>,
      links: map<Handle, Link>, seen: set<Handle>) {
    && links.Keys == o.links.Keys && seen <= links.Keys
    && (forall h <- links :: links[h].id == o.links[h].id)
    && (forall h <- seen :: links[h].refs == if links[h].id.Some?
        then Gateway.RefsOf(subscriptions, links[h].id.value) else {})
    && (forall h <- seen :: links[h].id.Some? ==>
          links[h].id.value in connections && connections[links[h].id.value] == h)
    && (forall c <- connections :: connections[c] in seen && links[connections[c]].id == Some(c))
  }

  lemma WrappedMore(o: Object, subscriptions: map<Ref, set<Client>>, connections: map<Client, Handle>,
      links: map<Handle, Link>, seen: set<Handle>, h: Handle)
    requires Wrapped(o, subscriptions, connections, links, seen) && Distinct(o.links) && h in links && h !in seen
    ensures var refs := if links[h].id.Some? then Gateway.RefsOf(subscriptions, links[h].id.value) else {};
            Wrapped(o, subscriptions, if links[h].id.Some? then connections[links[h].id.value := h] else connections,
                    links[h := links[h].(refs := refs)], seen + {h})
  {
    hide Gateway.RefsOf;
  }

  lemma NoneWrapped(o: Object, subscriptions: map<Ref, set<Client>>)
    ensures Wrapped(o, subscriptions, map[], o.links, {})
  {
  }

  lemma AllWrapped(o: Object, v: Object)
    requires Wrapped(o, v.subscriptions, v.connections, v.links, v.links.Keys)
    ensures Wired(v) && v.links.Keys == o.links.Keys
    ensures forall h <- v.links :: v.links[h].id == o.links[h].id
              && v.links[h].refs == if v.links[h].id.Some? then Gateway.RefsOf(v.subscriptions, v.links[h].id.value)
                  else {}
  {
    hide Gateway.RefsOf;
  }

  lemma EachMore(expiry: map<Client, int>, clients: set<Client>, c: Client, at: int)
    ensures expiry + Each({}, at) == expiry
    ensures (expiry + Each(clients, at))[c := at] == expiry + Each(clients + {c}, at)
  {
  }

  /** Registering what is registered changes nothing. */
  lemma SameAgain(o: Object, ref: Ref, client: Client)
    requires Good(o) && client in o.connections
    ensures o.connections[client] in o.links
    ensures ref in o.links[o.connections[client]].refs ==> Registered(o, ref, client) == o
  {
    var h := o.connections[client];
    if ref in o.links[h].refs {
      assert ref in Gateway.RefsOf(o.subscriptions, client);
      assert (client, ref) in o.records;
      assert o.subscriptions[ref] + {client} == o.subscriptions[ref];
      assert o.links[h].refs + {ref} == o.links[h].refs;
      assert o.records + {(client, ref)} == o.records;
      assert o.subscriptions[ref := o.subscriptions[ref]] == o.subscriptions;
      assert o.links[h := o.links[h]] == o.links;
    }
  }

  /** Closing, case by case. */
  lemma ClosedIs(o: Object, h: Handle, now: int, graceMs: int)
    requires h in o.links
    ensures var Link(id, refs) := o.links[h];
            Closed(o, h, now, graceMs) ==
              if id.None? then o.(links := o.links - {h})
              else if refs == {} then Off(o, h, id.value)
              else if graceMs <= 0 then Detached(Off(o, h, id.value).(expiry := o.expiry - {id.value}), id.value, refs)
              else Off(o, h, id.value).(expiry := o.expiry[id.value := now + graceMs],
                  alarm := Armed(o.alarm, now + graceMs))
  {
    hide Detached, Armed;
  }

  class HibernatableWebsocketGateway {
    const graceMs: int
    var subscriptions: map<Ref, set<Client>>
    var connections: map<Client, Handle>
    var links: map<Handle, Link>
    var records: set<(Client, Ref)>
    var expiry: map<Client, int>
    var alarm: Option<int>

    ghost function Abs(): Object reads this {
      Object(subscriptions, connections, links, records, expiry, alarm)
    }

    ghost predicate Valid() reads this {
      Good(Abs())
    }

    constructor (grace: int)
      ensures Valid() && Abs() == FRESH && graceMs == grace
    {
      graceMs := grace;
      subscriptions, connections, links, records, expiry, alarm := map[], map[], map[], {}, map[], None;
    }

    method Arm(at: int)
      modifies this`alarm
      ensures alarm == Armed(old(alarm), at) && alarm.Some? && alarm.value <= at
      ensures old(alarm).Some? ==> alarm.value <= old(alarm).value
    {
      if alarm.Some? && alarm.value <= at {
        return;
      }
      alarm := Some(at);
    }

    /** Detach the absent clients whose window has passed; what is over, and the earliest that is not. */
    method Sweep(now: int, ghost o: Object) returns (over: set<Client>, next: Option<int>)
      requires Good(o) && Abs() == o.(alarm := alarm)
      modifies this`subscriptions, this`records
      ensures Swept(o, subscriptions, records, now, expiry.Keys, over, next)
    {
      hide Good, Swept, Gateway.RefsOf, Gateway.Left, Dropped, Due, Without, Forgotten, Parted;
      over, next := {}, None;
      var left := expiry.Keys;
      ghost var seen: set<Client> := {};
      SweepStarts(o, now);
      PartedStart(left);
      while left != {}
        invariant Parted(expiry.Keys, seen, left)
        invariant Swept(o, subscriptions, records, now, seen, over, next)
        decreases |left|
      {
        var client :| client in left;
        PartedOn(expiry.Keys, seen, left, client);
        SweepGoesOn(o, subscriptions, records, now, seen, over, next, client);
        var at := expiry[client];
        if client in connections {
          over := over + {client};
        } else if at > now {
          next := Some(Sooner(next, at));
        } else {
          var refs := Gateway.RefsOf(subscriptions, client);
          records := Dropped(records, client, refs);
          subscriptions := Gateway.Left(subscriptions, client, refs);
          over := over + {client};
        }
        left, seen := left - {client}, seen + {client};
      }
      PartedEnd(expiry.Keys, seen);
    }

    /** Give every orphan without an expiry one; `next` is the earliest of what stays. */
    method Watch(at: int, before: Option<int>, ghost o: Object, ghost kept: set<Client>) returns (next: Option<int>)
      requires expiry == o.expiry && EarliestOf(o.expiry, kept, before)
      modifies this`expiry
      ensures Given(o, expiry, kept, Fresh(o, Orphans(records, connections)), next, at)
    {
      hide Given, EarliestOf, Orphans, Fresh, Parted;
      next := before;
      var expiries, left := expiry, Orphans(records, connections);
      ghost var seen: set<Client> := {};
      GivenNone(o, kept, next, at);
      PartedStart(left);
      while left != {}
        invariant Parted(Orphans(records, connections), seen, left)
        invariant Given(o, expiry, kept, Fresh(o, seen), next, at)
        decreases |left|
      {
        var client :| client in left;
        PartedOn(Orphans(records, connections), seen, left, client);
        FreshGrows(o, seen, client);
        if client !in expiries {
          GivenMore(o, expiry, kept, Fresh(o, seen), next, at, client);
          expiry := expiry[client := at];
          next := Some(Sooner(next, at));
        }
        left, seen := left - {client}, seen + {client};
      }
      PartedEnd(Orphans(records, connections), seen);
    }

    /** The alarm fired: detach whose window has passed, watch the clients nobody watches, arm again. */
    method Alarm(now: int)
      requires Valid()
      modifies this`subscriptions, this`records, this`expiry, this`alarm
      ensures Valid() && Alarmed(old(Abs()), Abs(), now, graceMs)
    {
      ghost var o := Abs();
      hide Good, Swept, Given, EarliestOf, Due, Without, Forgotten, Remaining, Orphans, Fresh, IsEarliest;
      alarm := None;
      var over, before := Sweep(now, o);
      ghost var kept := expiry.Keys - over;
      SweptKept(o, subscriptions, records, now, expiry.Keys, over, before);
      var next := Watch(now + graceMs, before, o, kept);
      AlarmEnds(o, Abs(), over, kept, before, next, now, graceMs);
      expiry := expiry - over;
      if next.Some? {
        Arm(next.value);
      } else if subscriptions != map[] {
        Arm(now + SUBSCRIPTION_SWEEP_MS);
      }
      AlarmKeeps(o, Abs(), now, graceMs);
    }

    /** A new instance: read the records back, wrap the sockets that are open, watch whoever has none. */
    method Restore(now: int)
      requires subscriptions == map[] && connections == map[] && Distinct(links)
      modifies this
      ensures Valid() && Restored(old(Abs()), Abs(), now, graceMs)
    {
      ghost var o := Abs();
      hide Rebuilt, Wrapped, Parted, Gateway.RefsOf, Orphans, Each, Good, Distinct;
      RebuildRegistry();
      WrapSockets(o);
      var orphans := Orphans(records, connections);
      if orphans != {} {
        WatchAll(orphans, now + graceMs);
        Arm(now + graceMs);
      } else {
        EachMore(expiry, {}, "", now + graceMs);
      }
      AllWrapped(o, Abs());
      RestoreKeeps(o, Abs(), now, graceMs);
    }

    method RebuildRegistry()
      requires subscriptions == map[]
      modifies this`subscriptions
      ensures subscriptions == Rebuilt(records)
    {
      hide Rebuilt, Parted;
      var left := records;
      ghost var seen: set<(Client, Ref)> := {};
      RebuiltMore({}, ("", ""));
      PartedStart(left);
      while left != {}
        invariant Parted(records, seen, left) && subscriptions == Rebuilt(seen)
        decreases |left|
      {
        var record :| record in left;
        PartedOn(records, seen, left, record);
        RebuiltMore(seen, record);
        subscriptions := subscriptions[record.1 := Gateway.Subscribers(subscriptions, record.1) + {record.0}];
        left, seen := left - {record}, seen + {record};
      }
      PartedEnd(records, seen);
    }

    method WrapSockets(ghost o: Object)
      requires connections == map[] && links == o.links && Distinct(links)
      modifies this`connections, this`links
      ensures Wrapped(o, subscriptions, connections, links, links.Keys)
    {
      hide Parted, Gateway.RefsOf, Wrapped, Distinct;
      var left := links.Keys;
      ghost var seen: set<Handle> := {};
      PartedStart(left);
      NoneWrapped(o, subscriptions);
      while left != {}
        invariant Parted(o.links.Keys, seen, left) && Wrapped(o, subscriptions, connections, links, seen)
            && links.Keys == o.links.Keys
        decreases |left|
      {
        var h :| h in left;
        PartedOn(o.links.Keys, seen, left, h);
        WrappedMore(o, subscriptions, connections, links, seen, h);
        var id := links[h].id;
        if id.Some? {
          connections := connections[id.value := h];
          links := links[h := links[h].(refs := Gateway.RefsOf(subscriptions, id.value))];
        } else {
          links := links[h := links[h].(refs := {})];
        }
        left, seen := left - {h}, seen + {h};
      }
      PartedEnd(o.links.Keys, seen);
    }

    method WatchAll(orphans: set<Client>, at: int)
      modifies this`expiry
      ensures expiry == old(expiry) + Each(orphans, at)
    {
      hide Parted, Each;
      var left := orphans;
      ghost var seen: set<Client> := {};
      PartedStart(left);
      EachMore(expiry, {}, "", at);
      while left != {}
        invariant Parted(orphans, seen, left) && expiry == old(expiry) + Each(seen, at)
        decreases |left|
      {
        var client :| client in left;
        PartedOn(orphans, seen, left, client);
        EachMore(old(expiry), seen, client, at);
        expiry := expiry[client := at];
        left, seen := left - {client}, seen + {client};
      }
      PartedEnd(orphans, seen);
    }

    method OnStart(h: Handle, id: Client)
      requires Valid() && h in links && id !in connections
      modifies this
      ensures Valid() && Abs() == Started(old(Abs()), h, id)
    {
      StartKeeps(Abs(), h, id);
      if links[h].id.Some? {
        return;
      }
      connections := connections[id := h];
      expiry := expiry - {id};
      links := links[h := Link(Some(id), Gateway.RefsOf(subscriptions, id))];
    }

    /** Registers a subscription for a client connected here; its record goes to storage. */
    method Register(ref: Ref, client: Client) returns (accepted: bool)
      requires Valid()
      modifies this
      ensures Valid() && Abs() == Registered(old(Abs()), ref, client)
      ensures accepted <==> client in connections
    {
      RegisterKeeps(Abs(), ref, client);
      hide Gateway.RefsOf, Good;
      if client !in connections {
        return false;
      }
      SameAgain(Abs(), ref, client);
      var h := connections[client];
      if ref !in links[h].refs {
        subscriptions := subscriptions[ref := Gateway.Subscribers(subscriptions, ref) + {client}];
        links := links[h := links[h].(refs := links[h].refs + {ref})];
      }
      records := records + {(client, ref)};
      return true;
    }

    method OnClose(h: Handle, now: int)
      requires Valid() && h in links
      modifies this
      ensures Valid() && Abs() == Closed(old(Abs()), h, now, graceMs)
    {
      ghost var o := Abs();
      CloseKeeps(o, h, now, graceMs);
      ClosedIs(o, h, now, graceMs);
      hide *;
      var Link(id, refs) := links[h];
      if id.None? {
        Unlink(h);
      } else if refs == {} {
        Leave(h, id.value);
      } else if graceMs <= 0 {
        Leave(h, id.value);
        Cancel(id.value);
        Detach(id.value, refs);
      } else {
        Leave(h, id.value);
        Schedule(id.value, now + graceMs);
      }
      assert Abs() == Closed(o, h, now, graceMs);
    }

    method Unlink(h: Handle)
      modifies this`links
      ensures Abs() == old(Abs()).(links := old(links) - {h})
    {
      links := links - {h};
    }

    method Leave(h: Handle, client: Client)
      modifies this`links, this`connections
      ensures Abs() == Off(old(Abs()), h, client)
    {
      links, connections := links - {h}, connections - {client};
    }

    method Cancel(client: Client)
      modifies this`expiry
      ensures Abs() == old(Abs()).(expiry := old(expiry) - {client})
    {
      expiry := expiry - {client};
    }

    /** When the client's subscriptions expire. */
    method Schedule(client: Client, at: int)
      modifies this`expiry, this`alarm
      ensures Abs() == old(Abs()).(expiry := old(expiry)[client := at], alarm := Armed(old(alarm), at))
    {
      expiry := expiry[client := at];
      Arm(at);
    }

    /** The base gateway's `detach`, and the records of what it removed. */
    method Detach(client: Client, refs: set<Ref>)
      modifies this`subscriptions, this`links, this`records
      ensures Abs() == Detached(old(Abs()), client, refs)
    {
      subscriptions := Gateway.Left(subscriptions, client, refs);
      if client in connections && connections[client] in links {
        var h := connections[client];
        links := links[h := links[h].(refs := links[h].refs - refs)];
      }
      records := Dropped(records, client, refs);
    }
  }
}
