/**
 * Versioned delta sync of one scope: pages by version while writers keep committing, realtime
 * events beside them, and the `live` flag that decides whether an event may move `synced_at`.
 * packages/client/src/LivequerySync.ts and the ingest of packages/client/src/LivequeryClient.ts.
 */
module DeltaSync {
  import opened Wrappers
  import opened VersionedServer
  import Documents
  import Lists

  type Id = Documents.Id
  type Fields = Documents.Fields

  /** What the device holds of the scope. */
  datatype Device = Device(
    held: map<Id, Record>,
    /** Documents whose tombstone the device has ingested. */
    buried: set<Id>,
    syncedAt: int)

  /** Where the scope's catch-up stands. `readTop`: the server's newest version when the last page was read. */
  datatype Stage = Idle | Paging(since: int, cursor: Option<int>) | Read(readTop: int)

  datatype World = World(
    log: seq<Commit>,
    top: int,
    device: Device,
    live: bool,
    connected: bool,
    /** Realtime events published since the channel opened and not delivered yet. */
    queue: seq<Commit>,
    /** The server's newest version when the channel opened. */
    openTop: int,
    stage: Stage)

  // --- Ingesting ---

  /** One change through the single write path: older versions are ignored, tombstones delete. */
  function Ingested(device: Device, change: Commit, advance: bool): Device {
    var Commit(id, created, record) := change;
    var d := if advance then device.(syncedAt := Lists.Max(device.syncedAt, record.version)) else device;
    if id in d.held && record.version < d.held[id].version then d
    else if record.deleted then d.(held := d.held - {id}, buried := d.buried + {id})
    else if created || id in d.held then d.(held := d.held[id := record])
    else d
  }

  function IngestedAll(device: Device, changes: seq<Commit>, advance: bool): Device
    decreases |changes|
  {
    if changes == [] then device else IngestedAll(Ingested(device, changes[0], advance), changes[1..], advance)
  }

  /** The device has taken the document's record in: holds it, or buried it. */
  predicate Has(device: Device, id: Id, record: Record) {
    if record.deleted then id in device.buried else id in device.held && device.held[id] == record
  }

  /** Every document whose current version is at most `version` has been ingested at that version. */
  ghost predicate CoveredTo(device: Device, log: seq<Commit>, version: int) {
    forall id <- Replayed(log) :: Replayed(log)[id].version <= version ==> Has(device, id, Replayed(log)[id])
  }

  // --- Reading ---

  /** The changes of a delta read: current records above `low`, by version, tombstones included. */
  function Newer(log: seq<Commit>, docs: Docs, low: int): seq<Commit> {
    if log == [] then []
    else
      var last := log[|log| - 1];
      Newer(log[..|log| - 1], docs, low) +
      if last.record.version > low && last.id in docs
          && docs[last.id] == last.record then [last.(created := true)] else []
  }

  function Page(log: seq<Commit>, low: int, limit: nat): seq<Commit> {
    var newer := Newer(log, Replayed(log), low);
    if |newer| > limit then newer[..limit] else newer
  }

  predicate HasNext(log: seq<Commit>, low: int, limit: nat) {
    |Newer(log, Replayed(log), low)| > limit
  }

  // --- Steps ---

  /** A commit on the server, published on an open channel. */
  function Wrote(w: World, commit: Commit): World {
    w.(log := w.log + [commit], top := commit.record.version, queue := if w.connected then w.queue + [commit]
      else w.queue)
  }

  /** The transport drops: what was on its way is lost. */
  function Dropped(w: World): World {
    w.(connected := false, queue := [])
  }

  /** `reconnected`: realtime is closed and opened again, and may not move `synced_at`. */
  function Opened(w: World): World {
    w.(connected := true, queue := [], openTop := w.top, live := false)
  }

  /** The realtime query's first answer: one live document, never moving `synced_at`. */
  function FirstAnswer(w: World, id: Id): World {
    var docs := Replayed(w.log);
    if id in docs && !docs[id].deleted then w.(device := Ingested(w.device, Commit(id, true, docs[id]), false)) else w
  }

  function Delivered(w: World): World {
    if w.queue == [] then w
    else w.(device := Ingested(w.device, w.queue[0], w.live), queue := w.queue[1..])
  }

  /** A delta starts a little before the newest version held. */
  function Started(w: World, overlap: nat): World {
    w.(stage := Paging(w.device.syncedAt - overlap, None))
  }

  function Low(stage: Stage): int
    requires stage.Paging?
  {
    if stage.cursor.Some? then stage.cursor.value else stage.since - 1
  }

  /** One page read and ingested. */
  function PageTaken(w: World, limit: nat): World
    requires w.stage.Paging? && limit > 0
  {
    var page := Page(w.log, Low(w.stage), limit);
    w.(device := IngestedAll(w.device, page, true),
       stage := if HasNext(w.log, Low(w.stage), limit)
           then Paging(w.stage.since, Some(page[|page| - 1].record.version)) else Read(w.top))
  }

  /** The catch-up completes: from here on realtime may move `synced_at`. */
  function Finished(w: World): World {
    w.(live := true, stage := Idle)
  }

  function Failed(w: World): World { w.(stage := Idle) }

  datatype Step =
    | Write(commit: Commit)
    | Drop
    | Open
    | Answer(id: Id)
    | Deliver
    | Start(overlap: nat)
    | TakePage(limit: nat)
    | Finish
    | Fail

  predicate Enabled(w: World, step: Step) {
    match step
    case Write(commit) => commit.record.version > w.top && Follows(Replayed(w.log), commit)
    case Answer(_) => w.connected
    case Deliver => w.connected && w.queue != []
    case Start(_) => w.stage.Idle?
    case TakePage(limit) => w.stage.Paging? && limit > 0
    case Finish => w.stage.Read?
    case Fail => !w.stage.Idle?
    case _ => true
  }

  function Next(w: World, step: Step): World
    requires Enabled(w, step)
  {
    match step
    case Write(commit) => Wrote(w, commit)
    case Drop => Dropped(w)
    case Open => Opened(w)
    case Answer(id) => FirstAnswer(w, id)
    case Deliver => Delivered(w)
    case Start(overlap) => Started(w, overlap)
    case TakePage(limit) => PageTaken(w, limit)
    case Finish => Finished(w)
    case Fail => Failed(w)
  }

  // --- The invariant ---

  /** The device holds only what the server once held, and buries only what it deleted. */
  ghost predicate Truthful(device: Device, log: seq<Commit>) {
    && (forall id <- device.held ::
          && id in Replayed(log) && !device.held[id].deleted
          && device.held[id].version <= Replayed(log)[id].version
          && (device.held[id].version == Replayed(log)[id].version ==> device.held[id] == Replayed(log)[id]))
    && forall id <- device.buried :: id in Replayed(log) && Replayed(log)[id].deleted
  }

  ghost predicate QueueInOrder(w: World) {
    && (forall e <- w.queue :: e in w.log)
    && forall i, j :: 0 <= i < j < |w.queue| ==> w.queue[i].record.version < w.queue[j].record.version
  }

  ghost predicate HasOrComing(w: World, id: Id) {
    && id in Replayed(w.log)
    && (Has(w.device, id, Replayed(w.log)[id]) || exists e <- w.queue :: e.id == id && e.record == Replayed(w.log)[id])
  }

  ghost predicate HeldOrComing(w: World, created: Commit) {
    created.id in w.device.held || created in w.queue
      || (created.id in Replayed(w.log) && Replayed(w.log)[created.id].deleted)
  }

  /**
   * The channel carries everything the device lacks among what is newer than `from`, and every document it
   * never held.
   */
  ghost predicate Carries(w: World, from: int) {
    && (forall id <- Replayed(w.log) :: Replayed(w.log)[id].version > from ==> HasOrComing(w, id))
    && forall c <- w.log :: c.created ==> HeldOrComing(w, c)
  }

  /** Nothing was lost between the last page read and the channel opening. */
  predicate Continuous(w: World, readTop: int) {
    w.openTop <= readTop
  }

  ghost predicate Inv(w: World) {
    && Committed(w.log, w.top)
    && Truthful(w.device, w.log)
    && w.device.syncedAt <= w.top
    && CoveredTo(w.device, w.log, w.device.syncedAt)
    && QueueInOrder(w)
    && w.openTop <= w.top
    && (w.connected && w.live ==> CarriesAll(w))
    && (match w.stage
        case Idle => true
        case Paging(since, cursor) =>
          since <= w.device.syncedAt && (cursor.Some? ==>
            since <= cursor.value <= w.top && CoveredTo(w.device, w.log, cursor.value))
        case Read(readTop) =>
          && readTop <= w.top && CoveredTo(w.device, w.log, readTop)
          && (w.connected && Continuous(w, readTop) ==> Carries(w, readTop)))
  }

  /** The channel carries everything the device lacks. */
  ghost predicate CarriesAll(w: World) {
    && (forall id <- Replayed(w.log) :: HasOrComing(w, id))
    && forall c <- w.log :: c.created ==> HeldOrComing(w, c)
  }

  // --- What one ingest keeps and achieves ---

  /** `change` reports a record the server once committed. */
  ghost predicate Reported(log: seq<Commit>, change: Commit) {
    exists c <- log :: c.id == change.id && c.record == change.record
  }

  /** Ingesting loses nothing: what was taken in stays taken in, and live documents stay held. */
  ghost predicate Keeps(log: seq<Commit>, before: Device, after: Device) {
    && Truthful(after, log)
    && before.syncedAt <= after.syncedAt
    && forall id <- Replayed(log) ::
         && (Has(before, id, Replayed(log)[id]) ==> Has(after, id, Replayed(log)[id]))
         && (id in before.held && !Replayed(log)[id].deleted ==> id in after.held)
  }

  lemma IngestKeeps(device: Device, log: seq<Commit>, top: int, change: Commit, advance: bool)
    requires Committed(log, top) && Truthful(device, log) && Reported(log, change)
    ensures change.id in Replayed(log) && change.record.version <= top
    ensures Keeps(log, device, Ingested(device, change, advance))
    ensures
      change.record == Replayed(log)[change.id] && (change.created || change.id in device.held
        || change.record.deleted) ==>
        Has(Ingested(device, change, advance), change.id, change.record)
    ensures change.created && !Replayed(log)[change.id].deleted ==> change.id in Ingested(device, change, advance).held
  {
    hide Committed, Replayed;
    var c :| c in log && c.id == change.id && c.record == change.record;
    CurrentIsNewest(log, top, c);
  }

  /** A change moves `synced_at` up to its version, where it may move it at all, and never back. */
  lemma IngestMoves(device: Device, change: Commit, advance: bool)
    ensures var moved := Ingested(device, change, advance).syncedAt;
            && device.syncedAt <= moved && (advance ==> change.record.version <= moved)
            && (moved == device.syncedAt || (advance && moved == change.record.version))
  {
  }

  lemma {:induction false} IngestAllMoves(device: Device, changes: seq<Commit>)
    ensures device.syncedAt <= IngestedAll(device, changes, true).syncedAt
    ensures forall c <- changes :: c.record.version <= IngestedAll(device, changes, true).syncedAt
    decreases |changes|
  {
    if changes != [] {
      IngestMoves(device, changes[0], true);
      IngestAllMoves(Ingested(device, changes[0], true), changes[1..]);
      assert changes == [changes[0]] + changes[1..];
      hide Ingested;
    }
  }

  ghost predicate AllCurrent(log: seq<Commit>, changes: seq<Commit>) {
    forall c <- changes :: Reported(log, c) && c.created && c.id in Replayed(log) && c.record == Replayed(log)[c.id]
  }

  lemma {:induction false} IngestAllKeeps(device: Device, log: seq<Commit>, top: int, changes: seq<Commit>,
      advance: bool)
    requires Committed(log, top) && Truthful(device, log) && AllCurrent(log, changes)
    ensures var d := IngestedAll(device, changes, advance);
            && Keeps(log, device, d)
            && (forall c <- changes :: Has(d, c.id, c.record))
            && (d.syncedAt == device.syncedAt || exists c <- changes :: d.syncedAt == c.record.version)
    decreases |changes|
  {
    if changes != [] {
      var c, d := changes[0], Ingested(device, changes[0], advance);
      IngestKeeps(device, log, top, c, advance);
      IngestAllKeeps(d, log, top, changes[1..], advance);
      assert changes == [c] + changes[1..];
    }
  }

  // --- What a page holds ---

  lemma {:induction false} NewerIsCurrent(log: seq<Commit>, docs: Docs, low: int)
    ensures forall c <- Newer(log, docs, low) ::
              && Reported(log, c) && c.created && c.id in docs && c.record == docs[c.id] && c.record.version > low
    ensures forall c <- log :: c.record.version > low && c.id in docs && docs[c.id] == c.record ==>
        c.(created := true) in Newer(log, docs, low)
    decreases |log|
  {
    if log != [] {
      var init, last := log[..|log| - 1], log[|log| - 1];
      assert log == init + [last];
      NewerIsCurrent(init, docs, low);
      forall c | c in Newer(log, docs, low)
        ensures Reported(log, c)
      {
        if c in Newer(init, docs, low) {
          assert Reported(init, c);
          var r :| r in init && r.id == c.id && r.record == c.record;
          assert r in log;
        } else {
          assert last in log;
        }
      }
    }
  }

  lemma {:induction false} NewerInOrder(log: seq<Commit>, top: int, docs: Docs, low: int)
    requires Committed(log, top)
    ensures forall i, j :: 0 <= i < j < |Newer(log, docs, low)| ==>
        Newer(log, docs, low)[i].record.version < Newer(log, docs, low)[j].record.version
    ensures forall c <- Newer(log, docs, low) :: c.record.version <= top
    decreases |log|
  {
    if log != [] {
      var last := log[|log| - 1];
      NewerInOrder(log[..|log| - 1], last.record.version - 1, docs, low);
    }
  }

  /** Where a page ends: its last version, or the newest there is when nothing follows it. */
  function PageEnd(log: seq<Commit>, top: int, low: int, limit: nat): int
    requires limit > 0
  {
    if HasNext(log, low, limit) then Page(log, low, limit)[limit - 1].record.version else top
  }

  lemma AllRead(log: seq<Commit>, top: int, low: int)
    requires Committed(log, top)
    ensures forall id <- Replayed(log) :: Replayed(log)[id].version > low ==>
              Commit(id, true, Replayed(log)[id]) in Newer(log, Replayed(log), low)
  {
    hide Committed, Newer, Replayed;
    NewerIsCurrent(log, Replayed(log), low);
    forall id | id in Replayed(log) && Replayed(log)[id].version > low
      ensures Commit(id, true, Replayed(log)[id]) in Newer(log, Replayed(log), low)
    {
      CurrentWasCommitted(log, top, id);
      var c :| c in log && c.id == id && c.record == Replayed(log)[id];
      assert c.(created := true) == Commit(id, true, Replayed(log)[id]);
    }
  }

  lemma PageIsPrefix(log: seq<Commit>, top: int, low: int, limit: nat)
    requires Committed(log, top) && limit > 0
    ensures AllCurrent(log, Page(log, low, limit))
    ensures HasNext(log, low, limit) ==> low < PageEnd(log, top, low, limit) <= top && |Page(log, low, limit)| == limit
    ensures forall c <- Page(log, low, limit) :: low < c.record.version <= PageEnd(log, top, low, limit)
    ensures forall id <- Replayed(log) :: low < Replayed(log)[id].version <= PageEnd(log, top, low, limit)
              ==> Commit(id, true, Replayed(log)[id]) in Page(log, low, limit)
  {
    hide Committed, Replayed, Newer, Reported;
    var docs, page := Replayed(log), Page(log, low, limit);
    var newer := Newer(log, docs, low);
    NewerIsCurrent(log, docs, low);
    NewerInOrder(log, top, docs, low);
    assert forall c <- page :: c in newer;
    forall id | id in docs && low < docs[id].version <= PageEnd(log, top, low, limit)
      ensures Commit(id, true, docs[id]) in page
    {
      AllRead(log, top, low);
      var k :| 0 <= k < |newer| && newer[k] == Commit(id, true, docs[id]);
      assert page[k] == newer[k];
    }
  }

  /** A page covers everything up to its end, the last page everything there is. */
  lemma PageCovers(device: Device, log: seq<Commit>, top: int, low: int, limit: nat)
    requires Committed(log, top) && Truthful(device, log) && CoveredTo(device, log, low) && limit > 0
    ensures var d, end := IngestedAll(device, Page(log, low, limit), true), PageEnd(log, top, low, limit);
            && Keeps(log, device, d)
            && CoveredTo(d, log, end)
            && d.syncedAt <= Lists.Max(device.syncedAt, end)
            && (HasNext(log, low, limit) ==> low < end <= top && |Page(log, low, limit)| == limit)
  {
    hide Page, PageEnd, HasNext, Reported, Truthful, Committed;
    PageIsPrefix(log, top, low, limit);
    IngestAllKeeps(device, log, top, Page(log, low, limit), true);
    var docs, d := Replayed(log), IngestedAll(device, Page(log, low, limit), true);
    forall id | id in docs && docs[id].version <= PageEnd(log, top, low, limit)
      ensures Has(d, id, docs[id])
    {
      if docs[id].version > low {
        assert Commit(id, true, docs[id]) in Page(log, low, limit);
      }
    }
  }

  // --- Every step keeps the invariant ---

  lemma WriteChanges(log: seq<Commit>, top: int, commit: Commit)
    requires Committed(log, top) && commit.record.version > top && Follows(Replayed(log), commit)
    ensures Committed(log + [commit], commit.record.version)
    ensures Replayed(log + [commit]) == Replayed(log)[commit.id := commit.record]
    ensures forall c <- log :: c.record.version <= top
    ensures forall id <- Replayed(log) :: Replayed(log)[id].version <= top
  {
    assert (log + [commit])[..|log|] == log;
    CommittedBelow(log, top, commit.record.version - 1);
    forall c | c in log
      ensures c.record.version <= top
    {
      CurrentIsNewest(log, top, c);
    }
    forall id | id in Replayed(log)
      ensures Replayed(log)[id].version <= top
    {
      CurrentWasCommitted(log, top, id);
    }
  }

  lemma WriteCarries(w: World, commit: Commit, from: int)
    requires Committed(w.log, w.top) && Enabled(w, Write(commit)) && w.connected
    ensures Carries(w, from) ==> Carries(Wrote(w, commit), from)
    ensures CarriesAll(w) ==> CarriesAll(Wrote(w, commit))
  {
    hide Committed, Replayed, Has;
    WriteChanges(w.log, w.top, commit);
    var next := Wrote(w, commit);
    assert commit in next.queue && forall e <- w.queue :: e in next.queue;
    forall id | id in Replayed(next.log) && (id == commit.id || HasOrComing(w, id))
      ensures HasOrComing(next, id)
    {
    }
    forall c | c in next.log && (c == commit || HeldOrComing(w, c))
      ensures HeldOrComing(next, c)
    {
    }
  }

  lemma WriteTruthful(device: Device, log: seq<Commit>, top: int, commit: Commit)
    requires Committed(log, top) && commit.record.version > top && Follows(Replayed(log), commit)
        && Truthful(device, log)
    ensures Truthful(device, log + [commit])
  {
    hide Committed, Replayed;
    WriteChanges(log, top, commit);
  }

  lemma WriteCovered(device: Device, log: seq<Commit>, top: int, commit: Commit, version: int)
    requires Committed(log, top) && commit.record.version > top && Follows(Replayed(log), commit)
    requires version <= top && CoveredTo(device, log, version)
    ensures CoveredTo(device, log + [commit], version)
  {
    hide Committed, Replayed, Has;
    WriteChanges(log, top, commit);
  }

  lemma WriteKeeps(w: World, commit: Commit)
    requires Inv(w) && Enabled(w, Write(commit))
    ensures Inv(Wrote(w, commit))
  {
    hide Committed, Replayed, Has, Carries, CarriesAll, Truthful, CoveredTo;
    var next := Wrote(w, commit);
    WriteChanges(w.log, w.top, commit);
    WriteTruthful(w.device, w.log, w.top, commit);
    WriteCovered(w.device, w.log, w.top, commit, w.device.syncedAt);
    if w.connected {
      WriteCarries(w, commit, if w.stage.Read? then w.stage.readTop else 0);
    }
    match w.stage {
      case Idle =>
      case Paging(_, cursor) =>
        if cursor.Some? {
          WriteCovered(w.device, w.log, w.top, commit, cursor.value);
        }
      case Read(readTop) =>
        WriteCovered(w.device, w.log, w.top, commit, readTop);
    }
  }

  /** Another device state over the same log: what it keeps of each clause. */
  lemma KeepsClauses(w: World, device: Device, from: int)
    requires Committed(w.log, w.top) && Keeps(w.log, w.device, device)
    ensures CoveredTo(w.device, w.log, from) ==> CoveredTo(device, w.log, from)
    ensures Carries(w, from) ==> Carries(w.(device := device), from)
    ensures CarriesAll(w) ==> CarriesAll(w.(device := device))
  {
    hide Committed, Replayed, Has;
    var next := w.(device := device);
    forall id | id in Replayed(w.log) && HasOrComing(w, id)
      ensures HasOrComing(next, id)
    {
    }
    forall c | c in w.log && HeldOrComing(w, c)
      ensures HeldOrComing(next, c)
    {
      CurrentIsNewest(w.log, w.top, c);
    }
  }

  lemma KeepsTruthful(log: seq<Commit>, before: Device, after: Device)
    requires Keeps(log, before, after)
    ensures Truthful(after, log)
  {
  }

  lemma AnswerKeeps(w: World, id: Id)
    requires Inv(w)
    ensures Inv(FirstAnswer(w, id))
  {
    hide Committed, Replayed, Has, Carries, CarriesAll, Truthful, CoveredTo;
    var docs := Replayed(w.log);
    if id in docs && !docs[id].deleted {
      CurrentWasCommitted(w.log, w.top, id);
      var device := Ingested(w.device, Commit(id, true, docs[id]), false);
      IngestKeeps(w.device, w.log, w.top, Commit(id, true, docs[id]), false);
      KeepsTruthful(w.log, w.device, device);
      KeepsClauses(w, device, w.device.syncedAt);
      match w.stage {
        case Idle =>
        case Paging(_, cursor) => KeepsClauses(w, device, if cursor.Some? then cursor.value else 0);
        case Read(readTop) => KeepsClauses(w, device, readTop);
      }
    }
  }

  /** The answer shows a live document as the server has it, and moves nothing. */
  lemma AnswerShows(w: World, id: Id)
    requires Inv(w) && id in Replayed(w.log) && !Replayed(w.log)[id].deleted
    ensures Has(FirstAnswer(w, id).device, id, Replayed(w.log)[id])
    ensures FirstAnswer(w, id).device.syncedAt == w.device.syncedAt
  {
    CurrentWasCommitted(w.log, w.top, id);
    IngestKeeps(w.device, w.log, w.top, Commit(id, true, Replayed(w.log)[id]), false);
    IngestMoves(w.device, Commit(id, true, Replayed(w.log)[id]), false);
    hide Committed, Replayed, Ingested;
  }

  // --- Deliveries ---

  lemma {:induction false} CreatedFirst(log: seq<Commit>, top: int, created: Commit, other: Commit)
    requires Committed(log, top) && created in log && other in log && created.created && created.id == other.id
    ensures created == other || created.record.version < other.record.version
    decreases |log|
  {
    var init, last := log[..|log| - 1], log[|log| - 1];
    assert log == init + [last];
    if created in init && other in init {
      CreatedFirst(init, last.record.version - 1, created, other);
    } else if created in init {
      CurrentIsNewest(init, last.record.version - 1, created);
    } else if other in init {
      CurrentIsNewest(init, last.record.version - 1, other);
    }
  }

  /** When the channel carries what was never held, the first event always finds its document. */
  lemma HeadIsStored(w: World)
    requires Committed(w.log, w.top) && QueueInOrder(w) && w.queue != []
    requires forall c <- w.log :: c.created ==> HeldOrComing(w, c)
    ensures w.queue[0].created || w.queue[0].id in w.device.held
        || (w.queue[0].id in Replayed(w.log) && Replayed(w.log)[w.queue[0].id].deleted)
  {
    hide Committed, Replayed, Has;
    var head := w.queue[0];
    assert head in w.queue;
    CurrentIsNewest(w.log, w.top, head);
    CurrentWasCommitted(w.log, w.top, head.id);
    var c :| c in w.log && c.id == head.id && c.created;
    assert HeldOrComing(w, c);
    CreatedFirst(w.log, w.top, c, head);
  }

  lemma DeliverCarries(w: World, from: int)
    requires Committed(w.log, w.top) && Truthful(w.device, w.log) && QueueInOrder(w) && w.queue != []
    requires forall c <- w.log :: c.created ==> HeldOrComing(w, c)
    ensures Carries(w, from) ==> Carries(Delivered(w), from)
    ensures CarriesAll(w) ==> CarriesAll(Delivered(w))
  {
    hide Committed, Replayed, Truthful;
    var head, next := w.queue[0], Delivered(w);
    assert head in w.queue && w.queue == [head] + w.queue[1..];
    IngestKeeps(w.device, w.log, w.top, head, w.live);
    HeadIsStored(w);
    forall id | id in Replayed(w.log) && HasOrComing(w, id)
      ensures HasOrComing(next, id)
    {
    }
    forall c | c in w.log && HeldOrComing(w, c)
      ensures HeldOrComing(next, c)
    {
      CurrentIsNewest(w.log, w.top, c);
    }
  }

  lemma DeliverKeeps(w: World)
    requires Inv(w) && Enabled(w, Deliver)
    ensures Inv(Delivered(w))
  {
    hide Committed, Replayed, Has, Truthful, CoveredTo, HasOrComing, HeldOrComing;
    var head, next := w.queue[0], Delivered(w);
    assert head in w.queue;
    IngestKeeps(w.device, w.log, w.top, head, w.live);
    KeepsTruthful(w.log, w.device, next.device);
    KeepsClauses(w, next.device, w.device.syncedAt);
    DeliverQueue(w);
    if w.live {
      DeliverCarries(w, 0);
      DeliverCovers(w);
    }
    match w.stage {
      case Idle =>
      case Paging(_, cursor) => KeepsClauses(w, next.device, if cursor.Some? then cursor.value else 0);
      case Read(readTop) =>
        KeepsClauses(w, next.device, readTop);
        if Continuous(w, readTop) {
          DeliverCarries(w, readTop);
        }
    }
  }

  lemma DeliverQueue(w: World)
    requires QueueInOrder(w) && w.queue != []
    ensures QueueInOrder(Delivered(w))
    ensures Delivered(w).queue == w.queue[1..]
  {
    hide Committed, Replayed;
  }

  /** While live, moving `synced_at` to an event's version passes nothing the device lacks. */
  lemma DeliverCovers(w: World)
    requires Committed(w.log, w.top) && Truthful(w.device, w.log) && QueueInOrder(w) && w.queue != []
    requires CarriesAll(w) && CoveredTo(w.device, w.log, w.device.syncedAt)
    ensures CoveredTo(Delivered(w).device, w.log, Delivered(w).device.syncedAt)
  {
    hide Committed, Replayed, Truthful;
    var head, next := w.queue[0], Delivered(w);
    assert head in w.queue;
    IngestKeeps(w.device, w.log, w.top, head, w.live);
    HeadIsStored(w);
    forall id | id in Replayed(w.log) && Replayed(w.log)[id].version <= next.device.syncedAt
      ensures Has(next.device, id, Replayed(w.log)[id])
    {
      assert HasOrComing(w, id);
      if !Has(w.device, id, Replayed(w.log)[id]) {
        var e :| e in w.queue && e.id == id && e.record == Replayed(w.log)[id];
        var k :| 0 <= k < |w.queue| && w.queue[k] == e;
        assert head.record.version <= e.record.version;
        if k > 0 {
          assert head.record.version < w.queue[k].record.version;
        }
      }
    }
  }

  // --- Catch-ups ---

  lemma PageKeeps(w: World, limit: nat)
    requires Inv(w) && Enabled(w, TakePage(limit))
    ensures Inv(PageTaken(w, limit))
  {
    hide Committed, Replayed, Has, Truthful, CoveredTo, Page, HasNext, IngestedAll, Keeps;
    var low, next := Low(w.stage), PageTaken(w, limit);
    LowCovered(w);
    PageCovers(w.device, w.log, w.top, low, limit);
    KeepsTruthful(w.log, w.device, next.device);
    KeepsClauses(w, next.device, w.device.syncedAt);
    PageSynced(w, limit);
    if next.stage.Read? {
      AllHeld(next);
    }
  }

  lemma LowCovered(w: World)
    requires Inv(w) && w.stage.Paging?
    ensures CoveredTo(w.device, w.log, Low(w.stage)) && Low(w.stage) <= w.top
  {
    hide Committed, Replayed, Has, Truthful, CarriesAll;
  }

  lemma PageSynced(w: World, limit: nat)
    requires Inv(w) && w.stage.Paging? && limit > 0
    ensures var d := PageTaken(w, limit).device;
            w.device.syncedAt <= d.syncedAt <= w.top && CoveredTo(d, w.log, d.syncedAt)
  {
    hide Committed, Replayed, Has, Truthful, CarriesAll, Page, HasNext, IngestedAll;
    LowCovered(w);
    PageCovers(w.device, w.log, w.top, Low(w.stage), limit);
    KeepsClauses(w, PageTaken(w, limit).device, w.device.syncedAt);
  }

  lemma AllHeld(w: World)
    requires Committed(w.log, w.top) && CoveredTo(w.device, w.log, w.top)
    ensures Carries(w, w.top)
  {
    hide Committed, Replayed;
    forall id | id in Replayed(w.log)
      ensures Replayed(w.log)[id].version <= w.top && Has(w.device, id, Replayed(w.log)[id])
    {
      CurrentWasCommitted(w.log, w.top, id);
      var c :| c in w.log && c.id == id && c.record == Replayed(w.log)[id];
      CurrentIsNewest(w.log, w.top, c);
    }
    forall c | c in w.log && c.created
      ensures HeldOrComing(w, c)
    {
      CurrentIsNewest(w.log, w.top, c);
    }
  }

  /** A catch-up may complete: while the channel is open, it carries everything the device lacks. */
  ghost predicate Complete(w: World) {
    w.connected ==> CarriesAll(w)
  }

  /** So it may on a channel opened before the last page was read. */
  lemma ContinuousIsComplete(w: World)
    requires Inv(w) && w.stage.Read? && Continuous(w, w.stage.readTop)
    ensures Complete(w)
  {
    hide Committed, Has, Truthful;
    if w.connected {
      forall id | id in Replayed(w.log)
        ensures HasOrComing(w, id)
      {
        assert Replayed(w.log)[id].version > w.stage.readTop ==> HasOrComing(w, id);
      }
    }
  }

  lemma FinishKeeps(w: World)
    requires Inv(w) && Enabled(w, Finish) && Complete(w)
    ensures Inv(Finished(w))
  {
    hide Committed, Has, Truthful;
    if w.connected {
      forall id | id in Replayed(w.log)
        ensures HasOrComing(Finished(w), id)
      {
        assert HasOrComing(w, id);
      }
      forall c | c in w.log && c.created
        ensures HeldOrComing(Finished(w), c)
      {
        assert HeldOrComing(w, c);
      }
    }
  }

  lemma StepKeeps(w: World, step: Step)
    requires Inv(w) && Enabled(w, step)
    requires step.Finish? ==> Complete(w)
    ensures Inv(Next(w, step))
  {
    hide Committed, Replayed, Has, Truthful, Wrote, Delivered, PageTaken, Finished, FirstAnswer;
    match step {
      case Write(commit) => WriteKeeps(w, commit);
      case Answer(id) => AnswerKeeps(w, id);
      case Deliver => DeliverKeeps(w);
      case TakePage(limit) => PageKeeps(w, limit);
      case Finish => FinishKeeps(w);
      case Open => OpenKeeps(w);
      case _ =>
    }
  }

  lemma OpenKeeps(w: World)
    requires Inv(w)
    ensures Inv(Opened(w))
  {
    hide Committed, Replayed, Has, Truthful, CoveredTo;
    if w.stage.Read? && w.stage.readTop == w.top {
      AllHeld(Opened(w));
    }
  }

  // --- Over whole runs ---

  /** Worlds linked by steps, where a catch-up completes only when the channel carries what the device lacks. */
  ghost predicate Run(worlds: seq<World>, steps: seq<Step>) {
    && |worlds| == |steps| + 1
    && forall i :: 0 <= i < |steps| ==>
         && Enabled(worlds[i], steps[i])
         && (steps[i].Finish? ==> Complete(worlds[i]))
         && worlds[i + 1] == Next(worlds[i], steps[i])
  }

  /** No step delivers the creation of a document the device already knows is deleted. */
  predicate NothingResurrected(worlds: seq<World>, steps: seq<Step>)
    requires |worlds| == |steps| + 1
  {
    forall i :: 0 <= i < |steps| && steps[i].Deliver? && worlds[i].queue != [] ==>
      !Resurrects(worlds[i].device, worlds[i].queue[0])
  }

  /** What the server deleted up to `version` is off the device. */
  ghost predicate GoneTo(device: Device, log: seq<Commit>, version: int) {
    forall id <- Replayed(log) :: Replayed(log)[id].deleted && Replayed(log)[id].version <= version ==>
        id !in device.held
  }

  /**
   * `synced_at` never passes a change the device has not ingested, in any run of writes, deliveries, drops,
   * reconnects and deltas; and while nothing is resurrected, what was deleted up to it is off the device.
   */
  lemma {:induction false} SyncedAtNeverOvertakes(worlds: seq<World>, steps: seq<Step>, i: nat)
    requires Run(worlds, steps) && Inv(worlds[0]) && i < |worlds|
    ensures Inv(worlds[i])
    ensures CoveredTo(worlds[i].device, worlds[i].log, worlds[i].device.syncedAt)
    ensures BuriedGone(worlds[0].device) && NothingResurrected(worlds, steps) ==>
              && BuriedGone(worlds[i].device)
              && GoneTo(worlds[i].device, worlds[i].log, worlds[i].device.syncedAt)
    decreases i
  {
    hide Enabled, Next, Committed, Replayed;
    if i > 0 {
      SyncedAtNeverOvertakes(worlds, steps, i - 1);
      StepKeeps(worlds[i - 1], steps[i - 1]);
      if BuriedGone(worlds[0].device) && NothingResurrected(worlds, steps) {
        assert steps[i - 1].Deliver? ==> worlds[i - 1].queue != [] by { Delivering(worlds[i - 1], steps[i - 1]); }
        StepBuried(worlds[i - 1], steps[i - 1]);
      }
    }
    if BuriedGone(worlds[i].device) {
      CoveredIsGone(worlds[i].device, worlds[i].log, worlds[i].device.syncedAt);
    }
  }

  lemma Delivering(w: World, step: Step)
    requires Enabled(w, step)
    ensures step.Deliver? ==> w.queue != []
  {
  }

  lemma CoveredIsGone(device: Device, log: seq<Commit>, version: int)
    requires CoveredTo(device, log, version) && BuriedGone(device)
    ensures GoneTo(device, log, version)
  {
    hide Replayed;
  }

  /** A scope that holds everything and opens its channel starts out well. */
  lemma FreshScope(log: seq<Commit>, top: int, device: Device)
    requires Committed(log, top) && Truthful(device, log) && device.syncedAt <= top
        && CoveredTo(device, log, device.syncedAt)
    ensures Inv(World(log, top, device, false, false, [], top, Idle))
  {
  }

  // --- When a catch-up may complete, exactly ---

  /** Steps after which the channel is still the one it was. */
  ghost predicate Continues(w: World, steps: seq<Step>, v: World)
    decreases |steps|
  {
    if steps == [] then w == v
    else !steps[0].Drop? && !steps[0].Open? && Enabled(w, steps[0]) && Continues(Next(w, steps[0]), steps[1..], v)
  }

  /** Until the channel drops or is reopened, `synced_at` passes nothing the device lacks. */
  ghost predicate StaysCovered(w: World) {
    forall steps, v :: Continues(w, steps, v) ==> CoveredTo(v.device, v.log, v.device.syncedAt)
  }

  lemma {:induction false} CarriedStaysCovered(w: World, steps: seq<Step>, v: World)
    requires Inv(w) && w.connected && w.live && Continues(w, steps, v)
    ensures CoveredTo(v.device, v.log, v.device.syncedAt)
    decreases |steps|
  {
    hide Committed, Replayed, Has, Truthful, CoveredTo, CarriesAll, Carries;
    if steps != [] {
      StepKeeps(w, steps[0]);
      CarriedStaysCovered(Next(w, steps[0]), steps[1..], v);
    }
  }

  /** Nothing on the channel brings the document's current record to the device. */
  ghost predicate Lost(w: World, id: Id) {
    && id in Replayed(w.log)
    && var current := Replayed(w.log)[id];
    || (!Has(w.device, id, current) && forall e <- w.queue :: e.id == id ==> e.record != current)
    || (!current.deleted && id !in w.device.held && forall e <- w.queue :: e.id == id ==> !e.created)
  }

  lemma SomethingLost(w: World) returns (id: Id)
    requires Inv(w) && !CarriesAll(w)
    ensures Lost(w, id)
  {
    hide Committed, Truthful, Carries, CoveredTo;
    if !(forall id <- Replayed(w.log) :: HasOrComing(w, id)) {
      id :| id in Replayed(w.log) && !HasOrComing(w, id);
    } else {
      var c :| c in w.log && c.created && !HeldOrComing(w, c);
      CurrentIsNewest(w.log, w.top, c);
      id := c.id;
      forall e | e in w.queue && e.id == id
        ensures !e.created
      {
        if e.created {
          CreatedFirst(w.log, w.top, c, e);
          CreatedFirst(w.log, w.top, e, c);
        }
      }
    }
  }

  /** Delivering everything on the channel. */
  lemma {:induction false} DeliverAll(w: World, id: Id) returns (steps: seq<Step>, v: World)
    requires Committed(w.log, w.top) && QueueInOrder(w) && w.connected && w.live && Lost(w, id)
    ensures Continues(w, steps, v) && Lost(v, id) && v.log == w.log
    ensures w.device.syncedAt <= v.device.syncedAt
    ensures forall e <- w.queue :: e.record.version <= v.device.syncedAt
    decreases |w.queue|
  {
    hide Committed, Replayed, Has;
    if w.queue == [] {
      return [], w;
    }
    var head, next := w.queue[0], Delivered(w);
    LostStays(w, id);
    DeliverQueue(w);
    var rest;
    rest, v := DeliverAll(next, id);
    steps := [Deliver] + rest;
    assert steps[1..] == rest && w.queue == [head] + w.queue[1..];
  }

  lemma LostStays(w: World, id: Id)
    requires Committed(w.log, w.top) && QueueInOrder(w) && Lost(w, id) && w.queue != []
    ensures Lost(Delivered(w), id)
  {
    hide Committed, Replayed;
    var head := w.queue[0];
    assert head in w.queue && forall e <- w.queue[1..] :: e in w.queue;
    CurrentIsNewest(w.log, w.top, head);
  }

  /** One more document is written: what was lost is lost still. */
  lemma LostBesides(w: World, id: Id, commit: Commit)
    requires Committed(w.log, w.top) && Lost(w, id) && Enabled(w, Write(commit)) && commit.id !in Replayed(w.log)
    ensures Lost(Wrote(w, commit), id) && Replayed(Wrote(w, commit).log)[id] == Replayed(w.log)[id]
  {
    hide Committed, Replayed, Has;
    WriteChanges(w.log, w.top, commit);
  }

  /** What is lost is overtaken by the next document written and delivered. */
  lemma LostIsOvertaken(w: World, id: Id) returns (steps: seq<Step>, v: World)
    requires Committed(w.log, w.top) && QueueInOrder(w) && w.connected && w.live && Lost(w, id)
    ensures Continues(w, steps, v) && !CoveredTo(v.device, v.log, v.device.syncedAt)
  {
    hide Committed, Replayed, Has, Carries, CarriesAll, CoveredTo, Truthful;
    var name := Documents.NewName(Replayed(w.log).Keys);
    var commit := Commit(name, true, Record(w.top + 1, false, map[]));
    var next := Wrote(w, commit);
    WriteChanges(w.log, w.top, commit);
    LostBesides(w, id, commit);
    assert QueueInOrder(next) by { WroteInOrder(w, commit); }
    var rest;
    rest, v := DeliverAll(next, id);
    steps := [Write(commit)] + rest;
    assert steps[1..] == rest && commit in next.queue;
    LostUncovered(v, id);
  }

  lemma WroteInOrder(w: World, commit: Commit)
    requires Committed(w.log, w.top) && QueueInOrder(w) && commit.record.version > w.top
    ensures QueueInOrder(Wrote(w, commit))
  {
    forall e | e in w.queue
      ensures e.record.version <= w.top
    {
      CurrentIsNewest(w.log, w.top, e);
    }
    hide Committed;
  }

  lemma LostUncovered(w: World, id: Id)
    requires Lost(w, id) && Replayed(w.log)[id].version <= w.device.syncedAt
    ensures !CoveredTo(w.device, w.log, w.device.syncedAt)
  {
    hide Replayed;
    assert !Has(w.device, id, Replayed(w.log)[id]);
  }

  /**
   * Completing a catch-up on an open channel is safe, whatever follows until the channel drops or is reopened,
   * if and only if the channel carries everything the device lacks.
   */
  lemma CompletionIsSafe(w: World)
    requires Inv(w) && w.connected && w.stage.Read?
    ensures StaysCovered(Finished(w)) <==> CarriesAll(w)
  {
    if CarriesAll(w) {
      FinishKeeps(w);
      forall steps, v | Continues(Finished(w), steps, v)
        ensures CoveredTo(v.device, v.log, v.device.syncedAt)
      {
        CarriedStaysCovered(Finished(w), steps, v);
      }
    } else {
      var id := SomethingLost(w);
      assert Lost(Finished(w), id);
      hide Continues, CarriesAll, CoveredTo, Replayed, Has, Committed, Lost;
      var steps, v := LostIsOvertaken(Finished(w), id);
    }
  }

  /**
   * Reconnecting while a catch-up is past its last page, after anything was committed in between: the change is
   * neither on the channel nor on the device, and the old catch-up may still complete.
   */
  lemma ReopenDuringCatchUpOvertakes(w: World, commit: Commit) returns (steps: seq<Step>, v: World)
    requires Inv(w) && w.stage.Read? && Enabled(Dropped(w), Write(commit))
    ensures var reopened := Opened(Wrote(Dropped(w), commit));
            && Inv(reopened) && Enabled(reopened, Finish) && !CarriesAll(reopened)
            && Continues(Finished(reopened), steps, v) && !CoveredTo(v.device, v.log, v.device.syncedAt)
  {
    var dropped, wrote := Dropped(w), Wrote(Dropped(w), commit);
    var reopened := Opened(wrote);
    StepKeeps(w, Drop);
    WriteKeeps(dropped, commit);
    OpenKeeps(wrote);
    WriteChanges(w.log, w.top, commit);
    assert !Has(w.device, commit.id, commit.record) by { NotYetIngested(w.device, w.log, w.top, commit); }
    assert Lost(Finished(reopened), commit.id);
    hide Continues, CoveredTo, Replayed, Has, Committed, Lost;
    steps, v := LostIsOvertaken(Finished(reopened), commit.id);
  }

  lemma NotYetIngested(device: Device, log: seq<Commit>, top: int, commit: Commit)
    requires Committed(log, top) && Truthful(device, log) && commit.record.version > top
        && Follows(Replayed(log), commit)
    ensures !Has(device, commit.id, commit.record)
  {
    if commit.id in device.held {
      CurrentWasCommitted(log, top, commit.id);
      var c :| c in log && c.id == commit.id && c.record == Replayed(log)[commit.id];
      CurrentIsNewest(log, top, c);
    }
  }

  // --- Tombstones ---

  /** What the server deleted is not on the device. */
  ghost predicate BuriedGone(device: Device) {
    forall id <- device.buried :: id !in device.held
  }

  /** An event creating a document that the device already knows is deleted. */
  predicate Resurrects(device: Device, change: Commit) {
    change.created && !change.record.deleted && change.id in device.buried
  }

  /** One change keeps deleted documents away exactly when it is not a late creation of one. */
  lemma IngestBuried(device: Device, change: Commit, advance: bool)
    requires BuriedGone(device)
    ensures BuriedGone(Ingested(device, change, advance)) <==> !Resurrects(device, change)
  {
    if Resurrects(device, change) {
      assert change.id in Ingested(device, change, advance).held;
    }
  }

  lemma {:induction false} IngestAllBuried(device: Device, log: seq<Commit>, top: int, changes: seq<Commit>,
      advance: bool)
    requires Committed(log, top) && Truthful(device, log) && AllCurrent(log, changes) && BuriedGone(device)
    ensures BuriedGone(IngestedAll(device, changes, advance))
    decreases |changes|
  {
    if changes != [] {
      var c := changes[0];
      IngestKeeps(device, log, top, c, advance);
      IngestBuried(device, c, advance);
      IngestAllBuried(Ingested(device, c, advance), log, top, changes[1..], advance);
    }
  }

  lemma {:induction false} StaysBuried(device: Device, changes: seq<Commit>, advance: bool)
    ensures device.buried <= IngestedAll(device, changes, advance).buried
    decreases |changes|
  {
    if changes != [] {
      StaysBuried(Ingested(device, changes[0], advance), changes[1..], advance);
    }
  }

  /** Of any changes, in any order: deleted documents stay away unless one of them creates one. */
  lemma {:induction false} NoneResurrected(device: Device, changes: seq<Commit>, advance: bool)
    requires BuriedGone(device)
    requires forall c <- changes :: !Resurrects(IngestedAll(device, changes, advance), c)
    ensures BuriedGone(IngestedAll(device, changes, advance))
    decreases |changes|
  {
    if changes != [] {
      StaysBuried(device, changes, advance);
      assert changes[0] in changes && !Resurrects(device, changes[0]);
      IngestBuried(device, changes[0], advance);
      assert forall c <- changes[1..] :: c in changes;
      NoneResurrected(Ingested(device, changes[0], advance), changes[1..], advance);
    }
  }

  /** What the server deleted from version `from` up to `to` is off the device. */
  ghost predicate GoneBetween(device: Device, log: seq<Commit>, from: int, to: int) {
    forall id <- Replayed(log) ::
      Replayed(log)[id].deleted && from <= Replayed(log)[id].version <= to ==> id !in device.held
  }

  lemma {:induction false} IngestAllGone(device: Device, log: seq<Commit>, top: int, changes: seq<Commit>,
      advance: bool,
      id: Id)
    requires Committed(log, top) && Truthful(device, log) && AllCurrent(log, changes)
    requires id in Replayed(log) && Replayed(log)[id].deleted
    requires id !in device.held || exists c <- changes :: c.id == id
    ensures id !in IngestedAll(device, changes, advance).held
    decreases |changes|
  {
    if changes != [] {
      var c := changes[0];
      IngestKeeps(device, log, top, c, advance);
      assert changes == [c] + changes[1..];
      hide Committed, Replayed;
      IngestAllGone(Ingested(device, c, advance), log, top, changes[1..], advance, id);
    }
  }

  /** A page takes every document whose tombstone it holds off the device. */
  lemma PageBuries(device: Device, log: seq<Commit>, top: int, from: int, low: int, limit: nat)
    requires Committed(log, top) && Truthful(device, log) && limit > 0 && GoneBetween(device, log, from, low)
    ensures GoneBetween(IngestedAll(device, Page(log, low, limit), true), log, from, PageEnd(log, top, low, limit))
    ensures BuriedGone(device) ==> BuriedGone(IngestedAll(device, Page(log, low, limit), true))
  {
    hide Committed, Replayed, Page, HasNext, PageEnd, Truthful, IngestedAll, Reported;
    PageIsPrefix(log, top, low, limit);
    var page := Page(log, low, limit);
    forall id | id in Replayed(log) && Replayed(log)[id].deleted
        && from <= Replayed(log)[id].version <= PageEnd(log, top, low, limit)
      ensures id !in IngestedAll(device, page, true).held
    {
      if Replayed(log)[id].version > low {
        assert Commit(id, true, Replayed(log)[id]) in page;
      }
      IngestAllGone(device, log, top, page, true, id);
    }
    if BuriedGone(device) {
      IngestAllBuried(device, log, top, page, true);
    }
  }

  /** `synced_at` has come as far as what the server has up to `to`. */
  ghost predicate Caught(device: Device, log: seq<Commit>, to: int) {
    forall id <- Replayed(log) :: Replayed(log)[id].version <= to ==> Replayed(log)[id].version <= device.syncedAt
  }

  lemma PageCatches(device: Device, log: seq<Commit>, top: int, low: int, limit: nat)
    requires Committed(log, top) && limit > 0 && Caught(device, log, low)
    ensures Caught(IngestedAll(device, Page(log, low, limit), true), log, PageEnd(log, top, low, limit))
  {
    hide Committed, Replayed, Page, HasNext, PageEnd, IngestedAll, Reported;
    PageIsPrefix(log, top, low, limit);
    IngestAllMoves(device, Page(log, low, limit));
    forall id | id in Replayed(log) && Replayed(log)[id].version <= PageEnd(log, top, low, limit)
      ensures Replayed(log)[id].version <= IngestedAll(device, Page(log, low, limit), true).syncedAt
    {
      if Replayed(log)[id].version > low {
        assert Commit(id, true, Replayed(log)[id]) in Page(log, low, limit);
      }
    }
  }

  lemma WriteCaught(device: Device, log: seq<Commit>, top: int, commit: Commit, to: int)
    requires Committed(log, top) && commit.record.version > top && Follows(Replayed(log), commit)
    requires to <= top && Caught(device, log, to)
    ensures Caught(device, log + [commit], to)
  {
    hide Committed, Replayed;
    WriteChanges(log, top, commit);
  }

  /** How far a delta that started at `from` has come: everything up to `to` is ingested, what was deleted is off. */
  ghost predicate Reaches(device: Device, log: seq<Commit>, top: int, from: int, to: int, gone: bool) {
    && Truthful(device, log) && device.syncedAt <= top && to <= top
    && CoveredTo(device, log, to) && Caught(device, log, to)
    && GoneBetween(device, log, from, to) && (gone ==> BuriedGone(device))
  }

  lemma PageReaches(device: Device, log: seq<Commit>, top: int, from: int, low: int, limit: nat, gone: bool)
    requires Committed(log, top) && Reaches(device, log, top, from, low, gone) && limit > 0
    ensures var d, end := IngestedAll(device, Page(log, low, limit), true), PageEnd(log, top, low, limit);
            && Reaches(d, log, top, from, end, gone)
            && device.syncedAt <= d.syncedAt <= Lists.Max(device.syncedAt, end)
            && (HasNext(log, low, limit) ==> low < end <= top && end == Page(log, low, limit)[limit - 1].record.version)
            && (HasNext(log, low, limit) ==> |Page(log, low, limit)| == limit)
            && (!HasNext(log, low, limit) ==> end == top)
  {
    PageCovers(device, log, top, low, limit);
    PageBuries(device, log, top, from, low, limit);
    PageCatches(device, log, top, low, limit);
    hide Committed, Replayed, Has, Page, IngestedAll, HasNext, CoveredTo, Caught, GoneBetween, BuriedGone, Truthful;
    KeepsTruthful(log, device, IngestedAll(device, Page(log, low, limit), true));
  }

  lemma WriteReaches(device: Device, log: seq<Commit>, top: int, commit: Commit, from: int, to: int, gone: bool)
    requires Committed(log, top) && commit.record.version > top && Follows(Replayed(log), commit)
    requires Reaches(device, log, top, from, to, gone)
    ensures Reaches(device, log + [commit], commit.record.version, from, to, gone)
  {
    hide Committed, Replayed, CoveredTo, Caught, GoneBetween, BuriedGone, Truthful;
    WriteCaught(device, log, top, commit, to);
    WriteTruthful(device, log, top, commit);
    WriteCovered(device, log, top, commit, to);
    WriteGone(device, log, top, commit, from, to);
  }

  lemma DeltaStarts(device: Device, log: seq<Commit>, top: int, from: int)
    requires Truthful(device, log) && device.syncedAt <= top && CoveredTo(device, log, from - 1)
    requires from <= device.syncedAt + 1
    ensures Reaches(device, log, top, from, from - 1, BuriedGone(device))
  {
  }

  lemma DeltaEnds(device: Device, log: seq<Commit>, top: int, from: int, to: int, gone: bool)
    requires Reaches(device, log, top, from, to, gone) && device.syncedAt <= to
    ensures Truthful(device, log) && CoveredTo(device, log, to) && CoveredTo(device, log, device.syncedAt)
    ensures GoneBetween(device, log, from, to) && (gone ==> BuriedGone(device) && GoneTo(device, log, to))
    ensures Caught(device, log, to)
  {
    if gone { CoveredIsGone(device, log, to); }
  }

  lemma WriteGone(device: Device, log: seq<Commit>, top: int, commit: Commit, from: int, to: int)
    requires Committed(log, top) && commit.record.version > top && Follows(Replayed(log), commit)
    requires to <= top && GoneBetween(device, log, from, to)
    ensures GoneBetween(device, log + [commit], from, to)
  {
    hide Committed, Replayed;
    WriteChanges(log, top, commit);
  }

  /** Every step but such a delivery keeps deleted documents away; that delivery never does. */
  lemma StepBuried(w: World, step: Step)
    requires Inv(w) && Enabled(w, step) && BuriedGone(w.device)
    ensures BuriedGone(Next(w, step).device) <==> !(step.Deliver? && Resurrects(w.device, w.queue[0]))
  {
    hide Committed, Replayed, Page, HasNext, Carries, CarriesAll;
    match step {
      case Deliver => IngestBuried(w.device, w.queue[0], w.live);
      case Answer(id) =>
        if id in Replayed(w.log) && !Replayed(w.log)[id].deleted {
          IngestBuried(w.device, Commit(id, true, Replayed(w.log)[id]), false);
        }
      case TakePage(limit) =>
        PageIsPrefix(w.log, w.top, Low(w.stage), limit);
        IngestAllBuried(w.device, w.log, w.top, Page(w.log, Low(w.stage), limit), true);
      case _ =>
    }
  }

  /** The tombstone itself, delivered later, takes a resurrected document away again. */
  lemma TombstoneHeals(device: Device, log: seq<Commit>, top: int, tombstone: Commit, advance: bool)
    requires Committed(log, top) && Truthful(device, log) && tombstone in log && tombstone.record.deleted
    ensures tombstone.id !in Ingested(device, tombstone, advance).held
  {
    CurrentIsNewest(log, top, tombstone);
  }

  /** Connected, live and with nothing left to deliver, the device has every document as the server has it. */
  lemma DrainedIsCurrent(w: World)
    requires Inv(w) && w.connected && w.live && w.queue == []
    ensures forall id <- Replayed(w.log) ::
              if Replayed(w.log)[id].deleted then id in w.device.buried
              else id in w.device.held && w.device.held[id] == Replayed(w.log)[id]
    ensures forall id <- w.device.held :: id in Replayed(w.log)
  {
    hide Committed, Replayed;
    forall id | id in Replayed(w.log)
      ensures Has(w.device, id, Replayed(w.log)[id])
    {
      assert HasOrComing(w, id);
    }
  }

  /** The device holds a newer version of the document. */
  predicate Late(device: Device, change: Commit) {
    change.id in device.held && change.record.version < device.held[change.id].version
  }

  /** An event is taken off the channel and ingested; only a live one moves `synced_at`. */
  lemma DeliverMoves(w: World)
    requires Enabled(w, Deliver)
    ensures var head, next := w.queue[0], Delivered(w);
            && next.queue == w.queue[1..] && next.log == w.log
            && next.device.syncedAt == (if w.live && head.record.version > w.device.syncedAt then head.record.version
                else w.device.syncedAt)
            && (!Late(w.device, head) && head.record.deleted ==> head.id !in next.device.held)
            && (!Late(w.device, head) && !head.record.deleted && head.id in w.device.held ==>
                  head.id in next.device.held && next.device.held[head.id] == head.record)
            && (Late(w.device, head) ==> next.device.held == w.device.held)
  {
    IngestMoves(w.device, w.queue[0], w.live);
  }

  /** The document is newer than where a read starts, and the read left it out. */
  ghost predicate LeftOut(log: seq<Commit>, low: int, limit: nat, id: Id) {
    id in Replayed(log) && Replayed(log)[id].version > low
      && Commit(id, true, Replayed(log)[id]) !in Page(log, low, limit)
  }

  lemma NotAmongFirst(newer: seq<Commit>, limit: nat)
    requires limit < |newer|
    requires forall i, j :: 0 <= i < j < |newer| ==> newer[i].record.version < newer[j].record.version
    ensures newer[limit] !in newer[..limit]
  {
  }

  /** A read says that there is more exactly when it left something out that is newer than where it started. */
  lemma MoreIsLeft(log: seq<Commit>, top: int, low: int, limit: nat)
    requires Committed(log, top) && limit > 0
    ensures HasNext(log, low, limit) <==> exists id :: LeftOut(log, low, limit, id)
  {
    var docs := Replayed(log);
    var newer := Newer(log, docs, low);
    NewerInOrder(log, top, docs, low);
    hide Committed, Replayed, Newer, Reported;
    if HasNext(log, low, limit) {
      NewerIsCurrent(log, docs, low);
      var c := newer[limit];
      assert c in newer && c == Commit(c.id, true, docs[c.id]);
      NotAmongFirst(newer, limit);
      assert LeftOut(log, low, limit, c.id);
    } else {
      AllRead(log, top, low);
      assert Page(log, low, limit) == newer;
    }
  }

  /** Pages may be read while a catch-up is paging, which it is from its start until there is no next one. */
  lemma CatchUpGoesOn(w: World, overlap: nat, limit: nat)
    requires limit > 0
    ensures w.stage.Idle? ==> Enabled(w, Start(overlap)) && Enabled(Started(w, overlap), TakePage(limit))
    ensures w.stage.Paging? ==> Enabled(w, TakePage(limit))
    ensures w.stage.Paging? ==>
              var next := if HasNext(w.log, Low(w.stage), limit) then TakePage(limit) else Finish;
              Enabled(PageTaken(w, limit), next)
  {
    hide Page, HasNext, IngestedAll;
  }

  /** A catch-up starts `overlap` before what is held, and goes on after the last version it read. */
  lemma CatchUpReads(w: World, overlap: nat, limit: nat)
    ensures Started(w, overlap).stage.since == w.device.syncedAt - overlap
    ensures Low(Started(w, overlap).stage) == w.device.syncedAt - overlap - 1
    ensures w.stage.Paging? && limit > 0 && PageTaken(w, limit).stage.Paging? ==>
              var page := Page(w.log, Low(w.stage), limit);
              |page| == limit && Low(PageTaken(w, limit).stage) == page[limit - 1].record.version
  {
  }

  const NOTHING: Device := Device(map[], {}, 0)
  const BORN: Commit := Commit("doc", true, Record(1, false, map[]))
  const DIED: Commit := Commit("doc", false, Record(2, true, map[]))

  lemma NewerSnoc(log: seq<Commit>, commit: Commit, docs: Docs, low: int)
    ensures Newer(log + [commit], docs, low) == Newer(log, docs, low) +
            if commit.record.version > low && commit.id in docs
                && docs[commit.id] == commit.record then [commit.(created := true)] else []
  {
    assert (log + [commit])[..|log|] == log;
  }

  function Buried(other: Commit): seq<Commit> { [] + [BORN] + [DIED] + [other] }

  /** The log of the run below, and what a delta reads of it. */
  lemma BuriedLog(other: Commit)
    requires other == Commit("other", true, Record(other.record.version, false, map[])) && other.record.version > 2
    ensures Committed(Buried(other), other.record.version)
    ensures Replayed(Buried(other)) == map["doc" := DIED.record, "other" := other.record]
    ensures forall low: int :: Newer(Buried(other), Replayed(Buried(other)), low) ==
              (if low < 2 then [DIED.(created := true)] else []) + (if low < other.record.version then [other] else [])
  {
    ReplayedSnoc([], BORN);
    ReplayedSnoc([] + [BORN], DIED);
    ReplayedSnoc([] + [BORN] + [DIED], other);
    CommittedSnoc([], 0, BORN);
    CommittedSnoc([] + [BORN], 1, DIED);
    CommittedSnoc([] + [BORN] + [DIED], 2, other);
    var docs := Replayed(Buried(other));
    forall low: int
      ensures Newer(Buried(other), docs, low) ==
              (if low < 2 then [DIED.(created := true)] else []) + (if low < other.record.version then [other] else [])
    {
      NewerSnoc([], BORN, docs, low);
      NewerSnoc([] + [BORN], DIED, docs, low);
      NewerSnoc([] + [BORN] + [DIED], other, docs, low);
    }
  }

  /**
   * A delta that ran ahead of the channel buries a document, the channel's older `added` brings it
   * back, and a drop loses the tombstone's event. The next delta does not look back far enough,
   * whatever the overlap, once a later change moved `synced_at` further than it.
   */
  lemma ResurrectedForGood(overlap: nat)
    ensures var other := Commit("other", true, Record(3 + overlap, false, map[]));
            var w0 := World(Buried(other), 3 + overlap, NOTHING, false, true, Buried(other), 0,
                Paging(0 - overlap, None));
            var w1 := Dropped(Delivered(Finished(PageTaken(w0, 100))));
            var w2 := Finished(PageTaken(Started(Opened(w1), overlap), 100));
            && Inv(w0) && BuriedGone(w0.device)
            && "doc" in w2.device.held && "doc" in w2.device.buried && w2.stage.Idle? && w2.live
            && DIED.record.version <= w2.device.syncedAt
  {
    var other := Commit("other", true, Record(3 + overlap, false, map[]));
    BuriedLog(other);
    BuriedStarts(other, overlap);
    BuriedReturns(other, overlap);
    BuriedRemains(other, overlap);
    hide *;
  }

  /** The delta's first page is still to come, and every event is still on the channel. */
  lemma BuriedStarts(other: Commit, overlap: nat)
    requires other.record.version == 3 + overlap && Committed(Buried(other), 3 + overlap)
    requires Replayed(Buried(other)) == map["doc" := DIED.record, "other" := other.record]
    requires other == Commit("other", true, Record(3 + overlap, false, map[]))
    ensures var w0 := World(Buried(other), 3 + overlap, NOTHING, false, true, Buried(other), 0,
                Paging(0 - overlap, None));
            Inv(w0) && BuriedGone(w0.device)
  {
    hide Replayed, Committed;
  }

  lemma BuriedReturns(other: Commit, overlap: nat)
    requires other == Commit("other", true, Record(3 + overlap, false, map[]))
    ensures var w0 := World(Buried(other), 3 + overlap, NOTHING, false, true, Buried(other), 0,
                Paging(0 - overlap, None));
            Dropped(Delivered(Finished(PageTaken(w0, 100)))) == Returned(other, overlap)
  {
    BuriedLog(other);
    hide Replayed, Newer;
    var log, died := Buried(other), DIED.(created := true);
    assert Page(log, 0 - overlap - 1, 100) == [died, other];
    IngestPair(NOTHING, died, other);
    assert log[0] == BORN;
  }

  /** The document is back, and the channel has dropped. */
  function Returned(other: Commit, overlap: nat): World {
    World(Buried(other), 3 + overlap,
          Device(map["other" := other.record, "doc" := BORN.record], {"doc"}, 3 + overlap), true, false, [], 0, Idle)
  }

  lemma BuriedRemains(other: Commit, overlap: nat)
    requires other == Commit("other", true, Record(3 + overlap, false, map[]))
    ensures var w2 := Finished(PageTaken(Started(Opened(Returned(other, overlap)), overlap), 100));
            && "doc" in w2.device.held && "doc" in w2.device.buried && w2.stage.Idle? && w2.live
            && DIED.record.version <= w2.device.syncedAt
  {
    BuriedLog(other);
    hide Replayed, Newer;
    assert Page(Buried(other), 2, 100) == [other];
    IngestPair(Returned(other, overlap).device, other, other);
  }

  lemma IngestPair(device: Device, a: Commit, b: Commit)
    ensures IngestedAll(device, [a, b], true) == Ingested(Ingested(device, a, true), b, true)
    ensures IngestedAll(device, [a], true) == Ingested(device, a, true)
  {
    assert [a, b][1..] == [b] && [b][1..] == [] && [a][1..] == [];
    assert IngestedAll(Ingested(device, a, true), [b], true)
        == IngestedAll(Ingested(Ingested(device, a, true), b, true), [], true);
  }

  // --- The scope on the device ---

  datatype Operation = Insert(id: Id, fields: Fields) | Patch(id: Id, body: Body,
      ifVersion: Option<int>) | Remove(id: Id)

  datatype Timed = Timed(operation: Operation, clock: int)

  class Scope {
    const server: Collection
    var device: Device
    var live: bool

    constructor (server: Collection, device: Device)
      ensures this.server == server && this.device == device && !live
    {
      this.server, this.device, this.live := server, device, false;
    }

    /** First every version is noted, then every change goes through the write path. */
    method Ingest(changes: seq<Commit>, advance: bool)
      modifies this`device
      ensures device == IngestedAll(old(device), changes, advance)
      ensures old(BuriedGone(device)) && (forall c <- changes :: !Resurrects(device, c)) ==> BuriedGone(device)
    {
      for i := 0 to |changes|
        invariant device == old(device).(syncedAt := if advance then Newest(old(device).syncedAt, changes[..i])
            else old(device).syncedAt)
      {
        assert changes[..i + 1][..i] == changes[..i];
        if advance {
          device := device.(syncedAt := Lists.Max(device.syncedAt, changes[i].record.version));
        }
      }
      assert changes[..|changes|] == changes;
      IngestTwice(old(device), changes, advance);
      for i := 0 to |changes|
        invariant IngestedAll(old(device), changes, advance) == IngestedAll(device, changes[i..], false)
      {
        assert changes[i..][1..] == changes[i + 1..];
        device := Ingested(device, changes[i], false);
      }
      if old(BuriedGone(device)) && forall c <- changes :: !Resurrects(device, c) {
        NoneResurrected(old(device), changes, advance);
      }
    }

    /** Other clients' writes, as the server commits them. */
    method Commits(operations: seq<Timed>, ghost from: int, ghost to: int, ghost gone: bool)
      requires server.Valid() && Reaches(device, server.log, server.counter, from, to, gone)
      modifies server
      ensures server.Valid() && server.counter >= old(server.counter)
      ensures Reaches(device, server.log, server.counter, from, to, gone)
    {
      for i := 0 to |operations|
        invariant server.Valid() && server.counter >= old(server.counter)
        invariant Reaches(device, server.log, server.counter, from, to, gone)
      {
        ghost var log, counter := server.log, server.counter;
        match operations[i].operation {
          case Insert(id, fields) => var _ := server.Post(id, fields, operations[i].clock);
          case Patch(id, body, ifVersion) => var _ := server.Put(id, body, ifVersion, operations[i].clock);
          case Remove(id) => var _ := server.Delete(id, operations[i].clock);
        }
        if server.log != log {
          var commit := server.log[|server.log| - 1];
          assert server.log == log + [commit] && server.log[..|server.log| - 1] == log;
          WriteReaches(device, log, counter, commit, from, to, gone);
        }
      }
    }

    /** One page of a delta: read and ingested, and whether and where the next one starts. */
    method TakePage(low: int, limit: nat, ghost since: int, ghost gone: bool) returns (more: bool, next: int)
      requires server.Valid() && limit > 0 && Reaches(device, server.log, server.counter, since, low, gone)
      modifies this`device
      ensures old(device).syncedAt <= device.syncedAt <= server.counter
      ensures low <= next <= server.counter && (more ==> low < next)
      ensures Reaches(device, server.log, server.counter, since, if more then next else server.counter, gone)
    {
      hide *;
      var page := Page(server.log, low, limit);
      more, next := HasNext(server.log, low, limit), low;
      CommittedNow(server, device, since, low, gone);
      PageReaches(device, server.log, server.counter, since, low, limit, gone);
      Ingest(page, true);
      if more {
        next := page[|page| - 1].record.version;
      }
      CommittedNow(server, device, since, if more then next else server.counter, gone);
    }

    /**
     * One delta, with other clients' writes committing before each of its pages. It only assumes
     * that the device covers what the delta does not read again.
     */
    method Delta(overlap: nat, limit: nat, schedule: seq<seq<Timed>>) returns (readTop: int)
      requires server.Valid() && limit > 0
      requires Truthful(device, server.log) && device.syncedAt <= server.counter
      requires CoveredTo(device, server.log, device.syncedAt - overlap - 1)
      modifies this`device, server
      ensures server.Valid() && Truthful(device, server.log)
      ensures old(server.counter) <= readTop <= server.counter && old(device).syncedAt <= device.syncedAt <= readTop
      // Nothing committed before the last page was read is missed, so nothing up to `synced_at` is.
      ensures CoveredTo(device, server.log, readTop) && CoveredTo(device, server.log, device.syncedAt)
      // And `synced_at` is as new as the newest of it.
      ensures Caught(device, server.log, readTop)
      // What was deleted since is off the device, and so is everything deleted if it was before.
      ensures GoneBetween(device, server.log, old(device).syncedAt - overlap, readTop)
      ensures old(BuriedGone(device)) ==> BuriedGone(device) && GoneTo(device, server.log, readTop)
    {
      ghost var gone := BuriedGone(device);
      var since := device.syncedAt - overlap;
      var low := since - 1;
      var k := 0;
      var more := true;
      readTop := server.counter;
      DeltaStarts(device, server.log, server.counter, since);
      hide *;
      while more
        invariant server.Valid() && 0 <= k <= |schedule| && low <= server.counter
        invariant old(device).syncedAt <= device.syncedAt && old(server.counter) <= server.counter
        invariant Reaches(device, server.log, server.counter, since, if more then low else readTop, gone)
        invariant !more ==> old(server.counter) <= readTop <= server.counter && device.syncedAt <= readTop
        decreases more, |schedule| - k, server.counter - low
      {
        if k < |schedule| {
          Commits(schedule[k], since, low, gone);
          k := k + 1;
        }
        more, low := TakePage(low, limit, since, gone);
        if !more {
          readTop := server.counter;
        }
      }
      DeltaEnds(device, server.log, server.counter, since, readTop, gone);
    }
  }

  lemma CommittedNow(server: Collection, device: Device, from: int, low: int, gone: bool)
    requires server.Valid() && Reaches(device, server.log, server.counter, from, low, gone)
    ensures Committed(server.log, server.counter) && device.syncedAt <= server.counter && low <= server.counter
  {
  }

  function Newest(version: int, changes: seq<Commit>): int {
    if changes == [] then version else Lists.Max(Newest(version, changes[..|changes| - 1]),
        changes[|changes| - 1].record.version)
  }

  /** Noting the versions first and storing afterwards comes to the same as doing both per change. */
  lemma {:induction false} IngestTwice(device: Device, changes: seq<Commit>, advance: bool)
    ensures IngestedAll(device, changes, advance) ==
            IngestedAll(device.(syncedAt := if advance then Newest(device.syncedAt, changes) else device.syncedAt),
              changes, false)
    decreases |changes|
  {
    if changes != [] {
      var next := Ingested(device, changes[0], advance);
      IngestTwice(next, changes[1..], advance);
      if advance {
        NewestFirst(device.syncedAt, changes);
      }
    }
  }

  lemma {:induction false} NewestFirst(version: int, changes: seq<Commit>)
    requires changes != []
    ensures Newest(version, changes) == Newest(Lists.Max(version, changes[0].record.version), changes[1..])
    decreases |changes|
  {
    if |changes| > 1 {
      NewestFirst(version, changes[..|changes| - 1]);
      assert changes[..|changes| - 1][1..] == changes[1..][..|changes| - 2];
    }
  }
}
