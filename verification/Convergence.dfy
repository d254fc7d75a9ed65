/**
 * Writes and rebasing on many devices: a device shows, outside its unconfirmed edits, what the server
 * held at the version the device says it has, and an accepted write replaces a version its device had
 * not rebased onto only if it was sent without a base. packages/client/src/LivequeryClient.ts and
 * packages/mongodb/src/MongoDatasource.ts.
 *
 * One document on any number of devices, beside any other writes of the collection. Remote changes
 * carry whole documents.
 */
module Convergence {
  import opened Wrappers
  import opened Documents
  import opened VersionedServer
  import opened LocalDocs
  import Outbox

  /** Where a write that left the device stands. An answer carries a version, or not, and the document. */
  datatype Stage = Asked | Exists | Conflicted | Answered(version: Option<int>, data: Fields)

  /**
   * A write that left the device. `read` is the copy it was read from; `base` the version it is based
   * on, if the copy had one; `created` says that the server took the add as a new document.
   */
  datatype Out = Out(add: bool, sent: Fields, base: Option<int>, read: LocalDoc, created: bool, stage: Stage)

  /** A device's copy. `queued`: its add is not confirmed yet; `tried`: an attempt of it got no answer. */
  datatype Replica = Replica(doc: Option<LocalDoc>, queued: bool, tried: bool, out: Option<Out>)

  datatype World = World(log: seq<Commit>, top: int, replicas: map<string, Replica>)

  const NOBODY := Replica(None, false, false, None)

  datatype Step =
    | Write(commit: Commit)
    | Create(r: string, fields: Fields)
    | Edit(r: string, edit: Fields)
    | Report(r: string, commit: Commit, created: bool)
    | Gone(r: string)
    | Skip(r: string)
    | SendAdd(r: string)
    | Send(r: string)
    | Post(r: string, clock: int)
    | Put(r: string, clock: int, wrapped: Option<Value>)
    | Give(r: string)
    | Confirm(r: string)
    | Refuse(r: string)

  function ReplicaAt(w: World, r: string): Replica {
    if r in w.replicas then w.replicas[r] else NOBODY
  }

  predicate Enabled(w: World, id: Id, step: Step) {
    match step
    case Write(commit) => commit.record.version > w.top && Follows(Replayed(w.log), commit)
    case Create(r, _) => var p := ReplicaAt(w, r); p.doc.None? && p.out.None? && !p.queued
    case Edit(r, _) => ReplicaAt(w, r).doc.Some?
    case Report(r, commit, _) => commit in w.log && commit.id == id
    case Gone(r) => true
    // The add of a document deleted meanwhile is dropped.
    case Skip(r) => var p := ReplicaAt(w, r); p.queued && p.doc.None? && p.out.None?
    case SendAdd(r) => var p := ReplicaAt(w, r); p.queued && p.doc.Some? && p.out.None?
    case Send(r) => var p := ReplicaAt(w, r); !p.queued && p.doc.Some? && p.out.None? && p.doc.value.prev != map[]
    case Post(r, _) => var p := ReplicaAt(w, r); p.out.Some? && p.out.value.add && p.out.value.stage.Asked?
    // An update; or the update a retried add turns into once its id is taken.
    case Put(r, _, _) =>
      var p := ReplicaAt(w, r);
      p.out.Some? && if p.out.value.add then p.out.value.stage.Exists? && p.tried else p.out.value.stage.Asked?
    // The request or its answer is lost, or another failure that is retried.
    case Give(r) => ReplicaAt(w, r).out.Some?
    case Confirm(r) => var p := ReplicaAt(w, r); p.out.Some? && p.out.value.stage.Answered?
    case Refuse(r) => var p := ReplicaAt(w, r); p.out.Some? && !p.out.value.stage.Answered?
  }

  /** The server takes an add: a new document, unless its id is taken. */
  function Posted(w: World, id: Id, out: Out, clock: int): (World, Out) {
    var next := NextVersion(clock, w.top);
    if id in Replayed(w.log) then (w, out.(stage := Exists))
    else (w.(log := w.log + [Commit(id, true, Record(next, false, out.sent))], top := next),
          out.(created := true, stage := Answered(Some(next), out.sent)))
  }

  /** The server takes an update, on the condition of its base if it has one. */
  function Taken(w: World, id: Id, out: Out, clock: int): (World, Stage) {
    var docs := Replayed(w.log);
    var next := NextVersion(clock, w.top);
    if id in docs && !docs[id].deleted then
      if out.base.None? || docs[id].version == out.base.value then
        (w.(log := w.log + [Commit(id, false, Record(next, false, docs[id].fields + out.sent))], top := next),
          Answered(Some(next), out.sent))
      else (w, Conflicted)
    else (w.(top := next), Answered(None, out.sent))
  }

  /**
   * What an update's answer is read as. The answer to a retried add is spread as it comes: wrapped in an
   * `item`, as REST does, it brings that field and no version.
   */
  function Heard(out: Out, stage: Stage, wrapped: Option<Value>): Stage {
    if stage.Answered? && out.add && wrapped.Some? then Answered(None, map["item" := wrapped.value]) else stage
  }

  function WithCopy(w: World, r: string, p: Replica): World {
    w.(replicas := w.replicas[r := p])
  }

  function Reading(commit: Commit, created: bool): Change {
    Reads(created, commit.record.fields, Some(commit.record.version), commit.record.deleted)
  }

  function Pushed(doc: LocalDoc): Out
    requires WellFormed(doc)
  {
    Out(false, Unconfirmed(doc), doc.version, doc, false, Asked)
  }

  function ConfirmedDoc(doc: LocalDoc, out: Out): LocalDoc
    requires WellFormed(doc) && out.stage.Answered?
  {
    if out.add then ConfirmedAdd(doc, out.sent, out.stage.data, out.stage.version)
    else ConfirmedUpdate(doc, out.sent, out.stage.version)
  }

  /** The answer is applied: what was sent and not edited since is no longer pending. */
  function Confirmed(p: Replica): Replica
    requires p.out.Some? && p.out.value.stage.Answered? && (p.doc.Some? ==> WellFormed(p.doc.value))
  {
    var out := p.out.value;
    var doc := if p.doc.None? then None else Some(ConfirmedDoc(p.doc.value, out));
    Replica(doc, p.queued && !out.add, p.tried && !out.add, None)
  }

  /** The server refused the write for good: edited values stay, no longer pending. */
  function GivenUp(p: Replica): Replica
    requires p.out.Some?
  {
    var add := p.out.value.add;
    var doc := if p.doc.None? then None else Some(RefusedDoc(p.doc.value, if add then Outbox.Add else Outbox.Update));
    Replica(doc, p.queued && !add, p.tried && !add, None)
  }

  ghost predicate WellFormedAll(w: World) {
    forall r <- w.replicas :: w.replicas[r].doc.Some? ==> WellFormed(w.replicas[r].doc.value)
  }

  /** Steps that only move one copy. */
  function Moved(p: Replica, step: Step): Replica
    requires p.doc.Some? ==> WellFormed(p.doc.value)
    requires match step
             case Edit(_, _) => p.doc.Some?
             case SendAdd(_) => p.doc.Some?
             case Send(_) => p.doc.Some?
             case Give(_) => p.out.Some?
             case Confirm(_) => p.out.Some? && p.out.value.stage.Answered?
             case Refuse(_) => p.out.Some?
             case _ => true
  {
    match step
    case Create(_, fields) => Replica(Some(NewDoc(fields)), true, false, None)
    case Edit(_, edit) => p.(doc := Some(Edited(p.doc.value, edit)))
    case Report(_, commit, created) => p.(doc := Ingest(p.doc, Reading(commit, created)))
    case Gone(_) => p.(doc := None)
    case Skip(_) => p.(queued := false, tried := false)
    case SendAdd(_) => p.(out := Some(Out(true, p.doc.value.fields, None, p.doc.value, false, Asked)))
    case Send(_) => p.(out := Some(Pushed(p.doc.value)))
    case Give(_) => p.(out := None, tried := p.tried || p.out.value.add)
    case Confirm(_) => Confirmed(p)
    case Refuse(_) => GivenUp(p)
    case _ => p
  }

  function Next(w: World, id: Id, step: Step): World
    requires WellFormedAll(w) && Enabled(w, id, step)
  {
    match step
    case Write(commit) => w.(log := w.log + [commit], top := commit.record.version)
    case Post(r, clock) =>
      var p := ReplicaAt(w, r);
      var (v, out) := Posted(w, id, p.out.value, clock);
      WithCopy(v, r, p.(out := Some(out)))
    case Put(r, clock, wrapped) =>
      var p := ReplicaAt(w, r);
      var (v, stage) := Taken(w, id, p.out.value, clock);
      WithCopy(v, r, p.(out := Some(p.out.value.(stage := Heard(p.out.value, stage, wrapped)))))
    case _ => WithCopy(w, step.r, Moved(ReplicaAt(w, step.r), step))
  }

  // --- The invariant ---

  /** The server committed `record` for the document. */
  ghost predicate Was(log: seq<Commit>, id: Id, record: Record) {
    exists c <- log :: c.id == id && c.record == record
  }

  /** Outside its unconfirmed edits the copy reads as `record`. */
  ghost predicate ReadsAs(doc: LocalDoc, record: Record) {
    && doc.version == Some(record.version)
    && forall k :: k !in doc.prev ==> FieldOf(doc.fields, k) == FieldOf(record.fields, k)
  }

  /** A copy with a version reads as the server did at that version. */
  ghost predicate Honest(log: seq<Commit>, id: Id, doc: LocalDoc) {
    doc.version.Some? ==> exists record :: Was(log, id, record) && ReadsAs(doc, record)
  }

  /** `after` is `base` with the edit on it, and the server committed nothing of the document in between. */
  ghost predicate Succeeds(log: seq<Commit>, id: Id, base: Record, after: Record, sent: Fields) {
    && Was(log, id, base) && base.version < after.version
    && after.fields == base.fields + sent
    && forall c <- log :: c.id == id ==> c.record.version <= base.version || after.version <= c.record.version
  }

  /** The server made `after` of what was sent. */
  ghost predicate Made(log: seq<Commit>, id: Id, out: Out, after: Record) {
    && Was(log, id, after)
    && (forall k <- out.sent :: FieldOf(after.fields, k) == Some(out.sent[k]))
    && (out.created ==> after.fields == out.sent)
    && (out.base.Some? ==>
          exists held: Record :: held.version == out.base.value && Succeeds(log, id, held, after, out.sent))
  }

  ghost predicate OutGood(log: seq<Commit>, id: Id, out: Out) {
    && WellFormed(out.read) && Honest(log, id, out.read)
    && (out.add ==> out.base.None?) && (out.created ==> out.add && out.stage.Answered?)
    && (!out.add ==> out.base == out.read.version && out.sent == Unconfirmed(out.read))
    && (out.stage.Answered? && out.stage.version.Some? ==>
          && out.stage.data == out.sent
          && exists after: Record :: after.version == out.stage.version.value && Made(log, id, out, after))
  }

  ghost predicate CopyGood(log: seq<Commit>, id: Id, doc: LocalDoc) {
    WellFormed(doc) && !doc.deleting && Honest(log, id, doc)
  }

  ghost predicate Good(log: seq<Commit>, id: Id, p: Replica) {
    && (p.doc.Some? ==> CopyGood(log, id, p.doc.value))
    && (p.out.Some? ==> OutGood(log, id, p.out.value))
  }

  ghost predicate Inv(w: World, id: Id) {
    Committed(w.log, w.top) && forall r <- w.replicas :: Good(w.log, id, w.replicas[r])
  }

  // --- What a device can check ---

  /** The change ingested leaves no field on the copy that it does not carry. */
  predicate Covers(doc: LocalDoc, fields: Fields) {
    doc.fields.Keys - doc.prev.Keys <= fields.Keys
  }

  /** The copy is the version answered, or still the version the update was based on with the update on it. */
  predicate LinesUp(doc: LocalDoc, sent: Fields, base: Option<int>, version: int) {
    || doc.version == Some(version)
    || (&& base.Some? && doc.version == base
        && forall k <- sent :: k in doc.prev || FieldOf(doc.fields, k) == Some(sent[k]))
  }

  /** Everything sent has been edited again. */
  predicate AllEditedAgain(doc: LocalDoc, sent: Fields)
    requires WellFormed(doc)
  {
    forall k <- sent :: k in doc.prev ==> doc.fields[k] != sent[k]
  }

  predicate SafeToConfirm(doc: LocalDoc, out: Out)
    requires WellFormed(doc) && out.stage.Answered?
  {
    var version := out.stage.version;
    if out.add then
      if version.None? then doc.version.None?
      else doc.version == version || (out.created && Covers(doc, out.sent))
    else if version.None? then doc.version.None? || AllEditedAgain(doc, out.sent)
    else LinesUp(doc, out.sent, out.base, version.value)
  }

  /** Whether the step leaves the copy as the server had it, by what the device itself can tell. */
  predicate Careful(p: Replica, step: Step)
    requires p.doc.Some? ==> WellFormed(p.doc.value)
  {
    match step
    case Report(_, commit, created) =>
      var after := Ingest(p.doc, Reading(commit, created));
      after.Some? && after != p.doc ==> Covers(after.value, commit.record.fields)
    case Confirm(_) => p.doc.Some? && p.out.Some? && p.out.value.stage.Answered? ==>
        SafeToConfirm(p.doc.value, p.out.value)
    case Refuse(_) => p.doc.Some? && p.out.Some? && !p.out.value.add ==>
        p.doc.value.version.None? || p.doc.value.prev == map[]
    case _ => true
  }

  // --- What the log says ---

  lemma CurrentWas(log: seq<Commit>, top: int, id: Id)
    requires Committed(log, top) && id in Replayed(log)
    ensures Was(log, id, Replayed(log)[id])
  {
    CurrentWasCommitted(log, top, id);
  }

  /** More commits change nothing about the ones there were. */
  lemma WasStill(log: seq<Commit>, commit: Commit, id: Id, record: Record)
    ensures Was(log, id, record) ==> Was(log + [commit], id, record)
    ensures commit.id == id ==> Was(log + [commit], id, commit.record)
  {
    assert commit in log + [commit];
  }

  lemma WasBelow(log: seq<Commit>, top: int, id: Id, record: Record)
    requires Committed(log, top) && Was(log, id, record)
    ensures id in Replayed(log) && record.version <= Replayed(log)[id].version <= top
  {
    var c :| c in log && c.id == id && c.record == record;
    CurrentIsNewest(log, top, c);
  }

  lemma OneRecord(log: seq<Commit>, top: int, id: Id, a: Record, b: Record)
    requires Committed(log, top) && Was(log, id, a) && Was(log, id, b) && a.version == b.version
    ensures a == b
  {
    var c :| c in log && c.id == id && c.record == a;
    var d :| d in log && d.id == id && d.record == b;
    VersionsDistinct(log, top, c, d);
  }

  // --- More commits keep what is said of copies and writes ---

  lemma HonestStill(log: seq<Commit>, commit: Commit, id: Id, doc: LocalDoc)
    requires Honest(log, id, doc)
    ensures Honest(log + [commit], id, doc)
  {
    if doc.version.Some? {
      var record :| Was(log, id, record) && ReadsAs(doc, record);
      WasStill(log, commit, id, record);
    }
  }

  lemma SucceedsStill(log: seq<Commit>, id: Id, base: Record, after: Record, sent: Fields, commit: Commit)
    requires Succeeds(log, id, base, after, sent) && after.version <= commit.record.version
    ensures Succeeds(log + [commit], id, base, after, sent)
  {
    WasStill(log, commit, id, base);
  }

  lemma MadeStill(log: seq<Commit>, top: int, id: Id, out: Out, after: Record, commit: Commit)
    requires Committed(log, top) && commit.record.version > top && Made(log, id, out, after)
    ensures Made(log + [commit], id, out, after)
  {
    hide Committed, Succeeds;
    WasStill(log, commit, id, after);
    WasBelow(log, top, id, after);
    if out.base.Some? {
      var held: Record :| held.version == out.base.value && Succeeds(log, id, held, after, out.sent);
      SucceedsStill(log, id, held, after, out.sent, commit);
    }
  }

  lemma OutStill(log: seq<Commit>, top: int, id: Id, out: Out, commit: Commit)
    requires Committed(log, top) && commit.record.version > top && OutGood(log, id, out)
    ensures OutGood(log + [commit], id, out)
  {
    hide Committed, Honest, Made;
    HonestStill(log, commit, id, out.read);
    if out.stage.Answered? && out.stage.version.Some? {
      var after: Record :| after.version == out.stage.version.value && Made(log, id, out, after);
      MadeStill(log, top, id, out, after, commit);
    }
  }

  lemma GoodStill(log: seq<Commit>, top: int, id: Id, p: Replica, commit: Commit)
    requires Committed(log, top) && commit.record.version > top && Good(log, id, p)
    ensures Good(log + [commit], id, p)
  {
    hide Committed, Honest, OutGood;
    if p.doc.Some? { HonestStill(log, commit, id, p.doc.value); }
    if p.out.Some? { OutStill(log, top, id, p.out.value, commit); }
  }

  /** Writing to the log keeps every copy. */
  lemma LogKeeps(w: World, id: Id, commit: Commit)
    requires Inv(w, id) && commit.record.version > w.top && Follows(Replayed(w.log), commit)
    ensures Inv(w.(log := w.log + [commit], top := commit.record.version), id)
  {
    CommittedSnoc(w.log, w.top, commit);
    hide Committed, Good;
    forall r | r in w.replicas
      ensures Good(w.log + [commit], id, w.replicas[r])
    {
      GoodStill(w.log, w.top, id, w.replicas[r], commit);
    }
  }

  // --- Ingesting ---

  /**
   * The copy reads as the change ingested exactly when it replaces the copy, or every field of the copy without
   * a pending edit is one the change carries.
   */
  lemma IngestReads(doc: LocalDoc, record: Record, created: bool)
    requires WellFormed(doc) && !doc.deleting && !record.deleted
    requires doc.version.Some? ==> doc.version.value <= record.version
    ensures var after := Ingest(Some(doc), Reads(created, record.fields, Some(record.version), false));
            && after.Some? && !after.value.deleting
            && (ReadsAs(after.value, record) <==>
                (created && doc.prev == map[]) || doc.fields.Keys - doc.prev.Keys <= record.fields.Keys)
            && (ReadsAs(after.value, record) <==> Covers(after.value, record.fields))
  {
    var after := Ingest(Some(doc), Reads(created, record.fields, Some(record.version), false)).value;
    if ReadsAs(after, record) {
      forall k | k in after.fields && k !in after.prev
        ensures k in record.fields
      {
        assert FieldOf(after.fields, k) == FieldOf(record.fields, k);
      }
    }
  }

  lemma ReportKeeps(log: seq<Commit>, id: Id, p: Replica, commit: Commit, created: bool)
    requires (p.doc.Some? ==> CopyGood(log, id, p.doc.value)) && commit in log && commit.id == id
    requires Careful(p, Report("", commit, created))
    ensures var after := Ingest(p.doc, Reading(commit, created)); after.Some? ==> CopyGood(log, id, after.value)
  {
    var after := Ingest(p.doc, Reading(commit, created));
    if after.Some? && after != p.doc {
      assert Was(log, id, commit.record);
      if p.doc.Some? {
        IngestReads(p.doc.value, commit.record, created);
      } else {
        assert ReadsAs(after.value, commit.record);
      }
      hide Ingest, Covers, ReadsAs;
    }
  }

  // --- Editing and sending ---

  lemma EditKeeps(log: seq<Commit>, id: Id, doc: LocalDoc, edit: Fields)
    requires CopyGood(log, id, doc)
    ensures CopyGood(log, id, Edited(doc, edit))
  {
    hide Was;
    if doc.version.Some? {
      var record :| Was(log, id, record) && ReadsAs(doc, record);
      assert ReadsAs(Edited(doc, edit), record);
    }
  }

  // --- The server's side ---

  /** An accepted update with a base succeeds it, and changes only what it sends. */
  lemma TakenMakes(w: World, id: Id, out: Out, clock: int)
    requires Inv(w, id) && OutGood(w.log, id, out) && !out.created
    ensures var (v, stage) := Taken(w, id, out, clock);
            && Committed(v.log, v.top) && v.replicas == w.replicas
            && (v.log == w.log || exists commit ::
                  v.log == w.log + [commit] && commit.record.version > w.top && Follows(Replayed(w.log), commit)
                    && v.top == commit.record.version)
            && (stage.Answered? && stage.version.Some? ==>
                  && stage.data == out.sent && v.log != w.log
                  && id in Replayed(v.log) && Replayed(v.log)[id].version == stage.version.value
                      && Made(v.log, id, out, Replayed(v.log)[id]))
  {
    var (v, stage) := Taken(w, id, out, clock);
    if v.log != w.log {
      var base := Replayed(w.log)[id];
      var commit := Commit(id, false, Record(NextVersion(clock, w.top), false, base.fields + out.sent));
      assert v.log == w.log + [commit];
      CommittedSnoc(w.log, w.top, commit);
      ReplayedSnoc(w.log, commit);
      CurrentWas(w.log, w.top, id);
      WasStill(w.log, commit, id, base);
      WasBelow(w.log, w.top, id, base);
      BetweenNothing(w.log, w.top, id, commit);
      if out.base.Some? {
        assert Succeeds(v.log, id, base, commit.record, out.sent);
      }
    } else {
      CommittedBelow(w.log, w.top, v.top);
    }
  }

  lemma BetweenNothing(log: seq<Commit>, top: int, id: Id, commit: Commit)
    requires Committed(log, top) && id in Replayed(log) && top < commit.record.version
    ensures forall c <- log + [commit] :: c.id == id ==>
        c.record.version <= Replayed(log)[id].version || commit.record.version <= c.record.version
  {
    forall c | c in log + [commit] && c.id == id
      ensures c.record.version <= Replayed(log)[id].version || commit.record.version <= c.record.version
    {
      if c in log { CurrentIsNewest(log, top, c); }
    }
  }

  lemma PostedMakes(w: World, id: Id, out: Out, clock: int)
    requires Inv(w, id) && OutGood(w.log, id, out) && out.add && out.stage.Asked?
    ensures var (v, q) := Posted(w, id, out, clock);
            && Committed(v.log, v.top) && v.replicas == w.replicas && OutGood(v.log, id, q)
            && (v == w || exists commit ::
                  v.log == w.log + [commit] && commit.record.version > w.top && Follows(Replayed(w.log), commit)
                    && v.top == commit.record.version)
  {
    if id !in Replayed(w.log) {
      var commit := Commit(id, true, Record(NextVersion(clock, w.top), false, out.sent));
      CommittedSnoc(w.log, w.top, commit);
      WasStill(w.log, commit, id, commit.record);
      HonestStill(w.log, commit, id, out.read);
      var (v, q) := Posted(w, id, out, clock);
      assert v.log == w.log + [commit];
      assert Made(v.log, id, q, commit.record);
      hide Honest, Made, Committed;
    }
  }

  // --- Confirming ---

  lemma ConfirmReadsSame(doc: LocalDoc, out: Out, after: Record)
    requires WellFormed(doc) && ReadsAs(doc, after)
    requires out.stage == Answered(Some(after.version), out.sent)
    requires forall k <- out.sent :: FieldOf(after.fields, k) == Some(out.sent[k])
    ensures ReadsAs(ConfirmedDoc(doc, out), after)
  {
  }

  lemma ConfirmReadsNext(doc: LocalDoc, sent: Fields, base: Record, after: Record)
    requires WellFormed(doc) && ReadsAs(doc, base) && after.fields == base.fields + sent
    requires forall k <- sent :: k in doc.prev || FieldOf(doc.fields, k) == Some(sent[k])
    ensures ReadsAs(ConfirmedUpdate(doc, sent, Some(after.version)), after)
  {
  }

  lemma ConfirmReadsNew(doc: LocalDoc, sent: Fields, after: Record)
    requires WellFormed(doc) && Covers(doc, sent) && after.fields == sent
    ensures ReadsAs(ConfirmedAdd(doc, sent, sent, Some(after.version)), after)
  {
  }

  lemma UnansweredReads(doc: LocalDoc, sent: Fields, held: Record)
    requires WellFormed(doc) && ReadsAs(doc, held) && AllEditedAgain(doc, sent)
    ensures ReadsAs(ConfirmedUpdate(doc, sent, None), held)
  {
    assert Unsent(doc, sent) == doc.prev.Keys;
  }

  lemma ConfirmedIsGood(doc: LocalDoc, out: Out)
    requires WellFormed(doc) && out.stage.Answered?
    ensures WellFormed(ConfirmedDoc(doc, out)) && ConfirmedDoc(doc, out).deleting == doc.deleting
    ensures ConfirmedDoc(doc, out).version == if out.stage.version.Some? then out.stage.version else doc.version
  {
    EditsSurvive(doc, Removed, out.sent, out.stage.version, map[]);
    ConfirmedAddWellFormed(doc, out.sent, out.stage.data, out.stage.version);
  }

  lemma ConfirmKeeps(log: seq<Commit>, top: int, id: Id, doc: LocalDoc, out: Out)
    requires Committed(log, top) && CopyGood(log, id, doc) && OutGood(log, id, out)
    requires out.stage.Answered? && SafeToConfirm(doc, out)
    ensures CopyGood(log, id, ConfirmedDoc(doc, out))
  {
    ConfirmedIsGood(doc, out);
    hide Committed, Was, ReadsAs, ConfirmedUpdate, ConfirmedAdd, Succeeds, Covers, AllEditedAgain;
    if out.stage.version.None? {
      if !out.add && doc.version.Some? {
        var held :| Was(log, id, held) && ReadsAs(doc, held);
        UnansweredReads(doc, out.sent, held);
      }
    } else {
      var after: Record :| after.version == out.stage.version.value && Made(log, id, out, after);
      if doc.version == out.stage.version {
        var held :| Was(log, id, held) && ReadsAs(doc, held);
        assert held.version == after.version by { VersionIs(doc, held); }
        OneRecord(log, top, id, held, after);
        ConfirmReadsSame(doc, out, after);
      } else if out.add {
        ConfirmReadsNew(doc, out.sent, after);
      } else {
        var held :| Was(log, id, held) && ReadsAs(doc, held);
        var base: Record :| base.version == out.base.value && Succeeds(log, id, base, after, out.sent);
        assert Was(log, id, base) && after.fields == base.fields + out.sent
            by { Succeeding(log, id, base, after, out.sent); }
        assert held.version == base.version by { VersionIs(doc, held); }
        OneRecord(log, top, id, held, base);
        ConfirmReadsNext(doc, out.sent, base, after);
      }
    }
  }

  lemma VersionIs(doc: LocalDoc, held: Record)
    requires ReadsAs(doc, held)
    ensures doc.version == Some(held.version)
  {
  }

  lemma Succeeding(log: seq<Commit>, id: Id, base: Record, after: Record, sent: Fields)
    requires Succeeds(log, id, base, after, sent)
    ensures Was(log, id, base) && after.fields == base.fields + sent && base.version < after.version
  {
  }

  // --- Every careful step keeps the copies honest ---

  lemma InvCopies(w: World, id: Id)
    requires Inv(w, id)
    ensures Committed(w.log, w.top) && WellFormedAll(w) && forall r :: Good(w.log, id, ReplicaAt(w, r))
  {
    hide Committed, Honest, OutGood;
    forall r
      ensures Good(w.log, id, ReplicaAt(w, r))
    {
      if r in w.replicas { assert Good(w.log, id, w.replicas[r]); }
    }
  }

  lemma CopyKeeps(w: World, id: Id, r: string, p: Replica)
    requires Inv(w, id) && Good(w.log, id, p)
    ensures Inv(WithCopy(w, r, p), id)
  {
    hide Committed, Good;
  }

  lemma PushedIsGood(log: seq<Commit>, id: Id, doc: LocalDoc)
    requires CopyGood(log, id, doc)
    ensures OutGood(log, id, Pushed(doc)) && OutGood(log, id, Out(true, doc.fields, None, doc, false, Asked))
  {
    hide Honest;
  }

  lemma MoveKeeps(log: seq<Commit>, top: int, id: Id, p: Replica, step: Step)
    requires Committed(log, top) && Good(log, id, p) && !step.Write? && !step.Post? && !step.Put?
    requires step.Report? ==> step.commit in log && step.commit.id == id
    requires step.Confirm? ==> p.out.Some? && p.out.value.stage.Answered?
    requires (step.Give? || step.Refuse?) ==> p.out.Some?
    requires (step.Edit? || step.Send? || step.SendAdd?) ==> p.doc.Some?
    requires Careful(p, step)
    ensures Good(log, id, Moved(p, step))
  {
    hide Honest, OutGood, Committed;
    match step {
      case Create(_, fields) => assert Honest(log, id, NewDoc(fields)) by { Unversioned(log, id, NewDoc(fields)); }
      case Edit(_, edit) => EditKeeps(log, id, p.doc.value, edit);
      case Report(_, commit, created) => ReportKeeps(log, id, p, commit, created);
      case SendAdd(_) => PushedIsGood(log, id, p.doc.value);
      case Send(_) => PushedIsGood(log, id, p.doc.value);
      case Confirm(_) => if p.doc.Some? { ConfirmKeeps(log, top, id, p.doc.value, p.out.value); }
      case Refuse(_) => if p.doc.Some? { RefuseKeeps(log, id, p.doc.value, p.out.value.add); }
      case _ =>
    }
  }

  lemma Unversioned(log: seq<Commit>, id: Id, doc: LocalDoc)
    requires doc.version.None?
    ensures Honest(log, id, doc)
  {
  }

  lemma RefuseKeeps(log: seq<Commit>, id: Id, doc: LocalDoc, add: bool)
    requires CopyGood(log, id, doc) && (add || doc.version.None? || doc.prev == map[])
    ensures CopyGood(log, id, RefusedDoc(doc, if add then Outbox.Add else Outbox.Update))
  {
    hide Was;
    if doc.version.Some? {
      var held :| Was(log, id, held) && ReadsAs(doc, held);
      assert ReadsAs(RefusedDoc(doc, if add then Outbox.Add else Outbox.Update), held);
    }
  }

  lemma AnsweredIsGood(log: seq<Commit>, id: Id, out: Out, stage: Stage, wrapped: Option<Value>)
    requires OutGood(log, id, out) && !out.created
    requires stage.Answered? && stage.version.Some? ==> stage.data == out.sent && exists after: Record ::
               after.version == stage.version.value && Made(log, id, out, after)
    ensures OutGood(log, id, out.(stage := Heard(out, stage, wrapped)))
  {
    hide Honest;
    var q := out.(stage := Heard(out, stage, wrapped));
    if q.stage.Answered? && q.stage.version.Some? {
      var after: Record :| after.version == stage.version.value && Made(log, id, out, after);
      assert Made(log, id, q, after);
    }
  }

  lemma PutKeeps(w: World, id: Id, r: string, clock: int, wrapped: Option<Value>)
    requires Inv(w, id) && WellFormedAll(w) && Enabled(w, id, Put(r, clock, wrapped))
    ensures Inv(Next(w, id, Put(r, clock, wrapped)), id)
  {
    InvCopies(w, id);
    var p := ReplicaAt(w, r);
    var out := p.out.value;
    assert !out.created by { hide Honest, Made; }
    TakenMakes(w, id, out, clock);
    var (v, stage) := Taken(w, id, out, clock);
    hide Committed, Honest, Made, Taken, Heard, OutGood;
    if v.log != w.log {
      var commit :| v.log == w.log + [commit] && commit.record.version > w.top && Follows(Replayed(w.log), commit)
          && v.top == commit.record.version;
      LogKeeps(w, id, commit);
      OutStill(w.log, w.top, id, out, commit);
      GoodStill(w.log, w.top, id, p, commit);
    }
    AnsweredIsGood(v.log, id, out, stage, wrapped);
    CopyKeeps(v, id, r, p.(out := Some(out.(stage := Heard(out, stage, wrapped)))));
  }

  lemma PostKeeps(w: World, id: Id, r: string, clock: int)
    requires Inv(w, id) && WellFormedAll(w) && Enabled(w, id, Post(r, clock))
    ensures Inv(Next(w, id, Post(r, clock)), id)
  {
    InvCopies(w, id);
    var p := ReplicaAt(w, r);
    PostedMakes(w, id, p.out.value, clock);
    var (v, out) := Posted(w, id, p.out.value, clock);
    hide Committed, Honest, Made, Posted, OutGood;
    if v != w {
      var commit :| v.log == w.log + [commit] && commit.record.version > w.top && Follows(Replayed(w.log), commit)
          && v.top == commit.record.version;
      LogKeeps(w, id, commit);
      GoodStill(w.log, w.top, id, p, commit);
    }
    CopyKeeps(v, id, r, p.(out := Some(out)));
  }

  lemma StepKeeps(w: World, id: Id, step: Step)
    requires Inv(w, id) && WellFormedAll(w) && Enabled(w, id, step)
    requires !step.Write? ==> Careful(ReplicaAt(w, step.r), step)
    ensures Inv(Next(w, id, step), id) && WellFormedAll(Next(w, id, step))
  {
    InvCopies(w, id);
    hide Good, Committed, Careful;
    match step {
      case Write(commit) => LogKeeps(w, id, commit);
      case Post(r, clock) => PostKeeps(w, id, r, clock);
      case Put(r, clock, wrapped) => PutKeeps(w, id, r, clock, wrapped);
      case _ =>
        MoveKeeps(w.log, w.top, id, ReplicaAt(w, step.r), step);
        CopyKeeps(w, id, step.r, Moved(ReplicaAt(w, step.r), step));
    }
    InvCopies(Next(w, id, step), id);
  }

  // --- Main results ---

  const NOTHING := World([], 0, map[])

  ghost predicate Run(w: World, id: Id, steps: seq<Step>, v: World)
    decreases |steps|
  {
    if steps == [] then w == v
    else WellFormedAll(w) && Enabled(w, id, steps[0]) && Run(Next(w, id, steps[0]), id, steps[1..], v)
  }

  /** A run whose every step passes what the device can check. */
  ghost predicate CarefulRun(w: World, id: Id, steps: seq<Step>, v: World)
    decreases |steps|
  {
    if steps == [] then w == v
    else
      && WellFormedAll(w) && Enabled(w, id, steps[0])
      && (!steps[0].Write? ==> WellFormedAll(w) && Careful(ReplicaAt(w, steps[0].r), steps[0]))
      && CarefulRun(Next(w, id, steps[0]), id, steps[1..], v)
  }

  lemma {:induction false} RunKeeps(w: World, id: Id, steps: seq<Step>, v: World)
    requires Inv(w, id) && WellFormedAll(w) && CarefulRun(w, id, steps, v)
    ensures Inv(v, id) && WellFormedAll(v)
    decreases |steps|
  {
    hide Inv, Enabled, Next, WellFormedAll, Careful;
    if steps != [] {
      StepKeeps(w, id, steps[0]);
      RunKeeps(Next(w, id, steps[0]), id, steps[1..], v);
    }
  }

  lemma NothingYet(id: Id)
    ensures Inv(NOTHING, id) && WellFormedAll(NOTHING)
  {
  }

  /**
   * Over every careful run, a copy with a version reads, outside its unconfirmed edits, as the server did at
   * that version.
   */
  lemma CopiesReadAsTheServerDid(id: Id, steps: seq<Step>, v: World, r: string)
    requires CarefulRun(NOTHING, id, steps, v) && r in v.replicas && v.replicas[r].doc.Some?
    ensures Honest(v.log, id, v.replicas[r].doc.value)
  {
    NothingYet(id);
    RunKeeps(NOTHING, id, steps, v);
    assert Good(v.log, id, v.replicas[r]);
  }

  /** So two devices at one version with nothing pending show the same document, and the server's at its version. */
  lemma DevicesAgree(id: Id, steps: seq<Step>, v: World, a: string, b: string)
    requires CarefulRun(NOTHING, id, steps, v) && a in v.replicas && b in v.replicas
    requires var p, q := v.replicas[a].doc, v.replicas[b].doc;
             p.Some? && q.Some? && p.value.prev == map[] && q.value.prev == map[] && p.value.version.Some?
               && p.value.version == q.value.version
    ensures v.replicas[a].doc.value.fields == v.replicas[b].doc.value.fields
    ensures id in Replayed(v.log) && v.replicas[a].doc.value.version == Some(Replayed(v.log)[id].version)
            ==> v.replicas[a].doc.value.fields == Replayed(v.log)[id].fields
  {
    NothingYet(id);
    RunKeeps(NOTHING, id, steps, v);
    var p, q := v.replicas[a].doc.value, v.replicas[b].doc.value;
    CopiesReadAsTheServerDid(id, steps, v, a);
    CopiesReadAsTheServerDid(id, steps, v, b);
    var held :| Was(v.log, id, held) && ReadsAs(p, held);
    var also :| Was(v.log, id, also) && ReadsAs(q, also);
    OneRecord(v.log, v.top, id, held, also);
    SameFields(p.fields, q.fields);
    if id in Replayed(v.log) && p.version == Some(Replayed(v.log)[id].version) {
      CurrentWas(v.log, v.top, id);
      OneRecord(v.log, v.top, id, held, Replayed(v.log)[id]);
      SameFields(p.fields, Replayed(v.log)[id].fields);
    }
  }

  /**
   * An accepted write replaces a version its device had not rebased onto only when it was sent without a
   * base: otherwise the copy it was read from reads as the record it replaces, and what the server makes
   * of that differs only in the edits.
   */
  lemma NoBlindOverwrite(id: Id, steps: seq<Step>, w: World, r: string, clock: int, wrapped: Option<Value>)
    requires CarefulRun(NOTHING, id, steps, w) && WellFormedAll(w) && Enabled(w, id, Put(r, clock, wrapped))
    ensures var v, out := Next(w, id, Put(r, clock, wrapped)), ReplicaAt(w, r).out.value;
            v.log != w.log ==>
              && id in Replayed(w.log) && !Replayed(w.log)[id].deleted && id in Replayed(v.log)
              && Replayed(v.log)[id].fields == Replayed(w.log)[id].fields + out.sent
              && (out.base.None? || (WellFormed(out.read) && ReadsAs(out.read, Replayed(w.log)[id])
                  && out.sent == Unconfirmed(out.read)))
  {
    NothingYet(id);
    RunKeeps(NOTHING, id, steps, w);
    InvCopies(w, id);
    var out, v := ReplicaAt(w, r).out.value, Next(w, id, Put(r, clock, wrapped));
    assert OutGood(w.log, id, out);
    if v.log != w.log {
      var current := Replayed(w.log)[id];
      ReplayedSnoc(w.log, Commit(id, false, Record(NextVersion(clock, w.top), false, current.fields + out.sent)));
      if out.base.Some? {
        var held :| Was(w.log, id, held) && ReadsAs(out.read, held);
        CurrentWas(w.log, w.top, id);
        OneRecord(w.log, w.top, id, held, current);
      }
    }
  }

  // --- Edits reach the server ---

  function EditGives(step: Step, r: string, k: string): Option<Value> {
    match step
    case Edit(at, edit) => if at == r then FieldOf(edit, k) else None
    case _ => None
  }

  /** The last value a run gives to a field on device `r`. */
  function LastEdit(steps: seq<Step>, r: string, k: string): Option<Value> {
    if steps == [] then None
    else
      var later := LastEdit(steps[1..], r, k);
      if later.Some? then later else EditGives(steps[0], r, k)
  }

  predicate Settles(step: Step, r: string) {
    match step
    case Confirm(at) => at == r
    case Refuse(at) => at == r
    case _ => false
  }

  /** The copy stays on the device, and no answer is applied to it. */
  ghost predicate Stays(w: World, id: Id, steps: seq<Step>, r: string)
    decreases |steps|
  {
    ReplicaAt(w, r).doc.Some? &&
    (steps != [] ==>
       && WellFormedAll(w) && Enabled(w, id, steps[0]) && !Settles(steps[0], r)
       && Stays(Next(w, id, steps[0]), id, steps[1..], r))
  }

  lemma EditsStayOn(w: World, id: Id, step: Step, r: string, k: string)
    requires WellFormedAll(w) && Enabled(w, id, step) && !Settles(step, r)
    requires ReplicaAt(w, r).doc.Some? && ReplicaAt(Next(w, id, step), r).doc.Some?
    ensures var before, after := ReplicaAt(w, r).doc.value, ReplicaAt(Next(w, id, step), r).doc.value;
            && WellFormed(before) && WellFormed(after)
            && FieldOf(Unconfirmed(after), k)
               == if EditGives(step, r, k).Some? then EditGives(step, r, k) else FieldOf(Unconfirmed(before), k)
  {
    var before, after := ReplicaAt(w, r).doc.value, ReplicaAt(Next(w, id, step), r).doc.value;
    if step.Edit? { EditAdds(before, step.edit); }
    hide WellFormedAll, Replayed, Ingest, Edited, Follows;
    assert r in w.replicas && WellFormed(before);
  }

  /** Whatever the server and other devices do, what was edited last on a copy is what it would send. */
  lemma {:induction false} EditsStay(w: World, id: Id, steps: seq<Step>, v: World, r: string, k: string)
    requires Run(w, id, steps, v) && Stays(w, id, steps, r) && WellFormedAll(w) && WellFormedAll(v)
    ensures ReplicaAt(v, r).doc.Some? && WellFormed(ReplicaAt(w, r).doc.value) && WellFormed(ReplicaAt(v, r).doc.value)
    ensures FieldOf(Unconfirmed(ReplicaAt(v, r).doc.value), k)
        == if LastEdit(steps, r, k).Some? then LastEdit(steps, r, k)
            else FieldOf(Unconfirmed(ReplicaAt(w, r).doc.value), k)
    decreases |steps|
  {
    if steps != [] {
      var next := Next(w, id, steps[0]);
      assert ReplicaAt(next, r).doc.Some? && (steps[1..] == [] ==> next == v);
      EditsStayOn(w, id, steps[0], r, k);
      hide Enabled, Next, Unconfirmed, EditGives, Settles;
      assert WellFormedAll(next) by { if steps[1..] == [] { assert next == v; } }
      EditsStay(next, id, steps[1..], v, r, k);
    }
  }

  /**
   * So the next update of the copy, once accepted, leaves every field on the server with the value last given
   * to it, and every field that is not edited as it was.
   */
  lemma LastEditReachesServer(w: World, id: Id, steps: seq<Step>, v: World, r: string, k: string, clock: int)
    requires Run(w, id, steps, v) && Stays(w, id, steps, r) && WellFormedAll(w) && WellFormedAll(v)
    requires Enabled(v, id, Send(r)) && WellFormedAll(Next(v, id, Send(r)))
    ensures var sent := Next(v, id, Send(r)); var x := Next(sent, id, Put(r, clock, None));
            WellFormed(ReplicaAt(w, r).doc.value) && (x.log != v.log ==>
              && id in Replayed(v.log) && id in Replayed(x.log)
              && FieldOf(Replayed(x.log)[id].fields, k)
                 == if LastEdit(steps, r, k).Some? then LastEdit(steps, r, k)
                    else if k in ReplicaAt(w, r).doc.value.prev then FieldOf(ReplicaAt(w, r).doc.value.fields, k)
                    else FieldOf(Replayed(v.log)[id].fields, k))
  {
    EditsStay(w, id, steps, v, r, k);
    SentIsTaken(v, id, r, clock);
    hide Run, Stays, LastEdit, Replayed, Next, Enabled, WellFormedAll;
    ReadsUnconfirmed(ReplicaAt(w, r).doc.value, k);
  }

  lemma ReadsUnconfirmed(doc: LocalDoc, k: string)
    requires WellFormed(doc)
    ensures FieldOf(Unconfirmed(doc), k) == if k in doc.prev then FieldOf(doc.fields, k) else None
  {
  }

  /** An update sent and accepted puts exactly the edited fields on what the server has. */
  lemma SentIsTaken(v: World, id: Id, r: string, clock: int)
    requires WellFormedAll(v) && Enabled(v, id, Send(r)) && WellFormedAll(Next(v, id, Send(r)))
    ensures var sent := Next(v, id, Send(r)); var x := Next(sent, id, Put(r, clock, None));
            WellFormed(ReplicaAt(v, r).doc.value) && (x.log != v.log ==>
              && id in Replayed(v.log) && id in Replayed(x.log)
              && Replayed(x.log)[id].fields
                 == Replayed(v.log)[id].fields + Unconfirmed(ReplicaAt(v, r).doc.value))
  {
    assert r in v.replicas;
    var out := Pushed(ReplicaAt(v, r).doc.value);
    var sent := Next(v, id, Send(r));
    assert ReplicaAt(sent, r).out == Some(out) && sent.log == v.log;
    if id in Replayed(v.log) {
      ReplayedSnoc(v.log, Commit(id, false,
          Record(NextVersion(clock, v.top), false, Replayed(v.log)[id].fields + out.sent)));
    }
    hide Replayed;
  }

  /**
   * The server takes an update that is sent without a base, or on the base the document still has; another base is
   * a conflict, and a document that is not there takes nothing and is answered without a version.
   */
  lemma UpdateIsTaken(w: World, id: Id, out: Out, clock: int)
    ensures var (v, stage) := Taken(w, id, out, clock);
            var live := id in Replayed(w.log) && !Replayed(w.log)[id].deleted;
            var fits := out.base.None? || (live && Replayed(w.log)[id].version == out.base.value);
            && (|v.log| > |w.log| <==> live && fits) && (stage.Conflicted? <==> live && !fits)
            && (!live ==> stage == Answered(None, out.sent)) && v.replicas == w.replicas
            && (live && fits ==>
                  && v.top > w.top && stage == Answered(Some(v.top), out.sent)
                  && Replayed(v.log) == Replayed(w.log)[id :=
                      Record(v.top, false, Replayed(w.log)[id].fields + out.sent)])
            && (v.log == w.log ==> w.top <= v.top)
  {
    if id in Replayed(w.log) {
      ReplayedSnoc(w.log, Commit(id, false,
          Record(NextVersion(clock, w.top), false, Replayed(w.log)[id].fields + out.sent)));
    }
    hide Replayed;
  }

  /** A new document that is sent is on the server as it was on the device, unless its id is taken there. */
  lemma AddIsPosted(w: World, id: Id, r: string, clock: int)
    requires WellFormedAll(w) && Enabled(w, id, SendAdd(r)) && WellFormedAll(Next(w, id, SendAdd(r)))
    ensures var sent := Next(w, id, SendAdd(r));
            && Enabled(sent, id, Post(r, clock)) && sent.log == w.log
            && (var v := Next(sent, id, Post(r, clock));
                var out := ReplicaAt(v, r).out;
                && out.Some? && ReplicaAt(v, r).doc == ReplicaAt(w, r).doc
                && (id in Replayed(w.log) ==> v.log == w.log && v.top == w.top && out.value.stage.Exists?)
                && (id !in Replayed(w.log) ==>
                      && v.top > w.top && out.value.stage == Answered(Some(v.top), ReplicaAt(w, r).doc.value.fields)
                      && Replayed(v.log)
                         == Replayed(w.log)[id := Record(v.top, false, ReplicaAt(w, r).doc.value.fields)]))
  {
    var fields := ReplicaAt(w, r).doc.value.fields;
    ReplayedSnoc(w.log, Commit(id, true, Record(NextVersion(clock, w.top), false, fields)));
    hide Replayed, WellFormedAll;
    assert ReplicaAt(Next(w, id, SendAdd(r)), r).out.Some?;
  }

  /** Whatever the answer, nothing is out any more, and an add that was answered is not sent again. */
  lemma AnswerSettles(w: World, id: Id, step: Step)
    requires WellFormedAll(w) && Enabled(w, id, step) && (step.Confirm? || step.Refuse? || step.Give?)
    ensures var before, after := ReplicaAt(w, step.r), ReplicaAt(Next(w, id, step), step.r);
            && after.out.None? && after.doc.Some? == before.doc.Some?
            && (after.queued <==> before.queued && (step.Give? || !before.out.value.add))
            && (after.tried <==> if step.Give? then before.tried || before.out.value.add
                                 else before.tried && !before.out.value.add)
            && (step.Give? ==> after.doc == before.doc)
  {
    hide WellFormedAll, Replayed;
    assert step.r in w.replicas && (w.replicas[step.r].doc.Some? ==> WellFormed(w.replicas[step.r].doc.value)) by {
      CopyIsWellFormed(w, step.r);
    }
  }

  lemma CopyIsWellFormed(w: World, r: string)
    requires WellFormedAll(w) && r in w.replicas
    ensures w.replicas[r].doc.Some? ==> WellFormed(w.replicas[r].doc.value)
  {
  }

  // --- The checks are exact ---

  /**
   * What the server may hold, as far as the device knows: its copy reads as `held`, and its update made
   * `after` of `base`.
   */
  ghost predicate Possible(doc: LocalDoc, sent: Fields, from: int, to: int, held: Record, base: Record, after: Record) {
    && ReadsAs(doc, held) && base.version == from && after.version == to && after.fields == base.fields + sent
    && (held.version == from ==> held == base) && (held.version == to ==> held == after)
  }

  /**
   * Confirming an update leaves the copy as the server has it, whatever that is, exactly when copy and answer
   * line up.
   */
  lemma ConfirmIsSafe(doc: LocalDoc, sent: Fields, from: int, to: int)
    requires WellFormed(doc) && doc.version.Some? && from < to
    ensures LinesUp(doc, sent, Some(from), to) <==>
              forall held, base, after :: Possible(doc, sent, from, to, held, base, after) ==>
                  ReadsAs(ConfirmedUpdate(doc, sent, Some(to)), after)
  {
    if LinesUp(doc, sent, Some(from), to) {
      forall held, base, after | Possible(doc, sent, from, to, held, base, after)
        ensures ReadsAs(ConfirmedUpdate(doc, sent, Some(to)), after)
      {
        ConfirmLinedUp(doc, sent, from, to, held, base, after);
      }
    } else {
      var held, base, after := ConfirmMisread(doc, sent, from, to);
    }
  }

  lemma ConfirmLinedUp(doc: LocalDoc, sent: Fields, from: int, to: int, held: Record, base: Record, after: Record)
    requires WellFormed(doc) && LinesUp(doc, sent, Some(from), to) && Possible(doc, sent, from, to, held, base, after)
    ensures ReadsAs(ConfirmedUpdate(doc, sent, Some(to)), after)
  {
    if doc.version == Some(to) {
      assert held == after;
    } else {
      ConfirmReadsNext(doc, sent, base, after);
    }
  }

  lemma ConfirmMisread(doc: LocalDoc, sent: Fields, from: int, to: int)
      returns (held: Record, base: Record, after: Record)
    requires WellFormed(doc) && doc.version.Some? && from < to && !LinesUp(doc, sent, Some(from), to)
    ensures Possible(doc, sent, from, to, held, base, after) && !ReadsAs(ConfirmedUpdate(doc, sent, Some(to)), after)
  {
    held := Record(doc.version.value, false, doc.fields);
    var confirmed := ConfirmedUpdate(doc, sent, Some(to));
    if held.version == from {
      base, after := held, Record(to, false, doc.fields + sent);
      var k :| k in sent && k !in doc.prev && FieldOf(doc.fields, k) != Some(sent[k]);
      assert FieldOf(confirmed.fields, k) != FieldOf(after.fields, k);
    } else {
      var name := NewName(doc.fields.Keys);
      base := Record(from, false, map[name := Null]);
      after := Record(to, false, base.fields + sent);
      assert name in after.fields && name !in confirmed.fields && name !in confirmed.prev;
      assert FieldOf(confirmed.fields, name) != FieldOf(after.fields, name);
    }
  }

  /** Confirming a new document leaves the copy as the server has it exactly when the copy has no other field. */
  lemma AddIsSafe(doc: LocalDoc, sent: Fields, after: Record)
    requires WellFormed(doc) && after.fields == sent
    ensures Covers(doc, sent) <==> ReadsAs(ConfirmedAdd(doc, sent, sent, Some(after.version)), after)
  {
    if Covers(doc, sent) {
      ConfirmReadsNew(doc, sent, after);
    } else {
      var k :| k in doc.fields && k !in doc.prev && k !in sent;
      assert FieldOf(ConfirmedAdd(doc, sent, sent, Some(after.version)).fields, k) != FieldOf(after.fields, k);
    }
  }

  /**
   * An answer without a version, as a tombstone gives, leaves the copy as the server had it, whatever
   * that is, exactly when everything sent was edited again.
   */
  lemma UnansweredIsSafe(doc: LocalDoc, sent: Fields)
    requires WellFormed(doc) && doc.version.Some?
    ensures AllEditedAgain(doc, sent) <==> forall held :: ReadsAs(doc, held) ==>
        ReadsAs(ConfirmedUpdate(doc, sent, None), held)
  {
    var confirmed := ConfirmedUpdate(doc, sent, None);
    if AllEditedAgain(doc, sent) {
      forall held | ReadsAs(doc, held)
        ensures ReadsAs(confirmed, held)
      {
        UnansweredReads(doc, sent, held);
      }
    } else {
      var k :| k in sent && k in doc.prev && doc.fields[k] == sent[k];
      var held := Record(doc.version.value, false, doc.fields - {k});
      assert ReadsAs(doc, held);
      assert FieldOf(confirmed.fields, k) != FieldOf(held.fields, k);
    }
  }

  /** A copy without a version claims nothing: any answer without one may be applied to it. */
  lemma UnversionedIsSafe(doc: LocalDoc, out: Out)
    requires WellFormed(doc) && doc.version.None? && out.stage.Answered? && out.stage.version.None?
    ensures SafeToConfirm(doc, out) && ConfirmedDoc(doc, out).version.None?
  {
  }

  /** A refused update leaves the copy as the server had it, whatever that is, exactly when nothing was pending. */
  lemma RefusalIsSafe(doc: LocalDoc)
    requires WellFormed(doc) && doc.version.Some?
    ensures doc.prev == map[] <==> forall held :: ReadsAs(doc, held) ==> ReadsAs(RefusedDoc(doc, Outbox.Update), held)
  {
    if doc.prev != map[] {
      var k :| k in doc.prev;
      var held := Record(doc.version.value, false, doc.fields - {k});
      assert ReadsAs(doc, held);
      assert FieldOf(RefusedDoc(doc, Outbox.Update).fields, k) != FieldOf(held.fields, k);
    }
  }

  // --- Undisturbed runs are careful ---

  /** Writes merge fields into a document; they take none away. */
  predicate Grows(docs: Docs, commit: Commit) {
    commit.id in docs ==> docs[commit.id].fields.Keys <= commit.record.fields.Keys
  }

  ghost predicate Growing(log: seq<Commit>) {
    log == [] || (Growing(log[..|log| - 1]) && Grows(Replayed(log[..|log| - 1]), log[|log| - 1]))
  }

  /**
   * Nothing disturbs an update: no write takes a field away, no copy leaves while an update of it is out,
   * nothing newer comes between acceptance and confirmation, updates have a base and a version for an
   * answer and are not refused. Adds are only asked to be careful.
   */
  predicate Undisturbed(w: World, step: Step)
    requires !step.Write? && ReplicaAt(w, step.r).doc.Some? ==> WellFormed(ReplicaAt(w, step.r).doc.value)
  {
    match step
    case Write(commit) => Grows(Replayed(w.log), commit)
    case Report(r, commit, created) =>
      var p := ReplicaAt(w, r);
      && ((p.doc.Some? && p.doc.value.version.Some?) || Careful(p, step))
      && (p.out.Some? && !p.out.value.add ==>
            && Ingest(p.doc, Reading(commit, created)).Some?
            && (p.out.value.stage.Answered? && p.out.value.stage.version.Some? ==>
                commit.record.version <= p.out.value.stage.version.value))
    case Gone(r) => ReplicaAt(w, r).out.None? || ReplicaAt(w, r).out.value.add
    case Send(r) => ReplicaAt(w, r).doc.Some? ==> ReplicaAt(w, r).doc.value.version.Some?
    case Confirm(r) =>
      var p := ReplicaAt(w, r);
      p.out.Some? && p.out.value.stage.Answered? ==>
        if p.out.value.add then Careful(p, step) else p.out.value.stage.version.Some?
    case Refuse(r) => Careful(ReplicaAt(w, r), step)
    case _ => true
  }

  ghost predicate UndisturbedRun(w: World, id: Id, steps: seq<Step>, v: World)
    decreases |steps|
  {
    if steps == [] then w == v
    else
      && WellFormedAll(w) && Enabled(w, id, steps[0]) && Undisturbed(w, steps[0])
      && UndisturbedRun(Next(w, id, steps[0]), id, steps[1..], v)
  }

  /** The copy an update was read from is still here, at the version it is based on or the one it made. */
  predicate Awaits(doc: LocalDoc, out: Out) {
    && out.base.Some? && doc.version.Some? && out.sent != map[] && out.sent.Keys <= doc.prev.Keys
    && out.base.value <= doc.version.value
    && (out.stage.Answered? && out.stage.version.Some? ==> doc.version.value <= out.stage.version.value)
  }

  predicate Settled(p: Replica) {
    p.out.Some? && !p.out.value.add ==> p.doc.Some? && Awaits(p.doc.value, p.out.value)
  }

  ghost predicate Calm(w: World) {
    Growing(w.log) && forall r <- w.replicas :: Settled(w.replicas[r])
  }

  lemma {:induction false} FieldsGrow(log: seq<Commit>, top: int, id: Id, a: Record, b: Record)
    requires Committed(log, top) && Growing(log) && Was(log, id, a) && Was(log, id, b) && a.version <= b.version
    ensures a.fields.Keys <= b.fields.Keys
    decreases |log|
  {
    var init, last := log[..|log| - 1], log[|log| - 1];
    assert log == init + [last];
    var c :| c in log && c.id == id && c.record == a;
    var d :| d in log && d.id == id && d.record == b;
    if d in init {
      NotLater(log, top, c, d);
      FieldsGrow(init, last.record.version - 1, id, a, b);
    } else if c in init {
      CurrentIsNewest(init, last.record.version - 1, c);
      CurrentWas(init, last.record.version - 1, id);
      FieldsGrow(init, last.record.version - 1, id, a, Replayed(init)[id]);
    }
  }

  /** A commit no newer than one of the first commits is one of them. */
  lemma NotLater(log: seq<Commit>, top: int, c: Commit, d: Commit)
    requires Committed(log, top) && log != [] && c in log && d in log[..|log| - 1]
        && c.record.version <= d.record.version
    ensures c in log[..|log| - 1]
  {
    var init := log[..|log| - 1];
    var j :| 0 <= j < |init| && init[j] == d;
    assert log == init + [log[|log| - 1]];
    if c !in init {
      CommitOrder(log, top, j, |log| - 1);
    }
  }

  /** Between acceptance and confirmation an awaiting copy lines up with the answer. */
  lemma AwaitingLinesUp(log: seq<Commit>, top: int, id: Id, doc: LocalDoc, out: Out)
    requires Committed(log, top) && CopyGood(log, id, doc) && OutGood(log, id, out) && !out.add && Awaits(doc, out)
    requires out.stage.Answered? && out.stage.version.Some?
    ensures LinesUp(doc, out.sent, out.base, out.stage.version.value)
  {
    var held :| Was(log, id, held) && ReadsAs(doc, held);
    var after: Record :| after.version == out.stage.version.value && Made(log, id, out, after);
    var base: Record :| base.version == out.base.value && Succeeds(log, id, base, after, out.sent);
    hide Committed;
  }

  lemma ReportCovers(log: seq<Commit>, top: int, id: Id, doc: LocalDoc, commit: Commit, created: bool)
    requires Committed(log, top) && Growing(log) && CopyGood(log, id, doc) && doc.version.Some? && commit in log
        && commit.id == id
    ensures Careful(Replica(Some(doc), false, false, None), Report("", commit, created))
  {
    var after := Ingest(Some(doc), Reading(commit, created));
    if after.Some? && after.value != doc {
      var held :| Was(log, id, held) && ReadsAs(doc, held);
      assert Was(log, id, commit.record);
      FieldsGrow(log, top, id, held, commit.record);
      forall k | k in after.value.fields && k !in after.value.prev
        ensures k in commit.record.fields
      {
        if k in doc.fields { assert FieldOf(doc.fields, k) == FieldOf(held.fields, k); }
      }
    }
  }

  lemma UndisturbedIsCareful(w: World, id: Id, step: Step)
    requires Inv(w, id) && Calm(w) && WellFormedAll(w) && Enabled(w, id, step) && !step.Write? && Undisturbed(w, step)
    ensures Careful(ReplicaAt(w, step.r), step)
  {
    InvCopies(w, id);
    var p := ReplicaAt(w, step.r);
    assert Good(w.log, id, p) && Settled(p);
    hide Committed, Honest, OutGood, Growing, Ingest;
    match step {
      case Report(r, commit, created) =>
        if p.doc.Some? && p.doc.value.version.Some? {
          ReportCovers(w.log, w.top, id, p.doc.value, commit, created);
        }
      case Confirm(r) =>
        if !p.out.value.add && p.doc.Some? {
          AwaitingLinesUp(w.log, w.top, id, p.doc.value, p.out.value);
        }
      case _ =>
    }
  }

  lemma IngestAwaits(doc: LocalDoc, out: Out, commit: Commit, created: bool)
    requires WellFormed(doc) && Awaits(doc, out) && Ingest(Some(doc), Reading(commit, created)).Some?
    requires out.stage.Answered? && out.stage.version.Some? ==> commit.record.version <= out.stage.version.value
    ensures Awaits(Ingest(Some(doc), Reading(commit, created)).value, out)
  {
    var k :| k in out.sent;
    assert k in doc.prev;
  }

  lemma MoveSettles(p: Replica, step: Step, w: World, id: Id)
    requires WellFormedAll(w) && Enabled(w, id, step) && !step.Write? && !step.Post? && !step.Put?
        && p == ReplicaAt(w, step.r)
    requires Settled(p) && Undisturbed(w, step)
    ensures Settled(Moved(p, step))
  {
    hide Ingest;
    match step {
      case Report(_, commit, created) =>
        if p.out.Some? && !p.out.value.add { IngestAwaits(p.doc.value, p.out.value, commit, created); }
      case Send(_) => NothingUnsent(p.doc.value);
      case _ =>
    }
  }

  lemma TakenGrows(w: World, id: Id, out: Out, clock: int)
    requires Growing(w.log)
    ensures Growing(Taken(w, id, out, clock).0.log) && Taken(w, id, out, clock).0.replicas == w.replicas
  {
    var v := Taken(w, id, out, clock).0;
    if v.log != w.log { assert v.log[..|w.log|] == w.log; }
  }

  /** A copy is older than whatever the server makes next. */
  lemma AnswerAwaits(w: World, id: Id, doc: LocalDoc, out: Out, clock: int, wrapped: Option<Value>)
    requires Committed(w.log, w.top) && CopyGood(w.log, id, doc) && Awaits(doc, out) && !out.add
    ensures Awaits(doc, out.(stage := Heard(out, Taken(w, id, out, clock).1, wrapped)))
  {
    var held :| Was(w.log, id, held) && ReadsAs(doc, held);
    WasBelow(w.log, w.top, id, held);
    hide Committed;
  }

  lemma PutSettles(w: World, id: Id, r: string, clock: int, wrapped: Option<Value>)
    requires Inv(w, id) && Calm(w) && WellFormedAll(w) && Enabled(w, id, Put(r, clock, wrapped))
    ensures Calm(Next(w, id, Put(r, clock, wrapped)))
  {
    InvCopies(w, id);
    var p := ReplicaAt(w, r);
    assert Good(w.log, id, p) && Settled(p);
    TakenGrows(w, id, p.out.value, clock);
    if !p.out.value.add {
      AnswerAwaits(w, id, p.doc.value, p.out.value, clock, wrapped);
    }
    hide Committed, Good, Growing, Taken, Awaits, Heard;
  }

  lemma StepSettles(w: World, id: Id, step: Step)
    requires Inv(w, id) && Calm(w) && WellFormedAll(w) && Enabled(w, id, step) && Undisturbed(w, step)
    ensures Calm(Next(w, id, step))
  {
    hide Inv, Ingest, Careful;
    match step {
      case Write(commit) => assert (w.log + [commit])[..|w.log|] == w.log;
      case Post(r, clock) =>
        var v := Posted(w, id, ReplicaAt(w, r).out.value, clock).0;
        if v != w { assert v.log[..|w.log|] == w.log; }
      case Put(r, clock, wrapped) => PutSettles(w, id, r, clock, wrapped);
      case _ =>
        assert Settled(ReplicaAt(w, step.r));
        MoveSettles(ReplicaAt(w, step.r), step, w, id);
        hide Settled;
    }
  }

  /** So everything proved of careful runs holds of undisturbed ones. */
  lemma {:induction false} UndisturbedRunsAreCareful(w: World, id: Id, steps: seq<Step>, v: World)
    requires Inv(w, id) && Calm(w) && WellFormedAll(w) && UndisturbedRun(w, id, steps, v)
    ensures CarefulRun(w, id, steps, v)
    decreases |steps|
  {
    hide Inv, Calm, Enabled, Next, WellFormedAll, Careful, Undisturbed;
    if steps != [] {
      if !steps[0].Write? { UndisturbedIsCareful(w, id, steps[0]); }
      StepKeeps(w, id, steps[0]);
      StepSettles(w, id, steps[0]);
      UndisturbedRunsAreCareful(Next(w, id, steps[0]), id, steps[1..], v);
    }
  }
}
