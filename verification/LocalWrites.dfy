/**
 * Local-first writes end to end: the intent, the document, the queue, the send and its answer,
 * with crashes and recovery between any two steps. No pending edit is left without something that
 * will send it. packages/client/src/LivequeryClient.ts and packages/client/src/LivequeryOutbox.ts.
 *
 * One transporter, one collection, one document per call.
 */
module LocalWrites {
  import opened Wrappers
  import opened Outbox
  import opened LocalDocs
  import Documents

  type Id = Documents.Id
  type Fields = Documents.Fields

  function KeyOf(id: Id): Key { Key("", "", id) }

  /** Recorded before a write touches its document. */
  datatype Intent = Intent(op: Operation, id: Id)

  /** How far a call got. `unsynced`: the document was still being added when it was touched. */
  datatype Stage = Intended | Touched(unsynced: bool) | Recorded

  datatype Mutation = Mutation(intent: Intent, edit: Fields, stage: Stage)

  datatype Sending = Sending(entry: Entry, sent: Fields)

  /**
   * `docs`, `entries` and `intents` are on disk; `running`, `recovering` and `inflight` die with the
   * process. A call is named by its intent.
   */
  datatype World = World(
    docs: map<Id, LocalDoc>,
    entries: seq<Entry>,
    intents: map<nat, Intent>,
    running: map<nat, Mutation>,
    recovering: set<nat>,
    inflight: Option<Sending>,
    nextId: nat)

  // --- Steps ---

  datatype Step =
    | Intend(i: nat, intent: Intent, edit: Fields)
    | Touch(i: nat)
    | Queue(i: nat)
    | Forget(i: nat)
    | Crash
    | Recover(i: nat)
    | Send
    | SendAgain(change: Change)
    | Skip
    | Confirm(data: Fields, version: Option<int>)
    | Refuse
    | PutOff
    | IngestChange(id: Id, change: Change)

  function Sender(w: World): Option<Entry> {
    if w.inflight.Some? then Some(w.inflight.value.entry) else None
  }

  /** The caller of `add` brings an id that no document and no intent on the device has. */
  predicate NewId(w: World, id: Id) {
    id !in w.docs && forall i <- w.intents :: w.intents[i].id != id
  }

  predicate Enabled(w: World, step: Step) {
    match step
    case Intend(i, intent, edit) => i !in w.intents && i !in w.running && (intent.op.Add? ==> NewId(w, intent.id))
    case Touch(i) => i in w.running && w.running[i].stage.Intended?
    case Queue(i) => i in w.running && w.running[i].stage.Touched?
    case Forget(i) => i in w.running && w.running[i].stage.Recorded?
    case Crash => true
    case Recover(i) => i in w.recovering && i in w.intents && i !in w.running && w.inflight.None?
    case Send => w.recovering == {} && w.inflight.None? && w.entries != []
    case SendAgain(change) => w.inflight.Some? && w.inflight.value.entry.op.Update? && change.Reads? && !change.created
    case Skip => w.inflight.Some? && NothingToSend(w)
    case Confirm(_, _) => w.inflight.Some?
    case Refuse => w.inflight.Some?
    case PutOff => w.inflight.Some?
    // The server cannot know a document whose add has not touched the device yet.
    case IngestChange(id, _) => forall i <- w.running ::
        !(w.running[i].intent == Intent(Add, id) && w.running[i].stage.Intended?)
  }

  function DocOf(w: World): Id {
    if w.inflight.Some? then w.inflight.value.entry.key.doc else ""
  }

  /** An add of a document deleted meanwhile, or an update whose fields an earlier write carried. */
  predicate NothingToSend(w: World)
    requires w.inflight.Some?
  {
    match w.inflight.value.entry.op
    case Add => DocOf(w) !in w.docs
    case Update => w.inflight.value.sent == map[]
    case Delete => false
  }

  /** The document read-modify-write of a call; a call about a missing document ends here. */
  function Touching(w: World, i: nat): World
    requires Enabled(w, Touch(i))
  {
    var m := w.running[i];
    var id := m.intent.id;
    match m.intent.op
    case Add => w.(docs := w.docs[id := NewDoc(m.edit)], running := w.running[i := m.(stage := Touched(false))])
    case Update =>
      if id !in w.docs then w.(running := w.running[i := m.(stage := Recorded)])
      else w.(docs := w.docs[id := Edited(w.docs[id], m.edit)],
              running := w.running[i := m.(stage := Touched(w.docs[id].adding))])
    case Delete =>
      if id !in w.docs then w.(running := w.running - {i})
      else if w.docs[id].adding then w.(docs := w.docs - {id}, running := w.running[i := m.(stage := Touched(true))])
      else w.(docs := w.docs[id := w.docs[id].(deleting := true)],
          running := w.running[i := m.(stage := Touched(false))])
  }

  function Enqueued(w: World, input: Input): Coalescing {
    Coalesced(w.entries, Sender(w), input, w.nextId)
  }

  /** The write enters the queue. The intent of a delete is not removed afterwards: the call ends. */
  function Queueing(w: World, i: nat): World
    requires Enabled(w, Queue(i))
  {
    var m := w.running[i];
    w.(entries := Enqueued(w, InputOf(m)).entries, nextId := w.nextId + 1,
       running := if m.intent.op.Delete? then w.running - {i} else w.running[i := m.(stage := Recorded)])
  }

  function InputOf(m: Mutation): Input {
    Input(KeyOf(m.intent.id), m.intent.op, m.stage.Touched? && m.stage.unsynced)
  }

  /** The process dies: calls, the recovery and the answer in flight are lost. */
  function Crashed(w: World): World {
    w.(running := map[], recovering := w.intents.Keys, inflight := None)
  }

  predicate Waiting(w: World, intent: Intent) {
    intent.id in w.docs &&
    match intent.op
    case Add => w.docs[intent.id].adding
    case Update => w.docs[intent.id].prev != map[]
    case Delete => w.docs[intent.id].deleting
  }

  predicate Covered(w: World, intent: Intent) {
    exists e <- w.entries :: e.key == KeyOf(intent.id) && (e.op == intent.op || (intent.op.Update? && e.op.Add?))
  }

  function RecoveryInput(w: World, intent: Intent): Input {
    Input(KeyOf(intent.id), intent.op, !intent.op.Add? && intent.id in w.docs && w.docs[intent.id].adding)
  }

  /** One intent of an earlier session: queue its write if it is still pending, then forget it. */
  function Recovering(w: World, i: nat): World
    requires Enabled(w, Recover(i))
  {
    var intent := w.intents[i];
    var queued := if Waiting(w, intent) && !Covered(w, intent)
                  then w.(entries := Enqueued(w, RecoveryInput(w, intent)).entries, nextId := w.nextId + 1) else w;
    queued.(running := w.running[i := Mutation(intent, map[], Recorded)], recovering := w.recovering - {i})
  }

  function Sent(doc: LocalDoc, op: Operation): Fields
    requires WellFormed(doc)
  {
    match op
    case Add => doc.fields
    case Update => Unconfirmed(doc)
    case Delete => map[]
  }

  function SentOf(docs: map<Id, LocalDoc>, entry: Entry): Fields {
    if entry.key.doc in docs && WellFormed(docs[entry.key.doc]) then Sent(docs[entry.key.doc], entry.op) else map[]
  }

  function Sending_(w: World): World
    requires Enabled(w, Send)
  {
    w.(inflight := Some(Sending(w.entries[0], SentOf(w.docs, w.entries[0]))))
  }

  function IngestedWorld(w: World, id: Id, change: Change): World
    requires id in w.docs ==> WellFormed(w.docs[id])
  {
    var after := Ingest(if id in w.docs then Some(w.docs[id]) else None, change);
    w.(docs := if after.Some? then w.docs[id := after.value] else w.docs - {id})
  }

  /** A conflict: the server's copy is pulled through the ingest, and what is still unconfirmed is sent again. */
  function SendingAgain(w: World, change: Change): World
    requires Enabled(w, SendAgain(change))
    requires DocOf(w) in w.docs ==> WellFormed(w.docs[DocOf(w)])
  {
    var pulled := IngestedWorld(w, DocOf(w), change);
    pulled.(inflight := Some(w.inflight.value.(sent := SentOf(pulled.docs, w.inflight.value.entry))))
  }

  /** The entry in flight leaves the queue, its document as `docs` says. */
  function Answered(w: World, docs: map<Id, LocalDoc>): World
    requires w.inflight.Some?
  {
    w.(docs := docs, entries := Without(w.entries, {w.inflight.value.entry.id}), inflight := None)
  }

  function ConfirmedDocs(w: World, data: Fields, version: Option<int>): map<Id, LocalDoc>
    requires w.inflight.Some? && (DocOf(w) in w.docs ==> WellFormed(w.docs[DocOf(w)]))
  {
    var id, Sending(entry, sent) := DocOf(w), w.inflight.value;
    if id !in w.docs then w.docs
    else match entry.op
      case Add => w.docs[id := ConfirmedAdd(w.docs[id], sent, data, version)]
      case Update => w.docs[id := ConfirmedUpdate(w.docs[id], sent, version)]
      case Delete => w.docs - {id}
  }

  function RefusedDocs(w: World): map<Id, LocalDoc>
    requires w.inflight.Some?
  {
    var id := DocOf(w);
    if id in w.docs then w.docs[id := RefusedDoc(w.docs[id], w.inflight.value.entry.op)] else w.docs
  }

  ghost predicate DocsWellFormed(w: World) {
    forall id <- w.docs :: WellFormed(w.docs[id])
  }

  ghost function Next(w: World, step: Step): World
    requires DocsWellFormed(w) && Enabled(w, step)
  {
    match step
    case Intend(i, intent, edit) =>
      w.(intents := w.intents[i := intent], running := w.running[i := Mutation(intent, edit, Intended)])
    case Touch(i) => Touching(w, i)
    case Queue(i) => Queueing(w, i)
    case Forget(i) => w.(intents := w.intents - {i}, running := w.running - {i})
    case Crash => Crashed(w)
    case Recover(i) => Recovering(w, i)
    case Send => Sending_(w)
    case SendAgain(change) => SendingAgain(w, change)
    case Skip => Answered(w, w.docs)
    case Confirm(data, version) => Answered(w, ConfirmedDocs(w, data, version))
    case Refuse => Answered(w, RefusedDocs(w))
    case PutOff => w.(entries := Attempted(w.entries, w.inflight.value.entry.id, w.inflight.value.entry.attempts + 1),
        inflight := None)
    case IngestChange(id, change) => IngestedWorld(w, id, change)
  }

  // --- What is promised ---

  ghost predicate Queued(w: World, id: Id) {
    exists e <- w.entries :: e.key == KeyOf(id)
  }

  ghost predicate QueuedAs(w: World, id: Id, op: Operation) {
    exists e <- w.entries :: e.key == KeyOf(id) && e.op == op
  }

  /** Some intent still answers for an operation on the document. */
  ghost predicate Named(w: World, id: Id, op: Operation) {
    exists i <- w.intents :: w.intents[i] == Intent(op, id) && !(i in w.running && w.running[i].stage.Recorded?)
  }

  /** Nothing will send what is pending on the document, and nothing says why. */
  ghost predicate Orphan(w: World, id: Id) {
    && id in w.docs && Pending(w.docs[id]) && w.docs[id].refused == {}
    && !Queued(w, id)
    && forall i <- w.intents :: w.intents[i].id != id
  }

  /** An add of the document is queued and not being sent. */
  ghost predicate AddUnsent(w: World, id: Id) {
    exists e <- w.entries :: e.key == KeyOf(id) && e.op.Add? && !Outbox.InFlight(Sender(w), e.id)
  }

  /** Some entry of the document is queued and not being sent. */
  ghost predicate AnyUnsent(w: World, id: Id) {
    exists e <- w.entries :: e.key == KeyOf(id) && !Outbox.InFlight(Sender(w), e.id)
  }

  /** An intent other than `i` still answers for the operation. */
  ghost predicate NamedBeside(w: World, i: nat, id: Id, op: Operation) {
    exists j <- w.intents :: j != i && w.intents[j] == Intent(op, id)
        && !(j in w.running && w.running[j].stage.Recorded?)
  }

  /** The document has edits that what is being sent does not carry. */
  ghost predicate Left(w: World, id: Id)
    requires id in w.docs && WellFormed(w.docs[id])
  {
    if w.inflight.Some? && w.inflight.value.entry.key == KeyOf(id)
    then !w.inflight.value.entry.op.Delete? && Unsent(w.docs[id], w.inflight.value.sent) != {}
    else w.docs[id].prev != map[]
  }

  /**
   * The outbox takes a write that follows its call's touch of the document for one about a document
   * the server never had, and leaves nothing to send for that document but what is being sent.
   */
  ghost predicate Dismissed(w: World, i: nat)
    requires Enabled(w, Queue(i))
  {
    var m := w.running[i];
    var stale := m.stage.unsynced && !AddingNow(Sender(w), KeyOf(m.intent.id));
    match m.intent.op
    case Add => false
    case Update => stale && !AnyUnsent(w, m.intent.id)
    case Delete => stale || AddUnsent(w, m.intent.id)
  }

  /**
   * The exact guards under which no step orphans anything. A write that the outbox dismisses must leave
   * no edit to a document that is back or still there, unless the document is on its way out, still to be
   * added, refused, or another call will queue the edit. And a recovered delete must not meet an unsent
   * add, unless another delete of the document is queued or intended.
   */
  ghost predicate Guarded(w: World, step: Step)
    requires DocsWellFormed(w) && Enabled(w, step)
  {
    match step
    case Queue(i) =>
      var id := w.running[i].intent.id;
      id in w.docs && Dismissed(w, i) && Left(w, id) ==>
        var doc := w.docs[id];
        || doc.deleting || Delete in doc.refused || NamedBeside(w, i, id, Update)
        || ((doc.adding || Add in doc.refused) && !AddingNow(Sender(w), KeyOf(id)))
    case Recover(i) =>
      var id := w.intents[i].id;
      w.intents[i].op.Delete? && Waiting(w, w.intents[i]) && AddUnsent(w, id) ==>
        QueuedAs(w, id, Delete) || NamedBeside(w, i, id, Delete)
    case _ => true
  }

  // --- The invariant ---

  ghost predicate DocGood(w: World, id: Id)
    requires id in w.docs
  {
    var doc := w.docs[id];
    && WellFormed(doc) && !(doc.adding && doc.deleting)
    && (doc.adding ==> QueuedAs(w, id, Add) || Named(w, id, Add))
    && (doc.deleting ==> QueuedAs(w, id, Delete) || Named(w, id, Delete))
    && (doc.prev != map[] ==>
          || doc.adding || doc.deleting || Queued(w, id) || Named(w, id, Update)
          || Add in doc.refused || Delete in doc.refused)
  }

  ghost predicate QueuedBeside(w: World, id: Id, head: nat) {
    exists e <- w.entries :: e.key == KeyOf(id) && e.id != head
  }

  /** What was edited after the write in flight was read has something else to send it. */
  ghost predicate Backed(w: World, id: Id, s: Sending)
    requires id in w.docs && WellFormed(w.docs[id])
  {
    var doc := w.docs[id];
    !s.entry.op.Delete? && s.entry.key == KeyOf(id) && Unsent(doc, s.sent) != {} ==>
      || QueuedBeside(w, id, s.entry.id) || Named(w, id, Update) || doc.deleting || Delete in doc.refused
      || (s.entry.op.Update? && (doc.adding || Add in doc.refused))
  }

  ghost predicate QueueGood(w: World) {
    && Increasing(w.entries)
    && (forall e <- w.entries :: e.id < w.nextId && e.key == KeyOf(e.key.doc))
    && (w.inflight.Some? ==> w.entries != [] && w.inflight.value.entry == w.entries[0])
  }

  /**
   * An add that has not touched its document yet is alone with it, and a delete about to be queued is not
   * about a document being added.
   */
  ghost predicate CallsGood(w: World) {
    && (forall i <- w.running :: i in w.intents && w.intents[i] == w.running[i].intent && i !in w.recovering)
    && w.recovering <= w.intents.Keys
    && (forall i <- w.running :: w.running[i].intent.op.Add? && w.running[i].stage.Intended? ==> Alone(w, i))
    && (forall i <- w.running :: w.running[i].intent.op.Delete? && w.running[i].stage.Touched? ==>
          w.running[i].intent.id in w.docs ==> !w.docs[w.running[i].intent.id].adding)
  }

  ghost predicate Alone(w: World, i: nat)
    requires i in w.running
  {
    && w.running[i].intent.id !in w.docs
    && (forall j <- w.recovering :: j in w.intents ==> w.intents[j].id != w.running[i].intent.id)
    && forall j <- w.running :: j != i && w.running[j].intent.id == w.running[i].intent.id ==>
         w.running[j].intent.op.Update? || (w.running[j].intent.op.Delete? && !w.running[j].stage.Touched?)
  }

  /** The document is accounted for, itself and with respect to what is in flight. */
  ghost predicate Kept(w: World, id: Id) {
    && id in w.docs && DocGood(w, id)
    && (w.inflight.Some? ==> Backed(w, id, w.inflight.value))
  }

  ghost predicate Inv(w: World) {
    && QueueGood(w) && CallsGood(w)
    && (forall id <- w.docs :: Kept(w, id))
  }

  /** The promise: whatever is pending on the device has something that will send it, or a recorded refusal. */
  lemma NoOrphans(w: World)
    requires Inv(w)
    ensures forall id :: !Orphan(w, id)
  {
    forall id
      ensures !Orphan(w, id)
    {
      if id in w.docs {
        assert Kept(w, id);
      }
    }
  }

  // --- Steps that leave the queue and the answers due alone ---

  lemma InvDocs(w: World)
    requires Inv(w)
    ensures DocsWellFormed(w)
  {
    assert forall id <- w.docs :: Kept(w, id);
  }

  lemma IntendKeeps(w: World, i: nat, intent: Intent, edit: Fields)
    requires Inv(w) && DocsWellFormed(w) && Enabled(w, Intend(i, intent, edit))
    ensures Inv(Next(w, Intend(i, intent, edit)))
  {
    hide Increasing, Named, DocGood, Backed;
    var v := Next(w, Intend(i, intent, edit));
    forall id | id in v.docs
      ensures Kept(v, id)
    {
      IntendedNames(w, v, i, id);
      Untouched(w, v, id);
    }
    IntendKeepsCalls(w, i, intent, edit);
  }

  lemma IntendedNames(w: World, v: World, i: nat, id: Id)
    requires i !in w.intents && i !in w.running && i in v.intents && v.intents == w.intents[i := v.intents[i]]
    requires i in v.running && v.running == w.running[i := v.running[i]]
    ensures NamesKept(w, v, id)
  {
    forall op: Operation | Named(w, id, op)
      ensures Named(v, id, op)
    {
      var j :| j in w.intents && w.intents[j] == Intent(op, id) && !(j in w.running && w.running[j].stage.Recorded?);
      assert v.intents[j] == Intent(op, id);
    }
  }

  lemma IntendKeepsCalls(w: World, i: nat, intent: Intent, edit: Fields)
    requires CallsGood(w) && DocsWellFormed(w) && Enabled(w, Intend(i, intent, edit))
    ensures CallsGood(Next(w, Intend(i, intent, edit)))
  {
    var v := Next(w, Intend(i, intent, edit));
    forall j | j in v.running && v.running[j].intent.op.Add? && v.running[j].stage.Intended?
      ensures Alone(v, j)
    {
      assert j != i ==> Alone(w, j);
    }
  }

  /** A step of one call takes no other call away. */
  lemma SameNamed(w: World, v: World, i: nat, id: Id, op: Operation)
    requires v.intents == w.intents && i in w.intents
    requires forall j <- v.running :: j != i ==> j in w.running && v.running[j] == w.running[j]
    ensures w.intents[i] != Intent(op, id) && Named(w, id, op) ==> Named(v, id, op)
  {
    if w.intents[i] != Intent(op, id) && Named(w, id, op) {
      var j :| j in w.intents && w.intents[j] == Intent(op, id) && !(j in w.running && w.running[j].stage.Recorded?);
      assert j in v.intents;
    }
  }

  lemma TouchKeepsCalls(w: World, i: nat)
    requires Inv(w) && Enabled(w, Touch(i))
    ensures CallsGood(Touching(w, i))
  {
    hide Kept, QueueGood, Alone;
    var v, m := Touching(w, i), w.running[i];
    forall j | j in v.running && v.running[j].intent.op.Add? && v.running[j].stage.Intended?
      ensures Alone(v, j)
    {
      TouchLeavesAlone(w, i, j);
    }
    if m.intent.op.Add? {
      BornAlone(w, i);
    }
  }

  /** No delete of a document is about to be queued when its add touches the device. */
  lemma BornAlone(w: World, i: nat)
    requires CallsGood(w) && i in w.running && w.running[i].intent.op.Add? && w.running[i].stage.Intended?
    ensures forall j <- w.running :: w.running[j].intent.op.Delete? && w.running[j].stage.Touched? ==>
        w.running[j].intent.id != w.running[i].intent.id
  {
    assert Alone(w, i);
  }

  lemma TouchLeavesAlone(w: World, i: nat, j: nat)
    requires CallsGood(w) && Enabled(w, Touch(i)) && j != i && j in w.running && w.running[j].intent.op.Add?
        && w.running[j].stage.Intended?
    ensures j in Touching(w, i).running && Alone(Touching(w, i), j)
  {
    assert Alone(w, j);
  }

  lemma NamedByOwn(w: World, i: nat)
    requires i in w.intents && !(i in w.running && w.running[i].stage.Recorded?)
    ensures Named(w, w.intents[i].id, w.intents[i].op)
  {
    assert w.intents[i] == Intent(w.intents[i].op, w.intents[i].id);
  }

  lemma CallIsIntended(w: World, i: nat)
    requires Inv(w) && i in w.running
    ensures i in w.intents && w.intents[i] == w.running[i].intent
  {
  }

  lemma TouchNames(w: World, i: nat, id: Id, op: Operation)
    requires Inv(w) && Enabled(w, Touch(i))
    ensures id in Touching(w, i).docs && Named(w, id, op) ==> Named(Touching(w, i), id, op)
  {
    var v := Touching(w, i);
    if w.intents[i] != Intent(op, id) {
      SameNamed(w, v, i, id, op);
    } else if id in v.docs {
      NamedByOwn(v, i);
    }
  }

  ghost predicate NamesKept(w: World, v: World, id: Id) {
    && (Named(w, id, Add) ==> Named(v, id, Add))
    && (Named(w, id, Update) ==> Named(v, id, Update))
    && (Named(w, id, Delete) ==> Named(v, id, Delete))
  }

  ghost predicate QueuesKept(w: World, v: World, id: Id) {
    && (Queued(w, id) ==> Queued(v, id))
    && (QueuedAs(w, id, Add) ==> QueuedAs(v, id, Add))
    && (QueuedAs(w, id, Delete) ==> QueuedAs(v, id, Delete))
    && (w.inflight.Some? && QueuedBeside(w, id, w.inflight.value.entry.id) ==>
        QueuedBeside(v, id, w.inflight.value.entry.id))
  }

  /** A document nobody touched. */
  lemma Untouched(w: World, v: World, id: Id)
    requires Kept(w, id) && id in v.docs && v.docs[id] == w.docs[id]
    requires (v.inflight == w.inflight || v.inflight.None?) && NamesKept(w, v, id)
    requires v.entries == w.entries || QueuesKept(w, v, id)
    ensures Kept(v, id)
  {
    hide Named, Unsent, WellFormed, KeyOf;
    if v.entries == w.entries {
      assert QueuesKept(w, v, id);
    }
    hide Queued, QueuedAs, QueuedBeside;
  }

  lemma Updated(w: World, v: World, id: Id, edit: Fields)
    requires Kept(w, id) && id in v.docs && v.docs[id] == Edited(w.docs[id], edit)
    requires v.entries == w.entries && v.inflight == w.inflight && NamesKept(w, v, id) && Named(v, id, Update)
    ensures Kept(v, id)
  {
    hide Named, Unsent, KeyOf;
  }

  lemma MarkedDeleting(w: World, v: World, id: Id)
    requires Kept(w, id) && !w.docs[id].adding && id in v.docs && v.docs[id] == w.docs[id].(deleting := true)
    requires v.entries == w.entries && v.inflight == w.inflight && NamesKept(w, v, id) && Named(v, id, Delete)
    ensures Kept(v, id)
  {
    hide Named, Unsent, KeyOf;
  }

  lemma Born(v: World, id: Id, fields: Fields)
    requires id in v.docs && v.docs[id] == NewDoc(fields) && Named(v, id, Add)
    ensures Kept(v, id)
  {
    hide Named, KeyOf;
  }

  lemma TouchKeepsDoc(w: World, i: nat, id: Id)
    requires Inv(w) && Enabled(w, Touch(i)) && id in Touching(w, i).docs
    ensures Kept(Touching(w, i), id)
  {
    hide Increasing, Named, CallsGood, QueueGood, DocGood, Backed, Edited, NewDoc;
    var v, m := Touching(w, i), w.running[i];
    CallIsIntended(w, i);
    TouchNames(w, i, id, Add);
    TouchNames(w, i, id, Update);
    TouchNames(w, i, id, Delete);
    if id != m.intent.id || (id !in w.docs && !m.intent.op.Add?) {
      Untouched(w, v, id);
    } else {
      NamedByOwn(v, i);
      match m.intent.op
      case Add => Born(v, id, m.edit);
      case Update => Updated(w, v, id, m.edit);
      case Delete => MarkedDeleting(w, v, id);
    }
  }

  // --- Queueing ---

  lemma QueueingKeepsQueue(w: World, v: World, input: Input)
    requires QueueGood(w) && input.key == KeyOf(input.key.doc)
    requires v.entries == Enqueued(w, input).entries && v.nextId == w.nextId + 1 && v.inflight == w.inflight
    ensures QueueGood(v)
  {
    hide Increasing, Coalesced;
    CoalescingKeepsOrder(w.entries, Sender(w), input, w.nextId);
    if w.inflight.Some? {
      var head := w.entries[0];
      assert head in w.entries && Outbox.InFlight(Sender(w), head.id);
      HeadIsOldest(v.entries);
      HeadIsOldest(w.entries);
      assert v.entries[0] in v.entries;
      IdsDistinct(v.entries);
    }
  }

  /** Queueing leaves the entries of other documents, and unless it is a delete every entry. */
  lemma QueueingKeepsOthers(w: World, v: World, input: Input, id: Id)
    requires QueueGood(w) && v.entries == Enqueued(w, input).entries
    ensures KeyOf(id) != input.key || !input.op.Delete? ==> QueuesKept(w, v, id)
  {
    hide Increasing, Coalesced, KeyOf;
    CoalescingKeepsOrder(w.entries, Sender(w), input, w.nextId);
  }

  /** What the document has to show for a write that was queued. */
  lemma QueueingQueues(w: World, v: World, input: Input, id: Id)
    requires QueueGood(w) && v.entries == Enqueued(w, input).entries && input.key == KeyOf(id)
    ensures Enqueued(w, input).decision.Created? ==> QueuedAs(v, id, input.op)
    ensures !Enqueued(w, input).decision.Settled? ==>
        Queued(v, id) && (w.inflight.Some? ==> QueuedBeside(v, id, w.inflight.value.entry.id))
    ensures Enqueued(w, input).decision.Settled? ==>
        (input.unsynced && !AddingNow(Sender(w), input.key)) || (input.op.Delete? && AddUnsent(w, id))
    ensures input.op.Add? ==> Enqueued(w, input).decision.Created?
    ensures Enqueued(w, input).decision.Folded? ==> input.op.Update?
    ensures Enqueued(w, input).decision.Settled? && input.op.Update? ==> !AddUnsent(w, id)
  {
    hide Increasing;
    FoldedIntoUnsent(w.entries, Sender(w), input, w.nextId);
    SameAre(w.entries, Sender(w), input.key);
    TargetIs(Same(w.entries, Sender(w), input.key));
    hide Same, Target;
  }

  /** A document nobody touched, whose intent may have given way to an entry. */
  lemma Requeued(w: World, v: World, id: Id)
    requires Kept(w, id) && id in v.docs && v.docs[id] == w.docs[id] && v.inflight == w.inflight && QueuesKept(w, v, id)
    requires Named(w, id, Add) && v.docs[id].adding ==> Named(v, id, Add) || QueuedAs(v, id, Add)
    requires Named(w, id, Delete) && v.docs[id].deleting ==> Named(v, id, Delete) || QueuedAs(v, id, Delete)
    requires Named(w, id, Update) && v.docs[id].prev != map[] ==> Named(v, id, Update) || QueuedForUpdate(v, id)
    ensures Kept(v, id)
  {
    if v.inflight.Some? {
      UnsentIsPending(w.docs[id], w.inflight.value.sent);
    }
    hide Named, Unsent, WellFormed, KeyOf, Queued, QueuedAs, QueuedBeside;
  }

  lemma UnsentIsPending(doc: LocalDoc, sent: Fields)
    ensures WellFormed(doc) && Unsent(doc, sent) != {} ==> doc.prev != map[]
  {
    if WellFormed(doc) && Unsent(doc, sent) != {} {
      var k :| k in Unsent(doc, sent);
      assert k in doc.prev;
    }
  }

  /** Something will send an update of the document: an entry nobody is sending, or the add it still waits for. */
  ghost predicate QueuedForUpdate(v: World, id: Id) {
    || (Queued(v, id) && (v.inflight.Some? ==> QueuedBeside(v, id, v.inflight.value.entry.id)))
    || (id in v.docs && v.docs[id].adding && !AddingNow(Sender(v), KeyOf(id)))
  }

  /** When the queue holds nothing more for a document, what still accounts for its edits. */
  lemma NothingMoreQueued(w: World, v: World, id: Id)
    requires Kept(w, id) && QueueGood(v) && id in v.docs && v.docs[id] == w.docs[id] && v.inflight == w.inflight
    requires !AnyUnsent(v, id)
    requires v.docs[id].adding ==> QueuedAs(v, id, Add) || Named(v, id, Add)
    requires v.docs[id].deleting ==> QueuedAs(v, id, Delete) || Named(v, id, Delete)
    ensures Kept(v, id) <==>
        var doc := v.docs[id];
        || !Left(v, id) || doc.deleting || Delete in doc.refused || Named(v, id, Update)
        || ((doc.adding || Add in doc.refused) && !AddingNow(Sender(v), KeyOf(id)))
  {
    if v.inflight.Some? {
      assert v.inflight.value.entry in v.entries;
      UnsentIsPending(v.docs[id], v.inflight.value.sent);
    }
    OnlyInFlight(v, id);
    hide Named, Unsent, QueuedAs, QueuedBeside, Queued, AnyUnsent, KeyOf, Increasing;
  }

  lemma OnlyInFlight(w: World, id: Id)
    requires QueueGood(w) && !AnyUnsent(w, id)
    ensures Queued(w, id) <==> w.inflight.Some? && w.inflight.value.entry.key == KeyOf(id)
    ensures w.inflight.Some? ==> !QueuedBeside(w, id, w.inflight.value.entry.id)
  {
    IdsDistinct(w.entries);
    if w.inflight.Some? {
      assert w.inflight.value.entry in w.entries;
    }
  }

  lemma QueueKeepsOther(w: World, i: nat, id: Id)
    requires Inv(w) && Enabled(w, Queue(i)) && id in w.docs && id != w.running[i].intent.id
    ensures Kept(Queueing(w, i), id)
  {
    hide Increasing, Named, Queued, QueuedAs, QueuedBeside, Coalesced, Unsent, QueuesKept, KeyOf, DocGood, Backed;
    var v, m := Queueing(w, i), w.running[i];
    CallIsIntended(w, i);
    KeysDiffer(id, m.intent.id);
    QueueingKeepsOthers(w, v, InputOf(m), id);
    SameNamed(w, v, i, id, Add);
    SameNamed(w, v, i, id, Update);
    SameNamed(w, v, i, id, Delete);
    assert Kept(w, id);
    Untouched(w, v, id);
  }

  /** What a dismissed write leaves in the queue, and the calls that remain. */
  lemma DismissedLeaves(w: World, i: nat)
    requires Inv(w) && Enabled(w, Queue(i)) && Dismissed(w, i)
    ensures var v, id := Queueing(w, i), w.running[i].intent.id;
            && !AnyUnsent(v, id)
            && (QueuedAs(w, id, Add) && w.running[i].intent.op.Update? ==> QueuedAs(v, id, Add))
            && (QueuedAs(w, id, Delete) && w.running[i].intent.op.Update? ==> QueuedAs(v, id, Delete))
  {
    hide Increasing;
    var input := InputOf(w.running[i]);
    SameAre(w.entries, Sender(w), input.key);
    TargetIs(Same(w.entries, Sender(w), input.key));
    WithoutAre(w.entries, Ids(Same(w.entries, Sender(w), input.key)));
    hide Same, Target, Without;
  }

  lemma QueueingNames(w: World, i: nat)
    requires Inv(w) && Enabled(w, Queue(i))
    ensures var v, m := Queueing(w, i), w.running[i];
            && (Named(v, m.intent.id, Update) <==> NamedBeside(w, i, m.intent.id, Update))
            && (m.intent.op.Delete? ==> Named(v, m.intent.id, Delete))
            && (m.intent.op.Update? ==> (Named(w, m.intent.id, Add) ==> Named(v, m.intent.id, Add)))
            && (m.intent.op.Update? ==> (Named(w, m.intent.id, Delete) ==> Named(v, m.intent.id, Delete)))
  {
    var v, m := Queueing(w, i), w.running[i];
    hide Coalesced, Kept, QueueGood;
    CallIsIntended(w, i);
    SameNamed(w, v, i, m.intent.id, Add);
    SameNamed(w, v, i, m.intent.id, Update);
    SameNamed(w, v, i, m.intent.id, Delete);
    if m.intent.op.Delete? { NamedByOwn(v, i); }
  }

  /** A write that is not dismissed leaves its document accounted for. */
  lemma QueueKeepsOwn(w: World, i: nat)
    requires Inv(w) && Enabled(w, Queue(i)) && !Dismissed(w, i) && w.running[i].intent.id in w.docs
    ensures Kept(Queueing(w, i), w.running[i].intent.id)
  {
    hide Increasing, Named, Coalesced, Unsent, AddingNow, KeyOf;
    var v, m := Queueing(w, i), w.running[i];
    var input, id := InputOf(m), m.intent.id;
    CallIsIntended(w, i);
    QueueingKeepsOthers(w, v, input, id);
    SameNamed(w, v, i, id, Add);
    SameNamed(w, v, i, id, Update);
    SameNamed(w, v, i, id, Delete);
    assert Kept(w, id);
    QueueingQueues(w, v, input, id);
    if AnyUnsent(w, id) { UnsentIsQueued(w, id); }
    hide Queued, QueuedAs, QueuedBeside, AddUnsent, AnyUnsent;
    if m.intent.op.Delete? {
      NamedByOwn(v, i);
      Undone(w, v, id);
    } else {
      Requeued(w, v, id);
    }
  }

  lemma UnsentIsQueued(w: World, id: Id)
    requires AnyUnsent(w, id)
    ensures Queued(w, id) && (w.inflight.Some? ==> QueuedBeside(w, id, w.inflight.value.entry.id))
  {
  }

  lemma KeysDiffer(a: Id, b: Id)
    ensures KeyOf(a) == KeyOf(b) <==> a == b
  {
  }

  /** A document whose other entries a delete dropped. */
  lemma Undone(w: World, v: World, id: Id)
    requires Kept(w, id) && id in v.docs && v.docs[id] == w.docs[id] && v.inflight == w.inflight
    requires !v.docs[id].adding && (Named(v, id, Delete) || QueuedAs(v, id, Delete))
    requires v.docs[id].deleting || (Queued(v, id)
        && (w.inflight.Some? ==> QueuedBeside(v, id, w.inflight.value.entry.id)))
    ensures Kept(v, id)
  {
    hide Named, Unsent, WellFormed, KeyOf, Queued, QueuedAs, QueuedBeside;
  }

  lemma QueueKeepsCalls(w: World, i: nat)
    requires Inv(w) && Enabled(w, Queue(i))
    ensures CallsGood(Queueing(w, i))
  {
    hide Kept, QueueGood, Coalesced;
    var v := Queueing(w, i);
    forall j | j in v.running && v.running[j].intent.op.Add? && v.running[j].stage.Intended?
      ensures Alone(v, j)
    {
      assert Alone(w, j);
    }
  }

  // --- Recovering ---

  lemma RecoverKeepsQueue(w: World, i: nat)
    requires Inv(w) && Enabled(w, Recover(i))
    ensures QueueGood(Recovering(w, i))
  {
    hide Increasing, Coalesced;
    var intent := w.intents[i];
    if Waiting(w, intent) && !Covered(w, intent) {
      QueueingKeepsQueue(w, Recovering(w, i), RecoveryInput(w, intent));
    }
  }

  lemma CoveredIsQueued(w: World, intent: Intent)
    requires Covered(w, intent)
    ensures Queued(w, intent.id) && (!intent.op.Update? ==> QueuedAs(w, intent.id, intent.op))
  {
  }

  /** A recovered delete meets an add the server may have had, and no delete of the document is queued. */
  ghost predicate MeetsAdd(w: World, i: nat)
    requires Enabled(w, Recover(i))
  {
    var intent := w.intents[i];
    intent.op.Delete? && Waiting(w, intent) && AddUnsent(w, intent.id) && !QueuedAs(w, intent.id, Delete)
  }

  lemma RecoverKeepsDoc(w: World, i: nat, id: Id)
    requires Inv(w) && Enabled(w, Recover(i)) && id in w.docs && !(id == w.intents[i].id && MeetsAdd(w, i))
    ensures Kept(Recovering(w, i), id)
  {
    hide Increasing, Named, Queued, QueuedAs, QueuedBeside, AddUnsent, Coalesced, Unsent, QueuesKept, KeyOf, Covered;
    var v, intent := Recovering(w, i), w.intents[i];
    var input := RecoveryInput(w, intent);
    KeysDiffer(id, intent.id);
    SameNamed(w, v, i, id, Add);
    SameNamed(w, v, i, id, Update);
    SameNamed(w, v, i, id, Delete);
    assert Kept(w, id);
    if !Waiting(w, intent) || Covered(w, intent) {
      SameQueues(w, v, id);
      if Covered(w, intent) {
        CoveredIsQueued(w, intent);
        SameQueues(w, v, intent.id);
      }
      if id == intent.id { Requeued(w, v, id); } else { Untouched(w, v, id); }
    } else {
      QueueingKeepsOthers(w, v, input, id);
      QueueingQueues(w, v, input, intent.id);
      QueuedIsCovered(w, intent);
      if id != intent.id {
        Untouched(w, v, id);
      } else if intent.op.Delete? {
        Undone(w, v, id);
      } else {
        Requeued(w, v, id);
      }
    }
  }

  lemma QueuedIsCovered(w: World, intent: Intent)
    ensures QueuedAs(w, intent.id, intent.op) ==> Covered(w, intent)
  {
  }

  /** The add and everything else queued for the document goes, and only another delete can answer for this one. */
  lemma RecoverMeetsAdd(w: World, i: nat)
    requires Inv(w) && Enabled(w, Recover(i)) && MeetsAdd(w, i)
    ensures Kept(Recovering(w, i), w.intents[i].id) <==> NamedBeside(w, i, w.intents[i].id, Delete)
  {
    hide Increasing;
    var id, v := w.intents[i].id, Recovering(w, i);
    assert Kept(w, id);
    SameAre(w.entries, Sender(w), KeyOf(id));
    WithoutAre(w.entries, Ids(Same(w.entries, Sender(w), KeyOf(id))));
    hide Same, Without;
    assert !Queued(v, id);
    assert Named(v, id, Delete) <==> NamedBeside(w, i, id, Delete);
  }

  lemma SameQueues(w: World, v: World, id: Id)
    requires v.entries == w.entries
    ensures QueuesKept(w, v, id)
  {
  }

  lemma RecoverKeepsCalls(w: World, i: nat)
    requires Inv(w) && Enabled(w, Recover(i))
    ensures CallsGood(Recovering(w, i))
  {
    hide Kept, QueueGood, Coalesced, Covered, Waiting;
    var v := Recovering(w, i);
    forall j | j in v.running && v.running[j].intent.op.Add? && v.running[j].stage.Intended?
      ensures Alone(v, j)
    {
      assert Alone(w, j);
    }
  }

  // --- Remote changes, sending, answers ---

  lemma IngestKeepsDoc(w: World, v: World, id: Id, change: Change)
    requires Kept(w, id) && id in v.docs && Ingest(Some(w.docs[id]), change) == Some(v.docs[id])
    requires v.entries == w.entries && v.inflight == w.inflight && NamesKept(w, v, id)
    ensures Kept(v, id)
  {
    hide Named, KeyOf, Queued, QueuedAs;
    EditsSurvive(w.docs[id], change, map[], None, map[]);
    if w.inflight.Some? {
      SameUnsent(w.docs[id], v.docs[id], w.inflight.value.sent);
    }
    SameQueues(w, v, id);
    hide Unsent, Unconfirmed, QueuedBeside;
  }

  lemma SameUnsent(doc: LocalDoc, after: LocalDoc, sent: Fields)
    requires WellFormed(doc) && WellFormed(after) && Unconfirmed(after) == Unconfirmed(doc)
    ensures Unsent(after, sent) == Unsent(doc, sent)
  {
    assert forall k :: k in Unconfirmed(doc) <==> k in doc.prev;
    assert forall k :: k in Unconfirmed(after) <==> k in after.prev;
    assert forall k <- doc.prev :: Unconfirmed(doc)[k] == doc.fields[k];
    assert forall k <- after.prev :: Unconfirmed(after)[k] == after.fields[k];
  }

  lemma IngestKeeps(w: World, id: Id, change: Change)
    requires Inv(w) && DocsWellFormed(w)
    requires forall i <- w.running :: !(w.running[i].intent == Intent(Add, id) && w.running[i].stage.Intended?)
    ensures Inv(IngestedWorld(w, id, change))
  {
    hide Increasing, Named;
    var v := IngestedWorld(w, id, change);
    forall x | x in v.docs
      ensures Kept(v, x)
    {
      SameNames(w, v, x);
      if x != id { Untouched(w, v, x); }
      else if x in w.docs { IngestKeepsDoc(w, v, x, change); }
    }
    forall j | j in v.running && v.running[j].intent.op.Add? && v.running[j].stage.Intended?
      ensures Alone(v, j)
    {
      assert Alone(w, j);
    }
  }

  lemma SameNames(w: World, v: World, id: Id)
    requires v.intents == w.intents && v.running == w.running
    ensures NamesKept(w, v, id)
  {
  }

  lemma SendKeeps(w: World)
    requires Inv(w) && DocsWellFormed(w) && Enabled(w, Send)
    ensures Inv(Sending_(w))
  {
    hide Increasing, Named;
    var v := Sending_(w);
    forall x | x in v.docs
      ensures Kept(v, x)
    {
      SameNames(w, v, x);
      assert Kept(w, x);
      NothingUnsent(v.docs[x]);
    }
    forall j | j in v.running && v.running[j].intent.op.Add? && v.running[j].stage.Intended?
      ensures Alone(v, j)
    {
      assert Alone(w, j);
    }
  }

  /** The queue once the entry in flight has been answered. */
  lemma AnsweredQueue(w: World, docs: map<Id, LocalDoc>)
    requires QueueGood(w) && w.inflight.Some?
    ensures QueueGood(Answered(w, docs))
    ensures forall e :: e in Answered(w, docs).entries <==> e in w.entries && e != w.inflight.value.entry
    ensures forall e <- w.entries :: e.id == w.inflight.value.entry.id <==> e == w.inflight.value.entry
  {
    hide Increasing, Without;
    var head := w.inflight.value.entry;
    assert head in w.entries;
    WithoutKeeps(w.entries, {head.id});
    WithoutAre(w.entries, {head.id});
    IdsDistinct(w.entries);
  }

  /** What is left for a document when the entry in flight leaves the queue. */
  lemma AnsweredLeaves(w: World, v: World, id: Id)
    requires QueueGood(w) && w.inflight.Some? && v == Answered(w, v.docs)
    ensures NamesKept(w, v, id)
    ensures id != DocOf(w) ==> QueuesKept(w, v, id)
    ensures QueuedBeside(w, id, w.inflight.value.entry.id) ==> Queued(v, id)
    ensures QueuedAs(w, id, Add) && !w.inflight.value.entry.op.Add? ==> QueuedAs(v, id, Add)
    ensures QueuedAs(w, id, Delete) && !w.inflight.value.entry.op.Delete? ==> QueuedAs(v, id, Delete)
  {
    hide Increasing, Without, Named;
    AnsweredQueue(w, v.docs);
    SameNames(w, v, id);
    assert w.inflight.value.entry in w.entries;
  }

  /** The document the answer was about, by what the answer made of it. */
  lemma AnsweredKeepsDoc(w: World, v: World, id: Id)
    requires QueueGood(w) && w.inflight.Some? && v == Answered(w, v.docs) && id in v.docs && Kept(w, id)
        && id == DocOf(w)
    requires var doc, Sending(entry, sent) := w.docs[id], w.inflight.value;
             || (NothingToSend(w) && v.docs[id] == doc)
             || (entry.op.Add? && exists data, version :: v.docs[id] == ConfirmedAdd(doc, sent, data, version))
             || (entry.op.Update? && exists version :: v.docs[id] == ConfirmedUpdate(doc, sent, version))
             || v.docs[id] == RefusedDoc(doc, entry.op)
    ensures Kept(v, id)
  {
    var doc, sent := w.docs[id], w.inflight.value.sent;
    AnsweredLeaves(w, v, id);
    KeptHere(w, id);
    if w.inflight.value.entry.op.Add? && exists data, version :: v.docs[id] == ConfirmedAdd(doc, sent, data, version) {
      var data, version :| v.docs[id] == ConfirmedAdd(doc, sent, data, version);
      ConfirmedAddWellFormed(doc, sent, data, version);
    }
    AllUnsent(doc);
    RestrictedNone(doc, sent);
    hide Increasing, Without, Named, Queued, QueuedAs, QueuedBeside, QueueGood, Unsent, Restrict;
  }

  lemma AllUnsent(doc: LocalDoc)
    requires WellFormed(doc)
    ensures Unsent(doc, map[]) == {} ==> doc.prev == map[]
  {
    if doc.prev != map[] {
      var k :| k in doc.prev;
      assert k in Unsent(doc, map[]);
    }
  }

  lemma RestrictedNone(doc: LocalDoc, sent: Fields)
    requires WellFormed(doc)
    ensures Unsent(doc, sent) == {} ==> Restrict(doc.prev, Unsent(doc, sent)) == map[]
  {
  }

  lemma KeptHere(w: World, id: Id)
    requires QueueGood(w) && w.inflight.Some? && Kept(w, id) && id == DocOf(w)
    ensures Backed(w, id, w.inflight.value) && w.inflight.value.entry.key == KeyOf(id)
  {
    assert w.inflight.value.entry in w.entries;
  }

  predicate IsAnswer(step: Step) {
    step.Skip? || step.Confirm? || step.Refuse?
  }

  lemma AnswerKeeps(w: World, step: Step)
    requires Inv(w) && DocsWellFormed(w) && Enabled(w, step) && IsAnswer(step)
    ensures Inv(Next(w, step))
  {
    hide Increasing, Named, Without, Queued, QueuedAs, QueuedBeside, DocGood, Backed;
    var v := Next(w, step);
    AnsweredQueue(w, v.docs);
    forall x | x in v.docs
      ensures Kept(v, x)
    {
      assert Kept(w, x);
      if x == DocOf(w) {
        AnsweredKeepsDoc(w, v, x);
      } else {
        AnsweredLeaves(w, v, x);
        Untouched(w, v, x);
      }
    }
    AnswerKeepsCalls(w, v);
  }

  /** Answers and ingests make no document a new add. */
  lemma AnswerKeepsCalls(w: World, v: World)
    requires CallsGood(w) && v.running == w.running && v.intents == w.intents && v.recovering == w.recovering
    requires forall id <- v.docs :: id in w.docs && (v.docs[id].adding ==> w.docs[id].adding)
    ensures CallsGood(v)
  {
    forall j | j in v.running && v.running[j].intent.op.Add? && v.running[j].stage.Intended?
      ensures Alone(v, j)
    {
      assert Alone(w, j);
    }
  }

  lemma PutOffKeepsQueue(w: World, v: World)
    requires QueueGood(w) && w.inflight.Some? && v.inflight.None? && v.nextId == w.nextId
    requires v.entries == Attempted(w.entries, w.inflight.value.entry.id, w.inflight.value.entry.attempts + 1)
    ensures QueueGood(v)
  {
    hide Increasing;
    SameIdsIncreasing(w.entries, v.entries);
    forall e | e in v.entries
      ensures e.id < v.nextId && e.key == KeyOf(e.key.doc)
    {
      var k :| 0 <= k < |v.entries| && v.entries[k] == e;
      assert w.entries[k] in w.entries;
    }
  }

  lemma PutOffKeeps(w: World)
    requires Inv(w) && DocsWellFormed(w) && Enabled(w, PutOff)
    ensures Inv(Next(w, PutOff))
  {
    hide QueueGood, Named, DocGood, Backed, Attempted;
    var v := Next(w, PutOff);
    PutOffKeepsQueue(w, v);
    forall x | x in v.docs
      ensures Kept(v, x)
    {
      SameNames(w, v, x);
      AttemptedQueues(w, v, x);
      Untouched(w, v, x);
    }
    AnswerKeepsCalls(w, v);
  }

  lemma AttemptedQueues(w: World, v: World, id: Id)
    requires w.inflight.Some?
        && v.entries == Attempted(w.entries, w.inflight.value.entry.id, w.inflight.value.entry.attempts + 1)
    ensures QueuesKept(w, v, id)
  {
    forall e | e in w.entries
      ensures exists f <- v.entries :: f.id == e.id && f.key == e.key && f.op == e.op
    {
      var k :| 0 <= k < |w.entries| && w.entries[k] == e;
      assert v.entries[k] in v.entries;
    }
  }

  lemma ForgetKeeps(w: World, i: nat)
    requires Inv(w) && DocsWellFormed(w) && Enabled(w, Forget(i))
    ensures Inv(Next(w, Forget(i)))
  {
    hide Increasing, Queued, QueuedAs, QueuedBeside, DocGood, Backed;
    var v := Next(w, Forget(i));
    forall x | x in v.docs
      ensures Kept(v, x)
    {
      ForgottenNames(w, i, x);
      Untouched(w, v, x);
    }
    forall j | j in v.running && v.running[j].intent.op.Add? && v.running[j].stage.Intended?
      ensures Alone(v, j)
    {
      assert Alone(w, j);
    }
  }

  lemma ForgottenNames(w: World, i: nat, id: Id)
    requires DocsWellFormed(w) && Enabled(w, Forget(i))
    ensures NamesKept(w, Next(w, Forget(i)), id)
  {
    var v := Next(w, Forget(i));
    forall op: Operation | Named(w, id, op)
      ensures Named(v, id, op)
    {
      var j :| j in w.intents && w.intents[j] == Intent(op, id) && !(j in w.running && w.running[j].stage.Recorded?);
      assert j in v.intents;
    }
  }

  lemma CrashKeeps(w: World)
    requires Inv(w)
    ensures Inv(Crashed(w))
  {
    hide Increasing, Queued, QueuedAs, QueuedBeside, DocGood, Backed;
    var v := Crashed(w);
    forall x | x in v.docs
      ensures Kept(v, x)
    {
      CrashNames(w, x);
      Untouched(w, v, x);
    }
  }

  lemma CrashNames(w: World, id: Id)
    ensures NamesKept(w, Crashed(w), id)
  {
  }

  lemma SendAgainKeeps(w: World, change: Change)
    requires Inv(w) && DocsWellFormed(w) && Enabled(w, SendAgain(change))
    ensures Inv(Next(w, SendAgain(change)))
  {
    hide Increasing, Named, Queued, QueuedAs, QueuedBeside, Ingest;
    var v, pulled := Next(w, SendAgain(change)), IngestedWorld(w, DocOf(w), change);
    NothingComes(change);
    PulledKeeps(w, change);
    forall x | x in v.docs
      ensures Kept(v, x)
    {
      assert Kept(pulled, x);
      SameNames(pulled, v, x);
      SameQueues(pulled, v, x);
      NothingUnsent(v.docs[x]);
    }
    AnswerKeepsCalls(pulled, v);
  }

  /** A pull reports the document as modified: it creates nothing. */
  lemma NothingComes(change: Change)
    requires change.Reads? && !change.created
    ensures Ingest(None, change) == None
  {
  }

  lemma PulledKeeps(w: World, change: Change)
    requires Inv(w) && DocsWellFormed(w) && change.Reads? && !change.created
    ensures Inv(IngestedWorld(w, DocOf(w), change))
  {
    hide Increasing, Named;
    var v := IngestedWorld(w, DocOf(w), change);
    forall x | x in v.docs
      ensures Kept(v, x)
    {
      SameNames(w, v, x);
      if x != DocOf(w) { Untouched(w, v, x); } else { IngestKeepsDoc(w, v, x, change); }
    }
    AnswerKeepsCalls(w, v);
  }

  lemma TouchKeeps(w: World, i: nat)
    requires Inv(w) && DocsWellFormed(w) && Enabled(w, Touch(i))
    ensures Inv(Touching(w, i))
  {
    hide Increasing, Kept;
    TouchKeepsCalls(w, i);
    forall id | id in Touching(w, i).docs
      ensures Kept(Touching(w, i), id)
    {
      TouchKeepsDoc(w, i, id);
    }
  }

  lemma QueueKeeps(w: World, i: nat)
    requires Inv(w) && DocsWellFormed(w) && Enabled(w, Queue(i))
    ensures Inv(Queueing(w, i)) <==> Guarded(w, Queue(i))
  {
    var v, id := Queueing(w, i), w.running[i].intent.id;
    QueueKeepsCalls(w, i);
    QueueingKeepsQueue(w, v, InputOf(w.running[i]));
    if id in w.docs { QueueDecides(w, i); }
    hide Increasing, Kept, Coalesced, QueueGood, CallsGood, Dismissed, Left, NamedBeside, AddingNow;
    forall x | x in w.docs && x != id
      ensures Kept(v, x)
    {
      QueueKeepsOther(w, i, x);
    }
    assert id in w.docs ==> id in v.docs;
  }

  lemma QueueDecides(w: World, i: nat)
    requires Inv(w) && DocsWellFormed(w) && Enabled(w, Queue(i)) && w.running[i].intent.id in w.docs
    ensures Kept(Queueing(w, i), w.running[i].intent.id) <==> Guarded(w, Queue(i))
  {
    var v, id := Queueing(w, i), w.running[i].intent.id;
    if Dismissed(w, i) {
      assert Kept(w, id);
      QueueingKeepsQueue(w, v, InputOf(w.running[i]));
      QueueingNames(w, i);
      DismissedLeaves(w, i);
      hide Increasing, Named, Queued, QueuedAs, QueuedBeside, AddUnsent, AnyUnsent, Coalesced, Unsent, NamedBeside,
        KeyOf;
      NothingMoreQueued(w, v, id);
    } else {
      QueueKeepsOwn(w, i);
    }
  }

  lemma RecoverKeeps(w: World, i: nat)
    requires Inv(w) && DocsWellFormed(w) && Enabled(w, Recover(i))
    ensures Inv(Recovering(w, i)) <==> Guarded(w, Recover(i))
  {
    var v, id := Recovering(w, i), w.intents[i].id;
    RecoverKeepsCalls(w, i);
    RecoverKeepsQueue(w, i);
    if MeetsAdd(w, i) { RecoverMeetsAdd(w, i); }
    hide Increasing, Kept, Coalesced, QueueGood, CallsGood, NamedBeside, QueuedAs, AddUnsent;
    forall x | x in w.docs && !(x == id && MeetsAdd(w, i))
      ensures Kept(v, x)
    {
      RecoverKeepsDoc(w, i, x);
    }
    assert MeetsAdd(w, i) ==> id in v.docs;
  }

  /** A step keeps the invariant exactly when it is guarded. */
  lemma StepKeeps(w: World, step: Step)
    requires Inv(w) && DocsWellFormed(w) && Enabled(w, step)
    ensures Inv(Next(w, step)) <==> Guarded(w, step)
    ensures DocsWellFormed(Next(w, step))
  {
    hide Inv;
    StepGuarded(w, step);
    hide Guarded;
    match step {
      case Intend(i, intent, edit) => IntendKeeps(w, i, intent, edit);
      case Touch(i) => TouchKeeps(w, i);
      case Queue(i) => QueueKeeps(w, i);
      case Forget(i) => ForgetKeeps(w, i);
      case Crash => CrashKeeps(w);
      case Recover(i) => RecoverKeeps(w, i);
      case Send => SendKeeps(w);
      case SendAgain(change) => SendAgainKeeps(w, change);
      case PutOff => PutOffKeeps(w);
      case IngestChange(id, change) => IngestKeeps(w, id, change);
      case _ => AnswerKeeps(w, step);
    }
    if Inv(Next(w, step)) { InvDocs(Next(w, step)); }
  }

  lemma StepGuarded(w: World, step: Step)
    requires DocsWellFormed(w) && Enabled(w, step)
    ensures !step.Queue? && !step.Recover? ==> Guarded(w, step)
  {
  }

  // --- Runs ---

  const EMPTY := World(map[], [], map[], map[], {}, None, 0)

  /** `steps` lead from `w` to `v`, under the guards if `guarded`. */
  ghost predicate Run(w: World, steps: seq<Step>, v: World, guarded: bool)
    decreases |steps|
  {
    if steps == [] then w == v
    else
      && DocsWellFormed(w) && Enabled(w, steps[0]) && (guarded ==> Guarded(w, steps[0]))
      && Run(Next(w, steps[0]), steps[1..], v, guarded)
  }

  lemma NothingYet()
    ensures Inv(EMPTY)
  {
  }

  /**
   * Over every run of local writes, remote changes, sends, answers, crashes and recoveries, nothing
   * pending is ever orphaned, provided the two guards hold at every step.
   */
  lemma {:induction false} NothingOrphaned(w: World, steps: seq<Step>, v: World)
    requires Run(w, steps, v, true) && (w == EMPTY || Inv(w))
    ensures Inv(v) && forall id :: !Orphan(v, id)
    decreases |steps|
  {
    hide Inv, Enabled, Guarded, Next, Orphan, DocsWellFormed;
    NothingYet();
    if steps == [] {
      NoOrphans(v);
    } else {
      StepKeeps(w, steps[0]);
      NothingOrphaned(Next(w, steps[0]), steps[1..], v);
    }
  }

  // --- What a call does ---

  /**
   * What the device shows once a call has touched its document: a new document as it was given, the edited fields
   * on top of the others, nothing of a document that was never sent, a document on its way out.
   */
  ghost predicate TouchShown(before: map<Id, LocalDoc>, intent: Intent, edit: Fields, after: map<Id, LocalDoc>) {
    && (forall id :: id != intent.id ==> (id in after <==> id in before) && (id in after ==> after[id] == before[id]))
    && match intent.op
       case Add =>
         intent.id in after && after[intent.id].fields == edit && after[intent.id].adding
           && after[intent.id].prev == map[]
       case Update =>
         && (intent.id in after <==> intent.id in before)
         && (intent.id in after ==> forall k ::
               Documents.FieldOf(after[intent.id].fields, k)
               == if k in edit then Some(edit[k]) else Documents.FieldOf(before[intent.id].fields, k))
       case Delete =>
         && (intent.id in after <==> intent.id in before && !before[intent.id].adding)
         && (intent.id in after ==> after[intent.id].deleting && after[intent.id].fields == before[intent.id].fields)
  }

  lemma TouchShows(w: World, i: nat)
    requires Enabled(w, Touch(i))
    ensures TouchShown(w.docs, w.running[i].intent, w.running[i].edit, Touching(w, i).docs)
    ensures Touching(w, i).entries == w.entries && Touching(w, i).intents == w.intents
  {
  }

  /**
   * The call then enqueues its write: for a document that was being added when it was touched, as one the server
   * may never have had. A call that found nothing enqueues nothing, and a delete that found nothing is over.
   */
  lemma TouchedQueues(w: World, i: nat)
    requires Enabled(w, Touch(i))
    ensures var m, v := w.running[i], Touching(w, i);
            var found := m.intent.op.Add? || m.intent.id in w.docs;
            && (i in v.running <==> found || !m.intent.op.Delete?)
            && (i in v.running && found ==> Enabled(v, Queue(i)) && InputOf(v.running[i]) == Input(
                  Key("", "", m.intent.id), m.intent.op, !m.intent.op.Add? && w.docs[m.intent.id].adding))
            && (i in v.running && !found ==> Enabled(v, Forget(i)))
  {
  }

  lemma QueueQueues(w: World, i: nat)
    requires Enabled(w, Queue(i))
    ensures Queueing(w, i).entries
        == Coalesced(w.entries, Sender(w), InputOf(w.running[i]), w.nextId).entries
    ensures Queueing(w, i).docs == w.docs && Queueing(w, i).intents == w.intents
    ensures i in Queueing(w, i).running <==> !w.running[i].intent.op.Delete?
    ensures i in Queueing(w, i).running ==> Enabled(Queueing(w, i), Forget(i))
  {
    hide Coalesced;
  }

  /** The device still has something to send for the intent, and the queue has no entry that sends it. */
  ghost predicate Missing(w: World, intent: Intent) {
    && intent.id in w.docs
    && (match intent.op
        case Add => w.docs[intent.id].adding
        case Update => w.docs[intent.id].prev != map[]
        case Delete => w.docs[intent.id].deleting)
    && forall e <- w.entries :: e.key == Key("", "", intent.id) ==>
         e.op != intent.op && !(intent.op.Update? && e.op.Add?)
  }

  /** Recovery enqueues a write again when it is missing from the queue, and only then; the intent is done with. */
  lemma RecoverQueues(w: World, i: nat)
    requires Enabled(w, Recover(i))
    ensures var intent, v := w.intents[i], Recovering(w, i);
            && v.docs == w.docs && i !in v.recovering && Enabled(v, Forget(i))
            && (!Missing(w, intent) ==> v.entries == w.entries)
            && (Missing(w, intent) ==>
                  var adding := !intent.op.Add? && w.docs[intent.id].adding;
                  var input := Input(Key("", "", intent.id), intent.op, adding);
                  v.entries == Coalesced(w.entries, Sender(w), input, w.nextId).entries)
  {
    hide Coalesced;
  }

  /** A restart loses what was running and goes through every intent again. */
  lemma CrashForgets(w: World)
    ensures var v := Crashed(w);
            && v.docs == w.docs && v.entries == w.entries && v.intents == w.intents && v.running == map[]
            && v.inflight.None? && forall i :: i in v.recovering <==> i in w.intents
  {
  }

  lemma AttemptedIds(entries: seq<Entry>, id: nat, attempts: nat)
    ensures Outbox.Ids(Attempted(entries, id, attempts)) == Outbox.Ids(entries)
  {
    var again := Attempted(entries, id, attempts);
    forall e | e in entries
      ensures e.id in Outbox.Ids(again)
    {
      var j :| 0 <= j < |entries| && entries[j] == e;
      assert again[j] in again && again[j].id == e.id;
    }
    forall e | e in again
      ensures e.id in Outbox.Ids(entries)
    {
      var j :| 0 <= j < |again| && again[j] == e;
      assert entries[j] in entries && entries[j].id == e.id;
    }
  }

  lemma WithoutIds(entries: seq<Entry>, id: nat)
    ensures Outbox.Ids(Without(entries, {id})) == Outbox.Ids(entries) - {id}
  {
    WithoutAre(entries, {id});
    hide Without;
  }

  /** An answer for good takes its entry off the queue; one to try again leaves it there. */
  lemma AnswerSettles(w: World, step: Step)
    requires Inv(w) && Enabled(w, step)
    requires step.Skip? || step.Confirm? || step.Refuse? || step.PutOff?
    ensures var v, id := Next(w, step), w.inflight.value.entry.id;
            && v.inflight.None? && v.intents == w.intents && v.running == w.running
            && Outbox.Ids(v.entries) == (if step.PutOff? then Outbox.Ids(w.entries) else Outbox.Ids(w.entries) - {id})
  {
    var id := w.inflight.value.entry.id;
    AttemptedIds(w.entries, id, w.inflight.value.entry.attempts + 1);
    WithoutIds(w.entries, id);
    hide Without, Attempted, Outbox.Ids, ConfirmedDocs, RefusedDocs, NothingToSend, QueueGood, CallsGood, Kept;
  }

  /** It is applied to its own document alone: a confirmed delete takes it away, a retry changes nothing. */
  lemma AnswerApplies(w: World, step: Step, id: Id)
    requires DocsWellFormed(w) && Enabled(w, step)
    requires step.Skip? || step.Confirm? || step.Refuse? || step.PutOff?
    ensures var v := Next(w, step);
            && (id != DocOf(w) || step.Skip? || step.PutOff? ==>
                  (id in v.docs <==> id in w.docs) && (id in v.docs ==> v.docs[id] == w.docs[id]))
            && (step.Confirm? && id == DocOf(w) ==>
                  (id in v.docs <==> id in w.docs && !w.inflight.value.entry.op.Delete?))
  {
    hide Without, Attempted, ConfirmedAdd, ConfirmedUpdate, RefusedDoc;
  }

  // --- What is sent ---

  /** The value a step's edit gives to a field of the document. */
  function Touches(w: World, step: Step, id: Id, k: string): Option<Documents.Value> {
    if step.Touch? && step.i in w.running && w.running[step.i].intent == Intent(Update, id)
    then Documents.FieldOf(w.running[step.i].edit, k) else None
  }

  ghost predicate Disturbs(w: World, step: Step, id: Id) {
    || ((step.Confirm? || step.Refuse?) && DocOf(w) == id)
    || (step.Touch? && step.i in w.running && w.running[step.i].intent == Intent(Add, id))
  }

  /** The document stays on the device, is not added again, and no answer is applied to it. */
  ghost predicate Undisturbed(w: World, steps: seq<Step>, id: Id)
    decreases |steps|
  {
    id in w.docs &&
    (steps != [] ==>
       && DocsWellFormed(w) && Enabled(w, steps[0]) && !Disturbs(w, steps[0], id)
       && Undisturbed(Next(w, steps[0]), steps[1..], id))
  }

  /** The value the last edit of a run gives to a field of the document. */
  ghost function LastTouched(w: World, steps: seq<Step>, id: Id, k: string): Option<Documents.Value>
    requires Undisturbed(w, steps, id)
    decreases |steps|
  {
    if steps == [] then None
    else
      var later := LastTouched(Next(w, steps[0]), steps[1..], id, k);
      if later.Some? then later else Touches(w, steps[0], id, k)
  }

  /** The oldest entry goes out: an add with every field the device reads, an update with the edited ones. */
  lemma WhatIsSent(w: World)
    requires DocsWellFormed(w) && Enabled(w, Send)
    ensures var v := Next(w, Send);
            && v.inflight.Some? && v.inflight.value.entry == w.entries[0] && v == w.(inflight := v.inflight)
            && (w.entries[0].key.doc in w.docs ==>
                  var doc, sent := w.docs[w.entries[0].key.doc], v.inflight.value.sent;
                  && (w.entries[0].op.Add? ==> sent == doc.fields)
                  && (w.entries[0].op.Update? ==>
                        sent.Keys == doc.prev.Keys
                          && forall k <- sent :: Documents.FieldOf(doc.fields, k) == Some(sent[k])))
  {
  }

  lemma TouchedStays(w: World, step: Step, id: Id, k: string)
    requires DocsWellFormed(w) && Enabled(w, step) && !Disturbs(w, step, id)
    requires id in w.docs && id in Next(w, step).docs
    ensures WellFormed(w.docs[id]) && WellFormed(Next(w, step).docs[id])
    ensures Documents.FieldOf(Unconfirmed(Next(w, step).docs[id]), k) ==
        if Touches(w, step, id, k).Some? then Touches(w, step, id, k)
        else Documents.FieldOf(Unconfirmed(w.docs[id]), k)
  {
    if step.Touch? && w.running[step.i].intent == Intent(Update, id) {
      EditAdds(w.docs[id], w.running[step.i].edit);
    }
    var doc, after := w.docs[id], Next(w, step).docs[id];
    assert after.fields == doc.fields && after.prev == doc.prev ==> Unconfirmed(after) == Unconfirmed(doc);
    hide Coalesced, Waiting, Covered, Without, Attempted, Edited, Ingest, SentOf, Unsent;
  }

  /**
   * Whatever else happens, crashes included: the last value given to a field is the one that is still to be
   * sent, and an update of the document that goes out sends it.
   */
  lemma {:induction false} LastEditIsSent(w: World, steps: seq<Step>, v: World, id: Id, k: string)
    requires Run(w, steps, v, false) && Undisturbed(w, steps, id) && DocsWellFormed(w) && DocsWellFormed(v)
    ensures id in v.docs && WellFormed(w.docs[id]) && WellFormed(v.docs[id])
    ensures var still := if LastTouched(w, steps, id, k).Some? then LastTouched(w, steps, id, k)
                         else Documents.FieldOf(Unconfirmed(w.docs[id]), k);
            && Documents.FieldOf(Unconfirmed(v.docs[id]), k) == still
            && (Enabled(v, Send) && v.entries[0].op.Update? && v.entries[0].key.doc == id ==>
                  Documents.FieldOf(Next(v, Send).inflight.value.sent, k) == still)
    decreases |steps|
  {
    if steps != [] {
      var next := Next(w, steps[0]);
      assert id in next.docs && (steps[1..] == [] ==> next == v);
      TouchedStays(w, steps[0], id, k);
      hide Enabled, Next, Unconfirmed, Touches, Disturbs;
      assert DocsWellFormed(next);
      LastEditIsSent(next, steps[1..], v, id, k);
    }
  }

  /** Once a restart has recovered every intent, what is pending is in the queue itself. */
  lemma RecoveredIsQueued(w: World, id: Id)
    requires Inv(w) && w.intents == map[] && id in w.docs && Pending(w.docs[id])
    ensures Queued(w, id) || w.docs[id].refused != {}
  {
    assert Kept(w, id);
  }

  // --- The guards are needed ---

  /** Nothing but call `i` answers for the document. */
  ghost predicate OnlyCall(w: World, i: nat, id: Id) {
    && id in w.docs && w.docs[id].refused == {} && !Queued(w, id)
    && forall j <- w.intents :: j != i ==> w.intents[j].id != id
  }

  /**
   * Whenever the first guard fails for an update that nothing else will send, the outbox takes the
   * update for one of a document never created on the server, and the edit is orphaned.
   */
  lemma StaleUpdateOrphans(w: World, i: nat)
    requires Inv(w) && Enabled(w, Queue(i)) && w.running[i].intent.op.Update?
    requires var id := w.running[i].intent.id;
             OnlyCall(w, i, id) && w.running[i].stage.unsynced && !w.docs[id].adding && w.docs[id].prev != map[]
    ensures DocsWellFormed(w) && !Guarded(w, Queue(i))
    ensures var v := Queueing(w, i);
            DocsWellFormed(v) && Enabled(v, Forget(i)) && Orphan(Next(v, Forget(i)), w.running[i].intent.id)
  {
    var input, id := InputOf(w.running[i]), w.running[i].intent.id;
    InvDocs(w);
    SameAre(w.entries, Sender(w), input.key);
    TargetIs(Same(w.entries, Sender(w), input.key));
    assert !AddingNow(Sender(w), input.key) by {
      if w.inflight.Some? { assert w.entries[0] in w.entries; }
    }
    assert Enqueued(w, input).entries == w.entries;
  }

  /**
   * And in recovery, whenever the second fails with no other delete to send: the document stays deleted here,
   * and alive on the server.
   */
  lemma MetAddOrphans(w: World, i: nat)
    requires Inv(w) && DocsWellFormed(w) && Enabled(w, Recover(i)) && !Guarded(w, Recover(i))
    requires var id := w.intents[i].id;
             && w.docs[id].refused == {} && (forall e <- w.entries :: e.key == KeyOf(id) ==> e.op.Add?)
             && forall j <- w.intents :: j != i ==> w.intents[j].id != id
    ensures var v := Recovering(w, i);
            DocsWellFormed(v) && Enabled(v, Forget(i)) && Orphan(Next(v, Forget(i)), w.intents[i].id)
  {
    var intent := w.intents[i];
    InvDocs(w);
    SameAre(w.entries, Sender(w), KeyOf(intent.id));
    WithoutAre(w.entries, Ids(Same(w.entries, Sender(w), KeyOf(intent.id))));
    hide Increasing, Same, Without;
  }

  /**
   * Whenever the first guard fails for a delete of a document that is back and edited, with nothing of it on
   * the wire: the delete drops the edit's own entry, and after a restart nothing sends either.
   */
  lemma DismissedDeleteOrphans(w: World, i: nat) returns (v: World)
    requires Inv(w) && DocsWellFormed(w) && Enabled(w, Queue(i)) && !Guarded(w, Queue(i))
    requires var id := w.running[i].intent.id;
             && w.running[i].intent.op.Delete? && w.docs[id].refused == {}
             && (w.inflight.Some? ==> w.inflight.value.entry.key != KeyOf(id))
             && forall j <- w.intents :: j != i ==> w.intents[j].id != id
    ensures Run(w, [Queue(i), Crash, Recover(i), Forget(i)], v, false) && Orphan(v, w.running[i].intent.id)
  {
    CallIsIntended(w, i);
    NothingQueued(w, i);
    v := RestartForgets(Queueing(w, i), i);
    hide Run, Inv, Guarded, DocsWellFormed, Orphan, Queueing, Queued;
    OneMore(w, Queue(i), [Crash, Recover(i), Forget(i)], v);
  }

  lemma NothingQueued(w: World, i: nat)
    requires Inv(w) && Enabled(w, Queue(i)) && Dismissed(w, i)
    requires w.inflight.Some? ==> w.inflight.value.entry.key != KeyOf(w.running[i].intent.id)
    ensures !Queued(Queueing(w, i), w.running[i].intent.id)
  {
    DismissedLeaves(w, i);
    QueueingKeepsQueue(w, Queueing(w, i), InputOf(w.running[i]));
    hide Dismissed, Coalesced, AnyUnsent, Queued;
    OnlyInFlight(Queueing(w, i), w.running[i].intent.id);
  }

  /** Recovery has nothing to do for a delete whose document is not being deleted, and forgets it. */
  lemma RestartForgets(w: World, i: nat) returns (v: World)
    requires DocsWellFormed(w) && i in w.intents && w.intents[i].op.Delete? && !Queued(w, w.intents[i].id)
    requires forall j <- w.intents :: j != i ==> w.intents[j].id != w.intents[i].id
    requires var id := w.intents[i].id;
             id in w.docs && w.docs[id].prev != map[] && !w.docs[id].deleting && w.docs[id].refused == {}
    ensures Run(w, [Crash, Recover(i), Forget(i)], v, false) && Orphan(v, w.intents[i].id)
  {
    var crashed := Crashed(w);
    var recovered := Recovering(crashed, i);
    v := Next(recovered, Forget(i));
    SameEntriesQueued(w, v, w.intents[i].id);
    hide Queued;
    OneMore(recovered, Forget(i), [], v);
    OneMore(crashed, Recover(i), [Forget(i)], v);
    OneMore(w, Crash, [Recover(i), Forget(i)], v);
  }

  lemma SameEntriesQueued(w: World, v: World, id: Id)
    requires v.entries == w.entries
    ensures Queued(v, id) <==> Queued(w, id)
  {
  }

  lemma OneMore(w: World, step: Step, steps: seq<Step>, v: World)
    requires DocsWellFormed(w) && Enabled(w, step) && Run(Next(w, step), steps, v, false)
    ensures Run(w, [step] + steps, v, false)
  {
    assert ([step] + steps)[1..] == steps;
  }

  ghost predicate Moves(w: World, step: Step, v: World) {
    DocsWellFormed(w) && Enabled(w, step) && Guarded(w, step) && Next(w, step) == v
  }

  lemma RunOn(w: World, step: Step, next: World, steps: seq<Step>, v: World)
    requires Moves(w, step, next) && Run(next, steps, v, true)
    ensures Run(w, [step] + steps, v, true)
  {
    hide DocsWellFormed, Enabled, Guarded, Next;
    assert ([step] + steps)[1..] == steps;
  }

  lemma RunOnce(w: World, step: Step, v: World)
    requires Moves(w, step, v)
    ensures Run(w, [step], v, true)
  {
    hide DocsWellFormed, Enabled, Guarded, Next;
    assert [step][1..] == [];
  }

  /** The add of a document "x", as its call goes. */
  lemma AddMoves()
    ensures var add, entry, doc := Intent(Add, "x"), Entry(0, KeyOf("x"), Add, 0), NewDoc(map[]);
            var w1 := World(map[], [], map[0 := add], map[0 := Mutation(add, map[], Intended)], {}, None, 0);
            var w2 := w1.(docs := map["x" := doc], running := map[0 := Mutation(add, map[], Touched(false))]);
            Moves(EMPTY, Intend(0, add, map[]), w1) && Moves(w1, Touch(0), w2)
  {
  }

  lemma AddQueued(w: World)
    requires w == World(map["x" := NewDoc(map[])], [], map[0 := Intent(Add, "x")],
        map[0 := Mutation(Intent(Add, "x"), map[], Touched(false))], {}, None, 0)
    ensures Moves(w, Queue(0), w.(entries := [Entry(0, KeyOf("x"), Add, 0)], nextId := 1,
        running := map[0 := Mutation(Intent(Add, "x"), map[], Recorded)]))
  {
  }

  lemma AddForgotten(w: World, add: Mutation)
    requires DocsWellFormed(w) && w.intents == map[0 := add.intent] && w.running == map[0 := add] && add.stage.Recorded?
    requires w.entries != [] && w.recovering == {} && w.inflight.None?
    ensures var v := w.(intents := map[], running := map[]);
            Moves(w, Forget(0), v)
              && Moves(v, Send, v.(inflight := Some(Sending(v.entries[0], SentOf(v.docs, v.entries[0])))))
  {
  }

  /** The add of a document "x", queued and sent. */
  lemma AddedAndSent() returns (steps: seq<Step>, w: World)
    ensures Run(EMPTY, steps, w, true)
    ensures w == World(map["x" := NewDoc(map[])], [Entry(0, KeyOf("x"), Add, 0)], map[], map[], {},
                       Some(Sending(Entry(0, KeyOf("x"), Add, 0), map[])), 1)
  {
    var add, entry, doc := Intent(Add, "x"), Entry(0, KeyOf("x"), Add, 0), NewDoc(map[]);
    var w1 := World(map[], [], map[0 := add], map[0 := Mutation(add, map[], Intended)], {}, None, 0);
    var w2 := w1.(docs := map["x" := doc], running := map[0 := Mutation(add, map[], Touched(false))]);
    var w3 := w2.(entries := [entry], nextId := 1, running := map[0 := Mutation(add, map[], Recorded)]);
    var w4 := w3.(intents := map[], running := map[]);
    w := w4.(inflight := Some(Sending(entry, map[])));
    AddMoves();
    AddQueued(w2);
    AddForgotten(w3, Mutation(add, map[], Recorded));
    hide Moves, Run;
    RunOnce(w4, Send, w);
    RunOn(w3, Forget(0), w4, [Send], w);
    RunOn(w2, Queue(0), w3, [Forget(0)] + [Send], w);
    RunOn(w1, Touch(0), w2, [Queue(0)] + ([Forget(0)] + [Send]), w);
    steps := [Intend(0, add, map[])] + ([Touch(0)] + ([Queue(0)] + ([Forget(0)] + [Send])));
    RunOn(EMPTY, Intend(0, add, map[]), w1, [Touch(0)] + ([Queue(0)] + ([Forget(0)] + [Send])), w);
  }

  lemma {:induction false} RunThen(w: World, first: seq<Step>, m: World, second: seq<Step>, v: World, guarded: bool)
    requires Run(w, first, m, guarded) && Run(m, second, v, guarded)
    ensures Run(w, first + second, v, guarded)
    decreases |first|
  {
    hide DocsWellFormed, Enabled, Guarded, Next;
    if first == [] {
      assert first + second == second;
    } else {
      RunThen(Next(w, first[0]), first[1..], m, second, v, guarded);
      assert (first + second)[1..] == first[1..] + second;
    }
  }

  lemma EditMoves(w: World, edit: Fields)
    requires w.intents == map[] && w.running == map[] && w.recovering == {} && w.docs.Keys == {"x"}
    requires w.docs["x"].adding && WellFormed(w.docs["x"])
    ensures var update := Intent(Update, "x");
            var v := w.(intents := map[1 := update], running := map[1 := Mutation(update, edit, Intended)]);
            && Moves(w, Intend(1, update, edit), v)
            && Moves(v, Touch(1), v.(docs := w.docs["x" := Edited(w.docs["x"], edit)],
                running := map[1 := Mutation(update, edit, Touched(true))]))
  {
  }

  /** An edit touches the document while its add is out, and the add is confirmed. */
  lemma EditedMeanwhile(edit: Fields) returns (steps: seq<Step>, v: World)
    requires edit != map[]
    ensures Run(EMPTY, steps, v, true)
    ensures v == World(map["x" := Edited(NewDoc(map[]), edit).(adding := false)], [], map[1 := Intent(Update, "x")],
                       map[1 := Mutation(Intent(Update, "x"), edit, Touched(true))], {}, None, 1)
  {
    var before, w := AddedAndSent();
    var update, edited := Intent(Update, "x"), Edited(NewDoc(map[]), edit);
    var w1 := w.(intents := map[1 := update], running := map[1 := Mutation(update, edit, Intended)]);
    var w2 := w1.(docs := w.docs["x" := edited], running := map[1 := Mutation(update, edit, Touched(true))]);
    v := w2.(docs := map["x" := edited.(adding := false)], entries := [], inflight := None);
    EditMoves(w, edit);
    AddConfirmed(w2, edited);
    hide Moves, Run;
    RunOnce(w2, Confirm(map[], None), v);
    RunOn(w1, Touch(1), w2, [Confirm(map[], None)], v);
    var after := [Intend(1, update, edit)] + ([Touch(1)] + [Confirm(map[], None)]);
    RunOn(w, Intend(1, update, edit), w1, [Touch(1)] + [Confirm(map[], None)], v);
    RunThen(EMPTY, before, w, after, v, true);
    steps := before + after;
  }

  /** Only then is the edit queued: the first family is reached. */
  lemma StaleUpdateReached(edit: Fields) returns (steps: seq<Step>, v: World)
    requires edit != map[]
    ensures Run(EMPTY, steps, v, true) && DocsWellFormed(v) && Enabled(v, Queue(1)) && !Guarded(v, Queue(1))
    ensures DocsWellFormed(Queueing(v, 1)) && Enabled(Queueing(v, 1), Forget(1))
        && Orphan(Next(Queueing(v, 1), Forget(1)), "x")
  {
    steps, v := EditedMeanwhile(edit);
    NothingOrphaned(EMPTY, steps, v);
    EditedPending(edit);
    hide Run, Inv, Edited, Orphan, Next, DocsWellFormed, Guarded;
    StaleUpdateOrphans(v, 1);
  }

  lemma OnlyOneGone(e: Entry)
    ensures Without([e], {e.id}) == []
  {
    assert [e][..0] == [];
  }

  lemma AddConfirmed(w: World, doc: LocalDoc)
    requires w.docs == map["x" := doc] && WellFormed(doc) && doc.refused == {} && doc.version == None
    requires w.entries == [Entry(0, KeyOf("x"), Add, 0)] && w.inflight == Some(Sending(w.entries[0], map[]))
    ensures Moves(w, Confirm(map[], None), w.(docs := map["x" := doc.(adding := false)], entries := [],
        inflight := None))
  {
    ConfirmedAllUnsent(doc);
    OnlyOneGone(w.entries[0]);
  }

  lemma ConfirmedAllUnsent(doc: LocalDoc)
    requires WellFormed(doc) && doc.refused == {} && doc.version == None
    ensures ConfirmedAdd(doc, map[], map[], None) == doc.(adding := false)
  {
  }

  lemma EditedPending(edit: Fields)
    requires edit != map[]
    ensures Edited(NewDoc(map[]), edit).prev != map[]
  {
    var k :| k in edit;
    assert k in Edited(NewDoc(map[]), edit).prev;
  }

  /**
   * The answer to an add is lost, its echo arrives by realtime, the user deletes the document and the
   * device crashes: recovery takes the put-off add for one the server never heard of.
   */
  lemma MetAddReached() returns (steps: seq<Step>, v: World)
    ensures Run(EMPTY, steps, v, true) && DocsWellFormed(v) && Enabled(v, Recover(1)) && !Guarded(v, Recover(1))
    ensures DocsWellFormed(Recovering(v, 1)) && Enabled(Recovering(v, 1), Forget(1))
        && Orphan(Next(Recovering(v, 1), Forget(1)), "x")
  {
    var before, w := AddedAndSent();
    var delete, echo := Intent(Delete, "x"), Reads(true, map[], Some(1), false);
    var w1 := w.(entries := [Entry(0, KeyOf("x"), Add, 1)], inflight := None);
    var w2 := w1.(docs := map["x" := LocalDoc(map[], Some(1), map[], false, false, {})]);
    var w3 := w2.(intents := map[1 := delete], running := map[1 := Mutation(delete, map[], Intended)]);
    var w4 := w3.(docs := map["x" := LocalDoc(map[], Some(1), map[], false, true, {})],
        running := map[1 := Mutation(delete, map[], Touched(false))]);
    v := w4.(running := map[], recovering := {1});
    EchoMoves(w);
    DeleteMoves(w2);
    hide Moves, Run;
    RunOnce(w4, Crash, v);
    RunOn(w3, Touch(1), w4, [Crash], v);
    RunOn(w2, Intend(1, delete, map[]), w3, [Touch(1)] + [Crash], v);
    var echoed := [IngestChange("x", echo)] + ([Intend(1, delete, map[])] + ([Touch(1)] + [Crash]));
    RunOn(w1, IngestChange("x", echo), w2, [Intend(1, delete, map[])] + ([Touch(1)] + [Crash]), v);
    RunOn(w, PutOff, w1, echoed, v);
    RunThen(EMPTY, before, w, [PutOff] + echoed, v, true);
    steps := before + ([PutOff] + echoed);
    MetAdd(steps, v);
  }

  lemma EchoMoves(w: World)
    requires w == World(map["x" := NewDoc(map[])], [Entry(0, KeyOf("x"), Add, 0)], map[], map[], {},
                        Some(Sending(Entry(0, KeyOf("x"), Add, 0), map[])), 1)
    ensures var v := w.(entries := [Entry(0, KeyOf("x"), Add, 1)], inflight := None);
            && Moves(w, PutOff, v)
            && Moves(v, IngestChange("x", Reads(true, map[], Some(1), false)),
                v.(docs := map["x" := LocalDoc(map[], Some(1), map[], false, false, {})]))
  {
  }

  lemma DeleteMoves(w: World)
    requires w.intents == map[] && w.running == map[] && w.recovering == {} && w.inflight.None?
    requires w.docs == map["x" := LocalDoc(map[], Some(1), map[], false, false, {})]
    ensures var delete := Intent(Delete, "x");
            var v := w.(intents := map[1 := delete], running := map[1 := Mutation(delete, map[], Intended)]);
            var u := v.(docs := map["x" := LocalDoc(map[], Some(1), map[], false, true, {})],
                running := map[1 := Mutation(delete, map[], Touched(false))]);
            && Moves(w, Intend(1, delete, map[]), v) && Moves(v, Touch(1), u)
            && Moves(u, Crash, u.(running := map[], recovering := {1}))
  {
  }

  lemma MetAdd(steps: seq<Step>, v: World)
    requires Run(EMPTY, steps, v, true)
    requires v == World(map["x" := LocalDoc(map[], Some(1), map[], false, true, {})], [Entry(0, KeyOf("x"), Add, 1)],
                        map[1 := Intent(Delete, "x")], map[], {1}, None, 1)
    ensures DocsWellFormed(v) && Enabled(v, Recover(1)) && !Guarded(v, Recover(1))
    ensures DocsWellFormed(Recovering(v, 1)) && Enabled(Recovering(v, 1), Forget(1))
        && Orphan(Next(Recovering(v, 1), Forget(1)), "x")
  {
    NothingOrphaned(EMPTY, steps, v);
    hide Run, Inv, Orphan, Next, DocsWellFormed;
    AddIsMet(v);
    MetAddOrphans(v, 1);
  }

  lemma AddIsMet(v: World)
    requires v.entries == [Entry(0, KeyOf("x"), Add, 1)] && v.inflight.None?
    ensures AddUnsent(v, "x")
  {
    assert v.entries[0] in v.entries;
  }

  // A delete that waits to be queued while its document comes back and is edited.

  const DELETE := Mutation(Intent(Delete, "x"), map[], Touched(true))
  const BACK := LocalDoc(map[], Some(1), map[], false, false, {})

  lemma RunGoesOn(w: World, steps: seq<Step>, m: World, step: Step, v: World)
    requires Run(w, steps, m, true) && Moves(m, step, v)
    ensures Run(w, steps + [step], v, true)
  {
    RunOnce(m, step, v);
    RunThen(w, steps, m, [step], v, true);
  }

  function DeleteIntended(w: World): World {
    w.(intents := map[1 := DELETE.intent], running := map[1 := DELETE.(stage := Intended)])
  }

  /** The delete finds the document still being added. */
  lemma DeleteOfAdding(w: World)
    requires w.intents == map[] && w.running == map[] && w.recovering == {}
    requires w.docs == map["x" := NewDoc(map[])]
    ensures var v := DeleteIntended(w);
            Moves(w, Intend(1, DELETE.intent, map[]), v)
              && Moves(v, Touch(1), v.(docs := map[], running := map[1 := DELETE]))
  {
  }

  /** The add is confirmed, and its echo brings the document back. */
  lemma ComesBack(w: World)
    requires w == World(map[], [Entry(0, KeyOf("x"), Add, 0)], map[1 := DELETE.intent], map[1 := DELETE], {},
                        Some(Sending(Entry(0, KeyOf("x"), Add, 0), map[])), 1)
    ensures var v := w.(entries := [], inflight := None);
            && Moves(w, Confirm(map[], None), v)
            && Moves(v, IngestChange("x", Reads(true, map[], Some(1), false)), v.(docs := map["x" := BACK]))
  {
    OnlyOneGone(w.entries[0]);
  }

  lemma EditOfBack(w: World, edit: Fields)
    requires w == World(map["x" := BACK], [], map[1 := DELETE.intent], map[1 := DELETE], {}, None, 1)
    ensures var m := Mutation(Intent(Update, "x"), edit, Intended);
            var v := w.(intents := map[1 := DELETE.intent, 2 := m.intent], running := map[1 := DELETE, 2 := m]);
            && Moves(w, Intend(2, m.intent, edit), v)
            && Moves(v, Touch(2), v.(docs := map["x" := Edited(BACK, edit)],
                running := map[1 := DELETE, 2 := m.(stage := Touched(false))]))
  {
  }

  lemma EditOfBackQueued(w: World, edit: Fields)
    requires var m := Mutation(Intent(Update, "x"), edit, Touched(false));
             w == World(map["x" := Edited(BACK, edit)], [], map[1 := DELETE.intent, 2 := m.intent],
                        map[1 := DELETE, 2 := m], {}, None, 1)
    ensures var m := Mutation(Intent(Update, "x"), edit, Recorded);
            var v := w.(entries := [Entry(1, KeyOf("x"), Update, 0)], nextId := 2, running := map[1 := DELETE, 2 := m]);
            && Moves(w, Queue(2), v)
            && Moves(v, Forget(2), v.(intents := map[1 := DELETE.intent], running := map[1 := DELETE]))
  {
  }

  /** The delete has touched the document that is still being added, and the document is back. */
  lemma DeletedAndBack() returns (steps: seq<Step>, v: World)
    ensures Run(EMPTY, steps, v, true)
    ensures v == World(map["x" := BACK], [], map[1 := DELETE.intent], map[1 := DELETE], {}, None, 1)
  {
    var before, w := AddedAndSent();
    var w1 := DeleteIntended(w);
    var w2 := w1.(docs := map[], running := map[1 := DELETE]);
    var w3 := w2.(entries := [], inflight := None);
    v := w3.(docs := map["x" := BACK]);
    DeleteOfAdding(w);
    ComesBack(w2);
    hide Moves, Run;
    RunGoesOn(EMPTY, before, w, Intend(1, DELETE.intent, map[]), w1);
    steps := before + [Intend(1, DELETE.intent, map[])];
    RunGoesOn(EMPTY, steps, w1, Touch(1), w2);
    steps := steps + [Touch(1)];
    RunGoesOn(EMPTY, steps, w2, Confirm(map[], None), w3);
    steps := steps + [Confirm(map[], None)];
    RunGoesOn(EMPTY, steps, w3, IngestChange("x", Reads(true, map[], Some(1), false)), v);
    steps := steps + [IngestChange("x", Reads(true, map[], Some(1), false))];
  }

  lemma EditedOnceBack(edit: Fields) returns (steps: seq<Step>, v: World)
    ensures Run(EMPTY, steps, v, true)
    ensures v == World(map["x" := Edited(BACK, edit)], [Entry(1, KeyOf("x"), Update, 0)], map[1 := DELETE.intent],
                       map[1 := DELETE], {}, None, 2)
  {
    var before, w := DeletedAndBack();
    var m := Mutation(Intent(Update, "x"), edit, Intended);
    var w1 := w.(intents := map[1 := DELETE.intent, 2 := m.intent], running := map[1 := DELETE, 2 := m]);
    var w2 := w1.(docs := map["x" := Edited(BACK, edit)],
        running := map[1 := DELETE, 2 := m.(stage := Touched(false))]);
    var w3 := w2.(entries := [Entry(1, KeyOf("x"), Update, 0)], nextId := 2,
        running := map[1 := DELETE, 2 := m.(stage := Recorded)]);
    v := w3.(intents := map[1 := DELETE.intent], running := map[1 := DELETE]);
    EditOfBack(w, edit);
    EditOfBackQueued(w2, edit);
    hide Moves, Run;
    RunGoesOn(EMPTY, before, w, Intend(2, m.intent, edit), w1);
    steps := before + [Intend(2, m.intent, edit)];
    RunGoesOn(EMPTY, steps, w1, Touch(2), w2);
    steps := steps + [Touch(2)];
    RunGoesOn(EMPTY, steps, w2, Queue(2), w3);
    steps := steps + [Queue(2)];
    RunGoesOn(EMPTY, steps, w3, Forget(2), v);
    steps := steps + [Forget(2)];
  }

  /** Only then is the delete queued: it drops the entry of the edit, and the restart forgets the delete. */
  lemma DismissedDeleteReached(edit: Fields) returns (steps: seq<Step>, w: World, v: World)
    requires edit != map[]
    ensures Run(EMPTY, steps, w, true) && DocsWellFormed(w) && Enabled(w, Queue(1)) && !Guarded(w, Queue(1))
    ensures Run(w, [Queue(1), Crash, Recover(1), Forget(1)], v, false) && Orphan(v, "x")
  {
    steps, w := EditedOnceBack(edit);
    NothingOrphaned(EMPTY, steps, w);
    InvDocs(w);
    BackPending(edit);
    DeleteUnguarded(w);
    hide Run, Inv, Edited, Orphan, Next, DocsWellFormed, Guarded;
    v := DismissedDeleteOrphans(w, 1);
  }

  lemma BackPending(edit: Fields)
    requires edit != map[]
    ensures Edited(BACK, edit).prev != map[]
  {
    var k :| k in edit;
    assert k in Edited(BACK, edit).prev;
  }

  lemma DeleteUnguarded(w: World)
    requires DocsWellFormed(w) && w.running == map[1 := DELETE] && w.intents == map[1 := DELETE.intent]
    requires w.inflight.None? && "x" in w.docs && w.docs["x"].prev != map[]
    requires !w.docs["x"].adding && !w.docs["x"].deleting && w.docs["x"].refused == {}
    ensures Enabled(w, Queue(1)) && !Guarded(w, Queue(1))
  {
  }
}
