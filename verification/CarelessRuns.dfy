/**
 * Runs of ordinary steps, careful up to their last one, at whose end a device shows what the server never
 * had at the version the device says it has, or overwrites what it never saw:
 * packages/client/src/LivequeryClient.ts and packages/mongodb/src/MongoDatasource.ts.
 */
module CarelessRuns {
  import opened Wrappers
  import opened Documents
  import opened VersionedServer
  import opened LocalDocs
  import opened Convergence
  import Outbox

  const FIELDS: Fields := map["f" := Null, "g" := Null]
  const CHANGE: Fields := map["f" := Bool(true)]
  const ADDED := Commit("x", true, Record(1, false, FIELDS))
  const HELD := LocalDoc(FIELDS, Some(1), map[], false, false, {})
  const EDITED := LocalDoc(FIELDS + CHANGE, Some(1), map["f" := Some(Null)], false, false, {})

  /** One device, `a`. */
  function Alone(log: seq<Commit>, top: int, p: Replica): World {
    World(log, top, map["a" := p])
  }

  function Idle(doc: LocalDoc): Replica { Replica(Some(doc), false, false, None) }

  function Sent(doc: LocalDoc, read: LocalDoc, stage: Stage): Replica {
    Replica(Some(doc), false, false, Some(Out(false, CHANGE, Some(1), read, false, stage)))
  }

  function Adding(log: seq<Commit>, top: int, tried: bool, stage: Option<Stage>): World {
    var out := if stage.None? then None
        else Some(Out(true, FIELDS, None, NewDoc(FIELDS), stage.value.Answered?, stage.value));
    Alone(log, top, Replica(Some(NewDoc(FIELDS)), true, tried, out))
  }

  /** What a careful run leads to. */
  ghost predicate Reached(w: World) {
    exists steps :: CarefulRun(NOTHING, "x", steps, w)
  }

  lemma {:induction false} RunOn(u: World, steps: seq<Step>, w: World, step: Step)
    requires CarefulRun(u, "x", steps, w) && WellFormedAll(w) && Enabled(w, "x", step)
    requires !step.Write? ==> Careful(ReplicaAt(w, step.r), step)
    ensures CarefulRun(u, "x", steps + [step], Next(w, "x", step))
    decreases |steps|
  {
    if steps == [] {
      assert [step][1..] == [];
    } else {
      RunOn(Next(u, "x", steps[0]), steps[1..], w, step);
      assert (steps + [step])[1..] == steps[1..] + [step];
    }
    hide Next, Enabled, Careful, WellFormedAll;
  }

  lemma Moves(w: World, step: Step, v: World)
    requires Reached(w) && WellFormedAll(w) && Enabled(w, "x", step) && v == Next(w, "x", step)
    requires !step.Write? ==> Careful(ReplicaAt(w, step.r), step)
    ensures Reached(v)
  {
    var steps :| CarefulRun(NOTHING, "x", steps, w);
    RunOn(NOTHING, steps, w, step);
  }

  lemma OneMore(log: seq<Commit>, commit: Commit)
    requires commit.id == "x" && (Replayed(log) == map[] || exists record :: Replayed(log) == map["x" := record])
    ensures Replayed(log + [commit]) == map["x" := commit.record]
  {
    ReplayedSnoc(log, commit);
    hide Replayed;
  }

  lemma Logs(a: Commit, b: Commit, c: Commit)
    requires a.id == b.id == c.id == "x"
    ensures Replayed([a]) == map["x" := a.record]
    ensures Replayed([a, b]) == map["x" := b.record]
    ensures Replayed([a, b, c]) == map["x" := c.record]
  {
    assert Replayed([]) == map[];
    hide Replayed;
    OneMore([], a);
    assert [] + [a] == [a];
    OneMore([a], b);
    assert [a] + [b] == [a, b];
    OneMore([a, b], c);
    assert [a, b] + [c] == [a, b, c];
  }

  /** The add goes out. */
  lemma AddSent()
    ensures Reached(Adding([], 0, false, Some(Asked)))
  {
    assert CarefulRun(NOTHING, "x", [], NOTHING);
    Moves(NOTHING, Create("a", FIELDS), Adding([], 0, false, None));
    Moves(Adding([], 0, false, None), SendAdd("a"), Adding([], 0, false, Some(Asked)));
  }

  lemma AddTaken()
    ensures Reached(Adding([ADDED], 1, false, Some(Answered(Some(1), FIELDS))))
  {
    AddSent();
    assert Replayed([]) == map[] && [] + [ADDED] == [ADDED];
    Moves(Adding([], 0, false, Some(Asked)), Post("a", 0), Adding([ADDED], 1, false, Some(Answered(Some(1), FIELDS))));
  }

  /** A document added and confirmed. */
  lemma Added()
    ensures Reached(Alone([ADDED], 1, Idle(HELD)))
  {
    AddTaken();
    var w := Adding([ADDED], 1, false, Some(Answered(Some(1), FIELDS)));
    NothingUnsent(NewDoc(FIELDS));
    var doc := ConfirmedAdd(NewDoc(FIELDS), FIELDS, FIELDS, Some(1));
    assert doc == HELD;
    Moves(w, Confirm("a"), Alone([ADDED], 1, Idle(HELD)));
  }

  /** Then a field of it is edited. */
  lemma EditedThen()
    ensures Reached(Alone([ADDED], 1, Idle(EDITED)))
  {
    Added();
    assert Edited(HELD, CHANGE) == EDITED;
    Moves(Alone([ADDED], 1, Idle(HELD)), Edit("a", CHANGE), Alone([ADDED], 1, Idle(EDITED)));
  }

  lemma Pushes(log: seq<Commit>, top: int)
    requires Reached(Alone(log, top, Idle(EDITED)))
    ensures Reached(Alone(log, top, Sent(EDITED, EDITED, Asked)))
  {
    assert Unconfirmed(EDITED) == CHANGE && "f" in EDITED.prev;
    Moves(Alone(log, top, Idle(EDITED)), Send("a"), Alone(log, top, Sent(EDITED, EDITED, Asked)));
  }

  /** And the edit is sent. */
  lemma EditSent()
    ensures Reached(Alone([ADDED], 1, Sent(EDITED, EDITED, Asked)))
  {
    EditedThen();
    Pushes([ADDED], 1);
  }

  // --- Copies that do not read as the server did ---

  /** The copy at its version is not what the server committed under that version. */
  ghost predicate Misread(w: World) {
    var doc := ReplicaAt(w, "a").doc;
    doc.Some? && doc.value.version.Some? && !Honest(w.log, "x", doc.value)
  }

  lemma IsMisread(w: World, name: string, record: Record)
    requires ReplicaAt(w, "a").doc.Some? && ReplicaAt(w, "a").doc.value.version == Some(record.version)
    requires forall c <- w.log :: c.id == "x" && c.record.version == record.version ==> c.record == record
    requires name !in ReplicaAt(w, "a").doc.value.prev
        && FieldOf(ReplicaAt(w, "a").doc.value.fields, name) != FieldOf(record.fields, name)
    ensures Misread(w)
  {
  }

  const SET := Commit("x", false, Record(2, false, FIELDS + CHANGE))

  lemma SetIsTaken(doc: Option<LocalDoc>, clock: int)
    requires clock <= 2
    ensures var p := Sent(EDITED, EDITED, Asked).(doc := doc);
            var q := Sent(EDITED, EDITED, Answered(Some(2), CHANGE)).(doc := doc);
            WellFormedAll(Alone([ADDED], 1, p)) ==>
              Enabled(Alone([ADDED], 1, p), "x", Put("a", clock, None))
              && Next(Alone([ADDED], 1, p), "x", Put("a", clock, None)) == Alone([ADDED, SET], 2, q)
  {
    Logs(ADDED, SET, SET);
    assert [ADDED] + [SET] == [ADDED, SET];
  }

  lemma SetReached(doc: Option<LocalDoc>)
    requires Reached(Alone([ADDED], 1, Sent(EDITED, EDITED, Asked).(doc := doc)))
        && (doc.Some? ==> WellFormed(doc.value))
    ensures Reached(Alone([ADDED, SET], 2, Sent(EDITED, EDITED, Answered(Some(2), CHANGE)).(doc := doc)))
  {
    SetIsTaken(doc, 0);
    var p := Sent(EDITED, EDITED, Asked).(doc := doc);
    hide Next, Enabled, Sent;
    Moves(Alone([ADDED], 1, p), Put("a", 0, None), Next(Alone([ADDED], 1, p), "x", Put("a", 0, None)));
  }

  /** Confirming it. */
  lemma ConfirmedThen(log: seq<Commit>, top: int, doc: LocalDoc, version: Option<int>)
    requires WellFormed(doc) && doc.prev.Keys <= {"f"} && ("f" in doc.prev ==> doc.fields["f"] == Bool(true))
    ensures var w := Alone(log, top, Sent(doc, EDITED, Answered(version, CHANGE)));
            && WellFormedAll(w) && Enabled(w, "x", Confirm("a"))
            && ReplicaAt(Next(w, "x", Confirm("a")), "a").doc
               == Some(doc.(version := if version.Some? then version else doc.version, prev := map[],
                 refused := doc.refused - {Outbox.Update}))
            && Next(w, "x", Confirm("a")).log == log
  {
    assert Unsent(doc, CHANGE) == {};
  }

  const REPLACED := Alone([ADDED, SET], 2, Sent(HELD, EDITED, Answered(Some(2), CHANGE)))

  lemma LeftReached()
    ensures Reached(Alone([ADDED], 1, Sent(EDITED, EDITED, Asked).(doc := None)))
  {
    EditSent();
    Moves(Alone([ADDED], 1, Sent(EDITED, EDITED, Asked)), Gone("a"),
      Alone([ADDED], 1, Sent(EDITED, EDITED, Asked).(doc := None)));
  }

  lemma ReplacedReached()
    ensures Reached(REPLACED)
  {
    LeftReached();
    Moves(Alone([ADDED], 1, Sent(EDITED, EDITED, Asked).(doc := None)), Report("a", ADDED, true),
      Alone([ADDED], 1, Sent(HELD, EDITED, Asked)));
    SetReached(Some(HELD));
  }

  /**
   * The document leaves the device and comes back while an update of it is out: the answer's version is
   * stamped on a copy without the edit, with nothing pending and at the server's version.
   */
  lemma ReplacedWhileOut()
    ensures Reached(REPLACED) && WellFormedAll(REPLACED) && Enabled(REPLACED, "x", Confirm("a"))
    ensures var v := Next(REPLACED, "x", Confirm("a"));
            && Misread(v) && "x" in Replayed(v.log)
            && var doc := ReplicaAt(v, "a").doc.value;
            doc.prev == map[] && doc.version == Some(Replayed(v.log)["x"].version)
              && doc.fields != Replayed(v.log)["x"].fields
  {
    ReplacedReached();
    ConfirmedThen([ADDED, SET], 2, HELD, Some(2));
    Logs(ADDED, SET, SET);
    var v := Next(REPLACED, "x", Confirm("a"));
    assert FieldOf(FIELDS, "f") != FieldOf(SET.record.fields, "f");
    hide Next, Enabled, Reached;
    IsMisread(v, "f", SET.record);
  }

  const DEAD := Commit("x", false, Record(2, true, FIELDS))
  const BURIED := Alone([ADDED, DEAD], 3, Sent(EDITED, EDITED, Answered(None, CHANGE)))

  lemma BuriedReached()
    ensures Reached(BURIED)
  {
    EditedThen();
    Logs(ADDED, DEAD, DEAD);
    assert [ADDED] + [DEAD] == [ADDED, DEAD];
    Moves(Alone([ADDED], 1, Idle(EDITED)), Write(DEAD), Alone([ADDED, DEAD], 2, Idle(EDITED)));
    Pushes([ADDED, DEAD], 2);
    Moves(Alone([ADDED, DEAD], 2, Sent(EDITED, EDITED, Asked)), Put("a", 0, None), BURIED);
  }

  /**
   * An update of a document deleted on the server is answered without a version, and the edit stays as if
   * confirmed.
   */
  lemma TombstoneAnswered()
    ensures Reached(BURIED) && WellFormedAll(BURIED) && Enabled(BURIED, "x", Confirm("a"))
    ensures Misread(Next(BURIED, "x", Confirm("a")))
    ensures "x" in Replayed(BURIED.log) && Replayed(BURIED.log)["x"].deleted
  {
    BuriedReached();
    ConfirmedThen([ADDED, DEAD], 3, EDITED, None);
    Logs(ADDED, DEAD, DEAD);
    assert FieldOf(EDITED.fields, "f") != FieldOf(FIELDS, "f");
    var v := Next(BURIED, "x", Confirm("a"));
    hide Next, Enabled, Reached;
    IsMisread(v, "f", ADDED.record);
  }

  const OUT := Alone([ADDED], 1, Sent(EDITED, EDITED, Asked))

  /** A refused update stays on the copy, no longer pending. */
  lemma RefusedStays()
    ensures Reached(OUT) && WellFormedAll(OUT) && Enabled(OUT, "x", Refuse("a")) && Misread(Next(OUT, "x", Refuse("a")))
  {
    EditSent();
    assert FieldOf(EDITED.fields, "f") != FieldOf(FIELDS, "f");
    IsMisread(Next(OUT, "x", Refuse("a")), "f", ADDED.record);
  }

  const NEWER := Commit("x", false, Record(3, false, FIELDS + map["f" := Bool(true), "g" := Bool(true)]))
  const AHEAD := EDITED.(fields := NEWER.record.fields, version := Some(3))
  const PASSED := Alone([ADDED, SET, NEWER], 3, Sent(AHEAD, EDITED, Answered(Some(2), CHANGE)))

  const TAKEN := Sent(EDITED, EDITED, Answered(Some(2), CHANGE))

  lemma NewerCommitted()
    ensures Reached(Alone([ADDED, SET, NEWER], 3, TAKEN))
  {
    EditSent();
    SetReached(Some(EDITED));
    Logs(ADDED, SET, NEWER);
    assert [ADDED, SET] + [NEWER] == [ADDED, SET, NEWER];
    Moves(Alone([ADDED, SET], 2, TAKEN), Write(NEWER), Alone([ADDED, SET, NEWER], 3, TAKEN));
  }

  lemma AheadIngested()
    ensures WellFormed(EDITED) && Ingest(Some(EDITED), Reading(NEWER, false)) == Some(AHEAD)
        && Covers(AHEAD, NEWER.record.fields)
  {
    assert EDITED.fields + Rebased(EDITED, NEWER.record.fields) == NEWER.record.fields && "f" in EDITED.prev;
  }

  lemma PassedReached()
    ensures Reached(PASSED)
  {
    NewerCommitted();
    AheadIngested();
    hide Ingest, Reached;
    Moves(Alone([ADDED, SET, NEWER], 3, TAKEN), Report("a", NEWER, false), PASSED);
  }

  /** A newer version ingested between acceptance and confirmation is then taken for the older one the write made. */
  lemma NewerTakenForOlder()
    ensures Reached(PASSED) && WellFormedAll(PASSED) && Enabled(PASSED, "x", Confirm("a"))
    ensures var v := Next(PASSED, "x", Confirm("a")); Misread(v) && ReplicaAt(v, "a").doc.value.version == Some(2)
  {
    PassedReached();
    ConfirmedThen([ADDED, SET, NEWER], 3, AHEAD, Some(2));
    assert FieldOf(AHEAD.fields, "g") != FieldOf(SET.record.fields, "g");
    var v := Next(PASSED, "x", Confirm("a"));
    hide Next, Enabled, Reached;
    IsMisread(v, "g", SET.record);
  }

  const UNSET := Commit("x", false, Record(2, false, map["f" := Null]))
  const SHRUNK := Alone([ADDED, UNSET], 2, Idle(HELD))

  /** A write that takes a field away, as `$unset` does: the change merged into the copy leaves it there. */
  lemma RemovedFieldStays()
    ensures Reached(SHRUNK) && WellFormedAll(SHRUNK) && Enabled(SHRUNK, "x", Report("a", UNSET, false))
    ensures Misread(Next(SHRUNK, "x", Report("a", UNSET, false)))
  {
    Added();
    Logs(ADDED, UNSET, UNSET);
    assert [ADDED] + [UNSET] == [ADDED, UNSET];
    Moves(Alone([ADDED], 1, Idle(HELD)), Write(UNSET), SHRUNK);
    var v := Next(SHRUNK, "x", Report("a", UNSET, false));
    assert HELD.fields + Rebased(HELD, UNSET.record.fields) == FIELDS;
    assert FieldOf(FIELDS, "g") != FieldOf(UNSET.record.fields, "g");
    hide Reached;
    IsMisread(v, "g", UNSET.record);
  }

  // --- A write without a base ---

  const RETRIED := Adding([ADDED, SET], 2, true, Some(Exists))

  lemma AnswerLost()
    ensures Reached(Adding([ADDED, SET], 2, true, None))
  {
    AddTaken();
    Logs(ADDED, SET, SET);
    assert [ADDED] + [SET] == [ADDED, SET];
    Moves(Adding([ADDED], 1, false, Some(Answered(Some(1), FIELDS))), Give("a"), Adding([ADDED], 1, true, None));
    Moves(Adding([ADDED], 1, true, None), Write(SET), Adding([ADDED, SET], 2, true, None));
  }

  lemma RetrySent()
    ensures Reached(Adding([ADDED, SET], 2, true, Some(Asked)))
  {
    AnswerLost();
    Moves(Adding([ADDED, SET], 2, true, None), SendAdd("a"), Adding([ADDED, SET], 2, true, Some(Asked)));
  }

  lemma RetriedReached()
    ensures Reached(RETRIED)
  {
    RetrySent();
    Logs(ADDED, SET, SET);
    Moves(Adding([ADDED, SET], 2, true, Some(Asked)), Post("a", 0), RETRIED);
  }

  /**
   * The answer to an add is lost, another client changes the document, and the add is retried: its id is
   * taken, so the whole document is written without a base, over a change this device never saw.
   */
  lemma RetriedAddOverwrites()
    ensures Reached(RETRIED) && WellFormedAll(RETRIED) && Enabled(RETRIED, "x", Put("a", 0, None))
    ensures ReplicaAt(RETRIED, "a").doc.value.version.None? && ReplicaAt(RETRIED, "a").out.value.base.None?
    ensures var v := Next(RETRIED, "x", Put("a", 0, None));
            && "x" in Replayed(RETRIED.log) && Replayed(RETRIED.log)["x"].fields == FIELDS + CHANGE
            && "x" in Replayed(v.log) && Replayed(v.log)["x"].fields == FIELDS
  {
    RetriedReached();
    var back := Commit("x", false, Record(3, false, FIELDS));
    Logs(ADDED, SET, back);
    assert FIELDS + CHANGE + FIELDS == FIELDS && [ADDED, SET] + [back] == [ADDED, SET, back];
    assert Next(RETRIED, "x", Put("a", 0, None)).log == [ADDED, SET, back];
    hide Next, Reached;
  }
}
