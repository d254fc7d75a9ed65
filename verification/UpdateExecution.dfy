/**
 * One update entry, executed: send the unconfirmed fields, conditionally if the copy has a version; on a
 * conflict pull the server's document, rebase and send again. `#execute` of
 * packages/client/src/LivequeryClient.ts.
 */
module UpdateExecution {
  import opened Wrappers
  import opened Documents
  import opened VersionedServer
  import opened LocalDocs
  import opened Convergence
  import Outbox

  const CONFLICT_ATTEMPTS := 3

  /** What another client does before an attempt, or between a conflict and the pull that follows it. */
  datatype Other = Nothing | Sets(fields: Fields) | Deletes

  /** How an execution ends: nothing to send, a version, an answer without one, a conflict too many, nothing to pull. */
  datatype Ending = Carried | Accepted(version: int) | Unanswered | GivenUp | Missing

  predicate Live(docs: Docs, id: Id) { id in docs && !docs[id].deleted }

  /** What other clients do: before each attempt, and before the pull that follows it. */
  datatype Turns = Turns(before: seq<Other>, meanwhile: seq<Other>)

  /** A first attempt and three more; a pull after each of the first three. */
  predicate Enough(turns: Turns) {
    |turns.before| == 4 && |turns.meanwhile| == 3
  }

  /** The document is still there when attempt `k` is made. */
  predicate LiveAt(docs: Docs, id: Id, turns: Turns, k: nat)
    requires Enough(turns) && k <= 3
  {
    && Live(docs, id)
    && (forall j :: 0 <= j <= k ==> !turns.before[j].Deletes?)
    && forall j :: 0 <= j < k ==> !turns.meanwhile[j].Deletes?
  }

  /** Attempt `k`, should it come to it, meets a document that changed since the version it is based on. */
  predicate Meets(docs: Docs, id: Id, local: LocalDoc, turns: Turns, k: nat)
    requires Enough(turns) && k <= 3
  {
    && LiveAt(docs, id, turns, k)
    && if k > 0 then turns.before[k].Sets?
          else local.version.Some? && (turns.before[0].Sets? || local.version.value != docs[id].version)
  }

  /** Every attempt up to `k` meets a change. */
  predicate AllMeet(docs: Docs, id: Id, local: LocalDoc, turns: Turns, k: nat)
    requires Enough(turns) && k <= 3
  {
    forall j :: 0 <= j <= k ==> Meets(docs, id, local, turns, j)
  }

  /** The document is deleted between the conflict of attempt `k` and its pull. */
  predicate GoneBeforePull(docs: Docs, id: Id, local: LocalDoc, turns: Turns, k: nat)
    requires Enough(turns) && k < 3
  {
    AllMeet(docs, id, local, turns, k) && turns.meanwhile[k].Deletes?
  }

  predicate PullFails(docs: Docs, id: Id, local: LocalDoc, turns: Turns)
    requires Enough(turns)
  {
    exists k: nat :: k < 3 && GoneBeforePull(docs, id, local, turns, k)
  }

  function PulledFrom(doc: LocalDoc, record: Record): Option<LocalDoc>
    requires WellFormed(doc)
  {
    Ingest(Some(doc), Reads(false, record.fields, Some(record.version), record.deleted))
  }

  lemma PulledIs(doc: LocalDoc, record: Record)
    requires WellFormed(doc) && !doc.deleting && !record.deleted
    requires doc.version.Some? ==> doc.version.value <= record.version
    ensures var after := PulledFrom(doc, record);
            && after.Some? && WellFormed(after.value) && !after.value.deleting
            && after.value.prev == doc.prev && after.value.version == Some(record.version)
                && Unconfirmed(after.value) == Unconfirmed(doc)
  {
  }

  /** What was sent and confirmed at once is the server's document, if the copy read as the one it replaces. */
  lemma ConfirmedIsServers(doc: LocalDoc, base: Record, after: Record)
    requires WellFormed(doc) && ReadsAs(doc, base) && after.fields == base.fields + Unconfirmed(doc)
    ensures ConfirmedUpdate(doc, Unconfirmed(doc), Some(after.version)).fields == after.fields
  {
    forall k
      ensures FieldOf(doc.fields, k) == FieldOf(after.fields, k)
    {
    }
    SameFields(doc.fields, after.fields);
  }

  lemma SentIs(doc: LocalDoc)
    requires WellFormed(doc)
    ensures forall k <- doc.prev :: k in Unconfirmed(doc) && Unconfirmed(doc)[k] == doc.fields[k]
    ensures ConfirmedUpdate(doc, Unconfirmed(doc), None).prev == map[]
        && ConfirmedUpdate(doc, Unconfirmed(doc), Some(0)).prev == map[]
    ensures (doc.prev == map[]) == (Unconfirmed(doc) == map[])
  {
    NothingUnsent(doc);
  }

  /** The copy reads as a version of the document from which nothing was taken away since. */
  ghost predicate Based(doc: LocalDoc, held: Record, current: Record) {
    && ReadsAs(doc, held) && held.fields.Keys <= current.fields.Keys
    && (held.version == current.version ==> held == current)
  }

  lemma PulledReads(doc: LocalDoc, held: Record, record: Record)
    requires WellFormed(doc) && !doc.deleting && !record.deleted && held.version <= record.version
        && Based(doc, held, record)
    ensures Based(PulledFrom(doc, record).value, record, record)
  {
    PulledIs(doc, record);
    var after := PulledFrom(doc, record).value;
    forall k | k in after.fields && k !in after.prev
      ensures k in record.fields
    {
      if k in doc.fields { assert FieldOf(doc.fields, k) == FieldOf(held.fields, k); }
    }
    IngestReads(doc, record, false);
  }

  /** Another client's turn. */
  method TakeTurn(server: Collection, id: Id, other: Other, clock: int)
    requires server.Valid()
    modifies server
    ensures server.Valid() && (id in server.docs <==> id in old(server.docs))
    ensures Live(server.docs, id) <==> Live(old(server.docs), id) && !other.Deletes?
    ensures Live(server.docs, id) ==>
              && old(server.docs)[id].fields.Keys <= server.docs[id].fields.Keys
              && (if other.Sets? then old(server.docs)[id].version < server.docs[id].version
                  else server.docs[id] == old(server.docs)[id])
  {
    hide Committed;
    if id in server.docs {
      CurrentWas(server.log, server.counter, id);
      WasBelow(server.log, server.counter, id, server.docs[id]);
    }
    if other.Sets? {
      var result := server.Put(id, Plain(other.fields), None, clock);
    } else if other.Deletes? {
      var version := server.Delete(id, clock);
    }
  }

  /**
   * The server's copy, through the ingest. A document deleted meanwhile is not found, and the error is not one
   * that is retried.
   */
  method Pull(server: Collection, id: Id, current: LocalDoc, ghost base: Record, meanwhile: Other, clock: int)
    returns (pulled: Option<LocalDoc>)
    requires server.Valid() && Live(server.docs, id) && WellFormed(current) && !current.deleting
    requires current.version.Some? ==> current.version.value <= server.docs[id].version
    modifies server
    ensures server.Valid() && (pulled.Some? <==> Live(server.docs, id)) && (pulled.Some? <==> !meanwhile.Deletes?)
    ensures pulled.Some? ==>
              && WellFormed(pulled.value) && !pulled.value.deleting && pulled.value.prev == current.prev
              && pulled.value.version == Some(server.docs[id].version)
              && Unconfirmed(pulled.value) == Unconfirmed(current)
    ensures pulled.Some? && Based(current, base, old(server.docs)[id]) ==>
              Based(pulled.value, server.docs[id], server.docs[id])
  {
    hide Committed, ReadsAs, Based, Unconfirmed, Ingest, PulledFrom;
    ghost var before := server.docs;
    TakeTurn(server, id, meanwhile, clock);
    if id !in server.docs || server.docs[id].deleted {
      return None;
    }
    PulledIs(current, server.docs[id]);
    if Based(current, base, before[id]) {
      BasedIs(current, base, before[id]);
      BasedStill(current, base, before[id], server.docs[id]);
      PulledReads(current, base, server.docs[id]);
    }
    return PulledFrom(current, server.docs[id]);
  }

  /** What an attempt comes to. */
  datatype Outcome = Took(after: LocalDoc, version: int) | NothingThere(after: LocalDoc) | Overtaken

  /** The server has every edit of the copy, and so has the copy left. */
  predicate Landed(local: LocalDoc, after: LocalDoc, record: Record) {
    forall k <- local.prev ::
      k in record.fields && k in local.fields && record.fields[k] == local.fields[k]
        && k in after.fields && after.fields[k] == local.fields[k]
  }

  /**
   * One attempt, after another client's turn: a conflict exactly when the document is there and not at the
   * version the copy is based on.
   */
  method Attempt(server: Collection, id: Id, current: LocalDoc, ghost base: Record, other: Other, clock: int)
    returns (outcome: Outcome)
    requires server.Valid() && WellFormed(current) && current.prev != map[]
    requires current.version.Some? && id in server.docs ==> current.version.value <= server.docs[id].version
    modifies server
    ensures server.Valid() && (Live(server.docs, id) <==> Live(old(server.docs), id) && !other.Deletes?)
    ensures outcome.Overtaken? <==>
        Live(server.docs, id) && current.version.Some?
          && (other.Sets? || current.version.value != old(server.docs)[id].version)
    ensures outcome.NothingThere? <==> !Live(server.docs, id)
    ensures outcome.NothingThere? || outcome.Took? ==> outcome.after.prev == map[]
    ensures outcome.Took? ==>
              && server.docs[id].version == outcome.version && outcome.after.version == Some(outcome.version)
              && Landed(current, outcome.after, server.docs[id])
              && (current.version.Some? && Based(current, base, old(server.docs)[id]) ==>
                    outcome.after.fields == server.docs[id].fields)
    ensures outcome.Overtaken? ==>
              && current.version.value <= server.docs[id].version
              && (Based(current, base, old(server.docs)[id]) ==> Based(current, base, server.docs[id]))
  {
    hide Committed, ReadsAs, Based, Unconfirmed, ConfirmedUpdate;
    ghost var before := server.docs;
    TakeTurn(server, id, other, clock);
    ghost var found := server.docs;
    SentIs(current);
    var fields := Unconfirmed(current);
    var result := server.Put(id, Plain(fields), current.version, clock);
    if result.Written? {
      ConfirmedFields(current, Some(result.version));
      if current.version.Some? && Based(current, base, before[id]) {
        BasedIs(current, base, before[id]);
        ConfirmedIsServers(current, found[id], server.docs[id]);
      }
      return Took(ConfirmedUpdate(current, fields, Some(result.version)), result.version);
    }
    if result.NothingMatched? {
      ConfirmedFields(current, None);
      return NothingThere(ConfirmedUpdate(current, fields, None));
    }
    if Based(current, base, before[id]) {
      BasedIs(current, base, before[id]);
      BasedStill(current, base, before[id], found[id]);
    }
    return Overtaken;
  }

  /**
   * Whatever other clients do in between, the update is given up exactly when every attempt meets a change, as
   * a conflict is not a failure that is retried; or when the document is deleted after a conflict and before the
   * pull. It is answered without a version only when the document is deleted by then. Otherwise it gets through,
   * and then the server has every edit.
   */
  method ExecuteUpdate(server: Collection, id: Id, local: LocalDoc, ghost held: Record, turns: Turns, clock: int)
    returns (after: LocalDoc, ending: Ending)
    requires server.Valid() && WellFormed(local) && !local.deleting && Enough(turns)
    requires local.version.Some? && id in server.docs ==> local.version.value <= server.docs[id].version
    modifies server
    ensures server.Valid() && after.prev == map[]
    ensures ending.Carried? <==> local.prev == map[]
    ensures ending.GivenUp? <==> local.prev != map[] && AllMeet(old(server.docs), id, local, turns, 3)
    ensures ending.Missing? <==> local.prev != map[] && PullFails(old(server.docs), id, local, turns)
    ensures ending.GivenUp? || ending.Missing? ==> Outbox.Update in after.refused
    ensures ending.Accepted? ==>
              && Live(server.docs, id) && server.docs[id].version == ending.version
              && after.version == Some(ending.version) && Landed(local, after, server.docs[id])
    ensures ending.Accepted? ==>
              (local.version.Some? && id in old(server.docs) && Based(local, held, old(server.docs)[id]) ==>
                 after.fields == server.docs[id].fields)
    ensures ending.Unanswered? || ending.Missing? ==> !Live(server.docs, id)
  {
    hide Committed, ReadsAs, Based, Ingest, ConfirmedUpdate, Landed;
    if local.prev == map[] {
      return local, Carried;
    }
    var current := local;
    ghost var base := held;
    ghost var based := local.version.Some? && id in server.docs && Based(local, held, server.docs[id]);
    var attempt := 0;
    while true
      invariant 0 <= attempt <= CONFLICT_ATTEMPTS && server.Valid()
      invariant WellFormed(current) && !current.deleting && current.prev == local.prev
          && Unconfirmed(current) == Unconfirmed(local)
      invariant forall k :: 0 <= k < attempt ==>
                  Meets(old(server.docs), id, local, turns, k) && !turns.meanwhile[k].Deletes?
      invariant attempt == 0 ==> server.docs == old(server.docs) && current == local && base == held
      invariant attempt > 0 ==> Live(server.docs, id) && current.version == Some(server.docs[id].version)
      invariant based ==> current.version.Some? && id in server.docs && Based(current, base, server.docs[id])
      decreases CONFLICT_ATTEMPTS - attempt
    {
      if attempt > 0 { assert Meets(old(server.docs), id, local, turns, attempt - 1); }
      var outcome := Attempt(server, id, current, base, turns.before[attempt], clock);
      assert Live(server.docs, id) <==> LiveAt(old(server.docs), id, turns, attempt);
      assert outcome.Overtaken? <==> Meets(old(server.docs), id, local, turns, attempt);
      if outcome.Took? {
        LandedToo(current, local, outcome.after, server.docs[id]);
        return outcome.after, Accepted(outcome.version);
      }
      if outcome.NothingThere? {
        return outcome.after, Unanswered;
      }
      if attempt == CONFLICT_ATTEMPTS {
        return RefusedDoc(current, Outbox.Update), GivenUp;
      }
      var pulled := Pull(server, id, current, base, turns.meanwhile[attempt], clock);
      if pulled.None? {
        assert GoneBeforePull(old(server.docs), id, local, turns, attempt);
        assert !Meets(old(server.docs), id, local, turns, attempt + 1);
        return RefusedDoc(current, Outbox.Update), Missing;
      }
      current := pulled.value;
      base := server.docs[id];
      attempt := attempt + 1;
    }
  }

  /** Copies with the same edits land alike. */
  lemma LandedToo(current: LocalDoc, local: LocalDoc, after: LocalDoc, record: Record)
    requires WellFormed(current) && WellFormed(local) && current.prev == local.prev
    requires Unconfirmed(current) == Unconfirmed(local) && Landed(current, after, record)
    ensures Landed(local, after, record)
  {
    assert forall k <- local.prev :: Unconfirmed(current)[k] == current.fields[k];
    assert forall k <- local.prev :: Unconfirmed(local)[k] == local.fields[k];
  }

  lemma ConfirmedFields(doc: LocalDoc, version: Option<int>)
    requires WellFormed(doc)
    ensures var after := ConfirmedUpdate(doc, Unconfirmed(doc), version);
            && after.prev == map[] && after.fields == doc.fields && (version.Some? ==> after.version == version)
  {
    NothingUnsent(doc);
  }

  lemma BasedIs(doc: LocalDoc, held: Record, current: Record)
    requires Based(doc, held, current)
    ensures ReadsAs(doc, held) && doc.version == Some(held.version)
        && (held.version == current.version ==> held == current)
  {
  }

  lemma BasedStill(doc: LocalDoc, held: Record, current: Record, newer: Record)
    requires Based(doc, held, current) && current.fields.Keys <= newer.fields.Keys
    requires newer == current || (held.version <= current.version < newer.version)
    ensures Based(doc, held, newer) && doc.version == Some(held.version)
  {
  }
}
