/**
 * A collection served for sync: every write takes the collection's next version, deletes leave
 * tombstones, conditional writes refuse a stale base.
 * packages/mongodb/src/withVersion.ts and packages/mongodb/src/MongoDatasource.ts.
 */
module VersionedServer {
  import opened Wrappers
  import opened Documents

  /** A stored document: its version, whether it is a tombstone, its fields. */
  datatype Record = Record(version: int, deleted: bool, fields: Fields)

  /** One committed write: the document it creates or replaces, as it reads afterwards. */
  datatype Commit = Commit(id: Id, created: bool, record: Record)

  type Docs = map<Id, Record>

  /** `max(database clock, previous version + 1)`. */
  function NextVersion(clock: int, counter: int): int {
    if clock > counter + 1 then clock else counter + 1
  }

  /** The least version past the previous one that is not behind the database's clock. */
  lemma NextVersionIs(clock: int, counter: int, v: int)
    ensures counter < NextVersion(clock, counter) && clock <= NextVersion(clock, counter)
    ensures counter < v && clock <= v ==> NextVersion(clock, counter) <= v
  {
  }

  /** The collection a log of commits leads to. */
  function Replayed(log: seq<Commit>): Docs {
    if log == [] then map[]
    else Replayed(log[..|log| - 1])[log[|log| - 1].id := log[|log| - 1].record]
  }

  /** Whether `commit` may follow what is stored: a document is created once and a tombstone is its end. */
  predicate Follows(docs: Docs, commit: Commit) {
    && (commit.created <==> commit.id !in docs)
    && (commit.id in docs ==> !docs[commit.id].deleted)
  }

  /** A log as the server writes it, no version above `top`. */
  ghost predicate Committed(log: seq<Commit>, top: int) {
    log == [] ||
    var init, last := log[..|log| - 1], log[|log| - 1];
    last.record.version <= top && Committed(init, last.record.version - 1) && Follows(Replayed(init), last)
  }

  /** The body of an update: fields to set, or MongoDB operators, which are passed on as they are. */
  datatype Body = Plain(fields: Fields) | Operators(effect: Fields -> Fields)

  /** What `#update` makes of a document. */
  function Updated(fields: Fields, body: Body): Fields {
    match body
    case Plain(set_) => fields + set_
    case Operators(effect) => effect(fields)
  }

  datatype PutResult = Written(version: int) | NothingMatched | VersionConflict

  class Collection {
    var docs: Docs
    var counter: int
    /** Every commit so far, as the database's own log holds them. */
    var log: seq<Commit>

    ghost predicate Valid() reads this {
      && docs == Replayed(log)
      && Committed(log, counter)
    }

    constructor ()
      ensures Valid() && docs == map[] && log == []
    {
      docs, counter, log := map[], 0, [];
    }

    /** The write every operation ends in: the version it was given, committed at once. */
    method Save(id: Id, version: int, deleted: bool, fields: Fields)
      requires Valid() && version > counter
      requires id in docs ==> !docs[id].deleted
      modifies this
      ensures Valid() && counter == version
      ensures log == old(log) + [Commit(id, id !in old(docs), Record(version, deleted, fields))]
      ensures docs == old(docs)[id := Record(version, deleted, fields)]
    {
      var commit := Commit(id, id !in docs, Record(version, deleted, fields));
      assert (log + [commit])[..|log|] == log;
      CommittedBelow(log, counter, version - 1);
      counter := version;
      docs := docs[id := commit.record];
      log := log + [commit];
    }

    /** A new document; None when the id is taken, by a tombstone too, and then no version is spent. */
    method Post(id: Id, fields: Fields, clock: int) returns (version: Option<int>)
      requires Valid()
      modifies this
      ensures Valid()
      ensures counter >= old(counter)
      ensures id in old(docs) ==> version.None? && docs == old(docs) && counter == old(counter) && log == old(log)
      ensures id !in old(docs) ==>
                && version == Some(NextVersion(clock, old(counter)))
                && log == old(log) + [Commit(id, true, Record(version.value, false, fields))]
    {
      if id in docs {
        return None;
      }
      var next := NextVersion(clock, counter);
      Save(id, next, false, fields);
      return Some(next);
    }

    /**
     * Update a live document. With `ifVersion` only that version may be overwritten; a
     * refused write spends no version. A tombstone stays deleted, and the caller is not told.
     */
    method Put(id: Id, body: Body, ifVersion: Option<int>, clock: int) returns (result: PutResult)
      requires Valid()
      modifies this
      ensures Valid()
      ensures var live := id in old(docs) && !old(docs)[id].deleted;
              var matches := live && (ifVersion.None? || ifVersion.value == old(docs)[id].version);
              result == if matches then Written(NextVersion(clock, old(counter)))
                        else if live then VersionConflict else NothingMatched
      ensures result.Written? ==>
                var record := Record(result.version, false, Updated(old(docs)[id].fields, body));
                log == old(log) + [Commit(id, false, record)] && docs == old(docs)[id := record]
      ensures result.Written? && body.Plain? ==> forall k ::
                FieldOf(docs[id].fields, k)
                == if k in body.fields then Some(body.fields[k]) else FieldOf(old(docs)[id].fields, k)
      ensures !result.Written? ==> docs == old(docs) && log == old(log)
      ensures counter >= old(counter)
      ensures result.VersionConflict? ==> counter == old(counter)
    {
      var next := NextVersion(clock, counter);
      if id in docs && !docs[id].deleted && (ifVersion.None? || ifVersion.value == docs[id].version) {
        Save(id, next, false, Updated(docs[id].fields, body));
        return Written(next);
      }
      if ifVersion.Some? && id in docs && !docs[id].deleted {
        return VersionConflict;
      }
      CommittedBelow(log, counter, next);
      counter := next;
      return NothingMatched;
    }

    method Delete(id: Id, clock: int) returns (version: Option<int>)
      requires Valid()
      modifies this
      ensures Valid()
      ensures counter >= old(counter)
      ensures version.Some? <==> id in old(docs) && !old(docs)[id].deleted
      ensures version.Some? ==>
                && version.value == NextVersion(clock, old(counter))
                && log == old(log) + [Commit(id, false, Record(version.value, true, old(docs)[id].fields))]
      ensures version.None? ==> docs == old(docs) && log == old(log)
    {
      var next := NextVersion(clock, counter);
      if id in docs && !docs[id].deleted {
        Save(id, next, true, docs[id].fields);
        return Some(next);
      }
      CommittedBelow(log, counter, next);
      counter := next;
      return None;
    }
  }

  // --- What a log says ---

  lemma ReplayedSnoc(log: seq<Commit>, commit: Commit)
    ensures Replayed(log + [commit]) == Replayed(log)[commit.id := commit.record]
  {
    assert (log + [commit])[..|log|] == log;
  }

  lemma CommittedSnoc(log: seq<Commit>, top: int, commit: Commit)
    requires Committed(log, top) && top < commit.record.version && Follows(Replayed(log), commit)
    ensures Committed(log + [commit], commit.record.version)
  {
    assert (log + [commit])[..|log|] == log;
    CommittedBelow(log, top, commit.record.version - 1);
  }

  lemma CommittedBelow(log: seq<Commit>, top: int, higher: int)
    requires Committed(log, top) && top <= higher
    ensures Committed(log, higher)
  {
  }

  /** Versions are handed out in commit order and never repeat. */
  lemma {:induction false} CommitOrder(log: seq<Commit>, top: int, i: nat, j: nat)
    requires Committed(log, top) && i < j < |log|
    ensures log[i].record.version < log[j].record.version <= top
    decreases |log|
  {
    var init, last := log[..|log| - 1], log[|log| - 1];
    if j < |init| {
      CommitOrder(init, last.record.version - 1, i, j);
    } else if i + 1 < j {
      CommitOrder(init, last.record.version - 1, i, j - 1);
      assert init[i] == log[i];
    }
  }

  /**
   * The current record of a document is its newest, whatever was committed around it, and the only one that
   * can be a tombstone.
   */
  lemma {:induction false} CurrentIsNewest(log: seq<Commit>, top: int, commit: Commit)
    requires Committed(log, top) && commit in log
    ensures commit.id in Replayed(log)
    ensures commit.record.version <= Replayed(log)[commit.id].version <= top
    ensures commit.record.version == Replayed(log)[commit.id].version ==> commit.record == Replayed(log)[commit.id]
    ensures commit.record.deleted ==> commit.record == Replayed(log)[commit.id]
    decreases |log|
  {
    var init, last := log[..|log| - 1], log[|log| - 1];
    assert log == init + [last];
    if commit in init {
      CurrentIsNewest(init, last.record.version - 1, commit);
    }
  }

  /** Every stored document has its current commit, and the commit that created it, in the log. */
  lemma {:induction false} CurrentWasCommitted(log: seq<Commit>, top: int, id: Id)
    requires Committed(log, top) && id in Replayed(log)
    ensures exists c :: c in log && c.id == id && c.record == Replayed(log)[id]
    ensures exists c :: c in log && c.id == id && c.created
    decreases |log|
  {
    var init, last := log[..|log| - 1], log[|log| - 1];
    assert log == init + [last];
    if id in Replayed(init) {
      CurrentWasCommitted(init, last.record.version - 1, id);
    }
    assert last in log;
  }

  /** Two commits with one version are one commit. */
  lemma VersionsDistinct(log: seq<Commit>, top: int, a: Commit, b: Commit)
    requires Committed(log, top) && a in log && b in log && a.record.version == b.record.version
    ensures a == b
  {
    var i :| 0 <= i < |log| && log[i] == a;
    var j :| 0 <= j < |log| && log[j] == b;
    if i < j {
      CommitOrder(log, top, i, j);
    } else if j < i {
      CommitOrder(log, top, j, i);
    }
  }
}
