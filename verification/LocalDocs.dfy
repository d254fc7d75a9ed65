/**
 * A document on the device and what edits, confirmations and remote changes do to it:
 * the pure parts of packages/client/src/LivequeryClient.ts.
 */
module LocalDocs {
  import opened Wrappers
  import opened Documents
  import opened Outbox

  /**
   * `prev` is `_prev`: for every field with an unconfirmed edit, its value before the first one.
   * `refused` holds the operations the server refused (`_adding_error` and the like).
   */
  datatype LocalDoc = LocalDoc(
    fields: Fields,
    version: Option<int>,
    prev: map<string, Option<Value>>,
    adding: bool,
    deleting: bool,
    refused: set<Operation>)

  /** An edited field has a value on the device. */
  predicate WellFormed(doc: LocalDoc) {
    doc.prev.Keys <= doc.fields.Keys
  }

  predicate Pending(doc: LocalDoc) {
    doc.adding || doc.deleting || doc.prev != map[]
  }

  function NewDoc(fields: Fields): LocalDoc {
    LocalDoc(fields, None, map[], true, false, {})
  }

  /** `update`: every field keeps the value from before its first unconfirmed edit. */
  function Edited(doc: LocalDoc, edit: Fields): LocalDoc {
    doc.(fields := doc.fields + edit,
         prev := (map k <- edit :: FieldOf(doc.fields, k)) + doc.prev)
  }

  /** What an update sends: the edited fields, as they are now. */
  function Unconfirmed(doc: LocalDoc): Fields
    requires WellFormed(doc)
  {
    map k <- doc.prev :: doc.fields[k]
  }

  /** Fields edited again while a write was out. */
  function Unsent(doc: LocalDoc, sent: Fields): set<string>
    requires WellFormed(doc)
  {
    set k <- doc.prev | k !in sent || doc.fields[k] != sent[k]
  }

  /** Remote values, except the fields with an unconfirmed edit. */
  function Rebased(doc: LocalDoc, remote: Fields): Fields
    requires WellFormed(doc)
  {
    map k <- remote :: if k in doc.prev then doc.fields[k] else remote[k]
  }

  /** `rebase`: a copy of the remote document, its edited fields put back. */
  method Rebase(doc: LocalDoc, remote: Fields) returns (data: Fields)
    requires WellFormed(doc)
    ensures data == Rebased(doc, remote)
  {
    data := remote;
    var left := doc.prev.Keys;
    while left != {}
      invariant left <= doc.prev.Keys && data.Keys == remote.Keys
      invariant forall k <- remote :: data[k] == if k in doc.prev && k !in left then doc.fields[k] else remote[k]
      decreases |left|
    {
      var key :| key in left;
      if key in data {
        data := data[key := doc.fields[key]];
      }
      left := left - {key};
    }
  }

  function Restrict(prev: map<string, Option<Value>>, keys: set<string>): map<string, Option<Value>> {
    map k <- prev | k in keys :: prev[k]
  }

  /** The server took an update of `sent`; its answer may carry the version it gave. */
  function ConfirmedUpdate(doc: LocalDoc, sent: Fields, version: Option<int>): LocalDoc
    requires WellFormed(doc)
  {
    doc.(version := if version.Some? then version else doc.version,
         prev := Restrict(doc.prev, Unsent(doc, sent)),
         refused := doc.refused - {Update})
  }

  /** The server took an add of `sent` and answered the document it stored. */
  function ConfirmedAdd(doc: LocalDoc, sent: Fields, data: Fields, version: Option<int>): LocalDoc
    requires WellFormed(doc)
  {
    var unsent := Unsent(doc, sent);
    doc.(fields := doc.fields + data + (map k <- doc.fields | k in unsent :: doc.fields[k]),
         version := if version.Some? then version else doc.version,
         prev := Restrict(doc.prev, unsent),
         adding := false,
         refused := doc.refused - {Add})
  }

  /** The server refused an operation for good. */
  function RefusedDoc(doc: LocalDoc, op: Operation): LocalDoc {
    match op
    case Add => doc.(adding := false, refused := doc.refused + {Add})
    case Update => doc.(prev := map[], refused := doc.refused + {Update})
    case Delete => doc.(deleting := false, refused := doc.refused + {Delete})
  }

  /** A change the transporter reports: the document is gone, or reads like this now. */
  datatype Change = Removed | Reads(created: bool, fields: Fields, version: Option<int>, tombstone: bool)

  predicate IsOlder(version: Option<int>, doc: LocalDoc) {
    version.Some? && doc.version.Some? && version.value < doc.version.value
  }

  /** The change is put on what the device has, or passed over. */
  predicate Takes(doc: LocalDoc, change: Change) {
    change.Reads? && !IsOlder(change.version, doc) && (change.created || !doc.deleting)
  }

  /** It takes the place of what the device has. */
  predicate Replaces(doc: LocalDoc, change: Change) {
    Takes(doc, change) && change.created && doc.prev == map[] && !doc.deleting
  }

  /**
   * Field by field, what is read after a change: the device's own value where an edit is pending, the remote one
   * where the change is taken and carries one, nothing else where it replaces, and otherwise what was read before.
   */
  function ReadAfter(doc: LocalDoc, change: Change, name: string): Option<Value> {
    if name in doc.prev then FieldOf(doc.fields, name)
    else if Takes(doc, change) && name in change.fields then Some(change.fields[name])
    else if Replaces(doc, change) then None
    else FieldOf(doc.fields, name)
  }

  /** The single write path of remote changes. */
  function Ingest(local: Option<LocalDoc>, change: Change): (after: Option<LocalDoc>)
    requires local.Some? ==> WellFormed(local.value)
    ensures after.Some? ==> WellFormed(after.value)
    ensures after.Some? && local.Some? ==>
              && after.value.prev == local.value.prev
              && forall k <- local.value.prev :: after.value.fields[k] == local.value.fields[k]
    ensures after.Some? && local.Some? ==>
              forall k :: FieldOf(after.value.fields, k) == ReadAfter(local.value, change, k)
  {
    if change.Removed? then None
    else if local.None? then
      if change.created
          && !change.tombstone then Some(LocalDoc(change.fields, change.version, map[], false, false, {})) else None
    else
      var doc, Reads(created, fields, version, tombstone) := local.value, change;
      if IsOlder(version, doc) then local
      else if tombstone then None
      else if doc.prev == map[] && !doc.deleting && created
          then Some(LocalDoc(fields, version, map[], false, false, {}))
      else if doc.deleting && !created then local
      else Some(doc.(fields := doc.fields + Rebased(doc, fields), version := if version.Some? then version
          else doc.version))
  }

  /**
   * No remote change, confirmation or edit loses an unconfirmed edit, but for a newer edit of the same field; only
   * a refusal or a confirmation of its value does.
   */
  lemma EditsSurvive(doc: LocalDoc, change: Change, sent: Fields, version: Option<int>, edit: Fields)
    requires WellFormed(doc)
    ensures WellFormed(Edited(doc, edit)) && WellFormed(ConfirmedUpdate(doc, sent, version))
    ensures Ingest(Some(doc), change).Some? ==> Unconfirmed(Ingest(Some(doc), change).value) == Unconfirmed(doc)
    ensures Unconfirmed(Edited(doc, edit)) == Unconfirmed(doc) + edit
    ensures forall k <- doc.prev :: Edited(doc, edit).prev[k] == doc.prev[k]
    ensures var after := ConfirmedUpdate(doc, sent, version);
            forall k <- doc.prev :: k in after.prev <==> !(k in sent && sent[k] == doc.fields[k])
  {
    EditAdds(doc, edit);
  }

  /**
   * An edit is what the device reads and sends from then on, and what it read before stays behind it unless an
   * earlier edit already did.
   */
  lemma EditAdds(doc: LocalDoc, edit: Fields)
    requires WellFormed(doc)
    ensures var after := Edited(doc, edit);
            && WellFormed(after) && Unconfirmed(after) == Unconfirmed(doc) + edit
            && (forall k :: FieldOf(after.fields, k) == if k in edit then Some(edit[k]) else FieldOf(doc.fields, k))
            && (forall k <- edit :: k !in doc.prev ==> after.prev[k] == FieldOf(doc.fields, k))
            && (forall k <- doc.prev :: after.prev[k] == doc.prev[k])
            && after == doc.(fields := after.fields, prev := after.prev)
  {
    assert Unconfirmed(Edited(doc, edit)).Keys == (Unconfirmed(doc) + edit).Keys;
  }

  function EditedBy(doc: LocalDoc, edits: seq<Fields>): LocalDoc {
    if edits == [] then doc else Edited(EditedBy(doc, edits[..|edits| - 1]), edits[|edits| - 1])
  }

  /** The last value given to a field in a row of edits. */
  function LastGiven(edits: seq<Fields>, k: string): Option<Value> {
    if edits == [] then None
    else if k in edits[|edits| - 1] then Some(edits[|edits| - 1][k])
    else LastGiven(edits[..|edits| - 1], k)
  }

  lemma {:induction false} LastGivenIs(edits: seq<Fields>, k: string)
    ensures LastGiven(edits, k).Some? <==> exists i :: 0 <= i < |edits| && k in edits[i]
    ensures forall i :: 0 <= i < |edits| && k in edits[i] && (forall j :: i < j < |edits| ==> k !in edits[j]) ==>
              LastGiven(edits, k) == Some(edits[i][k])
    decreases |edits|
  {
    if edits != [] {
      var init := edits[..|edits| - 1];
      LastGivenIs(init, k);
      assert forall i :: 0 <= i < |init| ==> edits[i] == init[i];
    }
  }

  /**
   * After any edits the next update sends the last value given to each field and nothing that was not edited;
   * behind it is the value from before the first.
   */
  lemma {:induction false} EditsAdd(doc: LocalDoc, edits: seq<Fields>, k: string)
    requires WellFormed(doc)
    ensures var after, last := EditedBy(doc, edits), LastGiven(edits, k);
            && WellFormed(after)
            && FieldOf(Unconfirmed(after), k) == (if last.Some? then last else FieldOf(Unconfirmed(doc), k))
            && FieldOf(after.fields, k) == (if last.Some? then last else FieldOf(doc.fields, k))
            && (k in after.prev <==> k in doc.prev || last.Some?)
            && (k in after.prev ==> after.prev[k] == if k in doc.prev then doc.prev[k] else FieldOf(doc.fields, k))
    decreases |edits|
  {
    if edits != [] {
      var init := edits[..|edits| - 1];
      EditsAdd(doc, init, k);
      EditAdds(EditedBy(doc, init), edits[|edits| - 1]);
    }
  }

  lemma ConfirmedAddWellFormed(doc: LocalDoc, sent: Fields, data: Fields, version: Option<int>)
    requires WellFormed(doc)
    ensures var after := ConfirmedAdd(doc, sent, data, version);
            && WellFormed(after)
            && (forall k <- doc.prev :: k in after.prev <==> !(k in sent && sent[k] == doc.fields[k]))
            && (forall k <- after.prev :: after.fields[k] == doc.fields[k])
  {
  }

  /** Whether a confirmation of `sent` leaves the field pending: it was edited since, or not sent at all. */
  predicate StillPending(doc: LocalDoc, sent: Fields, k: string)
    requires WellFormed(doc)
  {
    k in doc.prev && (k !in sent || sent[k] != doc.fields[k])
  }

  /** After an add is confirmed, fields still pending keep their edits and any other reads as the server answered. */
  lemma ConfirmedAddReads(doc: LocalDoc, sent: Fields, data: Fields, version: Option<int>, k: string)
    requires WellFormed(doc)
    ensures var after := ConfirmedAdd(doc, sent, data, version);
            && FieldOf(after.fields, k) == (if StillPending(doc, sent, k) then Some(doc.fields[k])
                                            else if k in data then Some(data[k]) else FieldOf(doc.fields, k))
            && (k in after.prev <==> StillPending(doc, sent, k)) && (k in after.prev ==> after.prev[k] == doc.prev[k])
            && !after.adding && after.deleting == doc.deleting && after.refused == doc.refused - {Add}
            && after.version == (if version.Some? then version else doc.version)
  {
  }

  /** After an update is confirmed nothing reads otherwise than before; what was not edited since is settled. */
  lemma ConfirmedUpdateReads(doc: LocalDoc, sent: Fields, version: Option<int>, k: string)
    requires WellFormed(doc)
    ensures var after := ConfirmedUpdate(doc, sent, version);
            && after.fields == doc.fields && after.adding == doc.adding && after.deleting == doc.deleting
            && (k in after.prev <==> StillPending(doc, sent, k)) && (k in after.prev ==> after.prev[k] == doc.prev[k])
            && after.refused == doc.refused - {Update}
            && after.version == (if version.Some? then version else doc.version)
  {
  }

  /** A refusal is recorded, ends what was refused, and changes no field. */
  lemma RefusedReads(doc: LocalDoc, op: Operation)
    ensures var after := RefusedDoc(doc, op);
            && after.fields == doc.fields && after.version == doc.version && after.refused == doc.refused + {op}
            && after.adding == (doc.adding && !op.Add?) && after.deleting == (doc.deleting && !op.Delete?)
            && after.prev == (if op.Update? then map[] else doc.prev)
  {
  }

  /** Nothing is unsent right after sending. */
  lemma NothingUnsent(doc: LocalDoc)
    requires WellFormed(doc)
    ensures Unsent(doc, Unconfirmed(doc)) == {} && Unsent(doc, doc.fields) == {}
    ensures Unconfirmed(doc) == map[] <==> doc.prev == map[]
  {
    if doc.prev != map[] {
      var k :| k in doc.prev;
      assert k in Unconfirmed(doc);
    }
  }
}
