/**
 * The durable FIFO queue of unconfirmed writes: coalescing, sending one entry at a time, and the
 * promises its callers wait on. packages/client/src/LivequeryOutbox.ts.
 *
 * Grain: coalescing is one step, taking the head is one step, and "the answer is applied and the
 * entry removed" is one step.
 */
module Outbox {
  import opened Wrappers

  datatype Operation = Add | Update | Delete

  /** What an entry is about: one document, towards one transporter. */
  datatype Key = Key(transporter: string, ref: string, doc: string)

  datatype Entry = Entry(id: nat, key: Key, op: Operation, attempts: nat)

  /** How an enqueued write ended, as seen by its caller. */
  datatype Settlement = Done | Queued | Failed(code: string)

  /** What sending an entry did. */
  datatype Execution = Succeeded | Retry | Refused(code: string)

  datatype Input = Input(key: Key, op: Operation, unsynced: bool)

  /** Settled at once, or waiting for an entry: one already queued, or the one just appended. */
  datatype Decision = Settled | Folded(id: nat) | Created(id: nat)

  // --- The queue as a value ---

  predicate InFlight(inflight: Option<Entry>, id: nat) {
    inflight.Some? && inflight.value.id == id
  }

  predicate AddingNow(inflight: Option<Entry>, key: Key) {
    inflight.Some? && inflight.value.op.Add? && inflight.value.key == key
  }

  /** The entries of a document nobody is sending, oldest first. */
  function Same(entries: seq<Entry>, inflight: Option<Entry>, key: Key): seq<Entry> {
    if entries == [] then []
    else
      var last := entries[|entries| - 1];
      var init := Same(entries[..|entries| - 1], inflight, key);
      if last.key == key && !InFlight(inflight, last.id) then init + [last] else init
  }

  /** The oldest add or update among `same`. */
  function Target(same: seq<Entry>): Option<Entry> {
    if same == [] then None
    else if !same[0].op.Delete? then Some(same[0])
    else Target(same[1..])
  }

  function Ids(entries: seq<Entry>): set<nat> {
    set e <- entries :: e.id
  }

  function Without(entries: seq<Entry>, ids: set<nat>): seq<Entry> {
    if entries == [] then []
    else
      var last := entries[|entries| - 1];
      var init := Without(entries[..|entries| - 1], ids);
      if last.id in ids then init else init + [last]
  }

  /** The queue after coalescing, the ids it dropped, and what the caller waits for. */
  datatype Coalescing = Coalescing(entries: seq<Entry>, dropped: set<nat>, decision: Decision)

  function Coalesced(entries: seq<Entry>, inflight: Option<Entry>, input: Input, next: nat): Coalescing {
    var same := Same(entries, inflight, input.key);
    var nothingThere := input.unsynced && !AddingNow(inflight, input.key);
    var entry := Entry(next, input.key, input.op, 0);
    match input.op
    case Add => Coalescing(entries + [entry], {}, Created(next))
    case Update =>
      var target := Target(same);
      if target.Some? then Coalescing(entries, {}, Folded(target.value.id))
      else if nothingThere then Coalescing(entries, {}, Settled)
      else Coalescing(entries + [entry], {}, Created(next))
    case Delete =>
      var rest := Without(entries, Ids(same));
      if nothingThere || exists e <- same :: e.op.Add? then Coalescing(rest, Ids(same), Settled)
      else Coalescing(rest + [entry], Ids(same), Created(next))
  }

  function Renamed(entries: seq<Entry>, ref: string, from: string, to: string): (r: seq<Entry>)
    ensures |r| == |entries|
  {
    seq(|entries|, i requires 0 <= i < |entries| =>
      var e := entries[i];
      if e.key.ref == ref && e.key.doc == from then e.(key := e.key.(doc := to)) else e)
  }

  function Attempted(entries: seq<Entry>, id: nat, attempts: nat): (r: seq<Entry>)
    ensures |r| == |entries|
  {
    seq(|entries|, i requires 0 <= i < |entries| => if entries[i].id == id then entries[i].(attempts := attempts)
      else entries[i])
  }

  // --- What a queue is ---

  /** Oldest first: every entry was enqueued after the ones before it. */
  ghost predicate Increasing(entries: seq<Entry>) {
    entries == [] ||
    var init, last := entries[..|entries| - 1], entries[|entries| - 1];
    Increasing(init) && forall e <- init :: e.id < last.id
  }

  /** No update of a document stands before an add of it. */
  ghost predicate AddFirst(entries: seq<Entry>) {
    entries == [] ||
    var init, last := entries[..|entries| - 1], entries[|entries| - 1];
    AddFirst(init) && (last.op.Add? ==> !UpdateOf(init, last.key))
  }

  predicate UpdateOf(entries: seq<Entry>, key: Key) {
    exists e <- entries :: e.op.Update? && e.key == key
  }

  lemma Snoc<T>(s: seq<T>, t: T)
    ensures (s + [t])[..|s|] == s && (s + [t])[|s|] == t
  {
  }

  lemma {:induction false} SameAre(entries: seq<Entry>, inflight: Option<Entry>, key: Key)
    ensures forall e :: e in Same(entries, inflight, key) <==> e in entries && e.key == key && !InFlight(inflight, e.id)
    decreases |entries|
  {
    if entries != [] {
      SameAre(entries[..|entries| - 1], inflight, key);
      assert entries == entries[..|entries| - 1] + [entries[|entries| - 1]];
    }
  }

  lemma {:induction false} TargetIs(same: seq<Entry>)
    ensures Target(same).Some? ==> Target(same).value in same && !Target(same).value.op.Delete?
    ensures Target(same).None? ==> forall e <- same :: e.op.Delete?
    decreases |same|
  {
    if same != [] {
      TargetIs(same[1..]);
      assert same == [same[0]] + same[1..];
    }
  }

  lemma {:induction false} WithoutAre(entries: seq<Entry>, ids: set<nat>)
    ensures forall e :: e in Without(entries, ids) <==> e in entries && e.id !in ids
    decreases |entries|
  {
    if entries != [] {
      WithoutAre(entries[..|entries| - 1], ids);
      assert entries == entries[..|entries| - 1] + [entries[|entries| - 1]];
    }
  }

  /** Dropping entries leaves the others in their order. */
  lemma {:induction false} WithoutKeeps(entries: seq<Entry>, ids: set<nat>)
    ensures Increasing(entries) ==> Increasing(Without(entries, ids))
    ensures AddFirst(entries) ==> AddFirst(Without(entries, ids))
    decreases |entries|
  {
    if entries != [] {
      var init, last := entries[..|entries| - 1], entries[|entries| - 1];
      WithoutKeeps(init, ids);
      WithoutAre(init, ids);
      Snoc(Without(init, ids), last);
    }
  }

  lemma {:induction false} WithoutTwice(entries: seq<Entry>, ids: set<nat>, more: set<nat>)
    ensures Without(Without(entries, ids), more) == Without(entries, ids + more)
    decreases |entries|
  {
    if entries != [] {
      var init, last := entries[..|entries| - 1], entries[|entries| - 1];
      WithoutTwice(init, ids, more);
      Snoc(Without(init, ids), last);
    }
  }

  lemma {:induction false} WithoutNone(entries: seq<Entry>, ids: set<nat>)
    requires forall e <- entries :: e.id !in ids
    ensures Without(entries, ids) == entries
    decreases |entries|
  {
    if entries != [] {
      WithoutNone(entries[..|entries| - 1], ids);
    }
  }

  lemma WithoutNobody(entries: seq<Entry>)
    ensures Without(entries, {}) == entries
  {
    WithoutNone(entries, {});
  }

  lemma IdsGrow(same: seq<Entry>, i: nat)
    ensures Ids(same[..0]) == {}
    ensures i < |same| ==> Ids(same[..i + 1]) == Ids(same[..i]) + {same[i].id}
  {
    if i < |same| {
      assert same[..i + 1] == same[..i] + [same[i]];
    }
  }

  lemma {:induction false} IncreasingAt(entries: seq<Entry>, i: nat, j: nat)
    requires Increasing(entries) && i < j < |entries|
    ensures entries[i].id < entries[j].id
    decreases |entries|
  {
    var init := entries[..|entries| - 1];
    if j < |init| {
      IncreasingAt(init, i, j);
    } else {
      assert init[i] in init;
    }
  }

  lemma {:induction false} AddFirstAt(entries: seq<Entry>, i: nat, j: nat)
    requires AddFirst(entries) && i < j < |entries| && entries[i].op.Update? && entries[j].op.Add?
    ensures entries[i].key != entries[j].key
    decreases |entries|
  {
    var init := entries[..|entries| - 1];
    if j < |init| {
      AddFirstAt(init, i, j);
    } else {
      assert init[i] in init;
    }
  }

  // --- What coalescing keeps ---

  /** `c` leaves the queue in order, keeps what is in flight, and changes nothing it need not. */
  ghost predicate Orderly(entries: seq<Entry>, inflight: Option<Entry>, input: Input, next: nat, c: Coalescing) {
    && Increasing(c.entries)
    && (forall e <- c.entries :: e.id <= next)
    && (forall e <- entries :: InFlight(inflight, e.id) ==> e in c.entries)
    && (forall e <- entries :: e !in c.entries <==> e.id in c.dropped)
    && (forall e <- entries :: e.id in c.dropped ==> input.op.Delete? && e.key == input.key)
    && (forall e <- c.entries ::
          e in entries || (c.decision == Created(e.id) && e == Entry(next, input.key, input.op, 0)))
  }

  /**
   * Coalescing keeps the FIFO order of what it leaves, never drops the entry in flight, and drops
   * nothing at all unless the write is a delete of the same document.
   */
  lemma CoalescingKeepsOrder(entries: seq<Entry>, inflight: Option<Entry>, input: Input, next: nat)
    requires Increasing(entries) && forall e <- entries :: e.id < next
    ensures Orderly(entries, inflight, input, next, Coalesced(entries, inflight, input, next))
  {
    hide Increasing, Same, Without, Target, Ids, InFlight, AddingNow;
    var entry := Entry(next, input.key, input.op, 0);
    if input.op.Delete? {
      DeletingKeepsOrder(entries, inflight, input, next);
    } else {
      Appended(entries, entry);
    }
  }

  lemma DeletingKeepsOrder(entries: seq<Entry>, inflight: Option<Entry>, input: Input, next: nat)
    requires Increasing(entries) && (forall e <- entries :: e.id < next) && input.op.Delete?
    ensures Orderly(entries, inflight, input, next, Coalesced(entries, inflight, input, next))
  {
    hide Increasing, Same, Without, Target, Ids, InFlight, AddingNow;
    var rest := Without(entries, Ids(Same(entries, inflight, input.key)));
    RestAre(entries, inflight, input.key);
    Appended(rest, Entry(next, input.key, input.op, 0));
  }

  lemma Appended(entries: seq<Entry>, entry: Entry)
    requires Increasing(entries) && forall e <- entries :: e.id < entry.id
    ensures Increasing(entries + [entry])
    ensures forall e :: e in entries + [entry] <==> e in entries || e == entry
  {
    Snoc(entries, entry);
  }

  /** What a delete leaves: other documents' entries and what is in flight, in their order. */
  lemma RestAre(entries: seq<Entry>, inflight: Option<Entry>, key: Key)
    requires Increasing(entries)
    ensures var ids := Ids(Same(entries, inflight, key)); var rest := Without(entries, ids);
            && Increasing(rest)
            && (forall e :: e in rest <==> e in entries && (e.key == key ==> InFlight(inflight, e.id)))
            && (forall e <- entries :: e.id in ids <==> e !in rest)
            && (forall id <- ids :: exists e <- entries :: e.id == id && e !in rest)
  {
    hide Increasing;
    var ids := Ids(Same(entries, inflight, key));
    SameAre(entries, inflight, key);
    WithoutKeeps(entries, ids);
    WithoutAre(entries, ids);
    IdsDistinct(entries);
  }

  lemma IdsDistinct(entries: seq<Entry>)
    requires Increasing(entries)
    ensures forall e, f :: e in entries && f in entries && e.id == f.id ==> e == f
  {
    forall e, f | e in entries && f in entries && e.id == f.id
      ensures e == f
    {
      var i :| 0 <= i < |entries| && entries[i] == e;
      var j :| 0 <= j < |entries| && entries[j] == f;
      if i < j { IncreasingAt(entries, i, j); } else if j < i { IncreasingAt(entries, j, i); }
    }
  }

  /**
   * No update overtakes the add of its document, whatever is enqueued, except when an add is
   * enqueued behind an update of its own document that is already queued.
   */
  lemma CoalescingKeepsAddFirst(entries: seq<Entry>, inflight: Option<Entry>, input: Input, next: nat)
    requires AddFirst(entries)
    ensures AddFirst(Coalesced(entries, inflight, input, next).entries) <==>
        !(input.op.Add? && UpdateOf(entries, input.key))
  {
    var entry := Entry(next, input.key, input.op, 0);
    WithoutKeeps(entries, Ids(Same(entries, inflight, input.key)));
    Snoc(entries, entry);
    Snoc(Without(entries, Ids(Same(entries, inflight, input.key))), entry);
  }

  /**
   * What the caller of a write waits for carries that write: an unsent add or update of the document reads it
   * when it goes out.
   */
  lemma FoldedIntoUnsent(entries: seq<Entry>, inflight: Option<Entry>, input: Input, next: nat)
    ensures var c := Coalesced(entries, inflight, input, next);
            && (c.decision.Folded? ==> input.op.Update? && exists e <- c.entries ::
                  e.id == c.decision.id && e.key == input.key && !e.op.Delete? && !InFlight(inflight, e.id))
            && (c.decision.Created? ==> Entry(next, input.key, input.op, 0) in c.entries && c.decision.id == next)
            && (c.decision.Settled? ==>
                  || (input.unsynced && !AddingNow(inflight, input.key))
                  || (input.op.Delete? && exists e <- entries ::
                      e.op.Add? && e.key == input.key && !InFlight(inflight, e.id)))
  {
    var same := Same(entries, inflight, input.key);
    SameAre(entries, inflight, input.key);
    TargetIs(same);
  }

  /** After a delete nothing of the document is left to send but the delete itself and what is in flight. */
  lemma DeleteClears(entries: seq<Entry>, inflight: Option<Entry>, input: Input, next: nat)
    requires input.op.Delete?
    ensures forall e <- Coalesced(entries, inflight, input, next).entries :: e.key == input.key ==>
              InFlight(inflight, e.id) || e == Entry(next, input.key, Delete, 0)
  {
    SameAre(entries, inflight, input.key);
    WithoutAre(entries, Ids(Same(entries, inflight, input.key)));
  }

  lemma HeadIsOldest(entries: seq<Entry>)
    requires Increasing(entries) && entries != []
    ensures forall e <- entries :: entries[0].id <= e.id
  {
    forall e | e in entries
      ensures entries[0].id <= e.id
    {
      var j :| 0 <= j < |entries| && entries[j] == e;
      if j > 0 { IncreasingAt(entries, 0, j); }
    }
  }

  /** An update that has become the oldest entry goes out after every add of its document. */
  lemma NothingOvertaken(entries: seq<Entry>)
    requires AddFirst(entries) && entries != [] && entries[0].op.Update?
    ensures forall e <- entries :: e.key == entries[0].key ==> !e.op.Add?
  {
    forall e | e in entries && e.key == entries[0].key
      ensures !e.op.Add?
    {
      var j :| 0 <= j < |entries| && entries[j] == e;
      if j > 0 && e.op.Add? { AddFirstAt(entries, 0, j); }
    }
  }

  lemma IdsWithLast(entries: seq<Entry>)
    requires entries != []
    ensures Ids(entries) == Ids(entries[..|entries| - 1]) + {entries[|entries| - 1].id}
  {
    assert entries == entries[..|entries| - 1] + [entries[|entries| - 1]];
  }

  /** Rewriting entries in place keeps their order and their ids. */
  lemma {:induction false} SameIdsIncreasing(entries: seq<Entry>, rewritten: seq<Entry>)
    requires |entries| == |rewritten| && forall i :: 0 <= i < |entries| ==> entries[i].id == rewritten[i].id
    requires Increasing(entries)
    ensures Increasing(rewritten) && Ids(rewritten) == Ids(entries)
    decreases |entries|
  {
    if entries == [] {
      assert rewritten == [];
    } else {
      var init, again := entries[..|entries| - 1], rewritten[..|entries| - 1];
      SameIdsIncreasing(init, again);
      IdsWithLast(entries);
      IdsWithLast(rewritten);
      forall i | 0 <= i < |again|
        ensures again[i].id < rewritten[|again|].id
      {
        assert init[i] in init;
      }
      hide Ids;
    }
  }

  lemma {:induction false} AddFirstFrom(entries: seq<Entry>)
    requires forall i, j :: 0 <= i < j < |entries| && entries[i].op.Update? && entries[j].op.Add? ==>
        entries[i].key != entries[j].key
    ensures AddFirst(entries)
    decreases |entries|
  {
    if entries != [] {
      AddFirstFrom(entries[..|entries| - 1]);
    }
  }

  /** An update of one of the two ids stands before an add of the other. */
  predicate Crosses(entries: seq<Entry>, ref: string, from: string, to: string) {
    exists i, j :: 0 <= i < j < |entries| && entries[i].op.Update? && entries[j].op.Add?
        && Meet(entries[i].key, entries[j].key, ref, from, to)
  }

  predicate Meet(a: Key, b: Key, ref: string, from: string, to: string) {
    && a.transporter == b.transporter && a.ref == b.ref == ref
    && ((a.doc == from && b.doc == to) || (a.doc == to && b.doc == from))
  }

  /**
   * Renaming a document keeps adds first exactly when no update of one of its ids stands before an add of the
   * other.
   */
  lemma RenamedKeepsAddFirst(entries: seq<Entry>, ref: string, from: string, to: string)
    requires AddFirst(entries)
    ensures AddFirst(Renamed(entries, ref, from, to)) <==> !Crosses(entries, ref, from, to)
  {
    var renamed := Renamed(entries, ref, from, to);
    if Crosses(entries, ref, from, to) {
      var i, j :| 0 <= i < j < |entries| && entries[i].op.Update? && entries[j].op.Add?
          && Meet(entries[i].key, entries[j].key, ref, from, to);
      if AddFirst(renamed) { AddFirstAt(renamed, i, j); }
    } else {
      forall i, j | 0 <= i < j < |renamed| && renamed[i].op.Update? && renamed[j].op.Add?
        ensures renamed[i].key != renamed[j].key
      {
        AddFirstAt(entries, i, j);
        assert !Meet(entries[i].key, entries[j].key, ref, from, to);
      }
      AddFirstFrom(renamed);
    }
  }

  lemma SameKeysAddFirst(entries: seq<Entry>, rewritten: seq<Entry>)
    requires |entries| == |rewritten|
    requires forall i :: 0 <= i < |entries| ==> entries[i].key == rewritten[i].key && entries[i].op == rewritten[i].op
    requires AddFirst(entries)
    ensures AddFirst(rewritten)
  {
    forall i, j | 0 <= i < j < |rewritten| && rewritten[i].op.Update? && rewritten[j].op.Add?
      ensures rewritten[i].key != rewritten[j].key
    {
      AddFirstAt(entries, i, j);
    }
    AddFirstFrom(rewritten);
  }

  // --- Who waits for what ---

  type Call = nat

  /** `waits` is `waiters` read from the callers' side. */
  ghost predicate Agree(waiters: map<nat, seq<Call>>, waits: map<Call, nat>) {
    && (forall id <- waiters :: forall c <- waiters[id] :: c in waits && waits[c] == id)
    && (forall c <- waits :: waits[c] in waiters && c in waiters[waits[c]])
    && (forall id <- waiters, i, j | 0 <= i < j < |waiters[id]| :: waiters[id][i] != waiters[id][j])
  }

  /** Every call has resolved or waits for one of `ids`, and no call does both. */
  ghost predicate Accounted(waits: map<Call, nat>, resolved: map<Call, Settlement>, calls: nat, ids: set<nat>) {
    && (forall c: Call :: c in waits || c in resolved <==> c < calls)
    && (forall c <- waits :: c !in resolved && waits[c] in ids)
  }

  ghost function Elements(list: seq<Call>): set<Call> {
    set c <- list
  }

  ghost function Waiting(waits: map<Call, nat>, ids: set<nat>): set<Call> {
    set c <- waits | waits[c] in ids
  }

  ghost function Released(waits: map<Call, nat>, ids: set<nat>): map<Call, nat> {
    map c <- waits | waits[c] !in ids :: waits[c]
  }

  ghost function All(calls: set<Call>, settlement: Settlement): map<Call, Settlement> {
    map c <- calls :: settlement
  }

  /** How calls stand once the callers waiting for `ids` have been told. */
  ghost function Told(resolved: map<Call, Settlement>, waits: map<Call, nat>, ids: set<nat>,
      settlement: Settlement): map<Call, Settlement> {
    resolved + All(Waiting(waits, ids), settlement)
  }

  lemma AgreeReleased(waiters: map<nat, seq<Call>>, waits: map<Call, nat>, id: nat)
    requires Agree(waiters, waits)
    ensures Agree(waiters - {id}, Released(waits, {id}))
    ensures id !in waiters ==> waiters - {id} == waiters
    ensures if id in waiters then Waiting(waits, {id}) == Elements(waiters[id])
        else Released(waits, {id}) == waits && Waiting(waits, {id}) == {}
  {
  }

  lemma AllOfNone(resolved: map<Call, Settlement>, settlement: Settlement)
    ensures resolved + All({}, settlement) == resolved
    ensures Elements([]) == {}
  {
  }

  lemma AllGrows(resolved: map<Call, Settlement>, list: seq<Call>, k: nat, settlement: Settlement)
    requires 0 < k <= |list|
    ensures (resolved + All(Elements(list[..k - 1]), settlement))[list[k - 1] := settlement] == resolved
        + All(Elements(list[..k]), settlement)
  {
    assert list[..k] == list[..k - 1] + [list[k - 1]];
  }

  lemma ToldNobody(resolved: map<Call, Settlement>, waits: map<Call, nat>, settlement: Settlement)
    ensures Released(waits, {}) == waits && Told(resolved, waits, {}, settlement) == resolved
  {
    assert Waiting(waits, {}) == {};
  }

  lemma ToldMore(resolved: map<Call, Settlement>, waits: map<Call, nat>, ids: set<nat>, more: set<nat>,
      settlement: Settlement)
    ensures Released(Released(waits, ids), more) == Released(waits, ids + more)
    ensures Told(Told(resolved, waits, ids, settlement), Released(waits, ids), more, settlement)
        == Told(resolved, waits, ids + more, settlement)
  {
    assert Waiting(waits, ids + more) == Waiting(waits, ids) + Waiting(Released(waits, ids), more);
  }

  lemma ToldAll(waiters: map<nat, seq<Call>>, waits: map<Call, nat>, resolved: map<Call, Settlement>,
      settlement: Settlement)
    requires Agree(waiters, waits)
    ensures Released(waits, waiters.Keys) == map[]
    ensures Told(resolved, waits, waiters.Keys, settlement) == resolved + All(waits.Keys, settlement)
  {
    assert Waiting(waits, waiters.Keys) == waits.Keys;
  }

  /** Telling the callers of entries that leave keeps every call accounted for. */
  lemma AccountedTold(waits: map<Call, nat>, resolved: map<Call, Settlement>, calls: nat, ids: set<nat>,
      gone: set<nat>, left: set<nat>, settlement: Settlement)
    requires Accounted(waits, resolved, calls, ids) && ids - gone <= left
    ensures Accounted(Released(waits, gone), Told(resolved, waits, gone, settlement), calls, left)
  {
  }

  lemma AccountedCall(waits: map<Call, nat>, resolved: map<Call, Settlement>, calls: nat, ids: set<nat>, id: nat,
      settlement: Settlement)
    requires Accounted(waits, resolved, calls, ids)
    ensures calls !in waits && calls !in resolved
    ensures id in ids ==> Accounted(waits[calls := id], resolved, calls + 1, ids)
    ensures Accounted(waits, resolved[calls := settlement], calls + 1, ids)
  {
  }

  lemma AgreeWith(waiters: map<nat, seq<Call>>, waits: map<Call, nat>, id: nat, call: Call)
    requires Agree(waiters, waits) && call !in waits
    ensures Agree(waiters[id := (if id in waiters then waiters[id] else []) + [call]], waits[call := id])
  {
  }

  // --- The queue as it runs ---

  /**
   * The queue and its sender. `flushed`: the storage was flushed under what is in flight; `sent`: the ids
   * that went out.
   */
  datatype Outgoing = Outgoing(entries: seq<Entry>, inflight: Option<Entry>, flushed: bool, next: nat, sent: seq<nat>)

  datatype Event =
    | Enqueues(input: Input)
    | Sends
    | Answers(result: Execution)
    | Renames(ref: string, from: string, to: string)
    | Flushes
    | Restarts

  predicate CanMove(q: Outgoing, event: Event) {
    (event.Sends? ==> q.inflight.None?) && (event.Answers? ==> q.inflight.Some?)
  }

  function Moved(q: Outgoing, event: Event): Outgoing
    requires CanMove(q, event)
  {
    match event
    case Enqueues(input) => q.(entries := Coalesced(q.entries, q.inflight, input, q.next).entries, next := q.next + 1)
    case Sends =>
      if q.entries == [] then q
      else q.(inflight := Some(q.entries[0]), flushed := false, sent := q.sent + [q.entries[0].id])
    case Answers(result) =>
      var head := q.inflight.value;
      q.(inflight := None, flushed := false,
         entries := if result.Retry? then Attempted(q.entries, head.id, head.attempts + 1)
             else Without(q.entries, {head.id}))
    case Renames(ref, from, to) => q.(entries := Renamed(q.entries, ref, from, to))
    case Flushes => q.(entries := [], flushed := q.inflight.Some?)
    case Restarts => q.(inflight := None, flushed := false)
  }

  /**
   * In order, with ids below the next one; what is in flight is the oldest entry, still queued unless the
   * storage was flushed.
   */
  ghost predicate QueueGood(q: Outgoing) {
    && Increasing(q.entries)
    && (forall e <- q.entries :: e.id < q.next)
    && (q.inflight.Some? ==>
          && q.inflight.value.id < q.next && (forall e <- q.entries :: q.inflight.value.id <= e.id)
          && (q.flushed || q.inflight.value.id in Ids(q.entries)))
    && SentInOrder(q.sent, q.entries, q.next)
  }

  /** Entries went out oldest first, and nothing older than what was sent is still queued. */
  ghost predicate SentInOrder(sent: seq<nat>, entries: seq<Entry>, next: nat) {
    && (forall i, j :: 0 <= i < j < |sent| ==> sent[i] <= sent[j])
    && (forall id <- sent :: id < next && forall e <- entries :: id <= e.id)
  }

  lemma SentNext(sent: seq<nat>, entries: seq<Entry>, next: nat, head: nat)
    requires SentInOrder(sent, entries, next) && head < next
    requires (forall e <- entries :: head <= e.id) && exists e <- entries :: e.id == head
    ensures SentInOrder(sent + [head], entries, next)
  {
    assert forall i :: 0 <= i < |sent| ==> sent[i] in sent;
  }

  function EntryOf(decision: Decision): (ids: set<nat>) {
    match decision
    case Settled => {}
    case Folded(id) => {id}
    case Created(id) => {id}
  }

  /** Whether the event leaves adds first: no add behind a queued update of its document, no rename across one. */
  predicate InTurn(q: Outgoing, event: Event) {
    match event
    case Enqueues(input) => !(input.op.Add? && UpdateOf(q.entries, input.key))
    case Renames(ref, from, to) => !Crosses(q.entries, ref, from, to)
    case _ => true
  }

  lemma AddsStayFirst(q: Outgoing, event: Event)
    requires CanMove(q, event) && AddFirst(q.entries)
    ensures AddFirst(Moved(q, event).entries) <==> InTurn(q, event)
  {
    hide AddFirst, Coalesced, Without, Crosses, UpdateOf;
    match event {
      case Enqueues(input) => CoalescingKeepsAddFirst(q.entries, q.inflight, input, q.next);
      case Answers(result) =>
        if result.Retry? {
          SameKeysAddFirst(q.entries, Attempted(q.entries, q.inflight.value.id, q.inflight.value.attempts + 1));
        } else {
          WithoutKeeps(q.entries, {q.inflight.value.id});
        }
      case Renames(ref, from, to) => RenamedKeepsAddFirst(q.entries, ref, from, to);
      case Flushes => AddFirstFrom([]);
      case _ =>
    }
  }

  lemma InFlightIsHead(q: Outgoing)
    requires QueueGood(q) && q.inflight.Some? && !q.flushed
    ensures q.entries != [] && q.entries[0].id == q.inflight.value.id
  {
    var e :| e in q.entries && e.id == q.inflight.value.id;
    HeadIsOldest(q.entries);
    assert q.entries[0] in q.entries;
    hide Increasing;
  }

  lemma CoalescedQueue(q: Outgoing, input: Input)
    requires QueueGood(q)
    ensures QueueGood(Moved(q, Enqueues(input)))
  {
    hide Increasing, Coalesced, InFlight;
    var c := Coalesced(q.entries, q.inflight, input, q.next);
    CoalescingKeepsOrder(q.entries, q.inflight, input, q.next);
    if q.inflight.Some? && !q.flushed {
      var e :| e in q.entries && e.id == q.inflight.value.id;
      assert InFlight(q.inflight, e.id) by { InFlightIs(q.inflight, e); }
      assert e in c.entries;
    }
  }

  lemma HeadOf(q: Outgoing)
    requires QueueGood(q) && q.entries != []
    ensures forall e <- q.entries :: q.entries[0].id <= e.id
  {
    HeadIsOldest(q.entries);
  }

  lemma InFlightIs(inflight: Option<Entry>, e: Entry)
    requires inflight.Some? && e.id == inflight.value.id
    ensures InFlight(inflight, e.id)
  {
  }

  lemma SentQueue(q: Outgoing)
    requires QueueGood(q) && q.inflight.None?
    ensures QueueGood(Moved(q, Sends))
  {
    if q.entries != [] {
      HeadIsOldest(q.entries);
      assert q.entries[0] in q.entries;
      hide Increasing, SentInOrder;
      SentNext(q.sent, q.entries, q.next, q.entries[0].id);
    }
  }

  /** A queue shortened to its younger entries, with nothing in flight. */
  lemma ShortenedQueue(q: Outgoing, gone: set<nat>)
    requires QueueGood(q)
    ensures QueueGood(q.(entries := Without(q.entries, gone), inflight := None, flushed := false))
  {
    hide Increasing, Without;
    WithoutKeeps(q.entries, gone);
    WithoutAre(q.entries, gone);
  }

  /** A queue rewritten in place. */
  lemma RewrittenQueue(q: Outgoing, rewritten: seq<Entry>)
    requires QueueGood(q) && |q.entries| == |rewritten| && forall i :: 0 <= i < |rewritten| ==>
        q.entries[i].id == rewritten[i].id
    ensures QueueGood(q.(entries := rewritten)) && Ids(rewritten) == Ids(q.entries)
  {
    hide Increasing;
    SameIdsIncreasing(q.entries, rewritten);
    forall e | e in rewritten
      ensures e.id in Ids(q.entries)
    {
      assert e.id in Ids(rewritten);
    }
  }

  /** Every event keeps the queue in order and what is in flight in it. */
  lemma QueueKeeps(q: Outgoing, event: Event)
    requires QueueGood(q) && CanMove(q, event)
    ensures QueueGood(Moved(q, event))
  {
    hide QueueGood, Coalesced, Without;
    match event {
      case Enqueues(input) => CoalescedQueue(q, input);
      case Sends => SentQueue(q);
      case Answers(result) =>
        var head := q.inflight.value;
        if result.Retry? {
          TakenBack(q);
          RewrittenQueue(q.(inflight := None, flushed := false), Attempted(q.entries, head.id, head.attempts + 1));
        } else {
          ShortenedQueue(q, {head.id});
        }
      case Renames(ref, from, to) => RewrittenQueue(q, Renamed(q.entries, ref, from, to));
      case Flushes => Emptied(q);
      case Restarts => TakenBack(q);
    }
  }

  lemma TakenBack(q: Outgoing)
    requires QueueGood(q)
    ensures QueueGood(q.(inflight := None, flushed := false))
  {
    hide Increasing;
  }

  lemma Emptied(q: Outgoing)
    requires QueueGood(q)
    ensures QueueGood(q.(entries := [], flushed := q.inflight.Some?))
  {
  }

  ghost predicate Run(q: Outgoing, events: seq<Event>, r: Outgoing)
    decreases |events|
  {
    if events == [] then q == r else CanMove(q, events[0]) && Run(Moved(q, events[0]), events[1..], r)
  }

  ghost predicate AllInTurn(q: Outgoing, events: seq<Event>)
    decreases |events|
  {
    events == [] || (InTurn(q, events[0]) && (CanMove(q, events[0]) ==> AllInTurn(Moved(q, events[0]), events[1..])))
  }

  lemma {:induction false} RunKeeps(q: Outgoing, events: seq<Event>, r: Outgoing)
    requires QueueGood(q) && Run(q, events, r)
    ensures QueueGood(r)
    ensures AddFirst(q.entries) && AllInTurn(q, events) ==> AddFirst(r.entries)
    decreases |events|
  {
    hide QueueGood, AddFirst, Moved, InTurn;
    if events != [] {
      QueueKeeps(q, events[0]);
      if AddFirst(q.entries) { AddsStayFirst(q, events[0]); }
      RunKeeps(Moved(q, events[0]), events[1..], r);
    }
  }

  /**
   * Over every run, what goes out is the oldest entry, after everything sent before, and stays in the
   * queue while it is out unless the storage is flushed; and while every event is in turn, no update goes
   * out before a queued add of its document.
   */
  lemma SentInTurn(q: Outgoing, events: seq<Event>, r: Outgoing)
    requires QueueGood(q) && Run(q, events, r)
    ensures r.inflight.Some? && !r.flushed ==> r.entries != [] && r.entries[0].id == r.inflight.value.id
    ensures r.inflight.None? && r.entries != [] ==>
              var head := r.entries[0];
              && Moved(r, Sends).inflight == Some(head)
              && (forall e <- r.entries :: head.id <= e.id) && (forall id <- r.sent :: id <= head.id)
              && (AddFirst(q.entries) && AllInTurn(q, events) && head.op.Update? ==>
                  forall e <- r.entries :: e.key == head.key ==> !e.op.Add?)
  {
    RunKeeps(q, events, r);
    if r.inflight.Some? && !r.flushed { InFlightIsHead(r); }
    if r.entries != [] {
      HeadIsOldest(r.entries);
      assert r.entries[0] in r.entries;
      if AddFirst(r.entries) && r.entries[0].op.Update? { NothingOvertaken(r.entries); }
    }
    hide Increasing, AddFirst, AllInTurn, Run;
  }

  ghost predicate StateValid(q: Outgoing, waits: map<Call, nat>, resolved: map<Call, Settlement>, calls: nat) {
    QueueGood(q) && Accounted(waits, resolved, calls, Ids(q.entries))
  }

  /** Coalescing keeps the state valid, and what the caller is told to wait for is queued. */
  lemma CoalescedValid(q: Outgoing, waits: map<Call, nat>, resolved: map<Call, Settlement>, calls: nat, input: Input)
    requires StateValid(q, waits, resolved, calls)
    ensures var c := Coalesced(q.entries, q.inflight, input, q.next);
            && StateValid(Moved(q, Enqueues(input)), Released(waits, c.dropped),
                Told(resolved, waits, c.dropped, Done), calls)
            && EntryOf(c.decision) <= Ids(c.entries)
  {
    hide Increasing, Coalesced, Accounted, Released, Told, InFlight;
    var c := Coalesced(q.entries, q.inflight, input, q.next);
    CoalescedQueue(q, input);
    CoalescingKeepsOrder(q.entries, q.inflight, input, q.next);
    FoldedIntoUnsent(q.entries, q.inflight, input, q.next);
    AccountedTold(waits, resolved, calls, Ids(q.entries), c.dropped, Ids(c.entries), Done);
  }

  lemma ShortenedValid(q: Outgoing, waits: map<Call, nat>, resolved: map<Call, Settlement>, calls: nat, gone: set<nat>,
      settlement: Settlement)
    requires StateValid(q, waits, resolved, calls)
    ensures StateValid(q.(entries := Without(q.entries, gone), inflight := None, flushed := false),
                       Released(waits, gone), Told(resolved, waits, gone, settlement), calls)
  {
    hide Increasing, Without, Accounted, Released, Told;
    ShortenedQueue(q, gone);
    WithoutAre(q.entries, gone);
    AccountedTold(waits, resolved, calls, Ids(q.entries), gone, Ids(Without(q.entries, gone)), settlement);
  }

  lemma RewrittenValid(q: Outgoing, rewritten: seq<Entry>, waits: map<Call, nat>, resolved: map<Call, Settlement>,
      calls: nat)
    requires StateValid(q, waits, resolved, calls)
    requires |q.entries| == |rewritten| && forall i :: 0 <= i < |rewritten| ==> q.entries[i].id == rewritten[i].id
    ensures StateValid(q.(entries := rewritten), waits, resolved, calls)
  {
    RewrittenQueue(q, rewritten);
    hide QueueGood, Accounted, Ids;
  }

  // --- What every event does to the queue ---

  /** An entry of the document that is not being sent. */
  predicate Resting(e: Entry, inflight: Option<Entry>, key: Key) {
    e.key == key && !(inflight.Some? && inflight.value.id == e.id)
  }

  /** The server has the document, or is being sent it. */
  predicate Underway(inflight: Option<Entry>, input: Input) {
    !input.unsynced || (inflight.Some? && inflight.value.op.Add? && inflight.value.key == input.key)
  }

  predicate SettledAtOnce(entries: seq<Entry>, inflight: Option<Entry>, input: Input) {
    match input.op
    case Add => false
    case Update => !Underway(inflight, input) && forall e <- entries :: Resting(e, inflight, input.key) ==> e.op.Delete?
    case Delete => !Underway(inflight, input) || exists e <- entries :: Resting(e, inflight, input.key) && e.op.Add?
  }

  /** The oldest unsent add or update of the document. */
  ghost predicate Carries(entries: seq<Entry>, inflight: Option<Entry>, key: Key, e: Entry) {
    e in entries && Resting(e, inflight, key) && !e.op.Delete?
    && forall f <- entries :: Resting(f, inflight, key) && !f.op.Delete? ==> e.id <= f.id
  }

  lemma {:induction false} SameIncreasing(entries: seq<Entry>, inflight: Option<Entry>, key: Key)
    requires Increasing(entries)
    ensures Increasing(Same(entries, inflight, key))
    decreases |entries|
  {
    if entries != [] {
      var init, last := entries[..|entries| - 1], entries[|entries| - 1];
      SameIncreasing(init, inflight, key);
      SameAre(init, inflight, key);
      Snoc(Same(init, inflight, key), last);
    }
  }

  ghost predicate FirstOther(same: seq<Entry>, i: int) {
    0 <= i < |same| && Target(same) == Some(same[i]) && forall j :: 0 <= j < i ==> same[j].op.Delete?
  }

  lemma {:induction false} TargetAt(same: seq<Entry>)
    ensures Target(same).Some? ==> exists i :: FirstOther(same, i)
    decreases |same|
  {
    if same != [] && same[0].op.Delete? {
      TargetAt(same[1..]);
      if i :| FirstOther(same[1..], i) {
        forall j | 0 <= j < i + 1
          ensures same[j].op.Delete?
        {
          assert j > 0 ==> same[j] == same[1..][j - 1];
        }
        assert FirstOther(same, i + 1);
      }
    } else if same != [] {
      assert FirstOther(same, 0);
    }
  }

  lemma TargetCarries(entries: seq<Entry>, inflight: Option<Entry>, key: Key)
    requires Increasing(entries)
    ensures var target := Target(Same(entries, inflight, key));
            if target.Some? then Carries(entries, inflight, key, target.value)
            else forall e <- entries :: Resting(e, inflight, key) ==> e.op.Delete?
  {
    var same := Same(entries, inflight, key);
    SameAre(entries, inflight, key);
    SameIncreasing(entries, inflight, key);
    TargetIs(same);
    TargetAt(same);
    if Target(same).Some? {
      var i :| FirstOther(same, i);
      forall f | f in entries && Resting(f, inflight, key) && !f.op.Delete?
        ensures same[i].id <= f.id
      {
        assert f in same;
        var j :| 0 <= j < |same| && same[j] == f;
        if i < j { IncreasingAt(same, i, j); }
      }
      hide Same, Target, Increasing;
    } else {
      forall e | e in entries && Resting(e, inflight, key)
        ensures e.op.Delete?
      {
        assert e in same;
      }
    }
  }

  /**
   * A write is settled at once when nothing would have to be sent for it; an update waits for the oldest unsent add
   * or update of its document; anything else gets an entry of its own.
   */
  lemma DecisionIs(entries: seq<Entry>, inflight: Option<Entry>, input: Input, next: nat)
    requires Increasing(entries)
    ensures var c := Coalesced(entries, inflight, input, next);
            && (c.decision.Settled? <==> SettledAtOnce(entries, inflight, input))
            && (c.decision.Folded? <==> input.op.Update? && exists e :: Carries(entries, inflight, input.key, e))
            && (c.decision.Folded? ==> exists e :: Carries(entries, inflight, input.key, e) && c.decision.id == e.id)
            && (c.decision.Created? ==> c.decision.id == next && c.entries != []
                                        && c.entries[|c.entries| - 1] == Entry(next, input.key, input.op, 0))
  {
    TargetCarries(entries, inflight, input.key);
    SameAre(entries, inflight, input.key);
    hide Same, Target, Increasing, Without, Ids;
  }

  /** The entry leaves: a delete of its document finds it unsent, it was answered for good, or all was flushed. */
  predicate Leaves(q: Outgoing, event: Event, e: Entry) {
    match event
    case Enqueues(input) => input.op.Delete? && Resting(e, q.inflight, input.key)
    case Answers(result) => !result.Retry? && q.inflight.Some? && q.inflight.value.id == e.id
    case Flushes => true
    case _ => false
  }

  /** What becomes of an entry that stays: a retry counts, a rename moves it to the new id. */
  function Becomes(q: Outgoing, event: Event, e: Entry): Entry {
    match event
    case Answers(result) =>
      if q.inflight.Some? && q.inflight.value.id == e.id
      then Entry(e.id, e.key, e.op, q.inflight.value.attempts + 1) else e
    case Renames(ref, from, to) =>
      if e.key.ref == ref && e.key.doc == from then Entry(e.id, Key(e.key.transporter, ref, to), e.op, e.attempts)
          else e
    case _ => e
  }

  lemma AttemptedAt(q: Outgoing)
    requires q.inflight.Some?
    ensures var again := Attempted(q.entries, q.inflight.value.id, q.inflight.value.attempts + 1);
            forall e <- q.entries :: Becomes(q, Answers(Retry), e) in again
  {
    var id, attempts := q.inflight.value.id, q.inflight.value.attempts + 1;
    forall e | e in q.entries
      ensures Becomes(q, Answers(Retry), e) in Attempted(q.entries, id, attempts)
    {
      var i :| 0 <= i < |q.entries| && q.entries[i] == e;
      assert Attempted(q.entries, id, attempts)[i] == Becomes(q, Answers(Retry), e);
    }
  }

  lemma RenamedAt(q: Outgoing, ref: string, from: string, to: string)
    ensures forall e <- q.entries :: Becomes(q, Renames(ref, from, to), e) in Renamed(q.entries, ref, from, to)
  {
    forall e | e in q.entries
      ensures Becomes(q, Renames(ref, from, to), e) in Renamed(q.entries, ref, from, to)
    {
      var i :| 0 <= i < |q.entries| && q.entries[i] == e;
      assert Renamed(q.entries, ref, from, to)[i] == Becomes(q, Renames(ref, from, to), e);
    }
  }

  /** An entry that is not among those left is not found by its id either. */
  lemma GoneId(entries: seq<Entry>, rest: seq<Entry>, more: seq<Entry>, next: nat, e: Entry)
    requires Increasing(entries) && (forall f <- entries :: f.id < next) && forall f <- rest :: f in entries
    requires e in entries && e !in rest && forall f <- more :: f.id == next
    ensures e.id !in Ids(rest + more)
  {
    IdsDistinct(entries);
    hide Increasing;
  }

  lemma DeletedIds(q: Outgoing, input: Input)
    requires QueueGood(q) && input.op.Delete?
    ensures var c := Coalesced(q.entries, q.inflight, input, q.next);
            forall e <- q.entries ::
              if Resting(e, q.inflight, input.key) then e.id !in Ids(c.entries) else e in c.entries
  {
    var rest := Without(q.entries, Ids(Same(q.entries, q.inflight, input.key)));
    var c := Coalesced(q.entries, q.inflight, input, q.next);
    var more := if c.decision.Settled? then [] else [Entry(q.next, input.key, input.op, 0)];
    assert c.entries == rest + more by { hide Same, Without, Ids, AddingNow; }
    RestAre(q.entries, q.inflight, input.key);
    hide Increasing, SentInOrder, Same, Without, Coalesced, Ids;
    forall e | e in q.entries && Resting(e, q.inflight, input.key)
      ensures e.id !in Ids(c.entries)
    {
      GoneId(q.entries, rest, more, q.next, e);
    }
  }

  lemma CoalescedIds(q: Outgoing, input: Input)
    requires QueueGood(q)
    ensures var c := Coalesced(q.entries, q.inflight, input, q.next);
            forall e <- q.entries ::
              if input.op.Delete? && Resting(e, q.inflight, input.key) then e.id !in Ids(c.entries) else e in c.entries
  {
    if input.op.Delete? {
      DeletedIds(q, input);
      hide *;
    } else {
      hide Increasing, SentInOrder, Same, Without, Target;
    }
  }

  /** Entries leave for these reasons only; the others stay, each as it was but for a retry or a rename. */
  lemma EntriesStay(q: Outgoing, event: Event)
    requires QueueGood(q) && CanMove(q, event)
    ensures forall e <- q.entries :: if Leaves(q, event, e) then e.id !in Ids(Moved(q, event).entries)
        else Becomes(q, event, e) in Moved(q, event).entries
  {
    match event {
      case Enqueues(input) =>
        CoalescedIds(q, input);
      case Answers(result) =>
        if result.Retry? { AttemptedAt(q); }
        WithoutAre(q.entries, {q.inflight.value.id});
      case Renames(ref, from, to) => RenamedAt(q, ref, from, to);
      case _ =>
    }
    hide Increasing, SentInOrder, Coalesced, Without, Renamed, Attempted;
  }

  /** Only a write enters, as its own entry, and then it is what its caller waits for. */
  lemma EntriesEnter(q: Outgoing, event: Event)
    requires QueueGood(q) && CanMove(q, event)
    ensures forall e <- Moved(q, event).entries :: e.id !in Ids(q.entries) ==>
        event.Enqueues? && e == Entry(q.next, event.input.key, event.input.op, 0)
          && Coalesced(q.entries, q.inflight, event.input, q.next).decision == Created(q.next)
  {
    match event {
      case Enqueues(input) => CoalescingKeepsOrder(q.entries, q.inflight, input, q.next);
      case Answers(result) => WithoutAre(q.entries, {q.inflight.value.id});
        SentOrKept(q, Attempted(q.entries, q.inflight.value.id, q.inflight.value.attempts + 1));
      case Renames(ref, from, to) => SentOrKept(q, Renamed(q.entries, ref, from, to));
      case _ =>
    }
    hide Increasing, SentInOrder, Coalesced, Without, Renamed, Attempted;
  }

  lemma SentOrKept(q: Outgoing, rewritten: seq<Entry>)
    requires |rewritten| == |q.entries| && forall i :: 0 <= i < |rewritten| ==> rewritten[i].id == q.entries[i].id
    ensures forall e <- rewritten :: e.id in Ids(q.entries)
  {
    forall e | e in rewritten
      ensures e.id in Ids(q.entries)
    {
      var i :| 0 <= i < |rewritten| && rewritten[i] == e;
      assert q.entries[i] in q.entries;
    }
  }

  ghost predicate SendsOldest(entries: seq<Entry>, sent: seq<nat>, after: Outgoing) {
    && after.inflight.Some? && after.inflight.value in entries
    && (forall e <- entries :: after.inflight.value.id <= e.id)
    && after.sent == sent + [after.inflight.value.id]
  }

  /** The sender takes the oldest entry when there is one, and has nothing in flight once it is answered. */
  lemma SenderMoves(q: Outgoing, event: Event)
    requires QueueGood(q) && CanMove(q, event)
    ensures event.Sends? && q.entries != [] ==> SendsOldest(q.entries, q.sent, Moved(q, event))
    ensures event.Answers? || event.Restarts? ==> Moved(q, event).inflight.None?
    ensures !event.Sends? ==> Moved(q, event).sent == q.sent
    ensures !event.Sends? && !event.Answers? && !event.Restarts? ==> Moved(q, event).inflight == q.inflight
  {
    if q.entries != [] { HeadOf(q); }
    hide Increasing, SentInOrder, Coalesced, Without, Renamed, Attempted;
  }

  /** Whoever waits for one of the entries is told how it ended and waits no more; nobody else notices. */
  lemma ToldExactly(resolved: map<Call, Settlement>, waits: map<Call, nat>, ids: set<nat>, settlement: Settlement,
      c: Call)
    ensures var told, kept := Told(resolved, waits, ids, settlement), Released(waits, ids);
            if c in waits && waits[c] in ids then c in told && told[c] == settlement && c !in kept
            else (c in told <==> c in resolved) && (c in told ==> told[c] == resolved[c])
                 && (c in kept <==> c in waits) && (c in kept ==> kept[c] == waits[c])
  {
  }

  class LivequeryOutbox {
    var entries: seq<Entry>
    var inflight: Option<Entry>
    var waiters: map<nat, seq<Call>>
    var stalled: bool
    var stopped: bool
    var nextId: nat
    /** Calls made so far, how each resolved, and which entry each of the others waits for. */
    var calls: nat
    var resolved: map<Call, Settlement>
    ghost var waits: map<Call, nat>
    /** The ids sent so far, oldest first, and whether the storage was flushed under what is in flight. */
    ghost var sent: seq<nat>
    ghost var flushed: bool

    ghost function Abs(): Outgoing reads this {
      Outgoing(entries, inflight, flushed, nextId, sent)
    }

    ghost predicate Valid() reads this {
      Agree(waiters, waits) && StateValid(Abs(), waits, resolved, calls)
    }

    /** A session starts with what an earlier one left behind. */
    constructor (persisted: seq<Entry>, next: nat)
      requires Increasing(persisted) && forall e <- persisted :: e.id < next
      ensures Valid() && entries == persisted && inflight == None && calls == 0 && !stalled && !stopped
    {
      entries, inflight, waiters, stalled, stopped := persisted, None, map[], false, false;
      nextId, calls, resolved, waits, sent, flushed := next, 0, map[], map[], [], false;
    }

    /** Every caller waiting for the entry learns how it ended. */
    method Settle(id: nat, settlement: Settlement)
      requires Agree(waiters, waits)
      modifies this`waiters, this`resolved, this`waits
      ensures Agree(waiters, waits)
      ensures waits == Released(old(waits), {id})
      ensures resolved == Told(old(resolved), old(waits), {id}, settlement)
      ensures waiters.Keys == old(waiters).Keys - {id}
    {
      hide Agree, Elements, Waiting, Released, All;
      AgreeReleased(waiters, waits, id);
      AllOfNone(resolved, settlement);
      if id !in waiters {
        return;
      }
      var list := waiters[id];
      waiters := waiters - {id};
      waits := Released(waits, {id});
      var k := 0;
      assert list[..0] == [];
      while k < |list|
        invariant 0 <= k <= |list|
        invariant resolved == old(resolved) + All(Elements(list[..k]), settlement)
        modifies this`resolved
      {
        resolved := resolved[list[k] := settlement];
        k := k + 1;
        AllGrows(old(resolved), list, k, settlement);
      }
      assert list[..k] == list;
    }

    method SettleAll(settlement: Settlement)
      requires Agree(waiters, waits)
      modifies this`waiters, this`resolved, this`waits
      ensures Agree(waiters, waits) && waits == map[]
      ensures resolved == old(resolved) + All(old(waits).Keys, settlement)
    {
      hide *;
      ToldNobody(resolved, waits, settlement);
      ToldAll(waiters, waits, resolved, settlement);
      PartedStart(waiters.Keys);
      var left := waiters.Keys;
      ghost var all, told := waiters.Keys, {};
      while left != {}
        invariant Agree(waiters, waits) && Parted(all, told, left)
        invariant waits == Released(old(waits), told)
        invariant resolved == Told(old(resolved), old(waits), told, settlement)
        decreases |left|
      {
        var id :| id in left;
        ToldMore(old(resolved), old(waits), told, {id}, settlement);
        PartedOn(all, told, left, id);
        Settle(id, settlement);
        left, told := left - {id}, told + {id};
      }
      PartedEnd(all, told);
    }

    /** Drop the entries a delete makes pointless; their callers are done. */
    method Drop(same: seq<Entry>)
      requires Agree(waiters, waits)
      modifies this`entries, this`waiters, this`resolved, this`waits
      ensures Agree(waiters, waits)
      ensures entries == Without(old(entries), Ids(same))
      ensures waits == Released(old(waits), Ids(same)) && resolved == Told(old(resolved), old(waits), Ids(same), Done)
    {
      hide *;
      ToldNobody(resolved, waits, Done);
      WithoutNobody(entries);
      IdsGrow(same, 0);
      var i := 0;
      while i < |same|
        invariant 0 <= i <= |same| && Agree(waiters, waits)
        invariant entries == Without(old(entries), Ids(same[..i]))
        invariant waits == Released(old(waits), Ids(same[..i]))
            && resolved == Told(old(resolved), old(waits), Ids(same[..i]), Done)
      {
        IdsGrow(same, i);
        ToldMore(old(resolved), old(waits), Ids(same[..i]), {same[i].id}, Done);
        WithoutTwice(old(entries), Ids(same[..i]), {same[i].id});
        entries := Without(entries, {same[i].id});
        Settle(same[i].id, Done);
        i := i + 1;
      }
      assert same[..i] == same;
    }

    /** Fold a write into what is queued, or append it. */
    method Coalesce(input: Input) returns (decision: Decision)
      requires Valid()
      modifies this`entries, this`nextId, this`waiters, this`resolved, this`waits
      ensures Valid() && Abs() == Moved(old(Abs()), Enqueues(input))
      ensures old(AddFirst(entries)) ==> (AddFirst(entries) <==> !(input.op.Add? && UpdateOf(old(entries), input.key)))
      ensures var c := Coalesced(old(entries), inflight, input, old(nextId));
              && entries == c.entries && decision == c.decision
              && waits == Released(old(waits), c.dropped)
              && resolved == Told(old(resolved), old(waits), c.dropped, Done)
      ensures EntryOf(decision) <= Ids(entries)
    {
      hide Ids, Same, Without, Target, AddingNow, Agree, Released, Told, StateValid, QueueGood, SentInOrder, Accounted,
        Increasing, EntryOf, AddFirst, UpdateOf;
      CoalescedValid(Abs(), waits, resolved, calls, input);
      if AddFirst(entries) { CoalescingKeepsAddFirst(entries, inflight, input, nextId); }
      ToldNobody(resolved, waits, Done);
      var same := Same(entries, inflight, input.key);
      nextId := nextId + 1;
      match input.op {
        case Add =>
        case Update =>
          var target := Target(same);
          if target.Some? {
            return Folded(target.value.id);
          }
          if input.unsynced && !AddingNow(inflight, input.key) {
            return Settled;
          }
        case Delete =>
          Drop(same);
          if (exists e <- same :: e.op.Add?) || (input.unsynced && !AddingNow(inflight, input.key)) {
            return Settled;
          }
      }
      entries := entries + [Entry(nextId - 1, input.key, input.op, 0)];
      return Created(nextId - 1);
    }

    /**
     * Queue a write. Its call resolves at once when the outbox settled it, or as `Queued`, with
     * whoever waits for the same entry, when the queue is stuck; otherwise it waits for its entry.
     */
    method Enqueue(input: Input) returns (decision: Decision, call: Call)
      requires Valid()
      modifies this`entries, this`nextId, this`waiters, this`resolved, this`waits, this`calls
      ensures Valid() && call == old(calls) && calls == call + 1 && Abs() == Moved(old(Abs()), Enqueues(input))
      ensures old(AddFirst(entries)) ==> (AddFirst(entries) <==> !(input.op.Add? && UpdateOf(old(entries), input.key)))
      ensures var c := Coalesced(old(entries), inflight, input, old(nextId));
              && entries == c.entries && decision == c.decision
              && (var kept, told := Released(old(waits), c.dropped), Told(old(resolved), old(waits), c.dropped, Done);
                  if decision.Settled? then waits == kept && resolved == told[call := Done]
                  else if stalled then waits == Released(kept[call := decision.id], {decision.id})
                                       && resolved == Told(told, kept[call := decision.id], {decision.id}, Queued)
                  else waits == kept[call := decision.id] && resolved == told)
    {
      hide Ids, Coalesced, Agree, Released, Told, QueueGood, SentInOrder, Accounted, Increasing, AddFirst, UpdateOf;
      decision := Coalesce(input);
      call := calls;
      calls := calls + 1;
      if decision.Settled? {
        AccountedCall(waits, resolved, call, Ids(entries), 0, Done);
        resolved := resolved[call := Done];
        return;
      }
      var id := decision.id;
      AccountedCall(waits, resolved, call, Ids(entries), id, Done);
      AgreeWith(waiters, waits, id, call);
      waiters := waiters[id := (if id in waiters then waiters[id] else []) + [call]];
      waits := waits[call := id];
      if stalled {
        AccountedTold(waits, resolved, calls, Ids(entries), {id}, Ids(entries), Queued);
        Settle(id, Queued);
      }
    }

    /** Take the oldest entry to send; an empty queue is not stuck any more. */
    method Send() returns (head: Option<Entry>)
      requires Valid() && inflight.None? && !stopped
      modifies this`inflight, this`stalled, this`sent, this`flushed
      ensures Valid() && Abs() == Moved(old(Abs()), Sends)
      ensures old(entries) == [] ==> head.None? && inflight.None? && !stalled && sent == old(sent)
      ensures old(entries) != [] ==>
                && head == Some(old(entries)[0]) && inflight == head && stalled == old(stalled)
                && sent == old(sent) + [head.value.id]
      ensures forall e <- entries :: head.Some? && head.value.id <= e.id
      // No update goes out before a queued add of its document.
      ensures AddFirst(entries) && head.Some? && head.value.op.Update? ==>
          forall e <- entries :: e.key == head.value.key ==> !e.op.Add?
    {
      hide Agree, Accounted, Increasing, SentInOrder, QueueGood, AddFirst;
      if entries == [] {
        stalled := false;
        return None;
      }
      QueueKeeps(Abs(), Sends);
      HeadOf(Abs());
      if AddFirst(entries) && entries[0].op.Update? { NothingOvertaken(entries); }
      flushed := false;
      inflight := Some(entries[0]);
      sent := sent + [entries[0].id];
      return inflight;
    }

    /**
     * The answer to what is in flight. A retryable failure keeps the entry and lets go of every
     * caller; anything else removes it and tells its callers how it ended.
     */
    method Answered(result: Execution)
      requires Valid() && inflight.Some?
      modifies this`entries, this`inflight, this`flushed, this`stalled, this`waiters, this`resolved, this`waits
      ensures Valid() && inflight.None? && stalled == result.Retry? && Abs() == Moved(old(Abs()), Answers(result))
      ensures old(AddFirst(entries)) ==> AddFirst(entries)
      ensures var head := old(inflight).value;
              if result.Retry? then
                && entries == Attempted(old(entries), head.id, head.attempts + 1)
                && waits == map[] && resolved == old(resolved) + All(old(waits).Keys, Queued)
              else
                && entries == Without(old(entries), {head.id})
                && waits == Released(old(waits), {head.id})
                && resolved == Told(old(resolved), old(waits), {head.id}, if result.Succeeded? then Done
                    else Failed(result.code))
    {
      hide Ids, Without, Agree, Released, Told, QueueGood, SentInOrder, Accounted, Increasing, All, AddFirst;
      if AddFirst(entries) { AddsStayFirst(Abs(), Answers(result)); }
      var head := inflight.value;
      inflight, flushed := None, false;
      if result.Retry? {
        ShortenedValid(old(Abs()), waits, resolved, calls, {}, Queued);
        ToldNobody(resolved, waits, Queued);
        WithoutNobody(entries);
        RewrittenValid(Abs(), Attempted(entries, head.id, head.attempts + 1), waits, resolved, calls);
        entries := Attempted(entries, head.id, head.attempts + 1);
        stalled := true;
        ReleaseAll(Queued);
        return;
      }
      var settlement := if result.Succeeded? then Done else Failed(result.code);
      ShortenedValid(old(Abs()), waits, resolved, calls, {head.id}, settlement);
      entries := Without(entries, {head.id});
      stalled := false;
      Settle(head.id, settlement);
    }

    /** Let go of every caller. */
    method ReleaseAll(settlement: Settlement)
      requires Valid()
      modifies this`waiters, this`resolved, this`waits
      ensures Valid() && waits == map[] && resolved == old(resolved) + All(old(waits).Keys, settlement)
    {
      hide Agree, QueueGood, SentInOrder, Increasing, Ids;
      SettleAll(settlement);
    }

    /** The document of a confirmed add got another id: entries follow it. */
    method Remap(ref: string, from: string, to: string)
      requires Valid()
      modifies this`entries
      ensures Valid() && Abs() == Moved(old(Abs()), Renames(ref, from, to))
      ensures old(AddFirst(entries)) ==> (AddFirst(entries) <==> !Crosses(old(entries), ref, from, to))
    {
      hide Agree, QueueGood, SentInOrder, Accounted, Increasing, AddFirst, Crosses;
      if AddFirst(entries) { RenamedKeepsAddFirst(entries, ref, from, to); }
      if from == to {
        assert Renamed(entries, ref, from, to) == entries;
        return;
      }
      RewrittenValid(Abs(), Renamed(entries, ref, from, to), waits, resolved, calls);
      entries := Renamed(entries, ref, from, to);
    }

    /** The storage was flushed: nothing is queued, nobody waits. */
    method Cleared()
      requires Valid()
      modifies this`entries, this`flushed, this`stalled, this`waiters, this`resolved, this`waits
      ensures Valid() && Abs() == Moved(old(Abs()), Flushes) && !stalled
      ensures waits == map[] && resolved == old(resolved) + All(old(waits).Keys, Failed("OUTBOX_CLEARED"))
    {
      ReleaseAll(Failed("OUTBOX_CLEARED"));
      Emptied(Abs());
      entries, stalled, flushed := [], false, inflight.Some?;
    }

    /** Stop draining; mutations still waiting resolve as queued. */
    method Stop()
      requires Valid()
      modifies this`stopped, this`waiters, this`resolved, this`waits
      ensures Valid() && stopped && Abs() == old(Abs())
      ensures !old(stopped) ==> waits == map[] && resolved == old(resolved) + All(old(waits).Keys, Queued)
      ensures old(stopped) ==> waits == old(waits) && resolved == old(resolved)
    {
      if stopped {
        return;
      }
      stopped := true;
      ReleaseAll(Queued);
    }
  }
}
