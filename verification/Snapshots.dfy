// What apps/vscode/src/state.ts does to one snapshot: naming the slices that changed, dropping
// slices nobody holds, laying recovered slices over a configuration inventory, and accepting a
// revision-only receipt. Digests, revisions and payloads are numbers.
module Snapshots {
  import opened Wrappers

  datatype Slice =
    | Repository | Lifecycle | Configuration | Capabilities
    | Integrations | Diagnostics | Sgos | Comprehension

  const CORE_SNAPSHOT_SLICES: set<Slice> := {Repository, Lifecycle, Capabilities}
  const INDEPENDENT_SLICES: set<Slice> := {Comprehension, Sgos, Diagnostics}
  const DEDICATED_SLICES: set<Slice> := {Sgos, Comprehension}

  // `rest` stands for branch, head and worktree hash.
  datatype Revision = Revision(subject: Option<nat>, slices: Option<map<Slice, nat>>, rest: nat)

  datatype Snapshot = Snapshot(payload: map<Slice, nat>, included: Option<seq<Slice>>,
                               revision: Option<Revision>, notModified: bool)

  function Subject(s: Snapshot): Option<nat> {
    if s.revision.Some? then s.revision.value.subject else None
  }

  function Digests(s: Snapshot): map<Slice, nat> {
    if s.revision.Some? && s.revision.value.slices.Some? then s.revision.value.slices.value else map[]
  }

  function Listed(s: Snapshot): seq<Slice> {
    if s.included.Some? then s.included.value else []
  }

  // Every slice the snapshot speaks about.
  function Included(s: Snapshot): set<Slice> {
    (set x | x in Listed(s)) + Digests(s).Keys
  }

  function ChangedSlices(previous: Option<Snapshot>, next: Option<Snapshot>): set<Slice> {
    if next.None? then {}
    else if previous.None? then Included(next.value)
    else
      var before, after := Digests(previous.value), Digests(next.value);
      if before != map[] && after != map[]
      then set x | x in Included(next.value) && Digest(before, x) != Digest(after, x)
      else if Subject(previous.value) == Subject(next.value) && Subject(next.value).Some? then {}
      else Included(next.value)
  }

  function Digest(digests: map<Slice, nat>, x: Slice): Option<nat> {
    if x in digests then Some(digests[x]) else None
  }

  // A snapshot whose slices can be compared one by one.
  predicate Exact(s: Snapshot) {
    Digests(s) != map[]
  }

  // A surface told of each change in turn is told of every slice that differs in the end: for exact
  // snapshots nothing that changed over two steps is missed by both.
  lemma ChangesCompose(a: Snapshot, b: Snapshot, c: Snapshot, x: Slice)
    requires Exact(a) && Exact(b) && Exact(c) && x in Digests(c)
    requires x in ChangedSlices(Some(a), Some(c))
    ensures x in ChangedSlices(Some(a), Some(b)) || x in ChangedSlices(Some(b), Some(c))
  {}

  // An unchanged slice with a digest really is the same.
  lemma UnchangedIsEqual(a: Snapshot, b: Snapshot, x: Slice)
    requires Exact(a) && x in Digests(b)
    ensures x !in ChangedSlices(Some(a), Some(b)) <==> x in Digests(a) && Digests(a)[x] == Digests(b)[x]
  {}

  // A slice listed without a digest can be missed: it is dropped by one step and listed by the next.
  lemma ListedWithoutDigestIsMissed()
    ensures exists a, b, c, x :: Exact(a) && Exact(b) && Exact(c) && x in ChangedSlices(Some(a), Some(c))
              && x !in ChangedSlices(Some(a), Some(b)) && x !in ChangedSlices(Some(b), Some(c))
  {
    var a := Snapshot(map[], None, Some(Revision(None, Some(map[Sgos := 1, Repository := 0]), 0)), false);
    var b := Snapshot(map[], None, Some(Revision(None, Some(map[Repository := 0]), 0)), false);
    var c := b.(included := Some([Sgos]));
    assert Digests(a)[Repository] == 0 && Digests(b)[Repository] == 0;
    assert c.included.value[0] == Sgos && Sgos in Included(c);
    assert Sgos in ChangedSlices(Some(a), Some(c)) && Sgos !in ChangedSlices(Some(a), Some(b));
  }

  // The first snapshot changes every slice it lists or has a digest for; going without a snapshot changes none.
  lemma FirstSnapshotChangesAll(previous: Option<Snapshot>, next: Snapshot, x: Slice)
    ensures x in ChangedSlices(None, Some(next)) <==> x in Listed(next) || x in Digests(next)
    ensures ChangedSlices(previous, None) == {}
  {}

  // Without digests the aggregate revision decides for all slices at once.
  lemma CompatibilityIsAllOrNothing(a: Snapshot, b: Snapshot)
    requires !Exact(a) || !Exact(b)
    ensures ChangedSlices(Some(a), Some(b)) == {} || ChangedSlices(Some(a), Some(b)) == Included(b)
    ensures ChangedSlices(Some(a), Some(b)) == {} <==>
            Included(b) == {} || (Subject(a).Some? && Subject(a) == Subject(b))
  {}

  // ---- Dropping slices ----

  function Keep(listed: seq<Slice>, removed: set<Slice>): seq<Slice> {
    if listed == [] then []
    else Keep(listed[..|listed| - 1], removed) +
         (if listed[|listed| - 1] in removed then [] else [listed[|listed| - 1]])
  }

  // Payload, listing, digest and aggregate revision go together.
  function Without(s: Snapshot, removed: set<Slice>): Snapshot {
    Snapshot(s.payload - removed,
             if s.included.Some? then Some(Keep(s.included.value, removed)) else None,
             if s.revision.Some? then Some(Revision(None, Some(Digests(s) - removed), s.revision.value.rest)) else None,
             s.notModified)
  }

  function WithoutEphemeral(s: Snapshot, retained: set<Slice>): Snapshot {
    if Comprehension in retained || Comprehension !in s.payload then s else Without(s, {Comprehension})
  }

  lemma {:induction false} KeepKeeps(listed: seq<Slice>, removed: set<Slice>, x: Slice)
    ensures x in Keep(listed, removed) <==> x in listed && x !in removed
  {
    if listed != [] {
      KeepKeeps(listed[..|listed| - 1], removed, x);
      assert listed == listed[..|listed| - 1] + [listed[|listed| - 1]];
    }
  }

  lemma {:induction false} KeepTwice(listed: seq<Slice>, removed: set<Slice>, more: set<Slice>)
    ensures Keep(Keep(listed, removed), more) == Keep(listed, removed + more)
  {
    if listed != [] {
      var front, last := listed[..|listed| - 1], listed[|listed| - 1];
      KeepTwice(front, removed, more);
      var once := Keep(front, removed);
      assert Keep(listed, removed) == (if last in removed then once else once + [last]);
      assert (once + [last])[..|once|] == once;
    }
  }

  // What is dropped leaves no trace a later receipt or comparison could rely on, and nothing else is touched.
  lemma WithoutLeavesNoTrace(s: Snapshot, removed: set<Slice>, x: Slice)
    ensures var r := Without(s, removed);
      && (x in removed ==> x !in r.payload && x !in Digests(r) && x !in Listed(r))
      && (x !in removed ==> (x in r.payload <==> x in s.payload) && Digest(Digests(r), x) == Digest(Digests(s), x)
                            && (x in Listed(r) <==> x in Listed(s)))
      && (x in s.payload && x !in removed ==> r.payload[x] == s.payload[x])
      && Subject(r) == None && (r.revision.Some? <==> s.revision.Some?) && r.notModified == s.notModified
      && (s.revision.Some? ==> r.revision.value.rest == s.revision.value.rest)
  {
    if s.included.Some? { KeepKeeps(s.included.value, removed, x); }
  }

  // Dropping slices one by one is dropping them together.
  lemma WithoutTwice(s: Snapshot, removed: set<Slice>, more: set<Slice>)
    ensures Without(Without(s, removed), more) == Without(s, removed + more)
  {
    if s.included.Some? { KeepTwice(s.included.value, removed, more); }
    assert s.payload - removed - more == s.payload - (removed + more);
    assert Digests(s) - removed - more == Digests(s) - (removed + more);
  }

  // ---- Laying slices over a recovery inventory ----

  function Append(listed: seq<Slice>, extra: seq<Slice>): seq<Slice>
    decreases |extra|
  {
    if extra == [] then listed
    else Append(if extra[0] in listed then listed else listed + [extra[0]], extra[1..])
  }

  function WithSlices(base: Snapshot, extra: Snapshot, slices: seq<Slice>): Snapshot {
    var wanted := set x | x in slices;
    var digests := Digests(base) + map x | x in Digests(extra) && x in wanted :: Digests(extra)[x];
    Snapshot(base.payload + map x | x in extra.payload && x in wanted :: extra.payload[x],
             Some(Append([], Listed(base) + slices)),
             if base.revision.Some? then Some(base.revision.value.(slices := Some(digests)))
             else if extra.revision.Some? then Some(extra.revision.value.(slices := Some(digests)))
             else None,
             base.notModified)
  }

  lemma {:induction false} AppendLists(listed: seq<Slice>, extra: seq<Slice>, x: Slice)
    ensures x in Append(listed, extra) <==> x in listed || x in extra
    ensures (forall i, k | 0 <= i < k < |listed| :: listed[i] != listed[k]) ==>
            forall i, k | 0 <= i < k < |Append(listed, extra)| :: Append(listed, extra)[i] != Append(listed, extra)[k]
    decreases |extra|
  {
    if extra != [] {
      AppendLists(if extra[0] in listed then listed else listed + [extra[0]], extra[1..], x);
      assert extra == [extra[0]] + extra[1..];
    }
  }

  // Each slice of the result comes from one of the two, and its digest with it, unless `extra` has none and
  // `base` does: then the content of the one goes with the digest of the other.
  lemma RecoveryKeepsSlicesWhole(base: Snapshot, extra: Snapshot, slices: seq<Slice>, x: Slice)
    requires forall y | y in slices :: y in extra.payload
    ensures var r := WithSlices(base, extra, slices); var source := if x in slices then extra else base;
      && (x in r.payload <==> x in source.payload) && (x in r.payload ==> r.payload[x] == source.payload[x])
      && (Digest(Digests(r), x) == Digest(Digests(source), x) <==>
            !(x in slices && x !in Digests(extra) && x in Digests(base)))
      && (x in Listed(r) <==> x in Listed(base) || x in slices)
      && Subject(r) == Subject(if base.revision.Some? then base else extra) && r.notModified == base.notModified
      && (r.revision.Some? <==> base.revision.Some? || extra.revision.Some?)
      && (r.revision.Some? ==>
            r.revision.value.rest == (if base.revision.Some? then base else extra).revision.value.rest)
  {
    hide Append;
    AppendLists([], Listed(base) + slices, x);
    MergedDigest(base, extra, slices, x);
  }

  lemma MergedDigest(base: Snapshot, extra: Snapshot, slices: seq<Slice>, x: Slice)
    ensures Digest(Digests(WithSlices(base, extra, slices)), x) ==
            if x in slices && x in Digests(extra) then Some(Digests(extra)[x]) else Digest(Digests(base), x)
  {
    hide Append;
  }

  // ---- Receipts ----

  predicate SameReceipt(previous: Snapshot, receipt: Snapshot) {
    && Listed(previous) == (if receipt.included.Some? then receipt.included.value else Listed(previous))
    && (receipt.revision.None? || receipt.revision == previous.revision)
  }

  function Confirmed(previous: Snapshot, receipt: Snapshot): Snapshot {
    previous.(included := if receipt.included.Some? then receipt.included else previous.included,
              revision := if receipt.revision.Some? then receipt.revision else previous.revision,
              notModified := false)
  }

  // The snapshot shown after a receipt; an equal receipt keeps the object as it is.
  function Accept(previous: Snapshot, receipt: Snapshot): Snapshot {
    if previous.notModified || !SameReceipt(previous, receipt) then Confirmed(previous, receipt) else previous
  }

  // Skipping an equal receipt is not observable, and no receipt touches a payload: what a receipt lists, and its
  // revision, replace what was shown, where it has them.
  lemma SkippedReceiptIsInvisible(previous: Snapshot, receipt: Snapshot)
    ensures var shown, full := Accept(previous, receipt), Confirmed(previous, receipt);
      && shown.payload == previous.payload && Listed(shown) == Listed(full)
      && shown.revision == full.revision && !shown.notModified
      && Listed(shown) == Listed(if receipt.included.Some? then receipt else previous)
      && shown.revision == (if receipt.revision.Some? then receipt else previous).revision
  {}
}
