// The feedback a chat request leaves once its file references are cut out of the prompt
// (apps/vscode/src/chat-file-references.ts). Which values name verifiable local files, and how many
// bytes a text takes, are inputs.
module ChatReferences {
  import Shell
  import opened Wrappers

  // A range as the request carries it: absent, of the wrong shape, or a pair of numbers.
  datatype Range = Absent | Misshapen | Range(start: int, end: int)
  // `path` is None for anything but a verifiable local file; `original` is its case-folded, normalised form.
  datatype Reference = Reference(path: Option<string>, original: string, range: Range)

  datatype Refusal = TooFewOrMany | NotLocal | Repeated | InvalidRange | Overlapping | NoFeedback
  datatype Preview = LocalFile(paths: seq<string>, feedback: string) | Unavailable(refusal: Refusal)

  const MAX_REFERENCES: nat := 5
  const MAX_FEEDBACK_BYTES: nat := 8192

  type Cut = c: (nat, nat) | c.0 < c.1 witness (0, 1)

  predicate Fits(range: Range, length: nat) {
    range.Range? && 0 <= range.start < range.end <= length
  }

  predicate Usable(range: Range, length: nat) {
    range.Absent? || Fits(range, length)
  }

  function Cuts(refs: seq<Reference>, length: nat): seq<Cut> {
    if refs == [] then []
    else
      var rest, range := Cuts(refs[..|refs| - 1], length), refs[|refs| - 1].range;
      if Fits(range, length) then rest + [(range.start, range.end)] else rest
  }

  // ---- Sorting ----

  function Insert(cut: Cut, sorted: seq<Cut>): seq<Cut> {
    if sorted == [] || sorted[0].0 <= cut.0 then [cut] + sorted else [sorted[0]] + Insert(cut, sorted[1..])
  }

  // The last cut first; equal starts keep their order.
  function Descending(cuts: seq<Cut>): seq<Cut> {
    if cuts == [] then [] else Insert(cuts[0], Descending(cuts[1..]))
  }

  ghost predicate IsDescending(cuts: seq<Cut>) {
    forall i, k | 0 <= i < k < |cuts| :: cuts[k].0 <= cuts[i].0
  }

  lemma {:induction false} InsertPermutes(cut: Cut, sorted: seq<Cut>)
    ensures multiset(Insert(cut, sorted)) == multiset(sorted) + multiset{cut}
  {
    if sorted != [] && cut.0 < sorted[0].0 {
      InsertPermutes(cut, sorted[1..]);
      assert sorted == [sorted[0]] + sorted[1..];
      assert Insert(cut, sorted) == [sorted[0]] + Insert(cut, sorted[1..]);
    }
  }

  lemma ConsDescends(first: Cut, rest: seq<Cut>)
    requires IsDescending(rest) && (rest != [] ==> rest[0].0 <= first.0)
    ensures IsDescending([first] + rest)
  {}

  lemma {:induction false} InsertSorts(cut: Cut, sorted: seq<Cut>)
    requires IsDescending(sorted)
    ensures IsDescending(Insert(cut, sorted)) && Insert(cut, sorted) != []
    ensures Insert(cut, sorted)[0] == cut || (sorted != [] && Insert(cut, sorted)[0] == sorted[0])
  {
    if sorted != [] && cut.0 < sorted[0].0 {
      RestDescends(sorted);
      InsertSorts(cut, sorted[1..]);
      assert Insert(cut, sorted) == [sorted[0]] + Insert(cut, sorted[1..]);
      hide Insert, IsDescending;
      ConsDescends(sorted[0], Insert(cut, sorted[1..]));
    } else {
      hide IsDescending;
      ConsDescends(cut, sorted);
    }
  }

  lemma RestDescends(sorted: seq<Cut>)
    requires IsDescending(sorted) && sorted != []
    ensures IsDescending(sorted[1..]) && (|sorted| > 1 ==> sorted[1].0 <= sorted[0].0)
  {}

  lemma {:induction false} DescendingSorts(cuts: seq<Cut>)
    ensures IsDescending(Descending(cuts)) && multiset(Descending(cuts)) == multiset(cuts)
  {
    if cuts != [] {
      DescendingSorts(cuts[1..]);
      InsertSorts(cuts[0], Descending(cuts[1..]));
      InsertPermutes(cuts[0], Descending(cuts[1..]));
      assert cuts == [cuts[0]] + cuts[1..];
    }
  }

  // ---- Overlap ----

  predicate Beside(a: Cut, b: Cut) {
    a.1 <= b.0 || b.1 <= a.0
  }

  predicate Clear(cut: Cut, cuts: seq<Cut>) {
    cuts == [] || (Beside(cut, cuts[0]) && Clear(cut, cuts[1..]))
  }

  // No two cuts share a character.
  predicate Disjoint(cuts: seq<Cut>) {
    cuts == [] || (Clear(cuts[0], cuts[1..]) && Disjoint(cuts[1..]))
  }

  lemma {:induction false} InsertClear(x: Cut, cut: Cut, sorted: seq<Cut>)
    ensures Clear(x, Insert(cut, sorted)) <==> Beside(x, cut) && Clear(x, sorted)
  {
    if sorted == [] || sorted[0].0 <= cut.0 {
      assert ([cut] + sorted)[1..] == sorted;
    } else {
      InsertClear(x, cut, sorted[1..]);
    }
  }

  lemma {:induction false} InsertDisjoint(cut: Cut, sorted: seq<Cut>)
    ensures Disjoint(Insert(cut, sorted)) <==> Clear(cut, sorted) && Disjoint(sorted)
  {
    if sorted == [] || sorted[0].0 <= cut.0 {
      assert ([cut] + sorted)[1..] == sorted;
    } else {
      InsertDisjoint(cut, sorted[1..]);
      InsertClear(sorted[0], cut, sorted[1..]);
    }
  }

  lemma {:induction false} SortingKeepsClear(x: Cut, cuts: seq<Cut>)
    ensures Clear(x, Descending(cuts)) <==> Clear(x, cuts)
  {
    if cuts != [] {
      SortingKeepsClear(x, cuts[1..]);
      InsertClear(x, cuts[0], Descending(cuts[1..]));
    }
  }

  lemma {:induction false} SortingKeepsDisjoint(cuts: seq<Cut>)
    ensures Disjoint(Descending(cuts)) <==> Disjoint(cuts)
  {
    if cuts != [] {
      SortingKeepsDisjoint(cuts[1..]);
      SortingKeepsClear(cuts[0], cuts[1..]);
      InsertDisjoint(cuts[0], Descending(cuts[1..]));
    }
  }

  // What the loop over neighbours looks at.
  predicate Apart(sorted: seq<Cut>) {
    |sorted| < 2 || (sorted[1].1 <= sorted[0].0 && Apart(sorted[1..]))
  }

  // Each cut ends before every earlier one in the list begins.
  ghost predicate Falling(sorted: seq<Cut>) {
    forall i, k | 0 <= i < k < |sorted| :: sorted[k].1 <= sorted[i].0
  }

  lemma {:induction false} ApartIsFalling(sorted: seq<Cut>)
    ensures Apart(sorted) <==> Falling(sorted)
  {
    if 2 <= |sorted| {
      ApartIsFalling(sorted[1..]);
      if Falling(sorted) {
        assert forall k | 0 <= k < |sorted[1..]| :: sorted[1..][k] == sorted[k + 1];
      }
      if Apart(sorted) {
        forall i, k | 0 <= i < k < |sorted| ensures sorted[k].1 <= sorted[i].0 {
          assert sorted[k] == sorted[1..][k - 1];
          if i > 0 { assert sorted[i] == sorted[1..][i - 1]; }
        }
      }
    }
  }

  lemma {:induction false} ClearIsBeside(x: Cut, cuts: seq<Cut>)
    ensures Clear(x, cuts) <==> forall k | 0 <= k < |cuts| :: Beside(x, cuts[k])
  {
    if cuts != [] {
      ClearIsBeside(x, cuts[1..]);
      assert forall k | 1 <= k < |cuts| :: cuts[k] == cuts[1..][k - 1];
      if forall k | 0 <= k < |cuts| :: Beside(x, cuts[k]) {
        assert forall k | 0 <= k < |cuts[1..]| :: cuts[1..][k] == cuts[k + 1];
      }
    }
  }

  lemma {:induction false} FallingIsDisjoint(sorted: seq<Cut>)
    requires IsDescending(sorted)
    ensures Falling(sorted) <==> Disjoint(sorted)
  {
    if sorted != [] {
      var rest := sorted[1..];
      assert forall k | 0 <= k < |rest| :: rest[k] == sorted[k + 1];
      FallingIsDisjoint(rest);
      ClearIsBeside(sorted[0], rest);
      if Disjoint(sorted) {
        forall i, k | 0 <= i < k < |sorted| ensures sorted[k].1 <= sorted[i].0 {
          assert sorted[k] == rest[k - 1];
          if i > 0 { assert sorted[i] == rest[i - 1]; }
        }
      }
    }
  }

  // Looking at neighbours after sorting decides whether any two of the given cuts overlap.
  lemma NeighboursDecide(cuts: seq<Cut>)
    ensures Apart(Descending(cuts)) <==> Disjoint(cuts)
  {
    DescendingSorts(cuts);
    ApartIsFalling(Descending(cuts));
    FallingIsDisjoint(Descending(cuts));
    SortingKeepsDisjoint(cuts);
  }

  // ---- Cutting ----

  function Edit(text: string, cut: Cut): string {
    if cut.1 <= |text| then text[..cut.0] + " " + text[cut.1..] else text
  }

  function EditAll(text: string, cuts: seq<Cut>): string {
    if cuts == [] then text else Edit(EditAll(text, cuts[..|cuts| - 1]), cuts[|cuts| - 1])
  }

  // What the author wrote outside the cuts, from position `i` on: each cut leaves one space, every
  // other character stays. `ends` maps where a cut starts to where it ends.
  function Remaining(text: string, ends: map<nat, nat>, i: nat): string
    decreases |text| - i
  {
    if i >= |text| then ""
    else if i in ends && i < ends[i] then " " + Remaining(text, ends, ends[i])
    else [text[i]] + Remaining(text, ends, i + 1)
  }

  function Ends(cuts: seq<Cut>): map<nat, nat> {
    if cuts == [] then map[] else Ends(cuts[..|cuts| - 1])[cuts[|cuts| - 1].0 := cuts[|cuts| - 1].1]
  }

  lemma {:induction false} EndsStartAtCuts(cuts: seq<Cut>, s: nat)
    ensures s in Ends(cuts) <==> exists k :: 0 <= k < |cuts| && cuts[k].0 == s
  {
    if cuts != [] {
      var front := cuts[..|cuts| - 1];
      EndsStartAtCuts(front, s);
      if s in Ends(front) {
        var k :| 0 <= k < |front| && front[k].0 == s;
        assert cuts[k].0 == s;
      }
      if k :| 0 <= k < |cuts| && cuts[k].0 == s {
        if k < |front| { assert front[k].0 == s; }
      }
    }
  }

  lemma RemainingStep(text: string, ends: map<nat, nat>, i: nat)
    requires i < |text| && i !in ends
    ensures Remaining(text, ends, i) == [text[i]] + Remaining(text, ends, i + 1)
  {}

  lemma {:induction false} RemainingKeeps(text: string, ends: map<nat, nat>, i: nat, k: nat)
    requires i <= k <= |text| && forall s | i <= s < k :: s !in ends
    ensures Remaining(text, ends, i) == text[i..k] + Remaining(text, ends, k)
    decreases k - i
  {
    if i < k {
      RemainingKeeps(text, ends, i + 1, k);
      RemainingStep(text, ends, i);
      hide Remaining;
      assert text[i..k] == [text[i]] + text[i + 1..k];
      Shell.AppendsTogether([text[i]], text[i + 1..k], Remaining(text, ends, k));
    } else {
      hide Remaining;
      assert text[i..k] == "";
    }
  }

  lemma {:induction false} EarlierCutsDoNotMatter(text: string, ends: map<nat, nat>, s: nat, e: nat, i: nat)
    requires s < i
    ensures Remaining(text, ends[s := e], i) == Remaining(text, ends, i)
    decreases |text| - i
  {
    if i < |text| {
      EarlierCutsDoNotMatter(text, ends, s, e, if i in ends && i < ends[i] then ends[i] else i + 1);
    }
  }

  lemma EditBefore(text: string, tail: string, low: nat, cut: Cut)
    requires cut.1 <= low <= |text|
    ensures Edit(text[..low] + tail, cut) == text[..cut.0] + " " + (text[cut.1..low] + tail)
  {}

  function Low(text: string, sorted: seq<Cut>): nat {
    if sorted == [] then |text| else sorted[|sorted| - 1].0
  }

  // After the cuts so far, everything before the last one is untouched, so the next edit's offsets
  // are still the prompt's own.
  lemma {:induction false} EditsNeverShift(text: string, sorted: seq<Cut>)
    requires Falling(sorted) && (sorted != [] ==> sorted[0].1 <= |text|)
    ensures Low(text, sorted) <= |text|
    ensures EditAll(text, sorted) == text[..Low(text, sorted)] + Remaining(text, Ends(sorted), Low(text, sorted))
  {
    if sorted == [] {
      assert text[..|text|] == text;
    } else {
      hide EditAll, Edit, Remaining, Ends, Falling;
      var front, cut := sorted[..|sorted| - 1], sorted[|sorted| - 1];
      var low, ends := Low(text, front), Ends(front);
      FrontFalls(text, sorted);
      EditsNeverShift(text, front);
      forall s | cut.1 <= s < low ensures s !in ends { NoneBelow(text, front, s); }
      RemainingKeeps(text, ends, cut.1, low);
      EarlierCutsDoNotMatter(text, ends, cut.0, cut.1, cut.1);
      EditBefore(text, Remaining(text, ends, low), low, cut);
      LastCut(text, sorted);
      hide Low;
      Regroup(text[..cut.0], Remaining(text, Ends(sorted), cut.1));
    }
  }

  lemma Regroup(a: string, b: string)
    ensures a + " " + b == a + (" " + b)
  {}

  lemma FrontFalls(text: string, sorted: seq<Cut>)
    requires sorted != [] && Falling(sorted) && sorted[0].1 <= |text|
    ensures var front, cut := sorted[..|sorted| - 1], sorted[|sorted| - 1];
      Falling(front) && (front != [] ==> front[0].1 <= |text|) && cut.1 <= Low(text, front)
  {}

  lemma NoneBelow(text: string, sorted: seq<Cut>, s: nat)
    requires Falling(sorted) && s < Low(text, sorted)
    ensures s !in Ends(sorted)
  {}

  lemma LastCut(text: string, sorted: seq<Cut>)
    requires sorted != [] && sorted[|sorted| - 1].0 < |text|
    ensures var front, cut := sorted[..|sorted| - 1], sorted[|sorted| - 1];
      && EditAll(text, sorted) == Edit(EditAll(text, front), cut)
      && Ends(sorted) == Ends(front)[cut.0 := cut.1]
      && Remaining(text, Ends(sorted), cut.0) == " " + Remaining(text, Ends(sorted), cut.1)
  {}

  lemma {:induction false} EndsAreTheCuts(cuts: seq<Cut>, k: nat)
    requires k < |cuts| && Falling(cuts)
    ensures cuts[k].0 in Ends(cuts) && Ends(cuts)[cuts[k].0] == cuts[k].1
    ensures |Ends(cuts)| == |cuts|
  {
    var front, last := cuts[..|cuts| - 1], cuts[|cuts| - 1];
    if k < |front| { EndsAreTheCuts(front, k); }
    if front != [] { EndsAreTheCuts(front, 0); }
    EndsStartAtCuts(front, last.0);
    assert last.0 !in Ends(front);
  }

  lemma SortedCuttingIsExact(text: string, sorted: seq<Cut>)
    requires Falling(sorted) && (sorted != [] ==> sorted[0].1 <= |text|)
    ensures EditAll(text, sorted) == Remaining(text, Ends(sorted), 0)
  {
    hide EditAll, Remaining;
    EditsNeverShift(text, sorted);
    var low := Low(text, sorted);
    forall s | 0 <= s < low ensures s !in Ends(sorted) {
      EndsStartAtCuts(sorted, s);
    }
    RemainingKeeps(text, Ends(sorted), 0, low);
  }

  lemma SameCuts(cuts: seq<Cut>, sorted: seq<Cut>, cut: Cut)
    requires multiset(sorted) == multiset(cuts)
    ensures |sorted| == |cuts| && (cut in cuts <==> cut in sorted)
  {
    assert |multiset(sorted)| == |multiset(cuts)|;
    assert cut in multiset(sorted) <==> cut in multiset(cuts);
  }

  // For cuts that do not overlap, editing the prompt in place from right to left leaves exactly its own
  // text outside the cuts, in order, with one space for each cut.
  lemma CuttingIsExact(text: string, cuts: seq<Cut>, cut: Cut)
    requires Disjoint(cuts) && forall c | c in cuts :: c.1 <= |text|
    ensures EditAll(text, Descending(cuts)) == Remaining(text, Ends(Descending(cuts)), 0)
    ensures |Ends(Descending(cuts))| == |cuts|
    ensures cut in cuts ==> cut.0 in Ends(Descending(cuts)) && Ends(Descending(cuts))[cut.0] == cut.1
  {
    hide Descending, EditAll, Remaining, Disjoint, IsDescending, Ends;
    var sorted := Descending(cuts);
    DescendingSorts(cuts);
    NeighboursDecide(cuts);
    ApartIsFalling(sorted);
    SameCuts(cuts, sorted, cut);
    if sorted != [] {
      SameCuts(cuts, sorted, sorted[0]);
      EndsAreTheCuts(sorted, 0);
    } else {
      NoEnds();
    }
    SortedCuttingIsExact(text, sorted);
    if cut in cuts {
      var k :| 0 <= k < |sorted| && sorted[k] == cut;
      EndsAreTheCuts(sorted, k);
    }
  }

  lemma NoEnds()
    ensures Ends([]) == map[]
  {}

  // ---- The preview ----

  predicate Duplicated(refs: seq<Reference>) {
    exists i, k | 0 <= i < k < |refs| :: refs[i].original == refs[k].original
  }

  function Paths(refs: seq<Reference>): seq<string> {
    if refs == [] then []
    else Paths(refs[..|refs| - 1]) + (if refs[|refs| - 1].path.Some? then [refs[|refs| - 1].path.value] else [])
  }

  // Why the request is refused, in the order the checks are made.
  ghost function Verdict(prompt: string, refs: seq<Reference>, bytes: string -> nat): Preview {
    var cuts := Cuts(refs, |prompt|);
    var feedback := Shell.Trim(Remaining(prompt, Ends(Descending(cuts)), 0));
    if |refs| < 1 || MAX_REFERENCES < |refs| then Unavailable(TooFewOrMany)
    else if exists r | r in refs :: r.path.None? then Unavailable(NotLocal)
    else if Duplicated(refs) then Unavailable(Repeated)
    else if exists r | r in refs :: !Usable(r.range, |prompt|) then Unavailable(InvalidRange)
    else if !Disjoint(cuts) then Unavailable(Overlapping)
    else if feedback == "" || MAX_FEEDBACK_BYTES < bytes(feedback) then Unavailable(NoFeedback)
    else LocalFile(Paths(refs), feedback)
  }

  lemma {:induction false} CutsFit(refs: seq<Reference>, length: nat)
    ensures forall c | c in Cuts(refs, length) :: c.1 <= length
  {
    if refs != [] { CutsFit(refs[..|refs| - 1], length); }
  }

  // ---- What the author typed ----

  // A file reference in the prompt, and what was typed after it.
  datatype Mention = Mention(reference: string, after: string)

  ghost predicate Mentions(mentions: seq<Mention>) {
    forall i | 0 <= i < |mentions| :: mentions[i].reference != ""
  }

  function Prompt(first: string, mentions: seq<Mention>): string {
    if mentions == [] then first
    else
      var last := mentions[|mentions| - 1];
      Prompt(first, mentions[..|mentions| - 1]) + (last.reference + last.after)
  }

  // Where the references stand, the last one first.
  function Marks(first: string, mentions: seq<Mention>): seq<Cut>
    requires Mentions(mentions)
  {
    if mentions == [] then []
    else
      var front, start := mentions[..|mentions| - 1], |Prompt(first, mentions[..|mentions| - 1])|;
      [(start, start + |mentions[|mentions| - 1].reference|)] + Marks(first, front)
  }

  // What was typed around the references, with one space for each.
  function Authored(first: string, mentions: seq<Mention>): string {
    if mentions == [] then first
    else Authored(first, mentions[..|mentions| - 1]) + (" " + mentions[|mentions| - 1].after)
  }

  lemma {:induction false} MarksFall(first: string, mentions: seq<Mention>)
    requires Mentions(mentions)
    ensures Falling(Marks(first, mentions)) && |Marks(first, mentions)| == |mentions|
    ensures mentions != [] ==> Marks(first, mentions)[0].1 <= |Prompt(first, mentions)|
  {
    if mentions != [] {
      var front := mentions[..|mentions| - 1];
      MarksFall(first, front);
      FallsOn((|Prompt(first, front)|, |Prompt(first, front)| + |mentions[|front|].reference|), Marks(first, front));
    }
  }

  lemma FallsOn(cut: Cut, rest: seq<Cut>)
    requires Falling(rest) && (rest != [] ==> rest[0].1 <= cut.0)
    ensures Falling([cut] + rest)
  {
    var all := [cut] + rest;
    forall i, k | 0 <= i < k < |all| ensures all[k].1 <= all[i].0 {
      if 0 < i {
        assert all[k] == rest[k - 1] && all[i] == rest[i - 1];
      } else if 1 < k {
        assert rest[k - 1].1 <= rest[0].0 < rest[0].1;
      }
    }
  }

  lemma {:induction false} EditsInFront(text: string, tail: string, sorted: seq<Cut>)
    requires Falling(sorted) && (sorted != [] ==> sorted[0].1 <= |text|)
    ensures EditAll(text + tail, sorted) == EditAll(text, sorted) + tail
  {
    if sorted != [] {
      var front, cut := sorted[..|sorted| - 1], sorted[|sorted| - 1];
      FrontFalls(text, sorted);
      EditsInFront(text, tail, front);
      EditsNeverShift(text, front);
      hide EditAll, Falling, Remaining, Ends;
      EditsUnfold(text, sorted);
      EditsUnfold(text + tail, sorted);
      EditInFront(EditAll(text, front), tail, cut);
    }
  }

  lemma EditsUnfold(text: string, sorted: seq<Cut>)
    requires sorted != []
    ensures EditAll(text, sorted) == Edit(EditAll(text, sorted[..|sorted| - 1]), sorted[|sorted| - 1])
  {}

  lemma EditInFront(text: string, tail: string, cut: Cut)
    requires cut.1 <= |text|
    ensures Edit(text + tail, cut) == Edit(text, cut) + tail
  {
    assert (text + tail)[..cut.0] == text[..cut.0] && (text + tail)[cut.1..] == text[cut.1..] + tail;
  }

  lemma {:induction false} FirstEdit(text: string, cut: Cut, rest: seq<Cut>)
    ensures EditAll(text, [cut] + rest) == EditAll(Edit(text, cut), rest)
  {
    var all := [cut] + rest;
    if rest == [] {
      assert all[..0] == [];
    } else {
      assert all[..|all| - 1] == [cut] + rest[..|rest| - 1];
      FirstEdit(text, cut, rest[..|rest| - 1]);
    }
  }

  lemma {:induction false} EditingLeavesAuthored(first: string, mentions: seq<Mention>)
    requires Mentions(mentions)
    ensures EditAll(Prompt(first, mentions), Marks(first, mentions)) == Authored(first, mentions)
  {
    hide EditAll, Falling;
    if mentions == [] {
      NoEdits(first);
    } else {
      var front, last := mentions[..|mentions| - 1], mentions[|mentions| - 1];
      var text, marks := Prompt(first, front), Marks(first, front);
      var cut: Cut := (|text|, |text| + |last.reference|);
      EditingLeavesAuthored(first, front);
      MarksFall(first, front);
      EditsInFront(text, " " + last.after, marks);
      EditLast(text, last.reference, last.after);
      FirstEdit(Prompt(first, mentions), cut, marks);
    }
  }

  lemma NoEdits(text: string)
    ensures EditAll(text, []) == text
  {}

  lemma EditLast(text: string, reference: string, after: string)
    requires reference != ""
    ensures Edit(text + (reference + after), (|text|, |text| + |reference|)) == text + (" " + after)
  {
    var all := text + (reference + after);
    assert all[..|text|] == text && all[|text| + |reference|..] == after;
  }

  lemma SameFirst(a: seq<Cut>, b: seq<Cut>)
    requires IsDescending(a) && Falling(b) && multiset(a) == multiset(b) && a != []
    ensures b != [] && a[0] == b[0]
  {
    assert |a| == |multiset(a)| && |b| == |multiset(b)|;
    assert a[0] in multiset(b) && b[0] in multiset(a);
    var i :| 0 <= i < |b| && b[i] == a[0];
    var k :| 0 <= k < |a| && a[k] == b[0];
  }

  lemma RestOf(cuts: seq<Cut>)
    requires cuts != []
    ensures multiset(cuts) == multiset{cuts[0]} + multiset(cuts[1..])
  {
    assert cuts == [cuts[0]] + cuts[1..];
  }

  lemma SameRest(a: seq<Cut>, b: seq<Cut>)
    requires a != [] && b != [] && a[0] == b[0] && multiset(a) == multiset(b)
    ensures multiset(a[1..]) == multiset(b[1..])
  {
    RestOf(a);
    RestOf(b);
    var x, y := multiset(a[1..]), multiset(b[1..]);
    assert multiset{a[0]} + x - multiset{a[0]} == x && multiset{a[0]} + y - multiset{a[0]} == y;
  }

  lemma SameLength(a: seq<Cut>, b: seq<Cut>)
    requires multiset(a) == multiset(b)
    ensures |a| == |b|
  {
    assert |a| == |multiset(a)| && |b| == |multiset(b)|;
  }

  // There is one way to sort cuts that start at different places.
  lemma {:induction false} SortedOnce(a: seq<Cut>, b: seq<Cut>)
    requires IsDescending(a) && Falling(b) && multiset(a) == multiset(b)
    ensures a == b
  {
    hide IsDescending, Falling;
    SameLength(a, b);
    if a != [] {
      SameFirst(a, b);
      RestFalls(b);
      RestDescends(a);
      SameRest(a, b);
      SortedOnce(a[1..], b[1..]);
      assert a == [a[0]] + a[1..] && b == [b[0]] + b[1..];
    }
  }

  lemma RestFalls(sorted: seq<Cut>)
    requires Falling(sorted) && sorted != []
    ensures Falling(sorted[1..])
  {}

  // ---- What the preview says of it ----

  lemma {:induction false} PathsInOrder(refs: seq<Reference>, i: nat)
    requires i < |refs| && forall r | r in refs :: r.path.Some?
    ensures |Paths(refs)| == |refs| && Paths(refs)[i] == refs[i].path.value
  {
    var front := refs[..|refs| - 1];
    assert forall r | r in front :: r in refs;
    assert refs[|refs| - 1] in refs;
    if front != [] { PathsInOrder(front, if i < |front| then i else 0); }
  }

  // The references are those of the prompt: local, all different, at most five, and their ranges, in whatever
  // order they are given, where they stand.
  ghost predicate Attached(first: string, mentions: seq<Mention>, refs: seq<Reference>)
    requires Mentions(mentions)
  {
    && 1 <= |refs| <= 5 && (forall r | r in refs :: r.path.Some?)
    && (forall i, k | 0 <= i < k < |refs| :: refs[i].original != refs[k].original)
    && (forall r | r in refs :: r.range.Absent? || Fits(r.range, |Prompt(first, mentions)|))
    && multiset(Cuts(refs, |Prompt(first, mentions)|)) == multiset(Marks(first, mentions))
  }

  // Then the feedback is what was typed around them, one space for each, without white space at its ends, as long
  // as something is left of it and it takes at most 8,192 bytes; and the paths are those of the references, in
  // their order.
  lemma AuthoredFeedbackIsKept(first: string, mentions: seq<Mention>, refs: seq<Reference>, bytes: string -> nat)
    requires Mentions(mentions) && Attached(first, mentions, refs)
    ensures var verdict := Verdict(Prompt(first, mentions), refs, bytes);
            var feedback := Shell.Trim(Authored(first, mentions));
      if feedback == "" || 8192 < bytes(feedback) then verdict == Unavailable(NoFeedback)
      else
        && verdict.LocalFile? && verdict.feedback == feedback && |verdict.paths| == |refs|
        && forall i | 0 <= i < |refs| :: verdict.paths[i] == refs[i].path.value
  {
    hide Shell.Trim, Remaining, Ends, Descending, Disjoint, Cuts, Paths, Marks, Authored, Prompt;
    CutsLeaveAuthored(first, mentions, refs);
    PathsInOrder(refs, 0);
    forall i | 0 <= i < |refs| ensures Paths(refs)[i] == refs[i].path.value { PathsInOrder(refs, i); }
  }

  lemma CutsLeaveAuthored(first: string, mentions: seq<Mention>, refs: seq<Reference>)
    requires Mentions(mentions) && Attached(first, mentions, refs)
    ensures var prompt := Prompt(first, mentions); var cuts := Cuts(refs, |prompt|);
      Disjoint(cuts) && Remaining(prompt, Ends(Descending(cuts)), 0) == Authored(first, mentions)
  {
    hide EditAll, Remaining, Ends, Descending, Disjoint, Falling, IsDescending, Cuts, Marks, Authored, Prompt;
    var prompt := Prompt(first, mentions);
    var cuts, marks := Cuts(refs, |prompt|), Marks(first, mentions);
    MarksFall(first, mentions);
    DescendingSorts(cuts);
    SortedOnce(Descending(cuts), marks);
    ApartIsFalling(marks);
    NeighboursDecide(cuts);
    CutsFit(refs, |prompt|);
    CuttingIsExact(prompt, cuts, (0, 1));
    EditingLeavesAuthored(first, mentions);
  }

  // A range that cannot be used: of the wrong shape, empty, or beyond the prompt.
  predicate Invalid(range: Range, length: nat) {
    !range.Absent? && (range.Misshapen? || range.start < 0 || range.end <= range.start || length < range.end)
  }

  // Two references claim the same character.
  ghost predicate Cross(a: Range, b: Range) {
    exists p :: Holds(a, p) && Holds(b, p)
  }

  predicate Holds(range: Range, p: int) {
    range.Range? && range.start <= p < range.end
  }

  ghost predicate Crossing(refs: seq<Reference>) {
    exists i, k :: 0 <= i < k < |refs| && Cross(refs[i].range, refs[k].range)
  }

  lemma BesideIsApart(a: Range, b: Range, length: nat)
    requires Fits(a, length) && Fits(b, length)
    ensures Beside((a.start, a.end), (b.start, b.end)) <==> !Cross(a, b)
  {
    if !Beside((a.start, a.end), (b.start, b.end)) {
      var p := if a.start < b.start then b.start else a.start;
      assert Holds(a, p) && Holds(b, p);
    }
  }

  lemma {:induction false} ClearLast(x: Cut, cuts: seq<Cut>, cut: Cut)
    ensures Clear(x, cuts + [cut]) <==> Clear(x, cuts) && Beside(x, cut)
  {
    if cuts == [] {
      assert [] + [cut] == [cut];
    } else {
      assert (cuts + [cut])[1..] == cuts[1..] + [cut];
      ClearLast(x, cuts[1..], cut);
    }
  }

  lemma {:induction false} DisjointLast(cuts: seq<Cut>, cut: Cut)
    ensures Disjoint(cuts + [cut]) <==> Disjoint(cuts) && Clear(cut, cuts)
  {
    if cuts == [] {
      assert [] + [cut] == [cut];
    } else {
      assert (cuts + [cut])[1..] == cuts[1..] + [cut];
      DisjointLast(cuts[1..], cut);
      ClearLast(cuts[0], cuts[1..], cut);
    }
  }

  lemma {:induction false} ClearOfAll(range: Range, refs: seq<Reference>, length: nat)
    requires Fits(range, length) && forall r | r in refs :: Usable(r.range, length)
    ensures Clear((range.start, range.end), Cuts(refs, length)) <==>
            forall i | 0 <= i < |refs| :: !Cross(refs[i].range, range)
  {
    hide Cross;
    if refs != [] {
      var front, last := refs[..|refs| - 1], refs[|refs| - 1].range;
      assert forall r | r in front :: r in refs;
      ClearOfAll(range, front, length);
      assert forall i | 0 <= i < |front| :: refs[i] == front[i];
      if Fits(last, length) {
        BesideIsApart(last, range, length);
        BesideIsApart(range, last, length);
        CrossIsMutual(range, last);
        ClearLast((range.start, range.end), Cuts(front, length), (last.start, last.end));
      } else {
        AbsentCrossesNothing(last, range);
      }
    }
  }

  lemma CrossIsMutual(a: Range, b: Range)
    ensures Cross(a, b) <==> Cross(b, a)
  {}

  lemma AbsentCrossesNothing(a: Range, b: Range)
    requires !a.Range?
    ensures !Cross(a, b) && !Cross(b, a)
  {}

  lemma {:induction false} OverlapIsCrossing(refs: seq<Reference>, length: nat)
    requires forall r | r in refs :: Usable(r.range, length)
    ensures Disjoint(Cuts(refs, length)) <==> !Crossing(refs)
  {
    hide Cross, Disjoint, Clear;
    if refs == [] {
      NothingOverlaps();
    } else {
      var front, last := refs[..|refs| - 1], refs[|refs| - 1].range;
      assert forall r | r in front :: r in refs;
      assert refs[|refs| - 1] in refs;
      OverlapIsCrossing(front, length);
      CrossingLast(refs);
      if Fits(last, length) {
        ClearOfAll(last, front, length);
        DisjointLast(Cuts(front, length), (last.start, last.end));
      } else {
        forall i | 0 <= i < |front| ensures !Cross(front[i].range, last) { AbsentCrossesNothing(last, front[i].range); }
      }
    }
  }

  lemma NothingOverlaps()
    ensures Disjoint([])
  {}

  lemma CrossingLast(refs: seq<Reference>)
    requires refs != []
    ensures var front := refs[..|refs| - 1];
      Crossing(refs) <==>
        Crossing(front) || exists i :: 0 <= i < |front| && Cross(front[i].range, refs[|refs| - 1].range)
  {
    hide Cross;
    var front := refs[..|refs| - 1];
    if i, k :| 0 <= i < k < |refs| && Cross(refs[i].range, refs[k].range) {
      assert refs[i] == front[i];
      if k < |front| { assert refs[k] == front[k]; }
    }
    if i, k :| 0 <= i < k < |front| && Cross(front[i].range, front[k].range) {
      assert refs[i] == front[i] && refs[k] == front[k];
    }
    if i :| 0 <= i < |front| && Cross(front[i].range, refs[|refs| - 1].range) { assert refs[i] == front[i]; }
  }

  // Why a request is refused before its feedback is looked at: the first of these that holds.
  lemma RefusalsAre(prompt: string, refs: seq<Reference>, bytes: string -> nat)
    ensures var verdict := Verdict(prompt, refs, bytes);
      if |refs| == 0 || 5 < |refs| then verdict == Unavailable(TooFewOrMany)
      else if exists i :: 0 <= i < |refs| && refs[i].path.None? then verdict == Unavailable(NotLocal)
      else if exists i, k :: 0 <= i < k < |refs| && refs[i].original == refs[k].original then
        verdict == Unavailable(Repeated)
      else if exists i :: 0 <= i < |refs| && Invalid(refs[i].range, |prompt|) then verdict == Unavailable(InvalidRange)
      else if Crossing(refs) then verdict == Unavailable(Overlapping)
      else verdict.LocalFile? || verdict == Unavailable(NoFeedback)
  {
    hide Shell.Trim, Remaining, Ends, Descending, Disjoint, Crossing, Paths, Cuts;
    assert (exists i :: 0 <= i < |refs| && Invalid(refs[i].range, |prompt|)) <==>
           exists r :: r in refs && !Usable(r.range, |prompt|) by { InvalidIsUnusable(refs, |prompt|); }
    if forall r | r in refs :: Usable(r.range, |prompt|) { OverlapIsCrossing(refs, |prompt|); }
  }

  lemma InvalidIsUnusable(refs: seq<Reference>, length: nat)
    ensures (exists i :: 0 <= i < |refs| && Invalid(refs[i].range, length)) <==>
            exists r :: r in refs && !Usable(r.range, length)
  {
    if i :| 0 <= i < |refs| && Invalid(refs[i].range, length) { assert refs[i] in refs; }
    if r :| r in refs && !Usable(r.range, length) {
      var i :| 0 <= i < |refs| && refs[i] == r;
      assert Invalid(refs[i].range, length);
    }
  }

  method CollectCuts(refs: seq<Reference>, length: nat) returns (cuts: Option<seq<Cut>>)
    ensures cuts.None? <==> exists r | r in refs :: !Usable(r.range, length)
    ensures cuts.Some? ==> cuts.value == Cuts(refs, length)
  {
    var found: seq<Cut> := [];
    for i := 0 to |refs|
      invariant found == Cuts(refs[..i], length)
      invariant forall k | 0 <= k < i :: Usable(refs[k].range, length)
    {
      assert refs[..i + 1][..i] == refs[..i];
      var range := refs[i].range;
      if !range.Absent? {
        if !Fits(range, length) {
          return None;
        }
        found := found + [(range.start, range.end)];
      }
    }
    assert refs[..|refs|] == refs;
    return Some(found);
  }

  method CutAll(prompt: string, sorted: seq<Cut>) returns (feedback: string)
    ensures feedback == EditAll(prompt, sorted)
  {
    feedback := prompt;
    for i := 0 to |sorted|
      invariant feedback == EditAll(prompt, sorted[..i])
    {
      assert sorted[..i + 1][..i] == sorted[..i];
      feedback := Edit(feedback, sorted[i]);
    }
    assert sorted[..|sorted|] == sorted;
  }

  method NeighboursApart(sorted: seq<Cut>) returns (apart: bool)
    ensures apart <==> Apart(sorted)
  {
    ApartIsFalling(sorted);
    var index := 1;
    while index < |sorted|
      invariant 1 <= index && (index <= |sorted| || |sorted| < 1)
      invariant Apart(sorted) <==> Apart(sorted[if index <= |sorted| then index - 1 else 0..])
    {
      var rest := sorted[index - 1..];
      assert rest[1..] == sorted[index..];
      if sorted[index].1 > sorted[index - 1].0 {
        return false;
      }
      index := index + 1;
    }
    return true;
  }

  method ChatFilePreviewInput(prompt: string, refs: seq<Reference>, bytes: string -> nat) returns (preview: Preview)
    ensures preview == Verdict(prompt, refs, bytes)
  {
    hide Shell.Trim, Descending, Remaining, Ends, Disjoint, Cuts, EditAll, Paths;
    if |refs| < 1 || MAX_REFERENCES < |refs| {
      return Unavailable(TooFewOrMany);
    }
    if exists r | r in refs :: r.path.None? {
      return Unavailable(NotLocal);
    }
    if Duplicated(refs) {
      return Unavailable(Repeated);
    }
    var cuts := CollectCuts(refs, |prompt|);
    if cuts.None? {
      return Unavailable(InvalidRange);
    }
    NeighboursDecide(cuts.value);
    var sorted := Descending(cuts.value);
    var apart := NeighboursApart(sorted);
    if !apart {
      return Unavailable(Overlapping);
    }
    CutsFit(refs, |prompt|);
    CuttingIsExact(prompt, cuts.value, (0, 1));
    var feedback := CutAll(prompt, sorted);
    feedback := Shell.Trim(feedback);
    if feedback == "" || MAX_FEEDBACK_BYTES < bytes(feedback) {
      return Unavailable(NoFeedback);
    }
    return LocalFile(Paths(refs), feedback);
  }
}
