// The progress-line splitter of apps/vscode/src/cli/progress.ts: known progress lines are taken out
// of a stream that arrives in arbitrary chunks, and everything else passes through unchanged.
module Progress {
  import opened Wrappers

  const PREFIX: string := "@@sflow-progress/v1 "

  predicate Letter(c: char) {
    'a' <= c <= 'z'
  }

  // What the source's pattern captures, once a final carriage return is gone.
  predicate Stage(step: string) {
    || (&& |step| > 6 && step[..6] == "start." && Letter(step[6])
        && forall i | 7 <= i < |step| :: Letter(step[i]) || step[i] == '-')
    || step == "publication.preflight" || step == "publication.discovery" || step == "publication.validation"
    || step == "publication.commit" || step == "publication.push"
  }

  function WithoutReturn(line: string): string {
    if line != "" && line[|line| - 1] == '\r' then line[..|line| - 1] else line
  }

  // PROGRESS_LINE.exec(line)?.[1], for a line without its newline.
  function StepOf(line: string): Option<string> {
    var body := WithoutReturn(line);
    if PREFIX <= body && Stage(body[|PREFIX|..]) then Some(body[|PREFIX|..]) else None
  }

  // What reaches the caller: the text that is kept and the steps that are reported.
  datatype Output = Output(kept: string, steps: seq<string>)

  const NOTHING := Output("", [])

  function Then(a: Output, b: Output): Output {
    Output(a.kept + b.kept, a.steps + b.steps)
  }

  function WithoutNewline(line: string): string {
    if line != "" && line[|line| - 1] == '\n' then line[..|line| - 1] else line
  }

  // One line, with its newline if it has one.
  function Line(line: string): Output {
    match StepOf(WithoutNewline(line))
    case Some(step) => Output("", [step])
    case None => Output(line, [])
  }

  // What is left when the stream ends.
  function LastLine(rest: string): Output {
    match StepOf(rest)
    case Some(step) => Output("", [step])
    case None => Output(rest, [])
  }

  // Where the first line ends: after its newline, or at the end of the text.
  function LineEnd(s: string): (n: nat)
    ensures n <= |s| && (s != "" ==> 0 < n)
  {
    if s == "" then 0 else if s[0] == '\n' then 1 else 1 + LineEnd(s[1..])
  }

  // The whole text, filtered line by line.
  function Filter(s: string): Output
    decreases |s|
  {
    if s == "" then NOTHING else Then(Line(s[..LineEnd(s)]), Filter(s[LineEnd(s)..]))
  }

  function LastNewline(s: string): (n: int)
    ensures -1 <= n < |s| && (n >= 0 ==> s[n] == '\n')
    ensures forall i | n < i < |s| :: s[i] != '\n'
  {
    if s == "" then -1 else if s[|s| - 1] == '\n' then |s| - 1 else LastNewline(s[..|s| - 1])
  }

  // ---- Filtering in parts ----

  lemma {:induction false} LineEndFinds(s: string)
    ensures LineEnd(s) == |s| || s[LineEnd(s) - 1] == '\n'
    ensures forall i | 0 <= i < LineEnd(s) - 1 :: s[i] != '\n'
  {
    if s != "" && s[0] != '\n' {
      LineEndFinds(s[1..]);
      forall i | 0 <= i < LineEnd(s) - 1 ensures s[i] != '\n' {
        if i > 0 { assert s[1..][i - 1] == s[i]; }
      }
    }
  }

  lemma {:induction false} LineEndOfPrefix(a: string, b: string)
    requires a != "" && a[|a| - 1] == '\n'
    ensures LineEnd(a + b) == LineEnd(a)
  {
    if a[0] != '\n' {
      assert (a + b)[1..] == a[1..] + b;
      LineEndOfPrefix(a[1..], b);
    }
  }

  // Text that ends with a newline can be filtered on its own.
  lemma {:induction false} FilterInParts(a: string, b: string)
    requires a == "" || a[|a| - 1] == '\n'
    ensures Filter(a + b) == Then(Filter(a), Filter(b))
    decreases |a|
  {
    if a == "" {
      assert a + b == b;
      assert Then(NOTHING, Filter(b)) == Filter(b);
    } else {
      var n := LineEnd(a);
      LineEndOfPrefix(a, b);
      assert (a + b)[..n] == a[..n] && (a + b)[n..] == a[n..] + b;
      FilterInParts(a[n..], b);
      ThenAssociates(Line(a[..n]), Filter(a[n..]), Filter(b));
    }
  }

  lemma ThenAssociates(a: Output, b: Output, c: Output)
    ensures Then(Then(a, b), c) == Then(a, Then(b, c))
  {}

  lemma OneLineFilter(line: string)
    requires line != "" && LineEnd(line) == |line|
    ensures Filter(line) == Line(line)
  {
    hide Line, LineEnd;
    assert line[..|line|] == line && line[|line|..] == "";
    assert Filter("") == NOTHING;
    assert Then(Line(line), NOTHING) == Line(line);
  }

  lemma LastLineIsALine(s: string)
    requires '\n' !in s
    ensures Line(s) == LastLine(s)
  {
    hide StepOf;
    assert WithoutNewline(s) == s;
  }

  lemma {:induction false} EndsAtTheEnd(s: string)
    requires '\n' !in s
    ensures LineEnd(s) == |s|
  {
    if s != "" { EndsAtTheEnd(s[1..]); }
  }

  // Text without a newline is one line.
  lemma OneLine(s: string)
    requires '\n' !in s
    ensures s != "" ==> Filter(s) == LastLine(s)
  {
    hide Filter, Line, LastLine;
    EndsAtTheEnd(s);
    LastLineIsALine(s);
    if s != "" { OneLineFilter(s); }
  }

  // ---- The splitter ----

  // `output` is everything handed on so far: history.
  datatype Splitter = Splitter(pending: string, output: Output)

  const NEW_SPLITTER := Splitter("", NOTHING)

  function Pushed(p: Splitter, text: string): Splitter {
    var combined := p.pending + text;
    var n := LastNewline(combined);
    if n < 0 then Splitter(combined, p.output)
    else Splitter(combined[n + 1..], Then(p.output, Filter(combined[..n + 1])))
  }

  function Ended(p: Splitter): Splitter {
    Splitter("", if p.pending == "" then p.output else Then(p.output, LastLine(p.pending)))
  }

  function PushAll(chunks: seq<string>): Splitter {
    if chunks == [] then NEW_SPLITTER else Pushed(PushAll(chunks[..|chunks| - 1]), chunks[|chunks| - 1])
  }

  function Joined(chunks: seq<string>): string {
    if chunks == [] then "" else Joined(chunks[..|chunks| - 1]) + chunks[|chunks| - 1]
  }

  // The text seen so far is `done`, which is filtered, and then `p.pending`, an unfinished line.
  ghost predicate Covers(p: Splitter, done: string) {
    && '\n' !in p.pending
    && (done == "" || done[|done| - 1] == '\n')
    && p.output == Filter(done)
  }

  lemma PushCovers(p: Splitter, done: string, text: string) returns (more: string)
    requires Covers(p, done)
    ensures Covers(Pushed(p, text), more)
    ensures done + (p.pending + text) == more + Pushed(p, text).pending
  {
    hide Filter;
    var combined := p.pending + text;
    var n := LastNewline(combined);
    if n < 0 {
      more := done;
    } else {
      more := done + combined[..n + 1];
      FilterInParts(done, combined[..n + 1]);
    }
  }

  lemma {:induction false} AllCovered(chunks: seq<string>) returns (done: string)
    ensures Covers(PushAll(chunks), done) && Joined(chunks) == done + PushAll(chunks).pending
  {
    hide Covers, Pushed;
    if chunks == [] {
      done := "";
      NothingCovered();
    } else {
      var front := chunks[..|chunks| - 1];
      done := AllCovered(front);
      ghost var before := done;
      done := PushCovers(PushAll(front), done, chunks[|chunks| - 1]);
      assert Joined(chunks) == before + (PushAll(front).pending + chunks[|chunks| - 1]);
    }
  }

  lemma NothingCovered()
    ensures Covers(NEW_SPLITTER, "")
  {}

  // However a stream is cut into chunks, what is handed on, and the steps in their order, are those of
  // filtering the whole stream line by line.
  lemma StreamingIsBatch(chunks: seq<string>)
    ensures Ended(PushAll(chunks)).output == Filter(Joined(chunks))
  {
    var p := PushAll(chunks);
    var done := AllCovered(chunks);
    if p.pending == "" {
      assert Joined(chunks) == done;
    } else {
      FilterInParts(done, p.pending);
      OneLine(p.pending);
    }
  }

  lemma CuttingDoesNotMatter(a: seq<string>, b: seq<string>)
    requires Joined(a) == Joined(b)
    ensures Ended(PushAll(a)) == Ended(PushAll(b))
  {
    StreamingIsBatch(a);
    StreamingIsBatch(b);
  }

  // ---- What filtering does ----

  function Lines(s: string): seq<string>
    decreases |s|
  {
    if s == "" then [] else [s[..LineEnd(s)]] + Lines(s[LineEnd(s)..])
  }

  function Concat(lines: seq<string>): string {
    if lines == [] then "" else lines[0] + Concat(lines[1..])
  }

  predicate IsProgress(line: string) {
    Line(line).steps != []
  }

  function Others(lines: seq<string>): seq<string> {
    if lines == [] then []
    else if IsProgress(lines[0]) then Others(lines[1..])
    else [lines[0]] + Others(lines[1..])
  }

  lemma LineIsOneOrTheOther(line: string)
    ensures Line(line).kept == (if IsProgress(line) then "" else line)
    ensures |Line(line).steps| == if IsProgress(line) then 1 else 0
  {}

  lemma ConcatMore(line: string, lines: seq<string>)
    ensures Concat([line] + lines) == line + Concat(lines)
  {}

  lemma OthersMore(line: string, lines: seq<string>)
    ensures Others([line] + lines) == if IsProgress(line) then Others(lines) else [line] + Others(lines)
  {}

  // The text is its lines, and what is kept is the lines that are not progress, unchanged and in order;
  // there is one step for each of the others.
  lemma {:induction false} OtherLinesSurvive(s: string)
    ensures Concat(Lines(s)) == s
    ensures Filter(s).kept == Concat(Others(Lines(s)))
    ensures |Filter(s).steps| == |Lines(s)| - |Others(Lines(s))|
    decreases |s|
  {
    if s != "" {
      hide Line, IsProgress, Others, Concat, Filter, Lines;
      var first, rest := s[..LineEnd(s)], s[LineEnd(s)..];
      OtherLinesSurvive(rest);
      LinesUnfold(s);
      LineIsOneOrTheOther(first);
      ConcatMore(first, Lines(rest));
      OthersMore(first, Lines(rest));
      ConcatMore(first, Others(Lines(rest)));
    }
  }

  lemma LinesUnfold(s: string)
    requires s != ""
    ensures var first, rest := s[..LineEnd(s)], s[LineEnd(s)..];
      && s == first + rest && Lines(s) == [first] + Lines(rest) && Filter(s) == Then(Line(first), Filter(rest))
  {
    hide Line, Then, LineEnd;
    assert s == s[..LineEnd(s)] + s[LineEnd(s)..];
  }

  lemma {:induction false} FirstLineStands(s: string)
    requires s != ""
    ensures LineEnd(s[..LineEnd(s)]) == LineEnd(s)
  {
    if s[0] != '\n' && s[1..] != "" {
      FirstLineStands(s[1..]);
      assert s[..LineEnd(s)][1..] == s[1..][..LineEnd(s[1..])];
    }
  }

  // Nothing that is kept would be taken for progress again.
  lemma {:induction false} FilteringTwiceIsFilteringOnce(s: string)
    ensures Filter(Filter(s).kept) == Output(Filter(s).kept, [])
    decreases |s|
  {
    hide Line, LineEnd, IsProgress, Filter;
    NothingIsKept();
    if s != "" {
      var first, rest := s[..LineEnd(s)], s[LineEnd(s)..];
      var kept := Filter(rest).kept;
      FilteringTwiceIsFilteringOnce(rest);
      LinesUnfold(s);
      LineIsOneOrTheOther(first);
      FirstLineStands(s);
      OneLineFilter(first);
      if IsProgress(first) {
        assert Filter(s).kept == kept;
      } else if rest == "" {
        assert Filter(s).kept == first;
      } else {
        LineEndFinds(s);
        FilterInParts(first, kept);
        assert Filter(s).kept == first + kept;
      }
    }
  }

  lemma NothingIsKept()
    ensures Filter("") == NOTHING
  {}

  // ---- What the engine writes ----

  predicate LowerWord(name: string) {
    name != "" && 'a' <= name[0] <= 'z' && forall c | c in name :: 'a' <= c <= 'z' || c == '-'
  }

  // The vocabulary: a stage of a start, or one of the five of a publication.
  ghost predicate Named(step: string) {
    || (exists name :: LowerWord(name) && step == "start." + name)
    || step in {"publication.preflight", "publication.discovery", "publication.validation", "publication.commit",
                "publication.push"}
  }

  // A progress line without its newline; a carriage return may stand at its end.
  predicate Tells(line: string, step: string) {
    line == "@@sflow-progress/v1 " + step || line == "@@sflow-progress/v1 " + step + "\r"
  }

  lemma StartIsNamed(step: string)
    requires |step| > 6 && step[..6] == "start." && Letter(step[6])
    requires forall i | 7 <= i < |step| :: Letter(step[i]) || step[i] == '-'
    ensures LowerWord(step[6..]) && step == "start." + step[6..]
  {
    var name := step[6..];
    forall c | c in name ensures 'a' <= c <= 'z' || c == '-' {
      var i :| 0 <= i < |name| && name[i] == c;
      assert step[i + 6] == c;
    }
  }

  lemma NamedIsStart(step: string, name: string)
    requires LowerWord(name) && step == "start." + name
    ensures |step| > 6 && step[..6] == "start." && Letter(step[6])
    ensures forall i | 7 <= i < |step| :: Letter(step[i]) || step[i] == '-'
  {
    forall i | 7 <= i < |step| ensures Letter(step[i]) || step[i] == '-' {
      assert step[i] == name[i - 6] && name[i - 6] in name;
    }
  }

  lemma StageIsNamed(step: string)
    ensures Stage(step) <==> Named(step)
  {
    hide LowerWord, Letter;
    if name :| LowerWord(name) && step == "start." + name { NamedIsStart(step, name); }
    if && |step| > 6 && step[..6] == "start." && Letter(step[6])
       && forall i | 7 <= i < |step| :: Letter(step[i]) || step[i] == '-' {
      StartIsNamed(step);
    }
  }

  lemma NamedHasNoReturn(step: string)
    requires Stage(step)
    ensures step != "" && step[|step| - 1] != '\r' && '\n' !in step
  {
    if |step| > 6 && step[..6] == "start." {
      forall i | 0 <= i < |step| ensures step[i] != '\n' { if i < 6 { assert step[i] == "start."[i]; } }
    }
  }

  // A line is a progress line of a step if and only if it tells one of the vocabulary.
  lemma StepsAreTold(line: string, step: string)
    ensures StepOf(line) == Some(step) <==> Tells(line, step) && Named(step)
  {
    hide Stage, Named;
    StageIsNamed(step);
    var body := WithoutReturn(line);
    if StepOf(line) == Some(step) {
      assert body == PREFIX + step;
      if body != line { assert line == body + "\r"; }
    }
    if Tells(line, step) && Stage(step) {
      NamedHasNoReturn(step);
      var whole := PREFIX + step;
      assert whole[|PREFIX|..] == step && whole[|whole| - 1] == step[|step| - 1] && whole[..|PREFIX|] == PREFIX;
      assert body == whole by { if line != whole { assert line[..|line| - 1] == whole; } }
    }
  }

  // What the engine writes to stderr: progress lines, and others.
  datatype Item = Progressed(step: string, crlf: bool) | Said(text: string)

  ghost predicate Writable(item: Item) {
    match item
    case Progressed(step, _) => Named(step)
    case Said(text) => '\n' !in text && forall step :: Named(step) ==> !Tells(text, step)
  }

  function LineOf(item: Item): string {
    match item
    case Progressed(step, false) => "@@sflow-progress/v1 " + step
    case Progressed(step, true) => "@@sflow-progress/v1 " + step + "\r"
    case Said(text) => text
  }

  function Written(items: seq<Item>): string {
    if items == [] then "" else (LineOf(items[0]) + "\n") + Written(items[1..])
  }

  function Told(items: seq<Item>): Output {
    if items == [] then NOTHING
    else Then(match items[0]
              case Progressed(step, _) => Output("", [step])
              case Said(text) => Output(text + "\n", []),
              Told(items[1..]))
  }

  lemma LineOfTells(item: Item)
    requires Writable(item)
    ensures '\n' !in LineOf(item)
    ensures item.Progressed? ==> StepOf(LineOf(item)) == Some(item.step)
    ensures item.Said? ==> StepOf(LineOf(item)) == None
  {
    hide Named, StepOf;
    match item
    case Progressed(step, _) =>
      StepsAreTold(LineOf(item), step);
      StageIsNamed(step);
      NamedHasNoReturn(step);
    case Said(text) =>
      if StepOf(text).Some? { StepsAreTold(text, StepOf(text).value); }
  }

  lemma ItemLine(item: Item)
    requires Writable(item)
    ensures Filter(LineOf(item) + "\n") ==
            match item
            case Progressed(step, _) => Output("", [step])
            case Said(text) => Output(text + "\n", [])
  {
    hide Named, StepOf, Writable, Filter, LineOf;
    LineOfTells(item);
    var line := LineOf(item) + "\n";
    assert WithoutNewline(line) == LineOf(item);
    EndsAtItsNewline(LineOf(item));
    OneLineFilter(line);
    SaidLine(item);
  }

  lemma SaidLine(item: Item)
    ensures item.Said? ==> LineOf(item) == item.text
  {}

  lemma {:induction false} EndsAtItsNewline(text: string)
    requires '\n' !in text
    ensures LineEnd(text + "\n") == |text| + 1
  {
    if text != "" {
      assert (text + "\n")[1..] == text[1..] + "\n";
      EndsAtItsNewline(text[1..]);
    }
  }

  // Whatever the engine writes, the steps are reported in the order in which they were written, and every other
  // line is handed on as it is; so it is too however the stream is cut.
  lemma {:induction false} WhatIsWrittenIsTold(items: seq<Item>)
    requires forall i | 0 <= i < |items| :: Writable(items[i])
    ensures Filter(Written(items)) == Told(items)
  {
    hide Named, Writable, Filter, LineOf;
    if items == [] {
      NothingIsKept();
    } else {
      var line, rest := LineOf(items[0]) + "\n", Written(items[1..]);
      ItemLine(items[0]);
      WhatIsWrittenIsTold(items[1..]);
      FilterInParts(line, rest);
    }
  }

  lemma WhatIsWrittenIsStreamed(items: seq<Item>, chunks: seq<string>)
    requires (forall i | 0 <= i < |items| :: Writable(items[i])) && Joined(chunks) == Written(items)
    ensures Ended(PushAll(chunks)).output == Told(items)
  {
    hide Writable;
    WhatIsWrittenIsTold(items);
    StreamingIsBatch(chunks);
  }

  // ---- The splitter itself ----

  class ProgressLineSplitter {
    var pending: string
    var kept: string
    var steps: seq<string>

    ghost function View(): Splitter
      reads this
    {
      Splitter(pending, Output(kept, steps))
    }

    constructor ()
      ensures View() == NEW_SPLITTER
    {
      pending, kept, steps := "", "", [];
    }

    // The loop over lines: steps go to the listener, everything else is returned.
    method FilterLines(text: string) returns (passed: string)
      modifies this`steps
      ensures Output(passed, steps) == Then(Output("", old(steps)), Filter(text))
    {
      hide StepOf, LineEnd;
      passed := "";
      var rest := text;
      while rest != ""
        invariant Then(Output(passed, steps), Filter(rest)) == Then(Output("", old(steps)), Filter(text))
        decreases |rest|
      {
        ghost var before := Output(passed, steps);
        var line := rest[..LineEnd(rest)];
        ThenAssociates(before, Line(line), Filter(rest[LineEnd(rest)..]));
        match StepOf(WithoutNewline(line)) {
          case Some(step) => steps := steps + [step];
          case None => passed := passed + line;
        }
        assert Output(passed, steps) == Then(before, Line(line));
        rest := rest[LineEnd(rest)..];
      }
    }

    method Push(text: string) returns (passed: string)
      modifies this
      ensures View() == Pushed(old(View()), text) && kept == old(kept) + passed
    {
      hide LastNewline, Filter;
      var combined := pending + text;
      var lastNewline := LastNewline(combined);
      if lastNewline < 0 {
        pending := combined;
        return "";
      }
      pending := combined[lastNewline + 1..];
      passed := FilterLines(combined[..lastNewline + 1]);
      kept := kept + passed;
    }

    method End() returns (passed: string)
      modifies this
      ensures View() == Ended(old(View())) && kept == old(kept) + passed
    {
      hide StepOf;
      var rest := pending;
      pending := "";
      if rest == "" {
        return "";
      }
      match StepOf(rest) {
        case Some(step) =>
          steps := steps + [step];
          return "";
        case None =>
          kept := kept + rest;
          return rest;
      }
    }
  }
}
