// The shell printer of apps/vscode/src/sgos-workflow-create-model.ts and the tokenizer of
// apps/vscode/src/commands.ts that reads its output back without a shell.
module Shell {
  import opened Wrappers

  datatype Result<T> = Ok(value: T) | Unterminated(quote: char)

  const BINARY: string := "singularity-flow"

  // ---- Printing ----

  predicate Plain(c: char) {
    'A' <= c <= 'Z' || 'a' <= c <= 'z' || '0' <= c <= '9' || c in "._/@:=,+-"
  }

  predicate AllPlain(value: string) {
    value != "" && forall c | c in value :: Plain(c)
  }

  // Inside single quotes only a single quote needs care: it closes, stands escaped, and reopens.
  function Escaped(value: string): string {
    if value == "" then ""
    else (if value[0] == '\'' then "'\\''" else [value[0]]) + Escaped(value[1..])
  }

  function ShellQuote(value: string): string {
    if AllPlain(value) then value else "'" + Escaped(value) + "'"
  }

  function Spaced(words: seq<string>): string {
    if words == [] then "" else " " + ShellQuote(words[0]) + Spaced(words[1..])
  }

  function SgosCommand(args: seq<string>): string {
    ShellQuote(BINARY) + Spaced(args)
  }

  // ---- Tokenizing ----

  // What the regular expression \s and trim() take for white space.
  predicate Space(c: char) {
    || '\t' <= c <= '\r' || c in " \U{a0}\U{1680}\U{2028}\U{2029}\U{202f}\U{205f}\U{3000}\U{feff}"
    || '\U{2000}' <= c <= '\U{200a}'
  }

  function TrimStart(s: string): string {
    if s != "" && Space(s[0]) then TrimStart(s[1..]) else s
  }

  function TrimEnd(s: string): string {
    if s != "" && Space(s[|s| - 1]) then TrimEnd(s[..|s| - 1]) else s
  }

  function Trim(s: string): string {
    TrimEnd(TrimStart(s))
  }

  // The binary's own name is dropped when white space follows it.
  function WithoutBinary(s: string): string {
    if BINARY <= s && |BINARY| < |s| && Space(s[|BINARY|]) then TrimStart(s[|BINARY|..]) else s
  }

  datatype Lexer = Lexer(token: string, quote: Option<char>, started: bool, argv: seq<string>)
  const FRESH := Lexer("", None, false, [])

  function Finished(l: Lexer): seq<string> {
    if l.started then l.argv + [l.token] else l.argv
  }

  // A backslash escapes only a double quote inside double quotes, and white space or a quote outside.
  predicate Escapes(quote: Option<char>, next: string) {
    next != "" &&
    match quote
    case Some(q) => q == '"' && next[0] == '"'
    case None => Space(next[0]) || next[0] == '"' || next[0] == '\''
  }

  function Scan(s: string, l: Lexer): Result<seq<string>>
    decreases |s|
  {
    if s == "" then
      match l.quote case Some(q) => Unterminated(q) case None => Ok(Finished(l))
    else if s[0] == '\\' && l.quote != Some('\'') then
      if Escapes(l.quote, s[1..]) then Scan(s[2..], l.(token := l.token + [s[1]], started := true))
      else Scan(s[1..], l.(token := l.token + "\\", started := true))
    else if l.quote.Some? then
      if s[0] == l.quote.value then Scan(s[1..], l.(quote := None, started := true))
      else Scan(s[1..], l.(token := l.token + [s[0]], started := true))
    else if s[0] == '"' || s[0] == '\'' then Scan(s[1..], l.(quote := Some(s[0]), started := true))
    else if Space(s[0]) then Scan(s[1..], Lexer("", None, false, Finished(l)))
    else Scan(s[1..], l.(token := l.token + [s[0]], started := true))
  }

  function Argv(command: string): Result<seq<string>> {
    Scan(WithoutBinary(Trim(command)), FRESH)
  }

  // The tokenizer's own loop.
  method CommandArgv(command: string) returns (result: Result<seq<string>>)
    ensures result == Argv(command)
  {
    hide Space, Trim, WithoutBinary;
    var source := WithoutBinary(Trim(command));
    var argv: seq<string>, token: string, quote: Option<char>, started := [], "", None, false;
    var index := 0;
    while index < |source|
      invariant index <= |source| && (!started ==> token == "")
      invariant Argv(command) == Scan(source[index..], Lexer(token, quote, started, argv))
    {
      var character, rest := source[index], source[index + 1..];
      assert source[index..] == [character] + rest;
      if character == '\\' && quote != Some('\'') {
        if Escapes(quote, rest) {
          token, index := token + [source[index + 1]], index + 1;
          assert rest[1..] == source[index + 1..];
        } else {
          token := token + "\\";
        }
        started := true;
      } else if quote.Some? {
        if character == quote.value {
          quote := None;
        } else {
          token := token + [character];
        }
        started := true;
      } else if character == '"' || character == '\'' {
        quote, started := Some(character), true;
      } else if Space(character) {
        if started {
          argv, token, started := argv + [token], "", false;
        }
      } else {
        token, started := token + [character], true;
      }
      index := index + 1;
    }
    assert source[index..] == "";
    if quote.Some? {
      return Unterminated(quote.value);
    }
    if started {
      argv := argv + [token];
    }
    return Ok(argv);
  }

  // ---- The round trip ----

  lemma AppendsTogether(a: string, b: string, c: string)
    ensures a + (b + c) == (a + b) + c
  {}

  lemma PlainIsOrdinary(c: char)
    requires Plain(c)
    ensures !Space(c) && c != '\\' && c != '"' && c != '\''
  {}

  lemma ScanPlainOne(c: char, rest: string, l: Lexer)
    requires l.quote == None && Plain(c)
    ensures Scan([c] + rest, l) == Scan(rest, l.(token := l.token + [c], started := true))
  {
    hide Plain, Space;
    PlainIsOrdinary(c);
    assert ([c] + rest)[1..] == rest;
  }

  lemma {:induction false} ScanPlain(value: string, rest: string, l: Lexer)
    requires l.quote == None && forall c | c in value :: Plain(c)
    ensures Scan(value + rest, l) ==
            Scan(rest, if value == "" then l else l.(token := l.token + value, started := true))
  {
    hide Scan, Plain;
    if value == "" {
      assert value + rest == rest;
    } else {
      assert value == [value[0]] + value[1..];
      AppendsTogether([value[0]], value[1..], rest);
      AppendsTogether(l.token, [value[0]], value[1..]);
      assert value[0] in value;
      ScanPlainOne(value[0], value[1..] + rest, l);
      ScanPlain(value[1..], rest, l.(token := l.token + [value[0]], started := true));
      if value[1..] == "" { assert l.token + [value[0]] == l.token + value; }
    }
  }

  lemma ScanOne(c: char, rest: string, l: Lexer)
    ensures l.quote == Some('\'') && c != '\'' ==>
              Scan([c] + rest, l) == Scan(rest, l.(token := l.token + [c], started := true))
    ensures l.quote == Some('\'') && c == '\'' ==> Scan([c] + rest, l) == Scan(rest, l.(quote := None, started := true))
    ensures l.quote == None && c == '\'' ==> Scan([c] + rest, l) == Scan(rest, l.(quote := Some(c), started := true))
  {}

  lemma ScanEscapedQuote(rest: string, l: Lexer)
    requires l.quote == None
    ensures Scan("\\'" + rest, l) == Scan(rest, l.(token := l.token + "'", started := true))
  {}

  lemma EscapedQuoteParts(tail: string)
    ensures "'\\''" + tail == "'" + ("\\'" + ("'" + tail))
  {}

  lemma EscapedUnfolds(value: string)
    ensures value == "" ==> Escaped(value) == ""
    ensures value != "" ==>
              Escaped(value) == (if value[0] == '\'' then "'\\''" else [value[0]]) + Escaped(value[1..])
  {}

  lemma EscapedHead(value: string, rest: string)
    ensures value == "" ==> Escaped(value) + "'" + rest == "'" + rest
    ensures value != "" ==>
      var tail := Escaped(value[1..]) + "'" + rest;
      Escaped(value) + "'" + rest == if value[0] == '\'' then "'" + ("\\'" + ("'" + tail)) else [value[0]] + tail
  {
    hide Escaped;
    EscapedUnfolds(value);
    if value != "" {
      var more, head := Escaped(value[1..]), if value[0] == '\'' then "'\\''" else [value[0]];
      AppendsTogether(head, more, "'");
      AppendsTogether(head, more + "'", rest);
      EscapedQuoteParts(more + "'" + rest);
    } else {
      assert "" + "'" == "'";
    }
  }

  lemma QuotedHead(value: string, rest: string)
    ensures ShellQuote(value) + rest == if AllPlain(value) then value + rest else "'" + (Escaped(value) + "'" + rest)
  {
    hide Escaped, AllPlain;
    AppendsTogether("'", Escaped(value), "'");
    AppendsTogether("'", Escaped(value) + "'", rest);
  }

  // Inside single quotes every character stands for itself, up to the closing quote.
  lemma {:induction false} ScanEscaped(value: string, rest: string, l: Lexer)
    requires l.quote == Some('\'') && l.started
    ensures Scan(Escaped(value) + "'" + rest, l) == Scan(rest, l.(token := l.token + value, quote := None))
  {
    hide Scan, Escapes, Space, Escaped;
    EscapedHead(value, rest);
    if value == "" {
      assert l.token + value == l.token;
      ScanOne('\'', rest, l);
    } else {
      var tail := Escaped(value[1..]) + "'" + rest;
      var next := l.(token := l.token + [value[0]]);
      assert next.token + value[1..] == l.token + value;
      ScanEscaped(value[1..], rest, next);
      if value[0] == '\'' {
        ScanOne('\'', "\\'" + ("'" + tail), l);
        ScanEscapedQuote("'" + tail, l.(quote := None));
        ScanOne('\'', tail, next.(quote := None));
      } else {
        ScanOne(value[0], tail, l);
      }
    }
  }

  lemma ScanQuoted(value: string, rest: string, l: Lexer)
    requires l.quote == None && !l.started && l.token == ""
    ensures Scan(ShellQuote(value) + rest, l) == Scan(rest, Lexer(value, None, true, l.argv))
  {
    hide Scan, Escaped, ShellQuote;
    assert "" + value == value;
    QuotedHead(value, rest);
    if AllPlain(value) {
      hide Plain;
      ScanPlain(value, rest, l);
    } else {
      ScanOne('\'', Escaped(value) + "'" + rest, l);
      ScanEscaped(value, rest, l.(quote := Some('\''), started := true));
    }
  }

  lemma ScanSpace(rest: string, l: Lexer)
    requires l.quote == None
    ensures Scan(" " + rest, l) == Scan(rest, Lexer("", None, false, Finished(l)))
  {}

  lemma {:induction false} ScanSpaced(words: seq<string>, l: Lexer)
    requires l.quote == None
    ensures l.started ==> Scan(Spaced(words), l) == Ok(l.argv + [l.token] + words)
    ensures !l.started ==> Scan(Spaced(words), l) == Ok(l.argv + words)
  {
    if words == [] {
      assert l.argv + [l.token] + words == l.argv + [l.token] && l.argv + words == l.argv;
    } else {
      hide Scan, ShellQuote;
      assert Spaced(words) == " " + (ShellQuote(words[0]) + Spaced(words[1..]));
      ScanSpace(ShellQuote(words[0]) + Spaced(words[1..]), l);
      ScanQuoted(words[0], Spaced(words[1..]), Lexer("", None, false, Finished(l)));
      ScanSpaced(words[1..], Lexer(words[0], None, true, Finished(l)));
      assert Finished(l) + [words[0]] + words[1..] == Finished(l) + words;
    }
  }

  lemma PlainIsNotSpace(c: char)
    ensures Plain(c) || c == '\'' ==> !Space(c)
  {}

  lemma QuotedHasNoOuterSpace(value: string)
    ensures var quoted := ShellQuote(value); quoted != "" && !Space(quoted[0]) && !Space(quoted[|quoted| - 1])
  {
    hide Plain, Space, Escaped;
    PlainIsNotSpace('\'');
    if AllPlain(value) {
      PlainIsNotSpace(value[0]);
      PlainIsNotSpace(value[|value| - 1]);
    }
  }

  lemma {:induction false} SpacedEnds(words: seq<string>)
    requires words != []
    ensures Spaced(words) != "" && !Space(Spaced(words)[|Spaced(words)| - 1])
  {
    QuotedHasNoOuterSpace(words[0]);
    if words[1..] != [] { SpacedEnds(words[1..]); }
  }

  lemma BinaryIsPlain()
    ensures ShellQuote(BINARY) == BINARY
  {
    assert forall c | c in BINARY :: Plain(c);
  }

  lemma TrimmedStays(s: string)
    requires s != "" && !Space(s[0]) && !Space(s[|s| - 1])
    ensures Trim(s) == s
  {}

  lemma BinaryIsDropped(rest: string)
    requires rest != "" && !Space(rest[0])
    ensures WithoutBinary(BINARY + " " + rest) == rest
  {
    var s := BINARY + " " + rest;
    assert s[|BINARY|..] == " " + rest && (" " + rest)[1..] == rest;
    assert s[..|BINARY|] == BINARY && Space(' ');
    assert TrimStart(rest) == rest;
  }

  lemma CommandIsTrimmed(args: seq<string>)
    ensures Trim(SgosCommand(args)) == SgosCommand(args)
    ensures args == [] ==> SgosCommand(args) == BINARY
    ensures args != [] ==> WithoutBinary(SgosCommand(args)) == ShellQuote(args[0]) + Spaced(args[1..])
  {
    hide ShellQuote, Trim, WithoutBinary, Space;
    BinaryIsPlain();
    QuotedHasNoOuterSpace(BINARY);
    if args == [] {
      assert SgosCommand(args) == BINARY;
      TrimmedStays(BINARY);
    } else {
      var rest := ShellQuote(args[0]) + Spaced(args[1..]);
      SpacedEnds(args);
      QuotedHasNoOuterSpace(args[0]);
      assert SgosCommand(args) == BINARY + " " + rest;
      BinaryIsDropped(rest);
      TrimmedStays(SgosCommand(args));
    }
  }

  // The tokenizer reads back exactly what was printed, whatever the arguments hold, unless there are
  // none: then no white space follows the binary's name and the name itself is taken for an argument.
  lemma PrintedArgumentsAreReadBack(args: seq<string>)
    ensures Argv(SgosCommand(args)) == Ok(args) <==> args != []
    ensures args == [] ==> Argv(SgosCommand(args)) == Ok([BINARY])
  {
    hide Scan, ShellQuote, Space, Trim;
    CommandIsTrimmed(args);
    if args != [] {
      ScanQuoted(args[0], Spaced(args[1..]), FRESH);
      ScanSpaced(args[1..], Lexer(args[0], None, true, []));
      assert [] + [args[0]] + args[1..] == args;
    } else {
      BinaryIsPlain();
      ScanQuoted(BINARY, "", FRESH);
      ScanSpaced([], Lexer(BINARY, None, true, []));
      assert ShellQuote(BINARY) + "" == BINARY && [] + [BINARY] + [] == [BINARY];
      assert WithoutBinary(BINARY) == BINARY;
    }
  }

  lemma DifferentArgumentsPrintDifferently(a: seq<string>, b: seq<string>)
    requires SgosCommand(a) == SgosCommand(b)
    ensures a == b
  {
    PrintedArgumentsAreReadBack(a);
    PrintedArgumentsAreReadBack(b);
    if a == [] || b == [] {
      CommandIsTrimmed(a);
      CommandIsTrimmed(b);
      BinaryIsPlain();
    }
  }

  // ---- Everything the tokenizer reads ----

  // A word is written as a sequence of parts: bare, where white space and quotes stand after a backslash, in
  // single quotes, or in double quotes, where a double quote stands after a backslash.
  datatype Part = Bare(text: string) | InSingle(text: string) | InDouble(text: string)

  predicate EndsInBackslash(text: string) {
    text != "" && text[|text| - 1] == '\\'
  }

  // A backslash before a separator or a closing double quote would escape it.
  predicate Writable(part: Part) {
    match part
    case Bare(text) => text != "" && !EndsInBackslash(text)
    case InSingle(text) => '\'' !in text
    case InDouble(text) => !EndsInBackslash(text)
  }

  function Backslashed(text: string, bare: bool): string {
    if text == "" then ""
    else (if text[0] == '"' || (bare && (text[0] == '\'' || Space(text[0]))) then "\\" else "")
         + ([text[0]] + Backslashed(text[1..], bare))
  }

  function Write(part: Part): string {
    match part
    case Bare(text) => Backslashed(text, true)
    case InSingle(text) => "'" + text + "'"
    case InDouble(text) => "\"" + Backslashed(text, false) + "\""
  }

  function WriteAll(parts: seq<Part>): string {
    if parts == [] then "" else Write(parts[0]) + WriteAll(parts[1..])
  }

  function Meaning(parts: seq<Part>): string {
    if parts == [] then "" else parts[0].text + Meaning(parts[1..])
  }

  // Words with any white space before each of them.
  datatype Word = Word(gap: string, parts: seq<Part>)

  predicate WellWritten(word: Word) {
    word.gap != "" && (forall c | c in word.gap :: Space(c)) && word.parts != [] &&
    forall i | 0 <= i < |word.parts| :: Writable(word.parts[i])
  }

  function Line(words: seq<Word>): string {
    if words == [] then "" else words[0].gap + (WriteAll(words[0].parts) + Line(words[1..]))
  }

  function Meanings(words: seq<Word>): seq<string> {
    if words == [] then [] else [Meaning(words[0].parts)] + Meanings(words[1..])
  }

  lemma ScanAtBackslash(s: string, l: Lexer)
    requires |s| >= 2 && s[0] == '\\' && l.quote != Some('\'') && Escapes(l.quote, s[1..])
    ensures Scan(s, l) == Scan(s[2..], l.(token := l.token + [s[1]], started := true))
  {
    hide Space, Escapes;
  }

  lemma ScanBackslash(c: char, rest: string, l: Lexer)
    requires c != '\\' && (l.quote.Some? ==> l.quote == Some('"'))
    requires c == '"' || (l.quote.None? && (c == '\'' || Space(c)))
    ensures Scan("\\" + ([c] + rest), l) == Scan(rest, l.(token := l.token + [c], started := true))
  {
    hide Scan, Space;
    var s := "\\" + ([c] + rest);
    assert s[1..] == [c] + rest && s[2..] == rest && s[1] == c;
    ScanAtBackslash(s, l);
  }

  // A character that needs no backslash stands for itself, and a backslash too if nothing follows that it
  // would escape.
  lemma ScanLiteral(c: char, rest: string, l: Lexer)
    requires c != '"' && (l.quote.None? ==> c != '\'' && !Space(c)) && l.quote != Some('\'')
    requires l.quote.Some? ==> l.quote == Some('"')
    requires c == '\\' ==> !Escapes(l.quote, rest)
    ensures Scan([c] + rest, l) == Scan(rest, l.(token := l.token + [c], started := true))
  {
    assert ([c] + rest)[1..] == rest;
  }

  // What follows a character in a backslashed text is never something that it would escape.
  lemma NothingToEscape(text: string, bare: bool, rest: string)
    requires text != ""
    ensures !Escapes(if bare then None else Some('"'), Backslashed(text, bare) + rest)
  {}

  lemma BackslashedHead(text: string, bare: bool, rest: string)
    requires text != ""
    ensures var tail := Backslashed(text[1..], bare) + rest;
      Backslashed(text, bare) + rest ==
      if text[0] == '"' || (bare && (text[0] == '\'' || Space(text[0]))) then "\\" + ([text[0]] + tail)
      else [text[0]] + tail
  {
    hide Space;
    AppendsTogether([text[0]], Backslashed(text[1..], bare), rest);
    AppendsTogether("\\", [text[0]] + Backslashed(text[1..], bare), rest);
    AppendsTogether("", [text[0]] + Backslashed(text[1..], bare), rest);
    assert "" + ([text[0]] + Backslashed(text[1..], bare)) == [text[0]] + Backslashed(text[1..], bare);
  }

  lemma {:induction false} ScanBackslashed(text: string, bare: bool, rest: string, l: Lexer)
    requires l.quote == (if bare then None else Some('"')) && !EndsInBackslash(text)
    ensures Scan(Backslashed(text, bare) + rest, l) ==
            Scan(rest, if text == "" then l else l.(token := l.token + text, started := true))
  {
    hide Scan, Space, Backslashed, Escapes;
    if text == "" {
      NothingBackslashed(bare, rest);
    } else {
      var tail, next := Backslashed(text[1..], bare) + rest, l.(token := l.token + [text[0]], started := true);
      BackslashedHead(text, bare, rest);
      assert text == [text[0]] + text[1..];
      AppendsTogether(l.token, [text[0]], text[1..]);
      if text[0] == '"' || (bare && (text[0] == '\'' || Space(text[0]))) {
        BackslashIsNoSpace();
        ScanBackslash(text[0], tail, l);
      } else {
        if text[0] == '\\' { NothingToEscape(text[1..], bare, rest); }
        ScanLiteral(text[0], tail, l);
      }
      ScanBackslashed(text[1..], bare, rest, next);
      if text[1..] == "" { assert l.token + [text[0]] == l.token + text; }
    }
  }

  lemma BackslashIsNoSpace()
    ensures !Space('\\')
  {}

  lemma NothingBackslashed(bare: bool, rest: string)
    ensures Backslashed("", bare) + rest == rest
  {}

  lemma {:induction false} ScanSingle(text: string, rest: string, l: Lexer)
    requires l.quote == Some('\'') && l.started && '\'' !in text
    ensures Scan(text + "'" + rest, l) == Scan(rest, l.(token := l.token + text, quote := None))
  {
    hide Scan, Space, Escapes;
    if text == "" {
      assert text + "'" + rest == "'" + rest && l.token + text == l.token;
      ScanOne('\'', rest, l);
    } else {
      assert text + "'" + rest == [text[0]] + (text[1..] + "'" + rest);
      assert l.token + [text[0]] + text[1..] == l.token + text;
      ScanOne(text[0], text[1..] + "'" + rest, l);
      ScanSingle(text[1..], rest, l.(token := l.token + [text[0]]));
    }
  }

  lemma ScanDoubleQuote(rest: string, l: Lexer)
    ensures l.quote == None ==> Scan("\"" + rest, l) == Scan(rest, l.(quote := Some('"'), started := true))
    ensures l.quote == Some('"') ==> Scan("\"" + rest, l) == Scan(rest, l.(quote := None, started := true))
  {}

  lemma ScanPart(part: Part, rest: string, l: Lexer)
    requires Writable(part) && l.quote == None
    ensures Scan(Write(part) + rest, l) == Scan(rest, l.(token := l.token + part.text, started := true))
  {
    hide Scan, Space, Backslashed;
    match part
    case Bare(text) => ScanBackslashed(text, true, rest, l);
    case InSingle(text) =>
      assert Write(part) + rest == "'" + (text + "'" + rest);
      ScanOne('\'', text + "'" + rest, l);
      ScanSingle(text, rest, l.(quote := Some('\''), started := true));
    case InDouble(text) =>
      var inside := l.(quote := Some('"'), started := true);
      assert Write(part) + rest == "\"" + (Backslashed(text, false) + ("\"" + rest));
      ScanDoubleQuote(Backslashed(text, false) + ("\"" + rest), l);
      ScanBackslashed(text, false, "\"" + rest, inside);
      if text == "" { assert l.token + text == l.token; }
      ScanDoubleQuote(rest, inside.(token := l.token + text));
  }

  lemma {:induction false} ScanParts(parts: seq<Part>, rest: string, l: Lexer)
    requires l.quote == None && forall i | 0 <= i < |parts| :: Writable(parts[i])
    ensures Scan(WriteAll(parts) + rest, l) ==
            Scan(rest, if parts == [] then l else l.(token := l.token + Meaning(parts), started := true))
  {
    hide Scan, Writable, Write;
    if parts == [] {
      assert WriteAll(parts) + rest == rest;
    } else {
      var next := l.(token := l.token + parts[0].text, started := true);
      AppendsTogether(Write(parts[0]), WriteAll(parts[1..]), rest);
      AppendsTogether(l.token, parts[0].text, Meaning(parts[1..]));
      ScanPart(parts[0], WriteAll(parts[1..]) + rest, l);
      ScanParts(parts[1..], rest, next);
      if parts[1..] == [] { assert parts[0].text + "" == parts[0].text; }
    }
  }

  lemma ScanBlank(c: char, rest: string, l: Lexer)
    requires l.quote == None && Space(c)
    ensures Scan([c] + rest, l) == Scan(rest, Lexer("", None, false, Finished(l)))
  {
    assert ([c] + rest)[1..] == rest;
    assert c != '\\' && c != '"' && c != '\'';
  }

  lemma {:induction false} ScanGap(gap: string, rest: string, l: Lexer)
    requires l.quote == None && gap != "" && forall c | c in gap :: Space(c)
    ensures Scan(gap + rest, l) == Scan(rest, Lexer("", None, false, Finished(l)))
  {
    hide Scan, Space;
    assert gap + rest == [gap[0]] + (gap[1..] + rest) && gap[0] in gap;
    ScanBlank(gap[0], gap[1..] + rest, l);
    if gap[1..] == "" {
      assert gap[1..] + rest == rest;
    } else {
      ScanGap(gap[1..], rest, Lexer("", None, false, Finished(l)));
    }
  }

  // However a command's words are written and separated, the tokenizer reads exactly what they mean.
  lemma {:induction false} WrittenWordsAreReadBack(words: seq<Word>, l: Lexer)
    requires l.quote == None && (l.started || l.token == "") && forall i | 0 <= i < |words| :: WellWritten(words[i])
    ensures Scan(Line(words), l) == Ok(Finished(l) + Meanings(words))
  {
    hide Scan, WriteAll, Meaning, WellWritten, Space, Line, Meanings;
    LineUnfolds(words);
    if words == [] {
      NoMoreText(l);
      assert Finished(l) + [] == Finished(l);
    } else {
      OneWordIsRead(words[0], Line(words[1..]), l);
      var next := Lexer(Meaning(words[0].parts), None, true, Finished(l));
      WrittenWordsAreReadBack(words[1..], next);
      assert Finished(l) + [Meaning(words[0].parts)] + Meanings(words[1..]) == Finished(l) + Meanings(words);
    }
  }

  lemma LineUnfolds(words: seq<Word>)
    ensures words == [] ==> Line(words) == "" && Meanings(words) == []
    ensures words != [] ==>
              && Line(words) == words[0].gap + (WriteAll(words[0].parts) + Line(words[1..]))
              && Meanings(words) == [Meaning(words[0].parts)] + Meanings(words[1..])
  {}

  lemma OneWordIsRead(word: Word, rest: string, l: Lexer)
    requires l.quote == None && WellWritten(word)
    ensures Scan(word.gap + (WriteAll(word.parts) + rest), l) ==
            Scan(rest, Lexer(Meaning(word.parts), None, true, Finished(l)))
  {
    hide Scan, WriteAll, Meaning, Writable, Space;
    ScanGap(word.gap, WriteAll(word.parts) + rest, l);
    ScanParts(word.parts, rest, Lexer("", None, false, Finished(l)));
    assert "" + Meaning(word.parts) == Meaning(word.parts);
  }

  lemma NoMoreText(l: Lexer)
    requires l.quote == None
    ensures Scan("", l) == Ok(Finished(l))
  {}

  // ---- The whole command ----

  // White space is what ECMA-262 lists in its sections 12.2 and 12.3: white space and line terminators.
  lemma SpaceIsWhiteSpace(c: char)
    ensures Space(c) <==>
      || c in {'\t', '\U{0b}', '\U{0c}', '\U{feff}', '\n', '\r', '\U{2028}', '\U{2029}'}
      || c in {' ', '\U{a0}', '\U{1680}', '\U{202f}', '\U{205f}', '\U{3000}'} || '\U{2000}' <= c <= '\U{200a}'
  {}

  predicate Blank(s: string) {
    forall c | c in s :: Space(c)
  }

  lemma {:induction false} TrimStartDrops(lead: string, s: string)
    requires Blank(lead) && (s == "" || !Space(s[0]))
    ensures TrimStart(lead + s) == s
  {
    hide Space;
    if lead == "" {
      assert lead + s == s;
    } else {
      assert lead[0] in lead && (lead + s)[1..] == lead[1..] + s;
      TrimStartDrops(lead[1..], s);
    }
  }

  lemma {:induction false} TrimEndDrops(s: string, trail: string)
    requires Blank(trail) && (s == "" || !Space(s[|s| - 1]))
    ensures TrimEnd(s + trail) == s
  {
    hide Space;
    if trail == "" {
      assert s + trail == s;
    } else {
      var front := trail[..|trail| - 1];
      assert trail[|trail| - 1] in trail && (s + trail)[..|s + trail| - 1] == s + front;
      TrimEndDrops(s, front);
    }
  }

  // Trimming takes the white space around a text, and nothing of the text.
  lemma TrimTakesTheBlanks(lead: string, s: string, trail: string)
    requires Blank(lead) && Blank(trail) && s != "" && !Space(s[0]) && !Space(s[|s| - 1])
    ensures Trim(lead + s + trail) == s
  {
    hide Space, Blank, TrimStart, TrimEnd;
    assert lead + s + trail == lead + (s + trail) && (s + trail)[0] == s[0];
    TrimStartDrops(lead, s + trail);
    TrimEndDrops(s, trail);
  }

  lemma BareBegins(text: string)
    requires text != ""
    ensures Backslashed(text, true) != ""
    ensures Backslashed(text, true)[0] == '\\' || (Backslashed(text, true)[0] == text[0] && !Space(text[0]))
  {
    hide Space;
    BackslashedHead(text, true, "");
    assert Backslashed(text, true) + "" == Backslashed(text, true);
  }

  lemma PartBegins(part: Part)
    requires Writable(part)
    ensures Write(part) != "" && !Space(Write(part)[0])
  {
    hide Space, Backslashed;
    QuoteIsNoSpace();
    BackslashIsNoSpace();
    PlainIsNotSpace('\'');
    if part.Bare? { BareBegins(part.text); }
  }

  lemma WordsBegin(parts: seq<Part>)
    requires parts != [] && forall i | 0 <= i < |parts| :: Writable(parts[i])
    ensures WriteAll(parts) != "" && !Space(WriteAll(parts)[0])
  {
    hide Space, Write, Writable;
    PartBegins(parts[0]);
    assert WriteAll(parts) == Write(parts[0]) + WriteAll(parts[1..]);
  }

  lemma LineIsBlankFirst(words: seq<Word>)
    requires words != [] && forall i | 0 <= i < |words| :: WellWritten(words[i])
    ensures Line(words) != "" && Space(Line(words)[0])
    ensures TrimStart(Line(words)) == WriteAll(words[0].parts) + Line(words[1..])
  {
    hide Space, Writable, WriteAll, TrimStart;
    var word, rest := words[0], WriteAll(words[0].parts) + Line(words[1..]);
    assert WellWritten(word);
    WordsBegin(word.parts);
    assert word.gap[0] in word.gap;
    TrimStartDrops(word.gap, rest);
  }

  // A command is the program's name and words, however they are written and separated, with any white space
  // around: the tokenizer reads exactly what the words mean, unless the last one ends in escaped white space, which
  // is lost because the command is trimmed first.
  lemma CommandsAreRead(lead: string, words: seq<Word>, trail: string)
    requires Blank(lead) && Blank(trail) && words != [] && forall i | 0 <= i < |words| :: WellWritten(words[i])
    ensures Line(words) != ""
    ensures Argv(lead + (BINARY + Line(words)) + trail) == Ok(Meanings(words)) <==>
            !Space(Line(words)[|Line(words)| - 1])
  {
    hide Scan, Space, Trim, TrimStart, Line, WellWritten, Meanings;
    LineIsBlankFirst(words);
    if Space(Line(words)[|Line(words)| - 1]) {
      EscapedBlankIsLost(lead, words, trail);
    } else {
      OthersAreRead(lead, words, trail);
    }
  }

  lemma OthersAreRead(lead: string, words: seq<Word>, trail: string)
    requires Blank(lead) && Blank(trail) && words != [] && forall i | 0 <= i < |words| :: WellWritten(words[i])
    requires var line := Line(words); line != "" && !Space(line[|line| - 1])
    ensures Argv(lead + (BINARY + Line(words)) + trail) == Ok(Meanings(words))
  {
    hide Scan, Space, Blank, TrimStart, Trim, Line, WellWritten, WriteAll, Meanings;
    var line := Line(words);
    LineIsBlankFirst(words);
    NamedCommand(lead, line, trail);
    MeaningsUnfold(words);
    FirstWordIsRead(words[0], words[1..]);
  }

  lemma NamedCommand(lead: string, line: string, trail: string)
    requires Blank(lead) && Blank(trail) && line != "" && Space(line[0]) && !Space(line[|line| - 1])
    ensures Argv(lead + (BINARY + line) + trail) == Scan(TrimStart(line), FRESH)
  {
    hide Scan, Space, Blank, TrimStart, Trim;
    var command := BINARY + line;
    BinaryIsNoSpace();
    TrimTakesTheBlanks(lead, command, trail);
    assert command[|BINARY|..] == line && command[..|BINARY|] == BINARY && command[|BINARY|] == line[0];
    assert WithoutBinary(command) == TrimStart(line);
  }

  // A backslash at the very end is one of the last word's characters.
  lemma {:induction false} LastBackslashStays(s: string, l: Lexer)
    ensures var result := Scan(s + "\\", l);
      result.Ok? ==> result.value != [] && EndsInBackslash(result.value[|result.value| - 1])
    decreases |s|
  {
    var text := s + "\\";
    if s == "" {
      assert text[1..] == "";
      assert EndsInBackslash(l.token + "\\");
    } else {
      assert text[1..] == s[1..] + "\\" && text[0] == s[0];
      if s[0] == '\\' && l.quote != Some('\'') && Escapes(l.quote, text[1..]) {
        BackslashIsNoSpace();
        assert s[1..] != "" && text[2..] == s[2..] + "\\" && text[1] == s[1];
        LastBackslashStays(s[2..], l.(token := l.token + [s[1]], started := true));
      } else {
        StepOfScan(text, l);
        var next := After(s[0], l);
        LastBackslashStays(s[1..], next);
      }
    }
  }

  // The state after one character that is not an escape.
  function After(c: char, l: Lexer): Lexer {
    if c == '\\' && l.quote != Some('\'') then l.(token := l.token + "\\", started := true)
    else if l.quote.Some? then
      if c == l.quote.value then l.(quote := None, started := true) else l.(token := l.token + [c], started := true)
    else if c == '"' || c == '\'' then l.(quote := Some(c), started := true)
    else if Space(c) then Lexer("", None, false, Finished(l))
    else l.(token := l.token + [c], started := true)
  }

  lemma StepOfScan(s: string, l: Lexer)
    requires s != "" && !(s[0] == '\\' && l.quote != Some('\'') && Escapes(l.quote, s[1..]))
    ensures Scan(s, l) == Scan(s[1..], After(s[0], l))
  {
    hide Space, Escapes;
  }

  lemma {:induction false} BackslashedLast(text: string, c: char)
    requires Space(c)
    ensures Backslashed(text + [c], true) == Backslashed(text, true) + ("\\" + [c])
  {
    hide Space;
    if text == "" {
      assert text + [c] == [c] && [c][1..] == "";
      assert Backslashed([c], true) == "\\" + ([c] + "");
    } else {
      assert (text + [c])[1..] == text[1..] + [c];
      BackslashedLast(text[1..], c);
      var head := if text[0] == '"' || text[0] == '\'' || Space(text[0]) then "\\" else "";
      var rest, last := Backslashed(text[1..], true), "\\" + [c];
      assert head + ([text[0]] + (rest + last)) == head + ([text[0]] + rest) + last;
    }
  }

  // The text of a line ends with what its last part is written as, and the meaning of its last word with that
  // part's text.
  lemma {:induction false} PartsEnd(parts: seq<Part>) returns (front: string, meaning: string)
    requires parts != []
    ensures WriteAll(parts) == front + Write(parts[|parts| - 1])
    ensures Meaning(parts) == meaning + parts[|parts| - 1].text
  {
    hide Write;
    if |parts| == 1 {
      front, meaning := "", "";
      assert parts[1..] == [] && WriteAll(parts) == Write(parts[0]) + "" && Meaning(parts) == parts[0].text + "";
    } else {
      front, meaning := PartsEnd(parts[1..]);
      assert parts[1..][|parts[1..]| - 1] == parts[|parts| - 1];
      front, meaning := Write(parts[0]) + front, parts[0].text + meaning;
    }
  }

  lemma {:induction false} LineEnds(words: seq<Word>) returns (front: string)
    requires words != [] && forall i | 0 <= i < |words| :: WellWritten(words[i])
    ensures var parts := words[|words| - 1].parts;
      && parts != [] && Line(words) == front + Write(parts[|parts| - 1])
      && |Meanings(words)| == |words| && Meanings(words)[|words| - 1] == Meaning(parts)
  {
    hide Write, Writable, Meaning, WriteAll;
    if |words| == 1 {
      var written, _ := PartsEnd(words[0].parts);
      assert words[1..] == [];
      front := words[0].gap + written;
      assert WriteAll(words[0].parts) + "" == WriteAll(words[0].parts);
    } else {
      var rest := LineEnds(words[1..]);
      assert words[1..][|words[1..]| - 1] == words[|words| - 1];
      front := words[0].gap + (WriteAll(words[0].parts) + rest);
    }
  }

  // A line that ends in white space ends in a backslash and that white space, which ends the last meaning too.
  lemma EscapedEnd(words: seq<Word>) returns (kept: string, c: char)
    requires words != [] && forall i | 0 <= i < |words| :: WellWritten(words[i])
    requires var line := Line(words); line != "" && Space(line[|line| - 1])
    ensures Space(c) && Line(words) == kept + "\\" + [c]
    ensures |Meanings(words)| == |words|
    ensures var last := Meanings(words)[|words| - 1]; last != "" && last[|last| - 1] == c
  {
    hide Space, Line, Meanings, Meaning, Backslashed, WriteAll;
    var parts := words[|words| - 1].parts;
    var front := LineEnds(words);
    var _, meaning := PartsEnd(parts);
    var part := parts[|parts| - 1];
    assert WellWritten(words[|words| - 1]) && Writable(part);
    BareIsLast(part, front);
    var text := part.text[..|part.text| - 1];
    c := part.text[|part.text| - 1];
    assert text + [c] == part.text;
    BackslashedLast(text, c);
    kept := front + Backslashed(text, true);
    AppendsTogether(front, Backslashed(text, true), "\\" + [c]);
    AppendsTogether(kept, "\\", [c]);
    assert (meaning + part.text)[|meaning + part.text| - 1] == c;
  }

  lemma BareIsLast(part: Part, front: string)
    requires Writable(part) && var line := front + Write(part); line != "" && Space(line[|line| - 1])
    ensures part.Bare? && part.text != "" && Space(part.text[|part.text| - 1])
  {
    hide Space, Backslashed;
    PartBegins(part);
    QuoteIsNoSpace();
    PlainIsNotSpace('\'');
    var line := front + Write(part);
    assert line[|line| - 1] == Write(part)[|Write(part)| - 1];
    if part.Bare? { BareEnds(part.text); }
  }

  lemma OneBlank(c: char)
    requires Space(c)
    ensures Blank([c]) && c != '\\'
  {
    hide Space;
    BackslashIsNoSpace();
  }

  lemma EscapedBlankIsLost(lead: string, words: seq<Word>, trail: string)
    requires Blank(lead) && Blank(trail) && words != [] && forall i | 0 <= i < |words| :: WellWritten(words[i])
    requires var line := Line(words); line != "" && Space(line[|line| - 1])
    ensures Argv(lead + (BINARY + Line(words)) + trail) != Ok(Meanings(words))
  {
    hide Argv, Space, Blank, Line, Meanings, WellWritten;
    var kept, c := EscapedEnd(words);
    LineIsBlankFirst(words);
    BackslashIsNoSpace();
    OneBlank(c);
    var line := Line(words);
    assert line[0] == (kept + "\\")[0];
    CutCommand(lead, kept, [c], trail);
  }

  // A bare text ends in white space only if the text does.
  lemma {:induction false} BareEnds(text: string)
    requires text != ""
    ensures Backslashed(text, true) != ""
    ensures Backslashed(text, true)[|Backslashed(text, true)| - 1] == text[|text| - 1]
  {
    hide Space;
    if text[1..] == "" {
      assert Backslashed(text[1..], true) == "";
    } else {
      BareEnds(text[1..]);
    }
  }

  lemma CutCommand(lead: string, kept: string, blank: string, trail: string)
    requires Blank(lead) && Blank(trail) && Blank(blank) && !Space('\\')
    requires (kept + "\\")[0] != '\\' && Space((kept + "\\")[0])
    ensures var result := Argv(lead + (BINARY + (kept + "\\" + blank)) + trail);
      result.Ok? ==> result.value != [] && EndsInBackslash(result.value[|result.value| - 1])
  {
    hide Scan, Space, Trim, TrimStart;
    var line := kept + "\\";
    assert lead + (BINARY + (line + blank)) + trail == lead + (BINARY + line) + (blank + trail);
    NamedCommand(lead, line, blank + trail);
    var rest := TrimStartKeepsTheEnd(kept);
    LastBackslashStays(rest, FRESH);
  }

  lemma {:induction false} TrimStartKeepsTheEnd(kept: string) returns (rest: string)
    ensures TrimStart(kept + "\\") == rest + "\\"
  {
    hide Space;
    BackslashIsNoSpace();
    if kept != "" && Space(kept[0]) {
      assert (kept + "\\")[1..] == kept[1..] + "\\";
      rest := TrimStartKeepsTheEnd(kept[1..]);
    } else {
      rest := kept;
    }
  }

  lemma BinaryIsNoSpace()
    ensures !Space(BINARY[0])
  {}

  lemma FirstWordIsRead(first: Word, rest: seq<Word>)
    requires WellWritten(first) && forall i | 0 <= i < |rest| :: WellWritten(rest[i])
    ensures Scan(WriteAll(first.parts) + Line(rest), FRESH) == Ok([Meaning(first.parts)] + Meanings(rest))
  {
    PartsAreWritable(first);
    hide Scan, Space, WriteAll, Meaning, Writable, WellWritten, Line, Meanings;
    var meaning := Meaning(first.parts);
    ScanParts(first.parts, Line(rest), FRESH);
    assert "" + meaning == meaning && [] + [meaning] == [meaning];
    WrittenWordsAreReadBack(rest, Lexer(meaning, None, true, []));
  }

  lemma PartsAreWritable(word: Word)
    requires WellWritten(word)
    ensures word.parts != [] && forall i | 0 <= i < |word.parts| :: Writable(word.parts[i])
  {}

  lemma MeaningsUnfold(words: seq<Word>)
    requires words != []
    ensures Meanings(words) == [Meaning(words[0].parts)] + Meanings(words[1..])
  {}

  // A text in double quotes is read back if and only if it does not end in a backslash; then the closing quote
  // is taken for one of its own.
  lemma DoubleQuotedIsReadBack(text: string)
    ensures Argv("\"" + Backslashed(text, false) + "\"") ==
            if EndsInBackslash(text) then Unterminated('"') else Ok([text])
  {
    hide Scan, Space, Backslashed, Trim, WithoutBinary;
    var command := "\"" + Backslashed(text, false) + "\"";
    QuoteIsNoSpace();
    TrimmedStays(command);
    NoBinary(command);
    if EndsInBackslash(text) {
      LastBackslash(text);
    } else {
      ScanPart(InDouble(text), "", FRESH);
      assert Write(InDouble(text)) + "" == command;
      assert "" + text == text && [] + [text] == [text];
      NoMoreText(Lexer(text, None, true, []));
    }
  }

  lemma QuoteIsNoSpace()
    ensures !Space('"')
  {}

  lemma NoBinary(command: string)
    requires command != "" && command[0] == '"'
    ensures WithoutBinary(command) == command
  {}

  lemma LastBackslash(text: string)
    requires EndsInBackslash(text)
    ensures Scan("\"" + Backslashed(text, false) + "\"", FRESH) == Unterminated('"')
  {
    hide Scan, Space, Backslashed, Escapes;
    var front, inside := text[..|text| - 1], FRESH.(quote := Some('"'), started := true);
    assert "\"" + Backslashed(text, false) + "\"" == "\"" + (Backslashed(text, false) + "\"");
    ScanDoubleQuote(Backslashed(text, false) + "\"", FRESH);
    ScanToLastBackslash(text, inside);
  }

  // Up to its last backslash the text is read; that one escapes the closing quote.
  lemma {:induction false} ScanToLastBackslash(text: string, l: Lexer)
    requires EndsInBackslash(text) && l.quote == Some('"')
    ensures Scan(Backslashed(text, false) + "\"", l) == Unterminated('"')
  {
    hide Scan, Space, Backslashed, Escapes;
    BackslashedHead(text, false, "\"");
    var tail, next := Backslashed(text[1..], false) + "\"", l.(token := l.token + [text[0]], started := true);
    if text[1..] == "" {
      NothingBackslashed(false, "\"");
      assert Backslashed(text, false) + "\"" == "\\" + (['"'] + "");
      ScanBackslash('"', "", l);
      NothingCloses(l.(token := l.token + "\"", started := true));
    } else {
      if text[0] == '"' {
        ScanBackslash(text[0], tail, l);
      } else {
        if text[0] == '\\' { NothingToEscape(text[1..], false, "\""); }
        ScanLiteral(text[0], tail, l);
      }
      ScanToLastBackslash(text[1..], next);
    }
  }

  lemma NothingCloses(l: Lexer)
    requires l.quote == Some('"')
    ensures Scan("", l) == Unterminated('"')
  {}

  // ---- What a real shell makes of the printed command ----

  // The characters that section 2.2 of the POSIX.1-2017 Shell Command Language lists as in need of quotes.
  // Those it calls special under certain circumstances only are special everywhere here, except that `=`
  // makes an assignment of a word only if no word stands before it (section 2.9.1). Blanks, quotes and the
  // backslash are not in this list, because Words knows what they do.
  predicate Special(c: char, first: bool) {
    || c in {'|', '&', ';', '<', '>', '(', ')', '$', '`', '"', '\n', '*', '?', '[', '#', '~', '%'}
    || (c == '=' && first)
  }

  // Token recognition of section 2.3 for text that uses the quoting of sections 2.2.1 and 2.2.2 only; None
  // as soon as a special character stands unquoted.
  function Words(s: string, l: Lexer): Option<seq<string>>
    decreases |s|
  {
    if s == "" then (if l.quote.Some? then None else Some(Finished(l)))
    else if l.quote.Some? then
      if s[0] == '\'' then Words(s[1..], l.(quote := None))
      else Words(s[1..], l.(token := l.token + [s[0]]))
    else if s[0] == '\'' then Words(s[1..], l.(quote := Some('\''), started := true))
    else if s[0] == '\\' then
      if |s| == 1 || s[1] == '\n' then None
      else Words(s[2..], l.(token := l.token + [s[1]], started := true))
    else if s[0] == ' ' || s[0] == '\t' then Words(s[1..], Lexer("", None, false, Finished(l)))
    else if Special(s[0], l.argv == []) then None
    else Words(s[1..], l.(token := l.token + [s[0]], started := true))
  }

  // The words of section 2.4: a command that begins with one of them is not a simple one.
  const RESERVED: set<string> :=
    {"!", "{", "}", "case", "do", "done", "elif", "else", "esac", "fi", "for", "if", "in", "then", "until", "while"}

  function SimpleCommand(s: string): Option<seq<string>> {
    match Words(s, FRESH)
    case Some(words) => if words != [] && words[0] in RESERVED then None else Some(words)
    case None => None
  }

  // What the printer leaves unquoted stands for itself; an equals sign does not at the head of a command.
  lemma PlainIsLiteral(c: char, first: bool)
    requires Plain(c) && !(c == '=' && first)
    ensures !Special(c, first) && c != '\'' && c != '\\' && c != ' ' && c != '\t'
  {}

  lemma WordsPlainOne(c: char, rest: string, l: Lexer)
    requires l.quote == None && Plain(c) && !(c == '=' && l.argv == [])
    ensures Words([c] + rest, l) == Words(rest, l.(token := l.token + [c], started := true))
  {
    hide Plain, Special;
    PlainIsLiteral(c, l.argv == []);
    assert ([c] + rest)[1..] == rest;
  }

  lemma {:induction false} WordsPlain(value: string, rest: string, l: Lexer)
    requires l.quote == None && forall c | c in value :: Plain(c) && !(c == '=' && l.argv == [])
    ensures Words(value + rest, l) ==
            Words(rest, if value == "" then l else l.(token := l.token + value, started := true))
  {
    hide Words, Plain;
    if value == "" {
      assert value + rest == rest;
    } else {
      assert value == [value[0]] + value[1..];
      AppendsTogether([value[0]], value[1..], rest);
      AppendsTogether(l.token, [value[0]], value[1..]);
      assert value[0] in value;
      WordsPlainOne(value[0], value[1..] + rest, l);
      WordsPlain(value[1..], rest, l.(token := l.token + [value[0]], started := true));
      if value[1..] == "" { assert l.token + [value[0]] == l.token + value; }
    }
  }

  lemma WordsOne(c: char, rest: string, l: Lexer)
    ensures l.quote.Some? && c != '\'' ==> Words([c] + rest, l) == Words(rest, l.(token := l.token + [c]))
    ensures l.quote.Some? && c == '\'' ==> Words([c] + rest, l) == Words(rest, l.(quote := None))
    ensures l.quote.None? && c == '\'' ==> Words([c] + rest, l) == Words(rest, l.(quote := Some(c), started := true))
  {}

  lemma WordsEscapedQuote(rest: string, l: Lexer)
    requires l.quote == None
    ensures Words("\\'" + rest, l) == Words(rest, l.(token := l.token + "'", started := true))
  {}

  lemma {:induction false} WordsEscaped(value: string, rest: string, l: Lexer)
    requires l.quote == Some('\'') && l.started
    ensures Words(Escaped(value) + "'" + rest, l) == Words(rest, l.(token := l.token + value, quote := None))
  {
    hide Words, Plain, Escaped;
    EscapedHead(value, rest);
    if value == "" {
      assert l.token + value == l.token;
      WordsOne('\'', rest, l);
    } else {
      var tail := Escaped(value[1..]) + "'" + rest;
      var next := l.(token := l.token + [value[0]]);
      assert next.token + value[1..] == l.token + value;
      WordsEscaped(value[1..], rest, next);
      if value[0] == '\'' {
        WordsOne('\'', "\\'" + ("'" + tail), l);
        WordsEscapedQuote("'" + tail, l.(quote := None));
        WordsOne('\'', tail, next.(quote := None));
      } else {
        WordsOne(value[0], tail, l);
      }
    }
  }

  lemma WordsQuoted(value: string, rest: string, l: Lexer)
    requires l.quote == None && !l.started && l.token == "" && (l.argv == [] ==> '=' !in value)
    ensures Words(ShellQuote(value) + rest, l) == Words(rest, Lexer(value, None, true, l.argv))
  {
    hide Words, Plain, Escaped, ShellQuote;
    assert "" + value == value;
    QuotedHead(value, rest);
    if AllPlain(value) {
      WordsPlain(value, rest, l);
    } else {
      WordsOne('\'', Escaped(value) + "'" + rest, l);
      WordsEscaped(value, rest, l.(quote := Some('\''), started := true));
    }
  }

  lemma WordsSpace(rest: string, l: Lexer)
    requires l.quote == None
    ensures Words(" " + rest, l) == Words(rest, Lexer("", None, false, Finished(l)))
  {}

  lemma {:induction false} ShellSeesTheArguments(words: seq<string>, l: Lexer)
    requires l.quote == None && l.started
    ensures Words(Spaced(words), l) == Some(l.argv + [l.token] + words)
  {
    hide ShellQuote;
    if words == [] {
      assert l.argv + [l.token] + words == l.argv + [l.token];
    } else {
      assert Spaced(words) == " " + (ShellQuote(words[0]) + Spaced(words[1..]));
      WordsSpace(ShellQuote(words[0]) + Spaced(words[1..]), l);
      WordsQuoted(words[0], Spaced(words[1..]), Lexer("", None, false, Finished(l)));
      ShellSeesTheArguments(words[1..], Lexer(words[0], None, true, Finished(l)));
      assert Finished(l) + [words[0]] + words[1..] == Finished(l) + words;
    }
  }

  // A shell takes the printed command for a simple one and splits it into the program's name and exactly the
  // given arguments, none of them expanded.
  lemma PrintedCommandMeansTheSameInAShell(args: seq<string>)
    ensures SimpleCommand(SgosCommand(args)) == Some([BINARY] + args)
  {
    hide Words, ShellQuote;
    WordsQuoted(BINARY, Spaced(args), FRESH);
    ShellSeesTheArguments(args, Lexer(BINARY, None, true, []));
    assert [] + [BINARY] + args == [BINARY] + args;
    assert BINARY !in RESERVED;
  }

  // At the head of a command the printer's equals sign would make an assignment, so it is the program's name
  // in front that makes it safe.
  lemma EqualsNeedsTheName(value: string)
    requires AllPlain(value)
    ensures SimpleCommand(ShellQuote(value)) == Some([value]) <==> '=' !in value && value !in RESERVED
  {
    hide Words, Plain, AllPlain, RESERVED;
    assert ShellQuote(value) == value;
    FirstWord(value);
  }

  lemma FirstWord(value: string)
    requires AllPlain(value)
    ensures Words(value, FRESH) == if '=' in value then None else Some([value])
  {
    hide Words, Plain;
    if '=' in value { NoWord(value); } else { OneWord(value); }
  }

  lemma NoWord(value: string)
    requires (forall c | c in value :: Plain(c)) && '=' in value
    ensures Words(value, FRESH) == None
  {
    hide Words, Plain;
    FirstOf(value, '=');
    var i :| 0 <= i < |value| && value[i] == '=' && '=' !in value[..i];
    var name, rest := value[..i], value[i..];
    forall c | c in name ensures Plain(c) { assert c in value; }
    assert value == name + rest && rest[0] == value[i];
    EqualsInside(name, rest);
  }

  lemma OneWord(value: string)
    requires value != "" && (forall c | c in value :: Plain(c)) && '=' !in value
    ensures Words(value, FRESH) == Some([value])
  {
    hide Words, Plain;
    WordsPlain(value, "", FRESH);
    NoMoreWords(Lexer(value, None, true, []));
    assert "" + value == value && value + "" == value && [] + [value] == [value];
  }

  lemma EqualsInside(name: string, rest: string)
    requires (forall c | c in name :: Plain(c)) && '=' !in name && rest != "" && rest[0] == '='
    ensures Words(name + rest, FRESH) == None
  {
    hide Words, Plain;
    WordsPlain(name, rest, FRESH);
    EqualsAtTheHead(rest, if name == "" then FRESH else FRESH.(token := FRESH.token + name, started := true));
  }

  lemma {:induction false} FirstOf(s: string, c: char)
    requires c in s
    ensures exists i :: 0 <= i < |s| && s[i] == c && c !in s[..i]
  {
    if s[0] == c {
      assert c !in s[..0];
    } else {
      FirstOf(s[1..], c);
      var i :| 0 <= i < |s[1..]| && s[1..][i] == c && c !in s[1..][..i];
      assert s[..i + 1] == [s[0]] + s[1..][..i] && s[i + 1] == c;
    }
  }

  lemma EqualsAtTheHead(rest: string, l: Lexer)
    requires rest != "" && rest[0] == '=' && l.quote == None && l.argv == []
    ensures Words(rest, l) == None
  {}

  lemma NoMoreWords(l: Lexer)
    requires l.quote == None
    ensures Words("", l) == Some(Finished(l))
  {}
}
