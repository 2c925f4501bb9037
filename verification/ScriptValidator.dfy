/** Script validation (`internal/security/script_validator.go`): a line scanner, a command-word
    extractor and two pattern lists. Scripts are sequences of Unicode scalars; sizes are counted
    in the bytes of their UTF-8 form. */
module ScriptValidator {
  import opened Common

  // --------------------------------------------------------- lines and sizes

  function Utf8Width(c: char): nat {
    if c < '\U{0080}' then 1 else if c < '\U{0800}' then 2 else if c < '\U{10000}' then 3 else 4
  }

  function ByteLength(s: string): nat {
    if s == "" then 0 else Utf8Width(s[0]) + ByteLength(s[1..])
  }

  /** The number of pieces `strings.Split(s, "\n")` makes. */
  function LineCount(s: string): nat {
    if s == "" then 1 else (if s[0] == '\n' then 1 else 0) + LineCount(s[1..])
  }

  /** Where the first line ends. */
  function LineEnd(s: string): (n: nat)
    ensures n <= |s| && (n < |s| ==> s[n] == '\n')
    ensures forall i :: 0 <= i < n ==> s[i] != '\n'
  {
    if s == "" || s[0] == '\n' then 0 else 1 + LineEnd(s[1..])
  }

  /** `bufio.Scanner` gives up at the first line that does not fit its 64 KiB buffer together with
      its newline. The code does not look at the scanner's error: later lines are not scanned. */
  const MAX_LINE_BYTES := 65535

  function DropCR(line: string): string {
    TrimSuffix(line, "\r")
  }

  function AfterLine(s: string): string {
    var n := LineEnd(s);
    if n < |s| then s[n + 1..] else ""
  }

  predicate FirstLineFits(s: string) {
    ByteLength(s[..LineEnd(s)]) <= MAX_LINE_BYTES
  }

  // -------------------------------------------------------- command words

  /** The length of the word `s` starts with. */
  function WordEnd(s: string): (n: nat)
    ensures n <= |s|
    ensures s != "" && !IsSpace(s[0]) ==> n > 0
  {
    if s == "" || IsSpace(s[0]) then 0 else 1 + WordEnd(s[1..])
  }

  /** `strings.Fields`. */
  function Fields(s: string): seq<string>
    decreases |s|
  {
    if s == "" then []
    else if IsSpace(s[0]) then Fields(s[1..])
    else [s[..WordEnd(s)]] + Fields(s[WordEnd(s)..])
  }

  function StripOperators(word: string): string {
    TrimPrefix(TrimPrefix(TrimPrefix(TrimPrefix(word, "|"), "&&"), "||"), ";")
  }

  /** The command word of a line, if it has one. */
  function CommandOf(token: string): Option<string> {
    var line := TrimSpace(token);
    if line == "" || HasPrefix(line, "#") then None
    else
      var fields := Fields(line);
      if |fields| == 0 then None
      else
        var cmd := StripOperators(fields[0]);
        Some(if (cmd == "sudo" || cmd == "su") && |fields| > 1 then fields[1] else cmd)
  }

  function AsSet(o: Option<string>): set<string> {
    if o.Some? then {o.value} else {}
  }

  /** The command words of the lines the scanner reaches. */
  function Commands(s: string): set<string>
    decreases |s|
  {
    if s == "" || !FirstLineFits(s) then {}
    else AsSet(CommandOf(DropCR(s[..LineEnd(s)]))) + Commands(AfterLine(s))
  }

  /** The scanner reaches the end. */
  predicate ScansFully(s: string)
    decreases |s|
  {
    s == "" || (FirstLineFits(s) && ScansFully(AfterLine(s)))
  }

  /** A line that is not blank has a first word, so the test on `len(fields)` never fires. */
  lemma {:induction false} NonBlankHasField(token: string)
    ensures TrimSpace(token) != "" ==> |Fields(TrimSpace(token))| > 0
  {
    LeftTrimmed(token);
    RightTrimKeepsHead(TrimLeft(token));
  }

  lemma {:induction false} LeftTrimmed(s: string)
    ensures TrimLeft(s) != "" ==> !IsSpace(TrimLeft(s)[0])
    decreases |s|
  {
    if s != "" && IsSpace(s[0]) {
      LeftTrimmed(s[1..]);
    }
  }

  lemma {:induction false} RightTrimKeepsHead(s: string)
    ensures TrimRight(s) != "" ==> s != "" && TrimRight(s)[0] == s[0]
    decreases |s|
  {
    if s != "" && IsSpace(s[|s| - 1]) {
      RightTrimKeepsHead(s[..|s| - 1]);
    }
  }

  lemma {:induction false} FirstLineStep(rest: string)
    requires rest != "" && FirstLineFits(rest)
    ensures Commands(rest) == AsSet(CommandOf(DropCR(rest[..LineEnd(rest)]))) + Commands(AfterLine(rest))
    ensures |AfterLine(rest)| < |rest|
  {}

  /** The keys of a map, in the order its iteration happens to take. */
  method KeysInSomeOrder(keys: set<string>) returns (out: seq<string>)
    ensures forall c :: c in out <==> c in keys
    ensures |out| == |keys|
  {
    out := [];
    var todo := keys;
    while todo != {}
      invariant todo <= keys && |out| + |todo| == |keys|
      invariant forall c :: c in out <==> c in keys - todo
      decreases todo
    {
      var c :| c in todo;
      out := out + [c];
      todo := todo - {c};
    }
  }

  /** One turn of the scanner loop. */
  method LineCommand(token: string) returns (command: Option<string>)
    ensures command == CommandOf(token)
  {
    var line := TrimSpace(token);
    if line == "" || HasPrefix(line, "#") {
      return None;
    }
    var fields := Fields(line);
    if |fields| == 0 {
      return None;
    }
    var cmd := fields[0];
    cmd := TrimPrefix(cmd, "|");
    cmd := TrimPrefix(cmd, "&&");
    cmd := TrimPrefix(cmd, "||");
    cmd := TrimPrefix(cmd, ";");
    if cmd == "sudo" || cmd == "su" {
      if |fields| > 1 {
        cmd := fields[1];
      }
    }
    command := Some(cmd);
  }

  method ExtractCommands(script: string) returns (out: seq<string>)
    ensures forall c :: c in out <==> c in Commands(script)
    ensures |out| == |Commands(script)|
  {
    var commands: set<string> := {};
    var rest := script;
    while rest != ""
      invariant Commands(script) == commands + Commands(rest)
      decreases |rest|
    {
      var n := LineEnd(rest);
      if ByteLength(rest[..n]) > MAX_LINE_BYTES {
        break;
      }
      FirstLineStep(rest);
      var command := LineCommand(DropCR(rest[..n]));
      rest := AfterLine(rest);
      if command.Some? {
        commands := commands + {command.value};
      }
    }
    out := KeysInSomeOrder(commands);
  }

  // ------------------------------------------------------------- patterns

  predicate MatchesCommand(cmd: string, pattern: string) {
    if cmd == pattern then true
    else if HasSuffix(pattern, "*") then HasPrefix(cmd, TrimSuffix(pattern, "*"))
    else false
  }

  lemma {:induction false} MatchesIsMembership(cmd: string, pattern: string)
    ensures MatchesCommand(cmd, pattern) <==> InPattern(cmd, pattern)
  {
    if HasSuffix(pattern, "*") {
      PrefixPattern(cmd, pattern);
    } else {
      forall prefix ensures HasSuffix(prefix + "*", "*") {}
    }
  }

  // ----------------------------------------------------------- validation

  datatype Validator = Validator(blocked: seq<string>, allowed: seq<string>, maxSize: int, maxLines: int)

  function NewValidator(blocked: seq<string>, allowed: seq<string>, maxSize: int, maxLines: int): Validator {
    Validator(blocked, allowed, if maxSize <= 0 then 524288 else maxSize, if maxLines <= 0 then 1000 else maxLines)
  }

  datatype Problem = TooLarge | TooLong | BlockedCommand(cmd: string) | NotInAllowlist(cmd: string)

  ghost predicate Blocked(v: Validator, cmd: string) {
    exists p :: p in v.blocked && InPattern(cmd, p)
  }

  ghost predicate Allowed(v: Validator, cmd: string) {
    v.allowed == [] || exists p :: p in v.allowed && InPattern(cmd, p)
  }

  ghost predicate Permitted(v: Validator, cmds: set<string>) {
    forall c :: c in cmds ==> !Blocked(v, c) && Allowed(v, c)
  }

  ghost predicate WithinBounds(v: Validator, script: string) {
    ByteLength(script) <= v.maxSize && LineCount(script) <= v.maxLines
  }

  ghost predicate Accepts(v: Validator, script: string) {
    WithinBounds(v, script) && Permitted(v, Commands(script))
  }

  method MatchesAny(cmd: string, patterns: seq<string>) returns (matched: bool)
    ensures matched <==> exists p :: p in patterns && InPattern(cmd, p)
  {
    matched := false;
    for i := 0 to |patterns|
      invariant !matched
      invariant forall j :: 0 <= j < i ==> !InPattern(cmd, patterns[j])
    {
      MatchesIsMembership(cmd, patterns[i]);
      if MatchesCommand(cmd, patterns[i]) {
        return true;
      }
    }
  }

  method FindBlocked(v: Validator, commands: seq<string>) returns (found: Option<string>)
    ensures found == None <==> forall c :: c in commands ==> !Blocked(v, c)
    ensures found.Some? ==> found.value in commands && Blocked(v, found.value)
  {
    for i := 0 to |commands|
      invariant forall j :: 0 <= j < i ==> !Blocked(v, commands[j])
    {
      var blocked := MatchesAny(commands[i], v.blocked);
      if blocked {
        assert commands[i] in commands;
        return Some(commands[i]);
      }
    }
    found := None;
  }

  method FindNotAllowed(v: Validator, commands: seq<string>) returns (found: Option<string>)
    requires v.allowed != []
    ensures found == None <==> forall c :: c in commands ==> Allowed(v, c)
    ensures found.Some? ==> found.value in commands && !Allowed(v, found.value)
  {
    for i := 0 to |commands|
      invariant forall j :: 0 <= j < i ==> Allowed(v, commands[j])
    {
      var allowed := MatchesAny(commands[i], v.allowed);
      if !allowed {
        assert commands[i] in commands;
        return Some(commands[i]);
      }
    }
    found := None;
  }

  /** The verdict is that of `Accepts` in whatever order the command words come out of the map. */
  method Validate(v: Validator, script: string) returns (problem: Option<Problem>)
    ensures problem == None <==> Accepts(v, script)
    ensures problem == Some(TooLarge) <==> ByteLength(script) > v.maxSize
    ensures problem == Some(TooLong) <==> ByteLength(script) <= v.maxSize && LineCount(script) > v.maxLines
    ensures problem.Some? && problem.value.BlockedCommand? ==>
              problem.value.cmd in Commands(script) && Blocked(v, problem.value.cmd)
    ensures problem.Some? && problem.value.NotInAllowlist? ==>
              && problem.value.cmd in Commands(script) && !Allowed(v, problem.value.cmd)
              && forall c :: c in Commands(script) ==> !Blocked(v, c)
  {
    if ByteLength(script) > v.maxSize {
      return Some(TooLarge);
    }
    if LineCount(script) > v.maxLines {
      return Some(TooLong);
    }
    var commands := ExtractCommands(script);
    var blocked := FindBlocked(v, commands);
    if blocked.Some? {
      return Some(BlockedCommand(blocked.value));
    }
    if |v.allowed| > 0 {
      var other := FindNotAllowed(v, commands);
      if other.Some? {
        return Some(NotInAllowlist(other.value));
      }
    }
    problem := None;
  }

  // ----------------------------------------------------------- composition

  lemma {:induction false} ByteLengthConcat(a: string, b: string)
    ensures ByteLength(a + b) == ByteLength(a) + ByteLength(b)
    decreases |a|
  {
    if a == "" {
      assert a + b == b;
    } else {
      assert (a + b)[0] == a[0] && (a + b)[1..] == a[1..] + b;
      ByteLengthConcat(a[1..], b);
    }
  }

  lemma {:induction false} LineCountConcat(a: string, b: string)
    ensures LineCount(a + "\n" + b) == LineCount(a) + LineCount(b)
    decreases |a|
  {
    var s := a + "\n" + b;
    if a == "" {
      assert s[0] == '\n' && s[1..] == b;
    } else {
      assert s[0] == a[0] && s[1..] == a[1..] + "\n" + b;
      LineCountConcat(a[1..], b);
    }
  }

  lemma {:induction false} LineEndConcat(a: string, b: string)
    ensures LineEnd(a + "\n" + b) == LineEnd(a)
    decreases |a|
  {
    var s := a + "\n" + b;
    if a == "" {
      assert s[0] == '\n';
    } else {
      assert s[0] == a[0] && s[1..] == a[1..] + "\n" + b;
      LineEndConcat(a[1..], b);
    }
  }

  /** One line of `a`, inside `a + "\n" + b`. */
  lemma {:induction false} FirstLineConcat(a: string, b: string)
    requires a != ""
    ensures var s := a + "\n" + b;
            && LineEnd(s) == LineEnd(a) && s[..LineEnd(s)] == a[..LineEnd(a)]
            && (LineEnd(a) < |a| ==> AfterLine(s) == AfterLine(a) + "\n" + b)
            && (LineEnd(a) == |a| ==> AfterLine(s) == b && AfterLine(a) == "")
  {
    LineEndConcat(a, b);
  }

  /** The command words of two scripts put one after the other are those of both, provided the
      scanner gets through the first; otherwise the second is never looked at. */
  lemma {:induction false} CommandsConcat(a: string, b: string)
    ensures Commands(a + "\n" + b) == Commands(a) + if ScansFully(a) then Commands(b) else {}
    ensures ScansFully(a + "\n" + b) <==> ScansFully(a) && ScansFully(b)
    decreases |a|
  {
    var s := a + "\n" + b;
    if a == "" {
      assert s[..0] == "" && LineEnd(s) == 0 && AfterLine(s) == b;
      assert CommandOf(DropCR("")) == None;
    } else {
      FirstLineConcat(a, b);
      if LineEnd(a) < |a| {
        CommandsConcat(AfterLine(a), b);
      }
    }
  }

  /** Validation of a concatenation, for all scripts. */
  lemma {:induction false} AcceptsConcat(v: Validator, a: string, b: string)
    ensures Accepts(v, a + "\n" + b) <==>
            && ByteLength(a) + 1 + ByteLength(b) <= v.maxSize
            && LineCount(a) + LineCount(b) <= v.maxLines
            && Permitted(v, Commands(a))
            && (ScansFully(a) ==> Permitted(v, Commands(b)))
  {
    ByteLengthConcat(a + "\n", b);
    ByteLengthConcat(a, "\n");
    assert ByteLength("\n") == 1 + ByteLength("\n"[1..]);
    LineCountConcat(a, b);
    CommandsConcat(a, b);
  }

  lemma {:induction false} LineCountPositive(s: string)
    ensures LineCount(s) >= 1
    decreases |s|
  {
    if s != "" {
      LineCountPositive(s[1..]);
    }
  }

  /** When every line of the first script fits the scanner, the concatenation is accepted exactly
      when both parts are and the bounds hold for the whole. */
  lemma {:induction false} AcceptsBothParts(v: Validator, a: string, b: string)
    requires ScansFully(a)
    ensures Accepts(v, a + "\n" + b) <==> Accepts(v, a) && Accepts(v, b) && WithinBounds(v, a + "\n" + b)
  {
    AcceptsConcat(v, a, b);
    ByteLengthConcat(a + "\n", b);
    ByteLengthConcat(a, "\n");
    assert ByteLength("\n") == 1 + ByteLength("\n"[1..]);
    LineCountConcat(a, b);
    LineCountPositive(a);
    LineCountPositive(b);
  }

  // ---------------------------------------------------------- line by line

  /** `strings.Split(s, "\n")`. */
  function Lines(s: string): seq<string>
    decreases |s|
  {
    if LineEnd(s) < |s| then [s[..LineEnd(s)]] + Lines(s[LineEnd(s) + 1..]) else [s]
  }

  lemma {:induction false} LineCountStep(s: string)
    ensures LineCount(s) == if LineEnd(s) < |s| then 1 + LineCount(s[LineEnd(s) + 1..]) else 1
    decreases |s|
  {
    if s != "" && s[0] != '\n' {
      LineCountStep(s[1..]);
      if LineEnd(s) < |s| {
        assert s[1..][LineEnd(s[1..]) + 1..] == s[LineEnd(s) + 1..];
      }
    }
  }

  /** The line bound counts the lines. */
  lemma {:induction false} LineCountIsLines(s: string)
    ensures LineCount(s) == |Lines(s)|
    decreases |s|
  {
    LineCountStep(s);
    if LineEnd(s) < |s| {
      LineCountIsLines(s[LineEnd(s) + 1..]);
    }
  }

  predicate Fits(line: string) {
    ByteLength(line) <= MAX_LINE_BYTES
  }

  /** The scanner gets to the i-th line, and through it. */
  predicate Reached(lines: seq<string>, i: nat)
    requires i < |lines|
  {
    forall j | 0 <= j <= i :: Fits(lines[j])
  }

  function WordOf(line: string): Option<string> {
    CommandOf(DropCR(line))
  }

  ghost predicate SomeReachedLineHas(lines: seq<string>, w: string) {
    exists i :: 0 <= i < |lines| && Reached(lines, i) && WordOf(lines[i]) == Some(w)
  }

  lemma {:induction false} ReachedStep(first: string, rest: seq<string>, i: nat)
    requires i < |rest|
    ensures Reached([first] + rest, i + 1) <==> Fits(first) && Reached(rest, i)
  {
    var lines := [first] + rest;
    if Reached(lines, i + 1) {
      assert Fits(lines[0]);
      forall j | 0 <= j <= i ensures Fits(rest[j]) {
        assert lines[j + 1] == rest[j];
      }
    }
  }

  /** Reaching into the lines after the first one. */
  lemma {:induction false} HasStep(first: string, rest: seq<string>, w: string)
    ensures SomeReachedLineHas([first] + rest, w) <==> Fits(first) && (WordOf(first) == Some(w) || SomeReachedLineHas(rest, w))
  {
    if SomeReachedLineHas([first] + rest, w) {
      HasStepDown(first, rest, w);
    }
    if Fits(first) && (WordOf(first) == Some(w) || SomeReachedLineHas(rest, w)) {
      HasStepUp(first, rest, w);
    }
  }

  lemma {:induction false} HasStepDown(first: string, rest: seq<string>, w: string)
    requires SomeReachedLineHas([first] + rest, w)
    ensures Fits(first) && (WordOf(first) == Some(w) || SomeReachedLineHas(rest, w))
  {
    var lines := [first] + rest;
    var i :| 0 <= i < |lines| && Reached(lines, i) && WordOf(lines[i]) == Some(w);
    assert Fits(lines[0]);
    if i > 0 {
      ReachedStep(first, rest, i - 1);
      assert WordOf(rest[i - 1]) == Some(w);
    }
  }

  lemma {:induction false} HasStepUp(first: string, rest: seq<string>, w: string)
    requires Fits(first) && (WordOf(first) == Some(w) || SomeReachedLineHas(rest, w))
    ensures SomeReachedLineHas([first] + rest, w)
  {
    var lines := [first] + rest;
    if WordOf(first) == Some(w) {
      assert Reached(lines, 0) && WordOf(lines[0]) == Some(w);
    } else {
      var i :| 0 <= i < |rest| && Reached(rest, i) && WordOf(rest[i]) == Some(w);
      ReachedStep(first, rest, i);
      assert WordOf(lines[i + 1]) == Some(w);
    }
  }

  lemma {:induction false} EmptyLine()
    ensures WordOf("") == None && Fits("") && Lines("") == [""]
  {
    assert DropCR("") == "" && TrimSpace("") == "";
  }

  /** The command words are those of the lines that the scanner reaches: a line counts if and only if it
      and every line before it fit. */
  lemma {:induction false} CommandsByLine(s: string, w: string)
    ensures w in Commands(s) <==> SomeReachedLineHas(Lines(s), w)
    decreases |s|
  {
    var n := LineEnd(s);
    EmptyLine();
    if n < |s| {
      CommandsByLine(s[n + 1..], w);
      HasStep(s[..n], Lines(s[n + 1..]), w);
    } else {
      assert s[..n] == s;
      assert Lines(s) == [s] + [];
      HasStep(s, [], w);
    }
  }

  predicate AllFit(lines: seq<string>) {
    forall i | 0 <= i < |lines| :: Fits(lines[i])
  }

  lemma {:induction false} AllFitStep(first: string, rest: seq<string>)
    ensures AllFit([first] + rest) <==> Fits(first) && AllFit(rest)
  {
    var lines := [first] + rest;
    if AllFit(lines) {
      assert Fits(lines[0]);
      forall i | 0 <= i < |rest| ensures Fits(rest[i]) {
        assert lines[i + 1] == rest[i];
      }
    }
  }

  /** The scanner gets through a script if and only if every line fits. */
  lemma {:induction false} ScansFullyByLine(s: string)
    ensures ScansFully(s) <==> AllFit(Lines(s))
    decreases |s|
  {
    var n := LineEnd(s);
    EmptyLine();
    if n < |s| {
      ScansFullyByLine(s[n + 1..]);
      AllFitStep(s[..n], Lines(s[n + 1..]));
      assert AfterLine(s) == s[n + 1..];
    } else {
      assert s[..n] == s && Lines(s) == [s];
      assert AfterLine(s) == "";
      assert AllFit([s]) <==> Fits([s][0]);
    }
  }

  ghost predicate LinePermitted(v: Validator, line: string) {
    WordOf(line).Some? ==> !Blocked(v, WordOf(line).value) && Allowed(v, WordOf(line).value)
  }

  ghost predicate ReachedLinesPermitted(v: Validator, lines: seq<string>) {
    forall i :: 0 <= i < |lines| && Reached(lines, i) ==> LinePermitted(v, lines[i])
  }

  lemma {:induction false} PermittedByLine(v: Validator, s: string)
    ensures Permitted(v, Commands(s)) <==> ReachedLinesPermitted(v, Lines(s))
  {
    var lines := Lines(s);
    if Permitted(v, Commands(s)) {
      forall i | 0 <= i < |lines| && Reached(lines, i) && WordOf(lines[i]).Some? ensures LinePermitted(v, lines[i]) {
        var w := WordOf(lines[i]).value;
        assert SomeReachedLineHas(lines, w);
        CommandsByLine(s, w);
      }
    }
    if ReachedLinesPermitted(v, lines) {
      forall w | w in Commands(s) ensures !Blocked(v, w) && Allowed(v, w) {
        CommandsByLine(s, w);
        var i :| 0 <= i < |lines| && Reached(lines, i) && WordOf(lines[i]) == Some(w);
        assert LinePermitted(v, lines[i]);
      }
    }
  }

  /** Validation, line by line, for all scripts: the lines that are reached must be permitted, the others
      are not looked at. */
  lemma {:induction false} AcceptsByLine(v: Validator, s: string)
    ensures Accepts(v, s) <==> WithinBounds(v, s) && ReachedLinesPermitted(v, Lines(s))
  {
    PermittedByLine(v, s);
  }

  ghost predicate EveryLinePermitted(v: Validator, s: string) {
    forall i :: 0 <= i < |Lines(s)| ==> LinePermitted(v, Lines(s)[i])
  }

  /** A script whose lines all fit is accepted if and only if the bounds hold and the command word of
      every line is permitted. */
  lemma {:induction false} AcceptsEveryLine(v: Validator, s: string)
    requires ScansFully(s)
    ensures Accepts(v, s) <==> WithinBounds(v, s) && EveryLinePermitted(v, s)
  {
    AcceptsByLine(v, s);
    ScansFullyByLine(s);
  }

  /** Exactly which scripts are accepted with a line that is not permitted: those whose reached lines
      are fine and that have such a line behind one that does not fit. */
  lemma {:induction false} AcceptsUnpermittedExactly(v: Validator, s: string)
    ensures Accepts(v, s) && !EveryLinePermitted(v, s) <==>
            && WithinBounds(v, s) && ReachedLinesPermitted(v, Lines(s))
            && (exists i, j :: 0 <= j <= i < |Lines(s)| && !Fits(Lines(s)[j]) && !LinePermitted(v, Lines(s)[i]))
  {
    AcceptsByLine(v, s);
    var lines := Lines(s);
    if Accepts(v, s) && !EveryLinePermitted(v, s) {
      var i :| 0 <= i < |lines| && !LinePermitted(v, lines[i]);
      assert !Reached(lines, i);
      var j :| 0 <= j <= i && !Fits(lines[j]);
    }
  }

  function Xs(n: nat): string {
    seq(n, i => 'x')
  }

  lemma {:induction false} XsOneLine(n: nat)
    ensures ByteLength(Xs(n)) == n && LineEnd(Xs(n)) == n && LineCount(Xs(n)) == 1
    decreases n
  {
    if n > 0 {
      assert Xs(n)[1..] == Xs(n - 1);
      XsOneLine(n - 1);
    }
  }

  lemma {:induction false} OneWord()
    ensures var w := "rm"; Commands(w) == {w} && ByteLength(w) == 2 && LineCount(w) == 1 && LineEnd(w) == 2 && WordOf(w) == Some(w)
  {
    var w := "rm";
    assert w[1..][1..] == "" && LineEnd(w[1..][1..]) == 0;
    assert LineEnd(w[1..]) == 1 && LineEnd(w) == 2 && w[..2] == w;
    assert ByteLength(w[1..]) == 1;
    assert TrimSpace(w) == w;
    assert WordEnd(w[1..]) == 1 && WordEnd(w) == 2;
    assert Fields(w) == [w] + Fields(w[2..]) && w[2..] == "";
    assert DropCR(w) == w && CommandOf(w) == Some(w);
    assert AfterLine(w) == "";
  }

  /** Under the default bounds a blocked command alone is refused, but accepted after a line of 65536
      bytes. */
  lemma {:induction false} BlockedCommandGetsThrough()
    ensures var v, s := NewValidator(["rm"], [], 0, 0), Xs(65536) + "\n" + "rm";
            && !Accepts(v, "rm") && Accepts(v, s)
            && |Lines(s)| == 2 && Lines(s)[1] == "rm" && !LinePermitted(v, Lines(s)[1])
  {
    var v, a := NewValidator(["rm"], [], 0, 0), Xs(65536);
    XsOneLine(65536);
    OneWord();
    assert Blocked(v, "rm") by {
      assert v.blocked[0] == "rm" && InPattern("rm", "rm");
    }
    LongLineHidesAll(a);
    AcceptsConcat(v, a, "rm");
    LastLine(a, "rm");
  }

  lemma {:induction false} LongLineHidesAll(a: string)
    requires LineEnd(a) == |a| && !Fits(a)
    ensures Commands(a) == {} && !ScansFully(a)
  {
    assert a[..LineEnd(a)] == a;
    EmptyLine();
  }

  lemma {:induction false} LastLine(a: string, b: string)
    requires LineEnd(a) == |a| && LineEnd(b) == |b|
    ensures Lines(a + "\n" + b) == [a, b]
  {
    LineEndConcat(a, b);
    var s := a + "\n" + b;
    assert s[..|a|] == a && s[|a| + 1..] == b;
    assert Lines(b) == [b];
  }

  // ------------------------------------- the command word, from the characters

  predicate Word(w: string) {
    w != "" && forall i | 0 <= i < |w| :: !Blank(w[i])
  }

  /** Nothing, or something that a blank sets off from the word before it. */
  predicate SetOff(s: string) {
    s == "" || Blank(s[0])
  }

  lemma {:induction false} TrimLeftSkips(pre: string, s: string)
    requires AllBlank(pre) && s != "" && !Blank(s[0])
    ensures TrimLeft(pre + s) == s
    decreases |pre|
  {
    if pre == "" {
      assert pre + s == s;
      IsSpaceIsBlank(s[0]);
    } else {
      IsSpaceIsBlank(pre[0]);
      assert (pre + s)[0] == pre[0] && (pre + s)[1..] == pre[1..] + s;
      TrimLeftSkips(pre[1..], s);
    }
  }

  /** Trimming on the right stops at a word. */
  lemma {:induction false} TrimRightAfter(w: string, rest: string)
    requires w != "" && !Blank(w[|w| - 1])
    ensures TrimRight(w + rest) == w + TrimRight(rest)
    decreases |rest|
  {
    if rest == "" {
      assert w + rest == w;
      IsSpaceIsBlank(w[|w| - 1]);
    } else {
      var last := rest[|rest| - 1];
      assert (w + rest)[|w + rest| - 1] == last && (w + rest)[..|w + rest| - 1] == w + rest[..|rest| - 1];
      if IsSpace(last) {
        TrimRightAfter(w, rest[..|rest| - 1]);
      }
    }
  }

  lemma {:induction false} BlanksTrimAway(s: string)
    requires AllBlank(s)
    ensures TrimLeft(s) == "" && TrimRight(s) == ""
    decreases |s|
  {
    if s != "" {
      IsSpaceIsBlank(s[0]);
      IsSpaceIsBlank(s[|s| - 1]);
      BlanksTrimAway(s[1..]);
      BlanksTrimAway(s[..|s| - 1]);
    }
  }

  lemma {:induction false} TrimRightSetOff(s: string)
    requires SetOff(s)
    ensures SetOff(TrimRight(s))
    ensures AllBlank(s) ==> TrimRight(s) == ""
    decreases |s|
  {
    var post := TrimRightDropsBlanks(s);
    if AllBlank(s) {
      BlanksTrimAway(s);
    } else if TrimRight(s) != "" {
      assert TrimRight(s)[0] == s[0];
    }
  }

  lemma {:induction false} WordEndAt(w: string, rest: string)
    requires Word(w) && SetOff(rest)
    ensures WordEnd(w + rest) == |w|
    decreases |w|
  {
    var s := w + rest;
    IsSpaceIsBlank(w[0]);
    assert s[0] == w[0] && s[1..] == w[1..] + rest;
    if |w| == 1 {
      assert s[1..] == rest;
      if rest != "" {
        IsSpaceIsBlank(rest[0]);
      }
    } else {
      WordEndAt(w[1..], rest);
    }
  }

  lemma {:induction false} FieldsOfWord(w: string, rest: string)
    requires Word(w) && SetOff(rest)
    ensures Fields(w + rest) == [w] + Fields(rest)
  {
    WordEndAt(w, rest);
    IsSpaceIsBlank(w[0]);
    assert (w + rest)[0] == w[0];
    assert (w + rest)[..|w|] == w && (w + rest)[|w|..] == rest;
  }

  lemma {:induction false} FieldsSkipBlanks(gap: string, s: string)
    requires AllBlank(gap)
    ensures Fields(gap + s) == Fields(s)
    decreases |gap|
  {
    if gap == "" {
      assert gap + s == s;
    } else {
      IsSpaceIsBlank(gap[0]);
      assert (gap + s)[0] == gap[0] && (gap + s)[1..] == gap[1..] + s;
      FieldsSkipBlanks(gap[1..], s);
    }
  }

  /** The first word of a line. */
  lemma {:induction false} FirstField(pre: string, w: string, tail: string)
    requires AllBlank(pre) && Word(w) && SetOff(tail)
    ensures TrimSpace(pre + w + tail) == w + TrimRight(tail)
    ensures Fields(TrimSpace(pre + w + tail)) == [w] + Fields(TrimRight(tail))
  {
    assert pre + w + tail == pre + (w + tail) && (w + tail)[0] == w[0];
    TrimLeftSkips(pre, w + tail);
    TrimRightAfter(w, tail);
    TrimRightSetOff(tail);
    FieldsOfWord(w, TrimRight(tail));
  }

  /** The word after it. */
  lemma {:induction false} SecondField(gap: string, w: string, rest: string)
    requires AllBlank(gap) && Word(w) && SetOff(rest)
    ensures Fields(TrimRight(gap + w + rest)) == [w] + Fields(TrimRight(rest))
  {
    assert gap + w + rest == (gap + w) + rest;
    TrimRightAfter(gap + w, rest);
    TrimRightSetOff(rest);
    assert TrimRight(gap + w + rest) == gap + (w + TrimRight(rest));
    FieldsSkipBlanks(gap, w + TrimRight(rest));
    FieldsOfWord(w, TrimRight(rest));
  }

  /** What is left of a first word: it loses a leading "|", then a leading "&&", then a leading "||", then
      a leading ";", each once and each only if it stands there at that moment. */
  ghost predicate LeftOf(word: string, cmd: string) {
    exists bar, and, or, semi ::
      && word == bar + and + or + semi + cmd
      && (bar == "|" || (bar == "" && !("|" <= word)))
      && (and == "&&" || (and == "" && !("&&" <= or + semi + cmd)))
      && (or == "||" || (or == "" && !("||" <= semi + cmd)))
      && (semi == ";" || (semi == "" && !(";" <= cmd)))
  }

  lemma {:induction false} TrimPrefixTakes(prefix: string, part: string, rest: string)
    requires part == prefix || (part == "" && !(prefix <= rest))
    ensures TrimPrefix(part + rest, prefix) == rest
  {
    assert part == "" ==> part + rest == rest;
  }

  lemma {:induction false} StripLeaves(word: string, cmd: string)
    requires LeftOf(word, cmd)
    ensures StripOperators(word) == cmd
  {
    var bar, and, or, semi :|
      && word == bar + and + or + semi + cmd
      && (bar == "|" || (bar == "" && !("|" <= word)))
      && (and == "&&" || (and == "" && !("&&" <= or + semi + cmd)))
      && (or == "||" || (or == "" && !("||" <= semi + cmd)))
      && (semi == ";" || (semi == "" && !(";" <= cmd)));
    StripsInOrder(word, bar, and, or, semi, cmd);
  }

  lemma {:induction false} StripsInOrder(word: string, bar: string, and: string, or: string, semi: string, cmd: string)
    requires word == bar + and + or + semi + cmd
    requires bar == "|" || (bar == "" && !("|" <= word))
    requires and == "&&" || (and == "" && !("&&" <= or + semi + cmd))
    requires or == "||" || (or == "" && !("||" <= semi + cmd))
    requires semi == ";" || (semi == "" && !(";" <= cmd))
    ensures StripOperators(word) == cmd
  {
    var r3 := semi + cmd;
    var r2 := or + r3;
    var r1 := and + r2;
    assert or + semi + cmd == r2;
    assert word == bar + r1;
    assert bar == "" ==> word == r1;
    StripsNested(word, bar, and, or, semi, cmd, r1, r2, r3);
  }

  lemma {:induction false} StripsNested(word: string, bar: string, and: string, or: string, semi: string, cmd: string, r1: string, r2: string, r3: string)
    requires word == bar + r1 && (bar == "|" || (bar == "" && !("|" <= r1)))
    requires r1 == and + r2 && (and == "&&" || (and == "" && !("&&" <= r2)))
    requires r2 == or + r3 && (or == "||" || (or == "" && !("||" <= r3)))
    requires r3 == semi + cmd && (semi == ";" || (semi == "" && !(";" <= cmd)))
    ensures StripOperators(word) == cmd
  {
    TrimPrefixTakes("|", bar, r1);
    TrimPrefixTakes("&&", and, r2);
    TrimPrefixTakes("||", or, r3);
    TrimPrefixTakes(";", semi, cmd);
  }

  predicate Elevates(cmd: string) {
    cmd == "sudo" || cmd == "su"
  }

  lemma {:induction false} WordOfFields(token: string, w0: string, more: seq<string>, cmd: string)
    requires Word(w0) && w0[0] != '#' && w0 <= TrimSpace(token) && LeftOf(w0, cmd)
    requires Fields(TrimSpace(token)) == [w0] + more
    ensures CommandOf(token) == Some(if Elevates(cmd) && |more| > 0 then more[0] else cmd)
  {
    StripLeaves(w0, cmd);
    assert TrimSpace(token)[0] == w0[0];
    assert ([w0] + more)[0] == w0;
    assert |more| > 0 ==> ([w0] + more)[1] == more[0];
  }

  /** The command word of a line with two words or more: the first one, without its operators, unless that
      is `sudo` or `su`, in which case the second. */
  lemma {:induction false} WordOfTwo(pre: string, w0: string, gap: string, w1: string, rest: string, cmd: string)
    requires AllBlank(pre) && Word(w0) && gap != "" && AllBlank(gap) && Word(w1) && SetOff(rest)
    requires w0[0] != '#' && LeftOf(w0, cmd)
    ensures CommandOf(pre + w0 + gap + w1 + rest) == Some(if Elevates(cmd) then w1 else cmd)
  {
    var tail := gap + w1 + rest;
    assert pre + w0 + gap + w1 + rest == pre + w0 + tail;
    assert tail[0] == gap[0];
    FirstField(pre, w0, tail);
    SecondField(gap, w1, rest);
    WordOfFields(pre + w0 + tail, w0, [w1] + Fields(TrimRight(rest)), cmd);
  }

  /** The command word of a line with one word. */
  lemma {:induction false} WordOfOne(pre: string, w0: string, tail: string, cmd: string)
    requires AllBlank(pre) && Word(w0) && AllBlank(tail)
    requires w0[0] != '#' && LeftOf(w0, cmd)
    ensures CommandOf(pre + w0 + tail) == Some(cmd)
  {
    FirstField(pre, w0, tail);
    TrimRightSetOff(tail);
    assert w0 + TrimRight(tail) == w0;
    WordOfFields(pre + w0 + tail, w0, [], cmd);
  }

  /** A blank line and a comment have no command word. */
  lemma {:induction false} NoWord(pre: string, s: string)
    requires AllBlank(pre)
    ensures CommandOf(pre) == None
    ensures CommandOf(pre + "#" + s) == None
  {
    BlanksTrimAway(pre);
    assert pre + "#" + s == pre + ("#" + s) && ("#" + s)[0] == '#';
    TrimLeftSkips(pre, "#" + s);
    TrimRightAfter("#", s);
  }

  /** No operator stands at the front. */
  predicate Plain(w: string) {
    !("|" <= w) && !("&&" <= w) && !(";" <= w)
  }

  lemma {:induction false} PlainIsLeft(w: string)
    requires Plain(w)
    ensures LeftOf(w, w)
  {
    assert w == "" + "" + "" + "" + w;
    assert "" + "" + w == w && "" + w == w;
    NoDoubleBar(w);
  }

  lemma {:induction false} NoDoubleBar(w: string)
    requires !("|" <= w)
    ensures !("||" <= w)
  {
    if "||" <= w {
      DoubleBarStartsWithBar(w);
    }
  }

  lemma {:induction false} DoubleBarStartsWithBar(w: string)
    requires "||" <= w
    ensures "|" <= w && "|" <= w[1..]
  {
    assert w[..1] == "|" && w[1..][..1] == "|";
  }

  /** One operator before a plain word is taken off: "|", "&&" or ";". */
  lemma {:induction false} OperatorIsTakenOff(op: string, w: string)
    requires op in {"|", "&&", ";"} && Plain(w)
    ensures LeftOf(op + w, w)
  {
    PlainIsLeft(w);
    var word := op + w;
    assert word[0] == op[0];
    NoDoubleBar(w);
    if op == "|" {
      assert word == "|" + "" + "" + "" + w && "" + "" + w == w && "" + w == w;
    } else if op == "&&" {
      assert word == "" + "&&" + "" + "" + w && "" + "" + w == w && "" + w == w;
    } else {
      assert word == "" + "" + "" + ";" + w && "" + ";" + w == word && ";" + w == word;
    }
  }

  /** But of "||" only the first bar is taken off: the test for a single bar comes first, and what it
      leaves does not start with two. */
  lemma {:induction false} DoubleBarIsHalved(w: string)
    requires Plain(w)
    ensures LeftOf("||" + w, "|" + w)
  {
    var cmd := "|" + w;
    assert "||" + w == "|" + "" + "" + "" + cmd;
    assert "" + "" + cmd == cmd && "" + cmd == cmd;
    assert cmd[0] == '|' && cmd[1..] == w;
    if "||" <= cmd {
      DoubleBarStartsWithBar(cmd);
    }
  }

  /** A line that is one plain word behind "||". */
  lemma {:induction false} BarredWord(w: string)
    requires Word(w) && Plain(w)
    ensures WordOf("||" + w) == Some("|" + w)
  {
    var s := "||" + w;
    DoubleBarIsHalved(w);
    assert Word(s) by {
      assert '|' as int == 124;
      assert forall i :: 2 <= i < |s| ==> s[i] == w[i - 2];
    }
    assert "" + s + "" == s && s[0] == '|';
    CarriageReturnIsBlank(s);
    WordOfOne("", s, "", "|" + w);
  }

  lemma {:induction false} BarredLine()
    ensures Lines("||rm") == ["||rm"] && LineCount("||rm") == 1 && ByteLength("||rm") == 4
  {
    var s := "||rm";
    assert s[1..] == "|rm" && s[1..][1..] == "rm" && s[1..][1..][1..] == "m" && s[1..][1..][1..][1..] == "";
    assert LineEnd("m") == 1 && LineEnd("rm") == 2 && LineEnd("|rm") == 3 && LineEnd(s) == 4;
    LineCountStep(s);
    assert ByteLength("m") == 1 && ByteLength("rm") == 2 && ByteLength("|rm") == 3;
  }

  lemma {:induction false} AcceptsOneLine(v: Validator, s: string, w: string)
    requires Lines(s) == [s] && WithinBounds(v, s) && WordOf(s) == Some(w) && !Blocked(v, w) && v.allowed == []
    ensures Accepts(v, s)
  {
    AcceptsByLine(v, s);
  }

  lemma {:induction false} RmIsRefused(v: Validator)
    requires v.blocked == ["rm"]
    ensures !Accepts(v, "rm") && !Blocked(v, "|rm")
  {
    OneWord();
    assert v.blocked[0] == "rm" && InPattern("rm", "rm");
    MatchesIsMembership("|rm", "rm");
    assert "|rm"[0] == '|' && "rm"[0] == 'r' && "rm"[1] == 'm';
  }

  lemma {:induction false} RmIsPlain()
    ensures Word("rm") && Plain("rm")
  {
    assert "rm"[0] as int == 114 && "rm"[1] as int == 109;
  }

  /** So a command behind "||" at the start of a line is not recognized: `rm` is blocked, `||rm` is not. */
  lemma {:induction false} DoubleBarGetsThrough()
    ensures var v := NewValidator(["rm"], [], 0, 0); !Accepts(v, "rm") && WordOf("||rm") == Some("|rm") && Accepts(v, "||rm")
  {
    var v := NewValidator(["rm"], [], 0, 0);
    RmIsRefused(v);
    RmIsPlain();
    BarredWord("rm");
    assert "||" + "rm" == "||rm" && "|" + "rm" == "|rm";
    BarredLine();
    AcceptsOneLine(v, "||rm", "|rm");
  }

  /** `sudo` and `su` hide nothing: a reached line in which one stands before a blocked word is refused. */
  lemma {:induction false} ElevatedIsRefused(v: Validator, s: string, i: nat, pre: string, w0: string, gap: string, w1: string, rest: string)
    requires i < |Lines(s)| && Reached(Lines(s), i) && Lines(s)[i] == pre + w0 + gap + w1 + rest
    requires AllBlank(pre) && w0 in {"sudo", "su"} && gap != "" && AllBlank(gap) && Word(w1) && SetOff(rest)
    requires Blocked(v, w1)
    ensures !Accepts(v, s)
  {
    ElevatorsArePlain(w0);
    CarriageReturnIsBlank(Lines(s)[i]);
    WordOfTwo(pre, w0, gap, w1, rest, w0);
    AcceptsByLine(v, s);
    assert WordOf(Lines(s)[i]) == Some(w1);
  }

  lemma {:induction false} ElevatorsArePlain(w: string)
    requires w in {"sudo", "su"}
    ensures Word(w) && LeftOf(w, w) && w[0] != '#'
  {
    assert w[0] == 's' && w[1] == 'u';
    assert |w| > 2 ==> w[2] == 'd' && w[3] == 'o' && |w| == 4;
    LettersAreNotBlank();
    PlainIsLeft(w);
  }

  lemma {:induction false} LettersAreNotBlank()
    ensures !Blank('s') && !Blank('u') && !Blank('d') && !Blank('o')
  {
    assert 's' as int == 115 && 'u' as int == 117 && 'd' as int == 100 && 'o' as int == 111;
  }

  /** The carriage return that the scanner drops would be trimmed anyway. */
  lemma {:induction false} CarriageReturnIsBlank(line: string)
    ensures WordOf(line) == CommandOf(line)
  {
    if DropCR(line) != line {
      assert line == DropCR(line) + "\r";
      TrimSpaceIgnores(DropCR(line), '\r');
    }
  }

  lemma {:induction false} TrimSpaceIgnores(s: string, c: char)
    requires Blank(c)
    ensures TrimSpace(s + [c]) == TrimSpace(s)
    decreases |s|
  {
    IsSpaceIsBlank(c);
    if s == "" {
      assert s + [c] == [c] && [c][1..] == "";
    } else if IsSpace(s[0]) {
      assert (s + [c])[0] == s[0] && (s + [c])[1..] == s[1..] + [c];
      TrimSpaceIgnores(s[1..], c);
    } else {
      assert (s + [c])[0] == s[0];
      assert (s + [c])[|s|] == c && (s + [c])[..|s|] == s;
    }
  }

  // ------------------------------------------------------- sizes and defaults

  function CountFrom(s: string, bound: int): nat {
    if s == "" then 0 else (if s[0] as int >= bound then 1 else 0) + CountFrom(s[1..], bound)
  }

  /** The bytes of a script: one for each character, and one more for each that lies beyond 0x7F, beyond
      0x7FF and beyond 0xFFFF. */
  lemma {:induction false} BytesByRange(s: string)
    ensures ByteLength(s) == |s| + CountFrom(s, 0x80) + CountFrom(s, 0x800) + CountFrom(s, 0x10000)
    decreases |s|
  {
    if s != "" {
      BytesByRange(s[1..]);
    }
  }

  /** A line of 65535 bytes is still scanned, one of 65536 is not. */
  lemma {:induction false} LongestLine(n: nat)
    ensures Fits(Xs(n)) <==> n <= 65535
  {
    XsOneLine(n);
  }

  /** The bounds that stand in for those that are not positive. */
  lemma {:induction false} Defaults(blocked: seq<string>, allowed: seq<string>, maxSize: int, maxLines: int)
    ensures var v := NewValidator(blocked, allowed, maxSize, maxLines);
            && v.blocked == blocked && v.allowed == allowed
            && (maxSize > 0 ==> v.maxSize == maxSize) && (maxSize <= 0 ==> v.maxSize == 512 * 1024)
            && (maxLines > 0 ==> v.maxLines == maxLines) && (maxLines <= 0 ==> v.maxLines == 1000)
  {}
}
