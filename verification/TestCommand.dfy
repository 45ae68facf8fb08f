/** Expansion and normalisation of `--test-command` (src/cc_loop/test_command.py). */
module TestCommand {
  import opened Option

  const INIT_FLAGS: set<string> := {
    "--goal", "--goal-file", "--repo", "--task-id", "--base-branch", "--test-command",
    "--planner-granularity", "--planner", "--reviewer", "--implementer", "--allow-merge-without-tests",
    "--max-iterations", "--max-retries", "--codex-model", "--cursor-model", "--claude-code-model",
    "--cursor-force", "--cursor-sandbox", "--max-parallel-nodes", "--allow-parallel-execution",
    "--max-wall-clock-seconds", "--max-changed-files-per-attempt", "--max-consecutive-failures",
    "--max-artifact-log-bytes", "--allow-node-policy-weakening"}

  const DOCTOR_FLAGS: set<string> := {
    "--repo", "--base-branch", "--planner", "--reviewer", "--implementer", "--test-command", "--json"}

  const GLOBAL_FLAGS: set<string> := {"--state-root", "--version"}

  const TEST_COMMAND := "--test-command"

  datatype Subcommand = Init | Doctor

  function FindSubcommand(argv: seq<string>): Option<Subcommand> {
    if argv == [] then None
    else if argv[0] == "init" then Some(Init)
    else if argv[0] == "doctor" then Some(Doctor)
    else FindSubcommand(argv[1..])
  }

  /** `_is_cc_loop_flag` */
  predicate IsFlag(token: string, sub: Subcommand) {
    token in GLOBAL_FLAGS || (sub == Init && token in INIT_FLAGS) || (sub == Doctor && token in DOCTOR_FLAGS)
  }

  /** `" ".join(parts)` */
  function Join(parts: seq<string>): string {
    if parts == [] then "" else if |parts| == 1 then parts[0] else parts[0] + " " + Join(parts[1..])
  }

  function Joined(parts: seq<string>): seq<string> {
    if parts == [] then [] else [Join(parts)]
  }

  /** Where the unseparated command ends: at the next flag of the program, or at the end. */
  function CommandEnd(argv: seq<string>, i: nat, sub: Subcommand): (j: nat)
    requires i <= |argv|
    ensures i <= j <= |argv|
    decreases |argv| - i
  {
    if i == |argv| || IsFlag(argv[i], sub) then i else CommandEnd(argv, i + 1, sub)
  }

  function ExpandFrom(argv: seq<string>, i: nat, sub: Subcommand): seq<string>
    requires i <= |argv|
    decreases |argv| - i
  {
    if i == |argv| then []
    else if argv[i] != TEST_COMMAND then [argv[i]] + ExpandFrom(argv, i + 1, sub)
    else if i + 1 == |argv| then [argv[i]]
    else if argv[i + 1] == "--" then [argv[i]] + Joined(argv[i + 2..])
    else
      var j := CommandEnd(argv, i + 1, sub);
      [argv[i]] + Joined(argv[i + 1..j]) + ExpandFrom(argv, j, sub)
  }

  function Expand(argv: seq<string>): seq<string> {
    match FindSubcommand(argv)
    case None => argv
    case Some(sub) => ExpandFrom(argv, 0, sub)
  }

  /** The inner loop: tokens up to the next flag of the program. */
  method TakeCommand(argv: seq<string>, start: nat, sub: Subcommand) returns (parts: seq<string>, i: nat)
    requires start <= |argv|
    ensures i == CommandEnd(argv, start, sub) && parts == argv[start..i]
  {
    parts, i := [], start;
    while i < |argv| && !IsFlag(argv[i], sub)
      invariant start <= i <= |argv|
      invariant parts == argv[start..i]
      invariant CommandEnd(argv, start, sub) == CommandEnd(argv, i, sub)
    {
      parts := parts + [argv[i]];
      i := i + 1;
    }
  }

  /** The command of a `--test-command` that stands before position `i`, and where to go on. */
  method TakeParts(argv: seq<string>, i: nat, sub: Subcommand) returns (parts: seq<string>, next: nat)
    requires 0 < i < |argv| && argv[i - 1] == TEST_COMMAND
    ensures i <= next <= |argv|
    ensures ExpandFrom(argv, i - 1, sub) == [TEST_COMMAND] + Joined(parts) + ExpandFrom(argv, next, sub)
  {
    if argv[i] == "--" {
      return argv[i + 1..], |argv|;
    }
    parts, next := TakeCommand(argv, i, sub);
  }

  lemma OtherToken(argv: seq<string>, i: nat, sub: Subcommand)
    requires i < |argv| && (argv[i] != TEST_COMMAND || i + 1 == |argv|)
    ensures ExpandFrom(argv, i, sub) == [argv[i]] + ExpandFrom(argv, i + 1, sub)
  {
  }

  /** One turn of the loop: what it appends, and where it goes on. */
  method TakeToken(argv: seq<string>, i: nat, sub: Subcommand) returns (appended: seq<string>, next: nat)
    requires i < |argv|
    ensures i < next <= |argv|
    ensures ExpandFrom(argv, i, sub) == appended + ExpandFrom(argv, next, sub)
  {
    appended, next := [argv[i]], i + 1;
    if argv[i] != TEST_COMMAND || next >= |argv| {
      OtherToken(argv, i, sub);
      return;
    }
    var parts;
    parts, next := TakeParts(argv, next, sub);
    if parts != [] {
      appended := appended + [Join(parts)];
    }
  }

  /** The index-driven loop of `expand_test_command_in_argv`. */
  method ExpandTestCommand(argv: seq<string>) returns (result: seq<string>)
    ensures result == Expand(argv)
  {
    var subcommand := FindSubcommand(argv);
    if subcommand.None? { return argv; }
    var sub := subcommand.value;
    result := [];
    var i := 0;
    while i < |argv|
      invariant i <= |argv|
      invariant ExpandFrom(argv, 0, sub) == result + ExpandFrom(argv, i, sub)
    {
      var appended, next := TakeToken(argv, i, sub);
      Regroup(result, appended, ExpandFrom(argv, next, sub));
      result, i := result + appended, next;
    }
  }

  lemma Regroup(a: seq<string>, b: seq<string>, c: seq<string>)
    ensures a + (b + c) == (a + b) + c
  {
  }

  // ---------------------------------------------------------------- normalisation

  datatype Result<T> = Ok(value: T) | Err(message: string)

  /** `str.isspace`: what `str.strip` removes. */
  predicate IsSpace(c: char) {
    || c == ' ' || '\t' <= c <= '\r' || '\U{1c}' <= c <= '\U{1f}' || c == '\U{85}' || c == '\U{a0}' || c == '\U{1680}'
    || '\U{2000}' <= c <= '\U{200a}' || c == '\U{2028}' || c == '\U{2029}' || c == '\U{202f}' || c == '\U{205f}' || c == '\U{3000}'
  }

  predicate IsOperator(c: char) {
    c == '|' || c == ';' || c == '&' || c == '<' || c == '>'
  }

  /** `str.strip` */
  function Strip(s: string): string {
    if s == [] then s
    else if IsSpace(s[0]) then Strip(s[1..])
    else if IsSpace(s[|s| - 1]) then Strip(s[..|s| - 1])
    else s
  }

  /** `normalize_test_command`; `split` stands for shlex.split. */
  function Normalize(split: string -> seq<string>, argv: Option<seq<string>>): Result<Option<seq<string>>> {
    match argv
    case None => Ok(None)
    case Some(args) =>
      if args == [] then Err("test_command must be a non-empty argv list")
      else
        var parts := if args[0] == "--" then args[1..] else args;
        if parts == [] then Err("test_command is empty after `--` separator")
        else if |parts| == 1 && ' ' in Strip(parts[0]) then
          if exists c | c in Strip(parts[0]) :: IsOperator(c) then Err("test_command contains shell operators")
          else Checked(split(Strip(parts[0])))
        else Checked(parts)
  }

  function Checked(parts: seq<string>): Result<Option<seq<string>>> {
    if parts == [] || "" in parts then Err("test_command must contain only non-empty strings") else Ok(Some(parts))
  }

  // ---------------------------------------------------------------- the round trip

  /** A character no shell syntax gives a meaning to. */
  predicate IsPlain(c: char) {
    !IsSpace(c) && !IsOperator(c) && c != '\'' && c != '"' && c != '\\'
  }

  predicate PlainToken(t: string) {
    t != "" && forall k | 0 <= k < |t| :: IsPlain(t[k])
  }

  predicate PlainText(s: string) {
    forall k | 0 <= k < |s| :: IsPlain(s[k]) || s[k] == ' '
  }

  /** The words of a text that only spaces separate. */
  function WordEnd(s: string): (n: nat)
    ensures n <= |s| && (forall k | 0 <= k < n :: s[k] != ' ') && (n < |s| ==> s[n] == ' ')
  {
    if s == [] || s[0] == ' ' then 0 else 1 + WordEnd(s[1..])
  }

  function Words(s: string): seq<string> {
    if s == [] then []
    else if s[0] == ' ' then Words(s[1..])
    else [s[..WordEnd(s)]] + Words(s[WordEnd(s)..])
  }

  /** What is known of shlex.split here: without quotes, backslashes or other whitespace it splits at spaces. */
  ghost predicate SplitsPlainText(split: string -> seq<string>) {
    forall s | PlainText(s) :: split(s) == Words(s)
  }

  ghost predicate PlainTokens(tokens: seq<string>) {
    tokens != [] && forall k | 0 <= k < |tokens| :: PlainToken(tokens[k])
  }

  lemma {:induction false} JoinIsPlainText(tokens: seq<string>)
    requires PlainTokens(tokens)
    ensures PlainText(Join(tokens)) && Join(tokens) != ""
    ensures IsPlain(Join(tokens)[0]) && IsPlain(Join(tokens)[|Join(tokens)| - 1])
    ensures |tokens| > 1 ==> ' ' in Join(tokens)
  {
    assert PlainToken(tokens[0]);
    if |tokens| > 1 {
      var rest := tokens[1..];
      assert forall k | 0 <= k < |rest| :: rest[k] == tokens[k + 1];
      JoinIsPlainText(rest);
      var j := Join(tokens);
      assert j == tokens[0] + " " + Join(rest);
      assert j[|tokens[0]|] == ' ';
      assert j[|j| - 1] == Join(rest)[|Join(rest)| - 1];
    }
  }

  lemma {:induction false} WordEndAfter(t: string, rest: string)
    requires (forall k | 0 <= k < |t| :: t[k] != ' ') && (rest == "" || rest[0] == ' ')
    ensures WordEnd(t + rest) == |t|
  {
    if t == "" {
      assert t + rest == rest;
    } else {
      WordEndAfter(t[1..], rest);
      assert (t + rest)[1..] == t[1..] + rest;
    }
  }

  lemma FirstWord(t: string, rest: string)
    requires PlainToken(t) && (rest == "" || rest[0] == ' ')
    ensures Words(t + rest) == [t] + Words(rest)
  {
    var s := t + rest;
    assert forall k | 0 <= k < |t| :: IsPlain(t[k]);
    WordEndAfter(t, rest);
    assert s[0] == t[0];
    assert s[..|t|] == t && s[|t|..] == rest;
  }

  lemma {:induction false} WordsOfJoin(tokens: seq<string>)
    requires PlainTokens(tokens)
    ensures Words(Join(tokens)) == tokens
  {
    assert PlainToken(tokens[0]);
    if |tokens| == 1 {
      FirstWord(tokens[0], "");
      assert tokens[0] + "" == tokens[0];
    } else {
      var rest := tokens[1..];
      assert forall k | 0 <= k < |rest| :: rest[k] == tokens[k + 1];
      WordsOfJoin(rest);
      var tail := " " + Join(rest);
      FirstWord(tokens[0], tail);
      assert tail[1..] == Join(rest);
      assert tokens[0] + tail == Join(tokens);
    }
  }

  /** The joined tokens normalise back to the tokens. */
  lemma NormalizeOfJoin(split: string -> seq<string>, tokens: seq<string>)
    requires SplitsPlainText(split) && PlainTokens(tokens) && tokens != ["--"]
    ensures Normalize(split, Some([Join(tokens)])) == Ok(Some(tokens))
  {
    var joined := Join(tokens);
    JoinIsPlainText(tokens);
    WordsOfJoin(tokens);
    assert Strip(joined) == joined;
    assert forall k | 0 <= k < |tokens| :: PlainToken(tokens[k]) && tokens[k] != "";
    if |tokens| == 1 {
      assert PlainToken(tokens[0]);
      assert tokens == [joined];
    } else {
      assert joined != "--" by { assert ' ' in joined; }
      assert forall c | c in joined :: IsPlain(c) || c == ' ';
    }
  }

  lemma {:induction false} ExpandKeepsPrefix(argv: seq<string>, i: nat, n: nat, sub: Subcommand)
    requires i <= n <= |argv| && forall k | i <= k < n :: argv[k] != TEST_COMMAND
    ensures ExpandFrom(argv, i, sub) == argv[i..n] + ExpandFrom(argv, n, sub)
    decreases n - i
  {
    if i < n {
      ExpandKeepsPrefix(argv, i + 1, n, sub);
      ExpandPlain(argv, i, sub);
      HeadOfSlice(argv, i, n, ExpandFrom(argv, n, sub));
    } else {
      assert argv[i..n] == [];
    }
  }

  lemma HeadOfSlice(argv: seq<string>, i: nat, n: nat, rest: seq<string>)
    requires i < n <= |argv|
    ensures [argv[i]] + (argv[i + 1..n] + rest) == argv[i..n] + rest
  {
  }

  lemma ExpandPlain(argv: seq<string>, i: nat, sub: Subcommand)
    requires i < |argv| && argv[i] != TEST_COMMAND
    ensures ExpandFrom(argv, i, sub) == [argv[i]] + ExpandFrom(argv, i + 1, sub)
  {
  }

  /**
   * `... --test-command -- tokens` reaches the argument parser with every argument before
   * `--test-command` unchanged and the tokens as one argument, and that argument normalises back
   * to the tokens.  The tokens themselves may be flags of the program.
   */
  lemma SeparatedCommandRoundTrips(split: string -> seq<string>, before: seq<string>, tokens: seq<string>)
    requires SplitsPlainText(split) && PlainTokens(tokens) && tokens != ["--"]
    requires TEST_COMMAND !in before && FindSubcommand(before + [TEST_COMMAND, "--"] + tokens).Some?
    ensures var r := Expand(before + [TEST_COMMAND, "--"] + tokens);
      && |r| == |before| + 2 && r[..|before|] == before && r[|before|] == TEST_COMMAND
      && Normalize(split, Some([r[|before| + 1]])) == Ok(Some(tokens))
  {
    var argv := before + [TEST_COMMAND, "--"] + tokens;
    var sub := FindSubcommand(argv).value;
    var n := |before|;
    forall k | 0 <= k < n ensures argv[k] != TEST_COMMAND { assert argv[k] in before; }
    ExpandKeepsPrefix(argv, 0, n, sub);
    assert argv[n + 2..] == tokens && argv[0..n] == before;
    NormalizeOfJoin(split, tokens);
  }

  /** Without `--test-command`, or without a subcommand that takes it, nothing is touched. */
  lemma ExpandWithoutCommand(argv: seq<string>)
    requires TEST_COMMAND !in argv || FindSubcommand(argv).None?
    ensures Expand(argv) == argv
  {
    if FindSubcommand(argv).Some? {
      ExpandKeepsPrefix(argv, 0, |argv|, FindSubcommand(argv).value);
      assert argv[0..|argv|] == argv;
    }
  }

  // ---------------------------------------------------------------- without the separator

  /** The first word of the arguments that is a subcommand decides which flags are the program's. */
  ghost predicate Calls(argv: seq<string>, sub: Subcommand) {
    exists i :: 0 <= i < |argv| && argv[i] == (if sub == Init then "init" else "doctor")
      && forall j | 0 <= j < i :: argv[j] != "init" && argv[j] != "doctor"
  }

  lemma {:induction false} SubcommandIsFirst(argv: seq<string>, sub: Subcommand)
    ensures FindSubcommand(argv) == Some(sub) <==> Calls(argv, sub)
  {
    if argv != [] {
      SubcommandIsFirst(argv[1..], sub);
      assert "init"[0] != "doctor"[0];
      if Calls(argv[1..], sub) && argv[0] != "init" && argv[0] != "doctor" {
        var i :| 0 <= i < |argv[1..]| && argv[1..][i] == (if sub == Init then "init" else "doctor")
          && forall j | 0 <= j < i :: argv[1..][j] != "init" && argv[1..][j] != "doctor";
        assert argv[i + 1] == argv[1..][i] && forall j | 0 < j < i + 1 :: argv[j] == argv[1..][j - 1];
      }
      if Calls(argv, sub) && argv[0] != "init" && argv[0] != "doctor" {
        var i :| 0 <= i < |argv| && argv[i] == (if sub == Init then "init" else "doctor")
          && forall j | 0 <= j < i :: argv[j] != "init" && argv[j] != "doctor";
        assert argv[1..][i - 1] == argv[i];
      }
    }
  }

  /** A flag of the program, where `sub` is the subcommand. */
  predicate Reserved(token: string, sub: Subcommand) {
    || token in GLOBAL_FLAGS
    || token in if sub == Init then INIT_FLAGS else DOCTOR_FLAGS
  }

  lemma {:induction false} CommandEndsAfter(argv: seq<string>, i: nat, tokens: seq<string>, after: seq<string>, sub: Subcommand)
    requires i <= |argv| && argv[i..] == tokens + after
    requires (forall k | 0 <= k < |tokens| :: !Reserved(tokens[k], sub)) && (after != [] ==> Reserved(after[0], sub))
    ensures CommandEnd(argv, i, sub) == i + |tokens|
    decreases |tokens|
  {
    if tokens == [] {
      assert tokens + after == after;
      assert after != [] ==> argv[i] == argv[i..][0];
    } else {
      assert argv[i] == argv[i..][0] && argv[i + 1..] == argv[i..][1..];
      assert (tokens + after)[1..] == tokens[1..] + after;
      CommandEndsAfter(argv, i + 1, tokens[1..], after, sub);
    }
  }

  /** From a `--test-command` whose command ends at `m` to the end. */
  lemma CommandExpands(argv: seq<string>, n: nat, m: nat, sub: Subcommand)
    requires n < m <= |argv| && argv[n] == TEST_COMMAND && (n + 1 < |argv| ==> argv[n + 1] != "--" && CommandEnd(argv, n + 1, sub) == m)
    requires forall k | 0 <= k < |argv| && (k < n || m <= k) :: argv[k] != TEST_COMMAND
    ensures ExpandFrom(argv, 0, sub) == argv[..n] + [TEST_COMMAND] + Joined(argv[n + 1..m]) + argv[m..]
  {
    ExpandKeepsPrefix(argv, 0, n, sub);
    ExpandKeepsPrefix(argv, m, |argv|, sub);
    assert argv[0..n] == argv[..n] && argv[m..|argv|] == argv[m..];
    if n + 1 == |argv| {
      assert argv[n + 1..m] == [] && argv[m..] == [];
    } else {
      assert ExpandFrom(argv, n, sub) == [TEST_COMMAND] + Joined(argv[n + 1..m]) + ExpandFrom(argv, m, sub);
    }
    Regroup(argv[..n], [TEST_COMMAND] + Joined(argv[n + 1..m]), argv[m..]);
    Regroup(argv[..n], [TEST_COMMAND], Joined(argv[n + 1..m]));
  }

  /** The arguments with a `--test-command` in them. */
  function With(before: seq<string>, tokens: seq<string>, after: seq<string>): seq<string> {
    before + [TEST_COMMAND] + (tokens + after)
  }

  lemma TokensEnd(before: seq<string>, tokens: seq<string>, after: seq<string>, sub: Subcommand)
    requires (forall k | 0 <= k < |tokens| :: !Reserved(tokens[k], sub)) && (after != [] ==> Reserved(after[0], sub))
    ensures CommandEnd(With(before, tokens, after), |before| + 1, sub) == |before| + 1 + |tokens|
  {
    assert With(before, tokens, after)[|before| + 1..] == tokens + after;
    CommandEndsAfter(With(before, tokens, after), |before| + 1, tokens, after, sub);
  }

  lemma WithExpands(before: seq<string>, tokens: seq<string>, after: seq<string>, sub: Subcommand)
    requires CommandEnd(With(before, tokens, after), |before| + 1, sub) == |before| + 1 + |tokens|
    requires TEST_COMMAND !in before && TEST_COMMAND !in after && (tokens + after != [] ==> (tokens + after)[0] != "--")
    ensures ExpandFrom(With(before, tokens, after), 0, sub) == before + [TEST_COMMAND] + Joined(tokens) + after
  {
    var argv := With(before, tokens, after);
    assert argv[..|before|] == before;
    Parts(before, tokens, after);
    CommandExpands(argv, |before|, |before| + 1 + |tokens|, sub);
  }

  /**
   * `--test-command tokens` without a separator takes the tokens up to the next flag of the program, or
   * to the end: they become one argument, which `NormalizeOfJoin` reads back, none where there are
   * none, and all else is unchanged.
   */
  lemma UnseparatedCommandExpands(before: seq<string>, tokens: seq<string>, after: seq<string>, sub: Subcommand)
    requires Calls(With(before, tokens, after), sub) && TEST_COMMAND !in before && TEST_COMMAND !in after
    requires (forall k | 0 <= k < |tokens| :: !Reserved(tokens[k], sub)) && (after != [] ==> Reserved(after[0], sub))
    requires tokens + after != [] ==> (tokens + after)[0] != "--"
    ensures Expand(With(before, tokens, after)) == before + [TEST_COMMAND] + (if tokens == [] then [] else [Join(tokens)]) + after
  {
    TokensEnd(before, tokens, after, sub);
    WithExpands(before, tokens, after, sub);
    SubcommandIsFirst(With(before, tokens, after), sub);
    ExpandsTo(With(before, tokens, after), sub, before, tokens, after);
  }

  lemma ExpandsTo(argv: seq<string>, sub: Subcommand, before: seq<string>, tokens: seq<string>, after: seq<string>)
    requires FindSubcommand(argv) == Some(sub) && ExpandFrom(argv, 0, sub) == before + [TEST_COMMAND] + Joined(tokens) + after
    ensures Expand(argv) == before + [TEST_COMMAND] + (if tokens == [] then [] else [Join(tokens)]) + after
  {
  }

  lemma Parts(before: seq<string>, tokens: seq<string>, after: seq<string>)
    requires TEST_COMMAND !in before && TEST_COMMAND !in after
    ensures var argv, n, m := With(before, tokens, after), |before|, |before| + 1 + |tokens|;
      && argv[n] == TEST_COMMAND && argv[n + 1..m] == tokens && argv[m..] == after
      && (n + 1 < |argv| ==> argv[n + 1] == (tokens + after)[0])
      && forall k | 0 <= k < |argv| && (k < n || m <= k) :: argv[k] != TEST_COMMAND
  {
    var argv, n, m := With(before, tokens, after), |before|, |before| + 1 + |tokens|;
    forall k | 0 <= k < |argv| && (k < n || m <= k) ensures argv[k] != TEST_COMMAND {
      assert if k < n then argv[k] in before else argv[k] in after;
    }
  }

  // ---------------------------------------------------------------- refusals

  /** What is left of a command without its separator. */
  function Unseparated(args: seq<string>): seq<string> {
    if args != [] && args[0] == "--" then args[1..] else args
  }

  /**
   * A single argument with a space inside is a command line, and is split; any other argument list is
   * taken as it is.
   */
  predicate IsCommandLine(args: seq<string>) {
    |Unseparated(args)| == 1 && ' ' in Strip(Unseparated(args)[0])
  }

  /**
   * A command is refused exactly where nothing is left of it, an argument is empty, or it is a command
   * line with a shell operator in it; otherwise it comes out as its words.
   */
  lemma NormalizeRefusesExactlyWhen(split: string -> seq<string>, args: seq<string>)
    ensures var words := if IsCommandLine(args) then split(Strip(Unseparated(args)[0])) else Unseparated(args);
      var operator := IsCommandLine(args) && exists c | c in Strip(Unseparated(args)[0]) :: c in {'|', ';', '&', '<', '>'};
      && (Normalize(split, Some(args)).Err? <==> words == [] || "" in words || operator)
      && (Normalize(split, Some(args)).Ok? ==> Normalize(split, Some(args)) == Ok(Some(words)))
  {
    if IsCommandLine(args) {
      var text := Strip(Unseparated(args)[0]);
      assert (exists c | c in text :: IsOperator(c)) <==> exists c | c in text :: c in {'|', ';', '&', '<', '>'};
    }
  }

  /** Without a command there is none to refuse. */
  lemma NoCommandStaysNone(split: string -> seq<string>)
    ensures Normalize(split, None) == Ok(None)
  {
  }
}
