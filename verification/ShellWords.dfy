/**
  The shell encoding of a plan (scripts/pre-push-gate-plan.js), judged against a reader for
  the quoting rules it relies on: sections 2.2.1 (escape character) and 2.2.2 (single quotes)
  of the POSIX Shell Command Language (IEEE Std 1003.1-2017).
 */
module ShellWords {
  import opened Wrappers
  import opened Text

  // ----- The encoder -----

  /** Each single quote becomes: close, escaped quote, reopen. */
  function Escape(s: string): string {
    if s == "" then ""
    else (if s[0] == '\'' then "'\\''" else [s[0]]) + Escape(s[1..])
  }

  function ShellQuote(value: string): string {
    "'" + Escape(value) + "'"
  }

  function Map(f: string -> string, s: seq<string>): seq<string> {
    seq(|s|, i requires 0 <= i < |s| => f(s[i]))
  }

  function ShellArgs(paths: seq<string>): string {
    JoinWith(Map(ShellQuote, paths), " ")
  }

  datatype Entry = Entry(key: string, value: string)

  function Assignment(e: Entry): string {
    e.key + "=" + ShellQuote(e.value)
  }

  function Assignments(entries: seq<Entry>): string {
    JoinWith(seq(|entries|, i requires 0 <= i < |entries| => Assignment(entries[i])), "\n")
  }

  /** The fields of a plan that toShell prints, with numbers already converted to text. */
  datatype Printed = Printed(
    version: string, mode: string, hash: string, coordSuite: string, summary: string, changedCount: string,
    runDashboard: bool, runServer: bool, runPerf: bool, runAudit: bool, auditStrict: bool,
    dashboardArgs: seq<string>, serverArgs: seq<string>)

  function Flag(b: bool): string { if b then "1" else "0" }

  function Entries(p: Printed): seq<Entry> {
    [ Entry("GATE_PLAN_VERSION", p.version),
      Entry("GATE_MODE", p.mode),
      Entry("GATE_PLAN_HASH", p.hash),
      Entry("GATE_COORD_SUITE", p.coordSuite),
      Entry("GATE_PLAN_SUMMARY", p.summary),
      Entry("GATE_CHANGED_COUNT", p.changedCount),
      Entry("GATE_RUN_DASHBOARD", Flag(p.runDashboard)),
      Entry("GATE_RUN_SERVER", Flag(p.runServer)),
      Entry("GATE_RUN_PERF", Flag(p.runPerf)),
      Entry("GATE_RUN_AUDIT", Flag(p.runAudit)),
      Entry("GATE_AUDIT_STRICT", Flag(p.auditStrict)),
      Entry("GATE_DASHBOARD_TEST_ARGS", ShellArgs(p.dashboardArgs)),
      Entry("GATE_SERVER_TEST_ARGS", ShellArgs(p.serverArgs)) ]
  }

  function ToShell(p: Printed): string {
    Assignments(Entries(p))
  }

  // ----- The reader -----

  /** A character of a word, and whether it was quoted. */
  datatype Glyph = Glyph(c: char, quoted: bool)

  datatype Token = Word(glyphs: seq<Glyph>) | Newline

  datatype Mode = Plain | Escaped | Quoted

  /** The word being read, if one has begun; '' begins an empty one. */
  type Open = Option<seq<Glyph>>

  function WordSoFar(open: Open): seq<Glyph> {
    if open.Some? then open.value else []
  }

  function Finish(open: Open): seq<Token> {
    if open.Some? then [Word(open.value)] else []
  }

  /** Characters that mean something to the shell beyond the two quoting rules read here. */
  predicate Special(c: char) {
    c in {'"', '$', '`', '|', '&', ';', '<', '>', '(', ')', '*', '?', '[', '#', '~', '{', '}', '!'}
  }

  /**
    Tokens of a shell text in a given mode, or None if a quote is left open or the text uses
    anything outside the two rules.
   */
  function Read(s: string, mode: Mode, open: Open): Option<seq<Token>> {
    if s == "" then
      if mode.Plain? then Some(Finish(open)) else None
    else
      var c, rest := s[0], s[1..];
      match mode
      case Quoted =>
        if c == '\'' then Read(rest, Plain, open)
        else Read(rest, Quoted, Some(WordSoFar(open) + [Glyph(c, true)]))
      case Escaped =>
        // an escaped newline is a line continuation and leaves nothing behind
        if c == '\n' then Read(rest, Plain, open)
        else Read(rest, Plain, Some(WordSoFar(open) + [Glyph(c, true)]))
      case Plain =>
        if c == '\'' then Read(rest, Quoted, Some(WordSoFar(open)))
        else if c == '\\' then Read(rest, Escaped, open)
        else if c == ' ' || c == '\t' then Prepend(Finish(open), Read(rest, Plain, None))
        else if c == '\n' then Prepend(Finish(open) + [Newline], Read(rest, Plain, None))
        else if Special(c) then None
        else Read(rest, Plain, Some(WordSoFar(open) + [Glyph(c, false)]))
  }

  function Prepend(tokens: seq<Token>, more: Option<seq<Token>>): Option<seq<Token>> {
    if more.Some? then Some(tokens + more.value) else None
  }

  /** Quote removal. */
  function Unquote(glyphs: seq<Glyph>): string {
    seq(|glyphs|, i requires 0 <= i < |glyphs| => glyphs[i].c)
  }

  function Words(tokens: seq<Token>): Option<seq<string>> {
    if tokens == [] then Some([])
    else if tokens[0].Newline? then None
    else
      var more := Words(tokens[1..]);
      if more.Some? then Some([Unquote(tokens[0].glyphs)] + more.value) else None
  }

  /** Splitting a one-line text into arguments; an unquoted newline would end the command. */
  function SplitArgs(s: string): Option<seq<string>> {
    var tokens := Read(s, Plain, None);
    if tokens.Some? then Words(tokens.value) else None
  }

  predicate NameChar(c: char) {
    'A' <= c <= 'Z' || 'a' <= c <= 'z' || '0' <= c <= '9' || c == '_'
  }

  /** The variable assigned by a word: an unquoted name, an unquoted '=', and the rest. */
  function SplitAssignment(glyphs: seq<Glyph>, name: string): Option<Entry> {
    if glyphs == [] || glyphs[0].quoted then None
    else if glyphs[0].c == '=' then
      if name != "" && !('0' <= name[0] <= '9') then Some(Entry(name, Unquote(glyphs[1..]))) else None
    else if NameChar(glyphs[0].c) then SplitAssignment(glyphs[1..], name + [glyphs[0].c])
    else None
  }

  /** The environment after the assignments of a script that contains nothing else. */
  function Evaluate(tokens: seq<Token>, env: map<string, string>): Option<map<string, string>> {
    if tokens == [] then Some(env)
    else if tokens[0].Newline? then Evaluate(tokens[1..], env)
    else
      var e := SplitAssignment(tokens[0].glyphs, "");
      if e.Some? then Evaluate(tokens[1..], env[e.value.key := e.value.value]) else None
  }

  function RunScript(s: string): Option<map<string, string>> {
    var tokens := Read(s, Plain, None);
    if tokens.Some? then Evaluate(tokens.value, map[]) else None
  }

  // ----- Round trips -----

  function Glyphs(s: string, quoted: bool): seq<Glyph> {
    seq(|s|, i requires 0 <= i < |s| => Glyph(s[i], quoted))
  }

  lemma ReadClose(rest: string, open: Open)
    ensures Read("'" + rest, Quoted, open) == Read(rest, Plain, open)
  {
    assert ("'" + rest)[1..] == rest;
  }

  /** The four characters for an escaped quote: close, escape, quote, reopen. */
  lemma ReadEscapedQuote(rest: string, word: seq<Glyph>)
    ensures Read("'\\''" + rest, Quoted, Some(word)) == Read(rest, Quoted, Some(word + [Glyph('\'', true)]))
  {
    var t1, t2, t3 := "\\''" + rest, "''" + rest, "'" + rest;
    assert "'\\''" + rest == "'" + t1 && t1[1..] == t2 && t2[1..] == t3 && t3[1..] == rest;
    ReadClose(t1, Some(word));
    assert Read(t1, Plain, Some(word)) == Read(t2, Escaped, Some(word));
    assert Read(t2, Escaped, Some(word)) == Read(t3, Plain, Some(word + [Glyph('\'', true)]));
  }

  lemma ReadOrdinary(c: char, rest: string, word: seq<Glyph>)
    requires c != '\''
    ensures Read([c] + rest, Quoted, Some(word)) == Read(rest, Quoted, Some(word + [Glyph(c, true)]))
  {
    assert ([c] + rest)[1..] == rest;
  }

  /** Reading an escaped text up to its closing quote adds exactly its characters to the word. */
  lemma {:induction false} ReadEscape(s: string, tail: string, word: seq<Glyph>)
    ensures Read(Escape(s) + "'" + tail, Quoted, Some(word)) == Read(tail, Plain, Some(word + Glyphs(s, true)))
    decreases |s|
  {
    if s == "" {
      assert Escape(s) + "'" + tail == "'" + tail;
      ReadClose(tail, Some(word));
      assert word + Glyphs(s, true) == word;
    } else {
      var more := word + [Glyph(s[0], true)];
      var rest := Escape(s[1..]) + "'" + tail;
      ReadEscape(s[1..], tail, more);
      assert more + Glyphs(s[1..], true) == word + Glyphs(s, true);
      EscapeHead(s, tail);
      if s[0] == '\'' {
        ReadEscapedQuote(rest, word);
      } else {
        ReadOrdinary(s[0], rest, word);
      }
    }
  }

  lemma EscapeHead(s: string, tail: string)
    requires s != ""
    ensures Escape(s) + "'" + tail ==
            (if s[0] == '\'' then "'\\''" else [s[0]]) + (Escape(s[1..]) + "'" + tail)
  {
    Regroup(if s[0] == '\'' then "'\\''" else [s[0]], Escape(s[1..]), "'", tail);
  }

  lemma Regroup(a: string, b: string, c: string, d: string)
    ensures a + b + c + d == a + (b + c + d)
  {}

  /** A quoted value read after anything unquoted continues or begins a word with it. */
  lemma ReadQuoted(value: string, tail: string, open: Open)
    ensures Read(ShellQuote(value) + tail, Plain, open) ==
            Read(tail, Plain, Some(WordSoFar(open) + Glyphs(value, true)))
  {
    var t := ShellQuote(value) + tail;
    assert t[1..] == Escape(value) + "'" + tail;
    ReadEscape(value, tail, WordSoFar(open));
  }

  ghost function QuotedWords(paths: seq<string>): seq<Token> {
    seq(|paths|, i requires 0 <= i < |paths| => Word(Glyphs(paths[i], true)))
  }

  lemma {:induction false} ReadArgs(paths: seq<string>)
    ensures Read(ShellArgs(paths), Plain, None) == Some(QuotedWords(paths))
  {
    var parts := Map(ShellQuote, paths);
    if |paths| == 1 {
      ReadQuoted(paths[0], "", None);
      assert ShellQuote(paths[0]) + "" == ShellArgs(paths);
      assert [] + Glyphs(paths[0], true) == Glyphs(paths[0], true);
      assert QuotedWords(paths) == [Word(Glyphs(paths[0], true))];
    } else if |paths| > 1 {
      assert parts[1..] == Map(ShellQuote, paths[1..]);
      var rest := ShellArgs(paths[1..]);
      assert ShellArgs(paths) == ShellQuote(paths[0]) + (" " + rest);
      ReadQuoted(paths[0], " " + rest, None);
      assert [] + Glyphs(paths[0], true) == Glyphs(paths[0], true);
      assert (" " + rest)[1..] == rest;
      ReadArgs(paths[1..]);
      assert QuotedWords(paths) == [Word(Glyphs(paths[0], true))] + QuotedWords(paths[1..]);
    }
  }

  lemma {:induction false} WordsOf(paths: seq<string>)
    ensures Words(QuotedWords(paths)) == Some(paths)
  {
    if paths != [] {
      WordsOf(paths[1..]);
      assert QuotedWords(paths)[1..] == QuotedWords(paths[1..]);
      assert Unquote(Glyphs(paths[0], true)) == paths[0];
      assert [paths[0]] + paths[1..] == paths;
    }
  }

  /** Splitting the encoded arguments gives back the paths, whatever characters they contain. */
  lemma ArgsRoundTrip(paths: seq<string>)
    ensures SplitArgs(ShellArgs(paths)) == Some(paths)
  {
    ReadArgs(paths);
    WordsOf(paths);
  }

  // ----- Assignments -----

  predicate IsName(s: string) {
    s != "" && !('0' <= s[0] <= '9') && forall i :: 0 <= i < |s| ==> NameChar(s[i])
  }

  lemma {:induction false} ReadName(key: string, tail: string, before: seq<Glyph>)
    requires forall i :: 0 <= i < |key| ==> NameChar(key[i]) || key[i] == '='
    ensures Read(key + tail, Plain, if before == [] then None else Some(before)) ==
            Read(tail, Plain, if before + Glyphs(key, false) == [] then None else Some(before + Glyphs(key, false)))
  {
    if key == "" {
      assert key + tail == tail && before + Glyphs(key, false) == before;
    } else {
      var more := before + [Glyph(key[0], false)];
      assert key + tail == [key[0]] + (key[1..] + tail);
      ReadNameChar(key[0], key[1..] + tail, if before == [] then None else Some(before));
      ReadName(key[1..], tail, more);
      assert more + Glyphs(key[1..], false) == before + Glyphs(key, false);
    }
  }

  lemma ReadNameChar(c: char, rest: string, open: Open)
    requires NameChar(c) || c == '='
    ensures Read([c] + rest, Plain, open) == Read(rest, Plain, Some(WordSoFar(open) + [Glyph(c, false)]))
  {
    assert ([c] + rest)[1..] == rest;
  }

  ghost function AssignmentGlyphs(e: Entry): seq<Glyph> {
    Glyphs(e.key + "=", false) + Glyphs(e.value, true)
  }

  lemma ReadAssignment(e: Entry, tail: string)
    requires IsName(e.key)
    ensures Read(Assignment(e) + tail, Plain, None) == Read(tail, Plain, Some(AssignmentGlyphs(e)))
  {
    var name := e.key + "=";
    assert Assignment(e) + tail == name + (ShellQuote(e.value) + tail);
    ReadName(name, ShellQuote(e.value) + tail, []);
    assert [] + Glyphs(name, false) == Glyphs(name, false);
    ReadQuoted(e.value, tail, Some(Glyphs(name, false)));
  }

  lemma {:induction false} SplitName(key: string, value: seq<Glyph>, done: string)
    requires forall i :: 0 <= i < |key| ==> NameChar(key[i])
    requires done + key != "" && !('0' <= (done + key)[0] <= '9')
    ensures SplitAssignment(Glyphs(key + "=", false) + value, done) == Some(Entry(done + key, Unquote(value)))
  {
    var glyphs := Glyphs(key + "=", false) + value;
    if key == "" {
      assert glyphs[1..] == value && done + key == done;
    } else {
      assert glyphs[1..] == Glyphs(key[1..] + "=", false) + value;
      assert done + [key[0]] + key[1..] == done + key;
      SplitName(key[1..], value, done + [key[0]]);
    }
  }

  /** The variables set by a list of entries; a later one wins. */
  ghost function Environment(entries: seq<Entry>, env: map<string, string>): map<string, string> {
    if entries == [] then env else Environment(entries[1..], env[entries[0].key := entries[0].value])
  }

  ghost function ScriptTokens(entries: seq<Entry>): seq<Token> {
    if entries == [] then []
    else if |entries| == 1 then [Word(AssignmentGlyphs(entries[0]))]
    else [Word(AssignmentGlyphs(entries[0])), Newline] + ScriptTokens(entries[1..])
  }

  lemma {:induction false} ReadScript(entries: seq<Entry>)
    requires forall i :: 0 <= i < |entries| ==> IsName(entries[i].key)
    ensures Read(Assignments(entries), Plain, None) == Some(ScriptTokens(entries))
  {
    if |entries| == 0 {
      assert Assignments(entries) == "";
    } else if |entries| == 1 {
      ReadAssignment(entries[0], "");
      assert Assignment(entries[0]) + "" == Assignments(entries);
    } else {
      var rest := Assignments(entries[1..]);
      var parts := seq(|entries|, i requires 0 <= i < |entries| => Assignment(entries[i]));
      assert parts[1..] == seq(|entries[1..]|, i requires 0 <= i < |entries[1..]| => Assignment(entries[1..][i]));
      assert Assignments(entries) == Assignment(entries[0]) + ("\n" + rest);
      ReadAssignment(entries[0], "\n" + rest);
      ReadNewline(rest, AssignmentGlyphs(entries[0]));
      ReadScript(entries[1..]);
    }
  }

  lemma ReadNewline(rest: string, word: seq<Glyph>)
    ensures Read("\n" + rest, Plain, Some(word)) == Prepend([Word(word), Newline], Read(rest, Plain, None))
  {
    assert ("\n" + rest)[1..] == rest;
    assert Finish(Some(word)) + [Newline] == [Word(word), Newline];
  }

  /** Evaluating the tokens of printed entries sets exactly their values. */
  lemma {:induction false} EvaluateScript(entries: seq<Entry>, env: map<string, string>)
    requires forall i :: 0 <= i < |entries| ==> IsName(entries[i].key)
    ensures Evaluate(ScriptTokens(entries), env) == Some(Environment(entries, env))
  {
    if entries != [] {
      var e := entries[0];
      var next := env[e.key := e.value];
      SplitName(e.key, Glyphs(e.value, true), "");
      assert "" + e.key == e.key && Unquote(Glyphs(e.value, true)) == e.value;
      var tokens := ScriptTokens(entries);
      if |entries| == 1 {
        assert tokens[1..] == [] && entries[1..] == [];
      } else {
        EvaluateScript(entries[1..], next);
        var more := ScriptTokens(entries[1..]);
        assert tokens[1..] == [Newline] + more && ([Newline] + more)[1..] == more;
      }
    }
  }

  lemma {:induction false} EnvironmentHas(entries: seq<Entry>, env: map<string, string>, k: nat)
    requires k < |entries|
    requires forall i :: k < i < |entries| ==> entries[i].key != entries[k].key
    ensures entries[k].key in Environment(entries, env)
    ensures Environment(entries, env)[entries[k].key] == entries[k].value
    decreases k
  {
    if k == 0 {
      KeyKept(entries[1..], env[entries[0].key := entries[0].value], entries[0].key);
    } else {
      EnvironmentHas(entries[1..], env[entries[0].key := entries[0].value], k - 1);
    }
  }

  lemma {:induction false} KeyKept(entries: seq<Entry>, env: map<string, string>, key: string)
    requires key in env
    requires forall i :: 0 <= i < |entries| ==> entries[i].key != key
    ensures key in Environment(entries, env) && Environment(entries, env)[key] == env[key]
  {
    if entries != [] {
      KeyKept(entries[1..], env[entries[0].key := entries[0].value], key);
    }
  }

  lemma PlanKeysAreNames()
    ensures IsName("GATE_PLAN_VERSION") && IsName("GATE_MODE") && IsName("GATE_PLAN_HASH")
    ensures IsName("GATE_COORD_SUITE") && IsName("GATE_PLAN_SUMMARY") && IsName("GATE_CHANGED_COUNT")
  {}

  lemma RunKeysAreNames()
    ensures IsName("GATE_RUN_DASHBOARD") && IsName("GATE_RUN_SERVER") && IsName("GATE_RUN_PERF")
    ensures IsName("GATE_RUN_AUDIT") && IsName("GATE_AUDIT_STRICT")
  {}

  lemma ArgsKeysAreNames()
    ensures IsName("GATE_DASHBOARD_TEST_ARGS") && IsName("GATE_SERVER_TEST_ARGS")
  {}

  lemma KeysAreNames(p: Printed)
    ensures forall i :: 0 <= i < |Entries(p)| ==> IsName(Entries(p)[i].key)
  {
    PlanKeysAreNames();
    RunKeysAreNames();
    ArgsKeysAreNames();
  }

  /** Length and eleventh character tell the keys apart. */
  function KeyMark(key: string): (nat, char) {
    (|key|, if |key| > 10 then key[10] else ' ')
  }

  lemma PlanKeyMarks()
    ensures KeyMark("GATE_PLAN_VERSION") == (17, 'V') && KeyMark("GATE_MODE") == (9, ' ')
    ensures KeyMark("GATE_PLAN_HASH") == (14, 'H') && KeyMark("GATE_COORD_SUITE") == (16, '_')
    ensures KeyMark("GATE_PLAN_SUMMARY") == (17, 'S') && KeyMark("GATE_CHANGED_COUNT") == (18, 'E')
  {}

  lemma RunKeyMarks()
    ensures KeyMark("GATE_RUN_DASHBOARD") == (18, 'A') && KeyMark("GATE_RUN_SERVER") == (15, 'E')
    ensures KeyMark("GATE_RUN_PERF") == (13, 'E') && KeyMark("GATE_RUN_AUDIT") == (14, 'U')
    ensures KeyMark("GATE_AUDIT_STRICT") == (17, '_')
    ensures KeyMark("GATE_DASHBOARD_TEST_ARGS") == (24, 'O') && KeyMark("GATE_SERVER_TEST_ARGS") == (21, 'R')
  {}

  lemma KeysDiffer(p: Printed)
    ensures forall i, j :: 0 <= i < j < |Entries(p)| ==> Entries(p)[i].key != Entries(p)[j].key
  {
    var marks := [(17, 'V'), (9, ' '), (14, 'H'), (16, '_'), (17, 'S'), (18, 'E'), (18, 'A'), (15, 'E'), (13, 'E'),
                  (14, 'U'), (17, '_'), (24, 'O'), (21, 'R')];
    PlanKeyMarks();
    RunKeyMarks();
    forall i | 0 <= i < |Entries(p)| ensures KeyMark(Entries(p)[i].key) == marks[i] {
    }
  }

  lemma {:induction false} EnvironmentKeys(entries: seq<Entry>, env: map<string, string>, key: string)
    ensures key in Environment(entries, env) <==> key in env || exists i :: 0 <= i < |entries| && entries[i].key == key
  {
    if entries != [] {
      EnvironmentKeys(entries[1..], env[entries[0].key := entries[0].value], key);
      assert forall i :: 0 < i < |entries| ==> entries[i] == entries[1..][i - 1];
    }
  }

  /** The script sets the entries' variables, and no others. */
  lemma ScriptSets(p: Printed) returns (env: map<string, string>)
    ensures RunScript(ToShell(p)) == Some(env)
    ensures forall i :: 0 <= i < |Entries(p)| ==>
              Entries(p)[i].key in env && env[Entries(p)[i].key] == Entries(p)[i].value
    ensures forall key :: key in env <==> exists i :: 0 <= i < |Entries(p)| && Entries(p)[i].key == key
  {
    KeysAreNames(p);
    KeysDiffer(p);
    ReadScript(Entries(p));
    EvaluateScript(Entries(p), map[]);
    env := Environment(Entries(p), map[]);
    forall i | 0 <= i < |Entries(p)|
      ensures Entries(p)[i].key in env && env[Entries(p)[i].key] == Entries(p)[i].value
    {
      EnvironmentHas(Entries(p), map[], i);
    }
    forall key ensures key in env <==> exists i :: 0 <= i < |Entries(p)| && Entries(p)[i].key == key {
      EnvironmentKeys(Entries(p), map[], key);
    }
  }

  /** The variable is set to this value. */
  ghost predicate Has(env: map<string, string>, key: string, value: string) {
    key in env && env[key] == value
  }

  /** What a run of the printed script has to set, variable by variable, besides the argument lists. */
  ghost predicate FieldsSet(p: Printed, env: map<string, string>) {
    && Has(env, "GATE_PLAN_VERSION", p.version)
    && Has(env, "GATE_MODE", p.mode)
    && Has(env, "GATE_PLAN_HASH", p.hash)
    && Has(env, "GATE_COORD_SUITE", p.coordSuite)
    && Has(env, "GATE_PLAN_SUMMARY", p.summary)
    && Has(env, "GATE_CHANGED_COUNT", p.changedCount)
    && FlagsSet(p, env)
  }

  ghost predicate FlagsSet(p: Printed, env: map<string, string>) {
    && Has(env, "GATE_RUN_DASHBOARD", if p.runDashboard then "1" else "0")
    && Has(env, "GATE_RUN_SERVER", if p.runServer then "1" else "0")
    && Has(env, "GATE_RUN_PERF", if p.runPerf then "1" else "0")
    && Has(env, "GATE_RUN_AUDIT", if p.runAudit then "1" else "0")
    && Has(env, "GATE_AUDIT_STRICT", if p.auditStrict then "1" else "0")
  }

  const VARIABLES: set<string> :=
    { "GATE_PLAN_VERSION", "GATE_MODE", "GATE_PLAN_HASH", "GATE_COORD_SUITE", "GATE_PLAN_SUMMARY",
      "GATE_CHANGED_COUNT", "GATE_RUN_DASHBOARD", "GATE_RUN_SERVER", "GATE_RUN_PERF", "GATE_RUN_AUDIT",
      "GATE_AUDIT_STRICT", "GATE_DASHBOARD_TEST_ARGS", "GATE_SERVER_TEST_ARGS" }

  lemma KeysAreVariables(p: Printed, key: string)
    ensures (exists i :: 0 <= i < |Entries(p)| && Entries(p)[i].key == key) <==> key in VARIABLES
  {
    if key in VARIABLES {
      var i := if key == "GATE_PLAN_VERSION" then 0 else if key == "GATE_MODE" then 1
               else if key == "GATE_PLAN_HASH" then 2 else if key == "GATE_COORD_SUITE" then 3
               else if key == "GATE_PLAN_SUMMARY" then 4 else if key == "GATE_CHANGED_COUNT" then 5
               else if key == "GATE_RUN_DASHBOARD" then 6 else if key == "GATE_RUN_SERVER" then 7
               else if key == "GATE_RUN_PERF" then 8 else if key == "GATE_RUN_AUDIT" then 9
               else if key == "GATE_AUDIT_STRICT" then 10 else if key == "GATE_DASHBOARD_TEST_ARGS" then 11 else 12;
      assert Entries(p)[i].key == key;
    }
  }

  /**
    The shell sees the plan that was printed: evaluating the script sets exactly thirteen
    variables, each field's to its value, and splitting the two argument variables gives back
    the plan's lists.
   */
  lemma PlanRoundTrip(p: Printed) returns (env: map<string, string>)
    ensures RunScript(ToShell(p)) == Some(env)
    ensures env.Keys == VARIABLES && FieldsSet(p, env)
    ensures "GATE_DASHBOARD_TEST_ARGS" in env && SplitArgs(env["GATE_DASHBOARD_TEST_ARGS"]) == Some(p.dashboardArgs)
    ensures "GATE_SERVER_TEST_ARGS" in env && SplitArgs(env["GATE_SERVER_TEST_ARGS"]) == Some(p.serverArgs)
  {
    env := ScriptSets(p);
    EntriesSet(p, env);
    ArgsRoundTrip(p.dashboardArgs);
    ArgsRoundTrip(p.serverArgs);
    OnlyVariables(p, env);
  }

  lemma OnlyVariables(p: Printed, env: map<string, string>)
    requires forall key :: key in env <==> exists i :: 0 <= i < |Entries(p)| && Entries(p)[i].key == key
    ensures env.Keys == VARIABLES
  {
    forall key ensures key in env <==> key in VARIABLES {
      KeysAreVariables(p, key);
    }
  }

  lemma EntriesSet(p: Printed, env: map<string, string>)
    requires forall i :: 0 <= i < |Entries(p)| ==>
               Entries(p)[i].key in env && env[Entries(p)[i].key] == Entries(p)[i].value
    ensures FieldsSet(p, env)
    ensures Has(env, "GATE_DASHBOARD_TEST_ARGS", ShellArgs(p.dashboardArgs))
    ensures Has(env, "GATE_SERVER_TEST_ARGS", ShellArgs(p.serverArgs))
  {
    forall i | 0 <= i < |Entries(p)| ensures Has(env, Entries(p)[i].key, Entries(p)[i].value) {
    }
    var e := Entries(p);
    assert e[0] == Entry("GATE_PLAN_VERSION", p.version) && e[1] == Entry("GATE_MODE", p.mode);
    assert e[2] == Entry("GATE_PLAN_HASH", p.hash) && e[3] == Entry("GATE_COORD_SUITE", p.coordSuite);
    assert e[4] == Entry("GATE_PLAN_SUMMARY", p.summary) && e[5] == Entry("GATE_CHANGED_COUNT", p.changedCount);
    FlagEntriesSet(p, env);
    assert e[11] == Entry("GATE_DASHBOARD_TEST_ARGS", ShellArgs(p.dashboardArgs));
    assert e[12] == Entry("GATE_SERVER_TEST_ARGS", ShellArgs(p.serverArgs));
  }

  lemma FlagEntriesSet(p: Printed, env: map<string, string>)
    requires forall i :: 0 <= i < |Entries(p)| ==> Has(env, Entries(p)[i].key, Entries(p)[i].value)
    ensures FlagsSet(p, env)
  {
    var e := Entries(p);
    assert e[6] == Entry("GATE_RUN_DASHBOARD", if p.runDashboard then "1" else "0");
    assert e[7] == Entry("GATE_RUN_SERVER", if p.runServer then "1" else "0");
    assert e[8] == Entry("GATE_RUN_PERF", if p.runPerf then "1" else "0");
    assert e[9] == Entry("GATE_RUN_AUDIT", if p.runAudit then "1" else "0");
    assert e[10] == Entry("GATE_AUDIT_STRICT", if p.auditStrict then "1" else "0");
  }
}
