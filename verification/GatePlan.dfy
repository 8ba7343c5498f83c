/** Which gates a push has to run (planFromFiles in scripts/pre-push-gate-plan.js). */
module GatePlan {
  import opened Sorting

  // ----- Paths -----

  predicate StartsWith(s: string, prefix: string) { prefix <= s }

  predicate EndsWith(s: string, suffix: string) {
    |suffix| <= |s| && s[|s| - |suffix|..] == suffix
  }

  /** `s` without a leading `prefix`. */
  function Relative(s: string, prefix: string): string {
    if StartsWith(s, prefix) then s[|prefix|..] else s
  }

  /** The pattern `^prefix.*suffix$`, where `.` matches no line terminator. */
  predicate Around(s: string, prefix: string, suffix: string) {
    && |prefix| + |suffix| <= |s|
    && StartsWith(s, prefix) && EndsWith(s, suffix)
    && forall c :: c in s[|prefix|..|s| - |suffix|] ==> c !in LINE_TERMINATORS
  }

  const LINE_TERMINATORS: set<char> := {'\n', '\r', '\U{2028}', '\U{2029}'}

  const ROOT_DOC_FILES: set<string> :=
    {"README.md", "CHANGELOG.md", "CONTRIBUTING.md", "LICENSE", "CLAUDE.md", "AGENTS.md"}

  const FULL_GATE_FILES: set<string> :=
    { "package.json", "package-lock.json", "server/package.json", "server/package-lock.json",
      "dashboard/package.json", "dashboard/package-lock.json", "server/vitest.config.js",
      "dashboard/vitest.config.js", "server/tests/worker-setup.js", "server/tests/global-setup.js",
      "scripts/pre-push-hook", "scripts/install-git-hooks.sh", "scripts/worktree-create.sh",
      "scripts/worktree-cutover.sh", "scripts/audit-db-queries.js", "bin/torque-remote", "bin/torque-coord-client" }

  predicate IsSafePath(s: string) {
    s != "" && forall c :: c in s ==>
      'A' <= c <= 'Z' || 'a' <= c <= 'z' || '0' <= c <= '9' || c == '.' || c == '_' || c == '/' || c == '-'
  }

  predicate IsDocPath(s: string) {
    s in ROOT_DOC_FILES || StartsWith(s, "docs/") || EndsWith(s, ".md") || EndsWith(s, ".txt")
  }

  predicate IsDashboardTest(s: string) {
    Around(s, "dashboard/src/", ".test.js") || Around(s, "dashboard/src/", ".test.jsx")
  }

  predicate IsServerTest(s: string) {
    || Around(s, "server/tests/", ".test.js")
    || (StartsWith(s, "server/plugins/") &&
        exists i :: 15 < i <= |s| && '/' !in s[15..i] && Around(s[i..], "/tests/", ".test.js"))
    || Around(s, "server/eslint-rules/", ".test.js")
  }

  predicate IsGateFile(s: string) {
    s in FULL_GATE_FILES || StartsWith(s, "server/coord/")
  }

  /** A top-level .js file of one of the audited directories. */
  predicate IsAuditStrictTrigger(s: string) {
    && EndsWith(s, ".js")
    && !IsServerTest(s)
    && (|| (StartsWith(s, "server/db/") && '/' !in s[10..])
        || (StartsWith(s, "server/handlers/") && '/' !in s[16..])
        || (StartsWith(s, "server/factory/") && '/' !in s[15..]))
  }

  // ----- The shapes of the paths -----

  /** No line feed, carriage return, line separator or paragraph separator, by their code points. */
  ghost predicate OneLine(s: string) {
    forall c :: c in s ==> c as int !in {10, 13, 8232, 8233}
  }

  lemma AroundShape(s: string, prefix: string, suffix: string)
    ensures Around(s, prefix, suffix) <==> exists mid :: OneLine(mid) && s == prefix + mid + suffix
  {
    if Around(s, prefix, suffix) {
      var mid := s[|prefix|..|s| - |suffix|];
      assert s == prefix + mid + suffix && OneLine(mid);
    }
    if mid :| OneLine(mid) && s == prefix + mid + suffix {
      assert s[|prefix|..|s| - |suffix|] == mid;
      assert s[..|prefix|] == prefix && s[|s| - |suffix|..] == suffix;
    }
  }

  /** A test of the dashboard's sources. */
  lemma DashboardTestShape(s: string)
    ensures IsDashboardTest(s) <==>
            exists mid :: OneLine(mid) &&
              (s == "dashboard/src/" + mid + ".test.js" || s == "dashboard/src/" + mid + ".test.jsx")
  {
    AroundShape(s, "dashboard/src/", ".test.js");
    AroundShape(s, "dashboard/src/", ".test.jsx");
  }

  ghost predicate PluginTest(s: string, plugin: string, mid: string) {
    && plugin != "" && '/' !in plugin && OneLine(mid)
    && s == "server/plugins/" + plugin + ("/tests/" + mid + ".test.js")
  }

  /** A test of the server, of one of its plugins, or of its lint rules. */
  lemma ServerTestShape(s: string)
    ensures IsServerTest(s) <==>
            || (exists mid :: OneLine(mid) &&
                  (s == "server/tests/" + mid + ".test.js" || s == "server/eslint-rules/" + mid + ".test.js"))
            || (exists plugin, mid :: PluginTest(s, plugin, mid))
  {
    AroundShape(s, "server/tests/", ".test.js");
    AroundShape(s, "server/eslint-rules/", ".test.js");
    PluginShape(s, "server/plugins/");
  }

  lemma PluginShape(s: string, dir: string)
    requires |dir| == 15 && dir == "server/plugins/"
    ensures StartsWith(s, dir) &&
            (exists i :: 15 < i <= |s| && '/' !in s[15..i] && Around(s[i..], "/tests/", ".test.js")) <==>
            exists plugin, mid :: PluginTest(s, plugin, mid)
  {
    if StartsWith(s, dir) &&
       exists i :: 15 < i <= |s| && '/' !in s[15..i] && Around(s[i..], "/tests/", ".test.js")
    {
      var i :| 15 < i <= |s| && '/' !in s[15..i] && Around(s[i..], "/tests/", ".test.js");
      AroundShape(s[i..], "/tests/", ".test.js");
      var mid :| OneLine(mid) && s[i..] == "/tests/" + mid + ".test.js";
      Cut(s, dir, i);
      assert PluginTest(s, s[15..i], mid);
    }
    if plugin, mid :| PluginTest(s, plugin, mid) {
      var rest := "/tests/" + mid + ".test.js";
      Glue(dir, plugin, rest);
      AroundShape(rest, "/tests/", ".test.js");
    }
  }

  lemma Cut(s: string, prefix: string, i: nat)
    requires prefix <= s && |prefix| <= i <= |s|
    ensures s == prefix + s[|prefix|..i] + s[i..]
  {}

  lemma Glue(prefix: string, mid: string, rest: string)
    ensures var s := prefix + mid + rest;
            s[..|prefix|] == prefix && s[|prefix|..|prefix| + |mid|] == mid && s[|prefix| + |mid|..] == rest
  {}

  ghost predicate TopLevelIn(s: string, dir: string, name: string) {
    '/' !in name && s == dir + name + ".js"
  }

  /** A .js file directly in one of the audited directories, and no server test. */
  lemma AuditTriggerShape(s: string)
    ensures IsAuditStrictTrigger(s) <==>
            && !IsServerTest(s)
            && (|| (exists name :: TopLevelIn(s, "server/db/", name))
                || (exists name :: TopLevelIn(s, "server/handlers/", name))
                || (exists name :: TopLevelIn(s, "server/factory/", name)))
  {
    TopLevel(s, "server/db/");
    TopLevel(s, "server/handlers/");
    TopLevel(s, "server/factory/");
  }

  lemma TopLevel(s: string, dir: string)
    requires dir != "" && dir[|dir| - 1] == '/'
    ensures EndsWith(s, ".js") && StartsWith(s, dir) && '/' !in s[|dir|..] <==>
            exists name :: TopLevelIn(s, dir, name)
  {
    if EndsWith(s, ".js") && StartsWith(s, dir) && '/' !in s[|dir|..] {
      assert s[|s| - 3..] == ".js" && s[|dir| - 1] == '/';
      assert s[|s| - 3] == '.' && s[|s| - 2] == 'j' && s[|s| - 1] == 's';
      assert |s| >= |dir| + 3;
      var name := s[|dir|..|s| - 3];
      assert forall c :: c in name ==> c in s[|dir|..];
      assert TopLevelIn(s, dir, name);
    }
    if name :| TopLevelIn(s, dir, name) {
      assert s[|dir|..] == name + ".js" && s[|s| - 3..] == ".js";
    }
  }

  lemma StartShape(s: string, prefix: string)
    ensures StartsWith(s, prefix) <==> exists rest :: s == prefix + rest
  {
    if StartsWith(s, prefix) {
      assert s == prefix + s[|prefix|..];
    }
  }

  lemma EndShape(s: string, suffix: string)
    ensures EndsWith(s, suffix) <==> exists rest :: s == rest + suffix
  {
    if EndsWith(s, suffix) {
      assert s == s[..|s| - |suffix|] + suffix;
    }
    if rest :| s == rest + suffix {
      assert s[|s| - |suffix|..] == suffix;
    }
  }

  /** A documentation path: one of the root files, under docs/, or Markdown or plain text. */
  lemma DocShape(s: string)
    ensures IsDocPath(s) <==>
            || s in ["README.md", "CHANGELOG.md", "CONTRIBUTING.md", "LICENSE", "CLAUDE.md", "AGENTS.md"]
            || (exists rest :: s == "docs/" + rest)
            || (exists rest :: s == rest + ".md")
            || (exists rest :: s == rest + ".txt")
  {
    StartShape(s, "docs/");
    EndShape(s, ".md");
    EndShape(s, ".txt");
  }

  /**
    A gate file: a package manifest, a test runner's configuration or set-up, a tool of the gate
    itself, or anything of the coordinator.
   */
  lemma GateFileShape(s: string)
    ensures IsGateFile(s) <==>
            || s in ["package.json", "server/package.json", "dashboard/package.json"]
            || s in ["package-lock.json", "server/package-lock.json", "dashboard/package-lock.json"]
            || s in ["server/vitest.config.js", "dashboard/vitest.config.js"]
            || s in ["server/tests/worker-setup.js", "server/tests/global-setup.js"]
            || s in ["scripts/pre-push-hook", "scripts/install-git-hooks.sh", "scripts/audit-db-queries.js"]
            || s in ["scripts/worktree-create.sh", "scripts/worktree-cutover.sh"]
            || s in ["bin/torque-remote", "bin/torque-coord-client"]
            || exists rest :: s == "server/coord/" + rest
  {
    StartShape(s, "server/coord/");
  }

  /** A safe path has ASCII letters, digits, hyphens, dots, slashes (codes 45 to 57) and underscores only. */
  lemma SafeShape(s: string)
    ensures IsSafePath(s) <==>
            s != "" && forall i :: 0 <= i < |s| ==>
              var code := s[i] as int;
              45 <= code <= 57 || 65 <= code <= 90 || code == 95 || 97 <= code <= 122
  {
    assert forall i :: 0 <= i < |s| ==> s[i] in s;
  }

  // ----- Plans and what they mean -----

  /** The tests found for a changed source file, per suite. */
  datatype Lookups = Lookups(server: string -> seq<string>, dashboard: string -> seq<string>)

  datatype Mode = Full | Affected | DocsOnly

  datatype Plan = Plan(
    mode: Mode, full: bool,
    runDashboard: bool, runServer: bool, runPerf: bool, runAudit: bool, auditStrict: bool,
    dashboardArgs: seq<string>, serverArgs: seq<string>,
    dashboardFull: bool, serverFull: bool)

  /** What a test suite has to run. */
  datatype Suite = Skip | Tests(files: set<string>) | Whole

  /** What a push has to run. */
  datatype Need = Need(full: bool, dashboard: Suite, server: Suite, perf: bool, audit: bool, strict: bool)

  const NOTHING := Need(false, Skip, Skip, false, false, false)
  const EVERYTHING := Need(true, Whole, Whole, true, true, true)

  function ToSet(s: seq<string>): set<string> { set x | x in s }

  function JoinSuites(a: Suite, b: Suite): Suite {
    if a.Whole? || b.Whole? then Whole
    else if a.Skip? then b
    else if b.Skip? then a
    else Tests(a.files + b.files)
  }

  function Join(a: Need, b: Need): Need {
    Need(a.full || b.full, JoinSuites(a.dashboard, b.dashboard), JoinSuites(a.server, b.server),
         a.perf || b.perf, a.audit || b.audit, a.strict || b.strict)
  }

  /** b runs at least what a runs. */
  ghost predicate Covers(b: Need, a: Need) { Join(a, b) == b }

  /** A plan read the way the gate runs it: an empty argument list is the whole suite. */
  function SuiteOf(run: bool, args: seq<string>): Suite {
    if !run then Skip else if args == [] then Whole else Tests(ToSet(args))
  }

  function Meaning(p: Plan): Need {
    Need(p.full, SuiteOf(p.runDashboard, p.dashboardArgs), SuiteOf(p.runServer, p.serverArgs),
         p.runPerf, p.runAudit, p.auditStrict)
  }

  function TestsOrWhole(found: seq<string>): Suite {
    if found == [] then Whole else Tests(ToSet(found))
  }

  /** The branches of the planner's loop, in their order, with the tests each one adds. */
  datatype Kind =
    | FullGate
    | Doc
    | DashboardFile(found: seq<string>)
    | PerfFile
    | ServerTest(test: string)
    | ServerSource(found: seq<string>, audited: bool)

  function Classify(file: string, env: Lookups): Kind {
    if !IsSafePath(file) then FullGate
    else if IsGateFile(file) then FullGate
    else if IsDocPath(file) then Doc
    else if StartsWith(file, "dashboard/") then
      DashboardFile(if IsDashboardTest(file) then [Relative(file, "dashboard/")] else env.dashboard(file))
    else if StartsWith(file, "server/perf/") then PerfFile
    else if StartsWith(file, "server/") then
      if IsServerTest(file) then ServerTest(Relative(file, "server/"))
      else ServerSource(env.server(file), !StartsWith(file, "server/eslint-rules/"))
    else FullGate
  }

  /** What a file of this kind asks for. */
  function KindNeed(kind: Kind): Need {
    match kind
    case FullGate => NOTHING.(full := true)
    case Doc => NOTHING
    case DashboardFile(found) => NOTHING.(dashboard := TestsOrWhole(found))
    case PerfFile => NOTHING.(perf := true)
    case ServerTest(test) => NOTHING.(server := Tests({test}))
    case ServerSource(found, audited) =>
      NOTHING.(server := TestsOrWhole(found), perf := found == [], audit := found == [] || audited)
  }

  /** What one changed file asks for. */
  function Effect(file: string, env: Lookups): Need {
    KindNeed(Classify(file, env)).(strict := IsAuditStrictTrigger(file))
  }

  ghost function Effects(env: Lookups): string -> Need {
    (file: string) => Effect(file, env)
  }

  /** The join of what each file asks for. */
  ghost function JoinAll(files: seq<string>, effect: string -> Need): Need {
    if files == [] then NOTHING else Join(JoinAll(files[..|files| - 1], effect), effect(files[|files| - 1]))
  }

  /** A full gate runs everything; otherwise the strict audit needs the audit. */
  function Settle(n: Need): Need {
    if n.full then EVERYTHING else n.(strict := n.strict && n.audit)
  }

  // ----- Laws -----

  lemma JoinLaws(a: Need, b: Need, c: Need)
    ensures Join(a, b) == Join(b, a)
    ensures Join(a, Join(b, c)) == Join(Join(a, b), c)
    ensures Join(a, a) == a && Join(a, NOTHING) == a
  {
    SuiteLaws(a.dashboard, b.dashboard, c.dashboard);
    SuiteLaws(a.server, b.server, c.server);
  }

  lemma SuiteLaws(a: Suite, b: Suite, c: Suite)
    ensures JoinSuites(a, b) == JoinSuites(b, a)
    ensures JoinSuites(a, JoinSuites(b, c)) == JoinSuites(JoinSuites(a, b), c)
    ensures JoinSuites(a, a) == a && JoinSuites(a, Skip) == a
  {
    if a.Tests? && b.Tests? {
      assert a.files + b.files == b.files + a.files;
      if c.Tests? {
        assert a.files + (b.files + c.files) == a.files + b.files + c.files;
      }
    }
    if a.Tests? {
      assert a.files + a.files == a.files;
    }
  }

  /** The join of all effects covers each of them. */
  lemma {:induction false} AllCoversEach(files: seq<string>, effect: string -> Need, file: string)
    requires file in files
    ensures Covers(JoinAll(files, effect), effect(file))
  {
    var m := |files| - 1;
    var before, last, e := JoinAll(files[..m], effect), effect(files[m]), effect(file);
    if file == files[m] {
      JoinLaws(e, e, before);
      JoinLaws(e, before, e);
    } else {
      assert file in files[..m];
      AllCoversEach(files[..m], effect, file);
      JoinLaws(e, before, last);
    }
  }

  /** ... and is the least that does. */
  lemma {:induction false} AllIsLeast(files: seq<string>, effect: string -> Need, bound: Need)
    requires forall f :: f in files ==> Covers(bound, effect(f))
    ensures Covers(bound, JoinAll(files, effect))
  {
    if files == [] {
      JoinLaws(bound, NOTHING, bound);
    } else {
      var m := |files| - 1;
      AllIsLeast(files[..m], effect, bound);
      JoinLaws(JoinAll(files[..m], effect), effect(files[m]), bound);
    }
  }

  /** More files ask for no less. */
  lemma AllMonotone(fewer: seq<string>, more: seq<string>, effect: string -> Need)
    requires forall f :: f in fewer ==> f in more
    ensures Covers(JoinAll(more, effect), JoinAll(fewer, effect))
  {
    forall f | f in fewer ensures Covers(JoinAll(more, effect), effect(f)) {
      AllCoversEach(more, effect, f);
    }
    AllIsLeast(fewer, effect, JoinAll(more, effect));
  }

  /** The join of a union of file lists is the join of their joins, in any order. */
  lemma AllOfUnion(a: seq<string>, b: seq<string>, both: seq<string>, effect: string -> Need)
    requires forall f :: f in both <==> f in a || f in b
    ensures JoinAll(both, effect) == Join(JoinAll(a, effect), JoinAll(b, effect))
  {
    var x, y, z := JoinAll(a, effect), JoinAll(b, effect), JoinAll(both, effect);
    AllMonotone(a, both, effect);
    AllMonotone(b, both, effect);
    JoinLaws(x, y, z);
    forall f | f in both ensures Covers(Join(x, y), effect(f)) {
      var e := effect(f);
      if f in a {
        AllCoversEach(a, effect, f);
        JoinLaws(e, x, y);
      } else {
        AllCoversEach(b, effect, f);
        JoinLaws(e, y, x);
        JoinLaws(x, y, e);
      }
    }
    AllIsLeast(both, effect, Join(x, y));
    JoinLaws(z, Join(x, y), z);
  }

  /** A file that makes the audit strict also asks for the audit, or for everything. */
  lemma StrictNeedsAudit(file: string, env: Lookups)
    ensures Effect(file, env).strict ==> Effect(file, env).full || Effect(file, env).audit
    ensures Effect(file, env).strict <==> IsAuditStrictTrigger(file)
  {
    if IsAuditStrictTrigger(file) {
      assert file[0] == 's' && file[|file| - 1] == 's';
      assert file[..7] == "server/";
      assert file[7] == 'd' || file[7] == 'h' || file[7] == 'f';
      assert !StartsWith(file, "server/perf/") by { assert "server/perf/"[7] == 'p'; }
      assert !StartsWith(file, "server/eslint-rules/") by { assert "server/eslint-rules/"[7] == 'e'; }
      assert !StartsWith(file, "docs/") by { assert "docs/"[0] == 'd'; }
      assert !StartsWith(file, "dashboard/") by { assert "dashboard/"[0] == 'd'; }
      assert !EndsWith(file, ".md") by { assert ".md"[2] == 'd'; }
      assert !EndsWith(file, ".txt") by { assert ".txt"[3] == 't'; }
      assert file !in ROOT_DOC_FILES;
    }
  }

  lemma {:induction false} StrictOfAll(files: seq<string>, effect: string -> Need)
    requires forall f :: f in files && effect(f).strict ==> effect(f).full || effect(f).audit
    ensures JoinAll(files, effect).strict ==> JoinAll(files, effect).full || JoinAll(files, effect).audit
    ensures JoinAll(files, effect).strict <==> exists f :: f in files && effect(f).strict
  {
    if files != [] {
      var m := |files| - 1;
      StrictOfAll(files[..m], effect);
      assert files == files[..m] + [files[m]];
    }
  }

  lemma AllStrictNeedsAudit(files: seq<string>, env: Lookups)
    ensures JoinAll(files, Effects(env)).strict ==>
              JoinAll(files, Effects(env)).full || JoinAll(files, Effects(env)).audit
    ensures JoinAll(files, Effects(env)).strict <==> exists f :: f in files && IsAuditStrictTrigger(f)
  {
    forall f | f in files
      ensures Effects(env)(f).strict ==> Effects(env)(f).full || Effects(env)(f).audit
      ensures Effects(env)(f).strict <==> IsAuditStrictTrigger(f)
    {
      StrictNeedsAudit(f, env);
    }
    StrictOfAll(files, Effects(env));
  }

  // ----- The planner -----

  /** `files.filter(Boolean)` */
  function NonEmpty(files: seq<string>): (r: seq<string>)
    ensures forall f :: f in r <==> f in files && f != ""
  {
    if files == [] then []
    else if files[0] == "" then NonEmpty(files[1..])
    else [files[0]] + NonEmpty(files[1..])
  }

  function Changed(files: seq<string>): seq<string> {
    UniqSorted(NonEmpty(files))
  }

  /** A suite's fields while the files are read: flagged full, or the tests found so far. */
  ghost predicate SuiteSoFar(run: bool, args: seq<string>, full: bool, suite: Suite) {
    match suite
    case Skip => !run && args == [] && !full
    case Tests(files) => run && args != [] && ToSet(args) == files && !full
    case Whole => run && args == [] && full
  }

  /** The plan's fields after reading files that ask for n; auditStrict is set elsewhere. */
  ghost predicate SoFar(p: Plan, n: Need) {
    && p.full == n.full && p.runPerf == n.perf && p.runAudit == n.audit
    && SuiteSoFar(p.runDashboard, p.dashboardArgs, p.dashboardFull, n.dashboard)
    && SuiteSoFar(p.runServer, p.serverArgs, p.serverFull, n.server)
  }

  lemma MoreTests(args: seq<string>, found: seq<string>)
    ensures ToSet(args + found) == ToSet(args) + ToSet(found)
    ensures found != [] ==> ToSet(found) != {}
  {
    assert found != [] ==> found[0] in ToSet(found);
  }

  /** `if (!full) args.push(...found)` for a suite that is now to run. */
  method PushTests(args: seq<string>, full: bool, found: seq<string>, ghost run: bool, ghost suite: Suite)
    returns (args': seq<string>)
    requires SuiteSoFar(run, args, full, suite) && found != []
    ensures SuiteSoFar(true, args', full, JoinSuites(suite, Tests(ToSet(found))))
  {
    args' := args;
    if !full {
      MoreTests(args, found);
      args' := args + found;
    }
  }

  /** A source file's tests join the suite's; a file without any makes the suite run in full. */
  method PushFound(args: seq<string>, full: bool, found: seq<string>, ghost run: bool, ghost suite: Suite)
    returns (args': seq<string>, full': bool)
    requires SuiteSoFar(run, args, full, suite)
    ensures SuiteSoFar(true, args', full', JoinSuites(suite, TestsOrWhole(found)))
    ensures full' == (full || found == [])
  {
    args', full' := args, full;
    if |found| > 0 {
      args' := PushTests(args, full, found, run, suite);
    } else {
      args', full' := [], true;
    }
  }

  lemma SingleTest(test: string)
    ensures TestsOrWhole([test]) == Tests({test})
  {
    assert ToSet([test]) == {test};
  }

  method AddServerSource(plan: Plan, found: seq<string>, audited: bool, ghost need: Need) returns (p: Plan)
    requires SoFar(plan, need)
    ensures SoFar(p, Join(need, KindNeed(ServerSource(found, audited))))
    ensures p.auditStrict == plan.auditStrict && p.mode == plan.mode
  {
    var args, full := PushFound(plan.serverArgs, plan.serverFull, found, plan.runServer, need.server);
    p := plan.(runServer := true, serverArgs := args, serverFull := full);
    if |found| > 0 {
      if audited {
        p := p.(runAudit := true);
      }
    } else {
      p := p.(runPerf := true, runAudit := true);
    }
    SourceNeed(need, found, audited);
  }

  lemma SourceNeed(need: Need, found: seq<string>, audited: bool)
    ensures Join(need, KindNeed(ServerSource(found, audited))) ==
            need.(server := JoinSuites(need.server, TestsOrWhole(found)),
                  perf := need.perf || found == [], audit := need.audit || found == [] || audited)
  {
    SuiteLaws(need.dashboard, Skip, Skip);
  }

  method AddServerTest(plan: Plan, test: string, ghost need: Need) returns (p: Plan)
    requires SoFar(plan, need)
    ensures SoFar(p, Join(need, KindNeed(ServerTest(test))))
    ensures p.auditStrict == plan.auditStrict && p.mode == plan.mode
  {
    var args, full := PushFound(plan.serverArgs, plan.serverFull, [test], plan.runServer, need.server);
    SingleTest(test);
    SuiteLaws(need.dashboard, Skip, Skip);
    p := plan.(runServer := true, serverArgs := args, serverFull := full);
  }

  method AddDashboard(plan: Plan, found: seq<string>, ghost need: Need) returns (p: Plan)
    requires SoFar(plan, need)
    ensures SoFar(p, Join(need, KindNeed(DashboardFile(found))))
    ensures p.auditStrict == plan.auditStrict && p.mode == plan.mode
  {
    var args, full := PushFound(plan.dashboardArgs, plan.dashboardFull, found, plan.runDashboard, need.dashboard);
    SuiteLaws(need.server, Skip, Skip);
    p := plan.(runDashboard := true, dashboardArgs := args, dashboardFull := full);
  }

  /** A file that asks for no suite changes none. */
  lemma KeepsSuites(plan: Plan, p: Plan, need: Need, n: Need)
    requires SoFar(plan, need) && n.dashboard.Skip? && n.server.Skip?
    requires p == plan.(full := plan.full || n.full, runPerf := plan.runPerf || n.perf,
                        runAudit := plan.runAudit || n.audit)
    ensures SoFar(p, Join(need, n))
  {
    SuiteLaws(need.dashboard, Skip, Skip);
    SuiteLaws(need.server, Skip, Skip);
  }

  /** The body of the loop for one file. */
  method AddFile(plan: Plan, kind: Kind, ghost need: Need) returns (p: Plan)
    requires SoFar(plan, need)
    ensures SoFar(p, Join(need, KindNeed(kind)))
    ensures p.auditStrict == plan.auditStrict && p.mode == plan.mode
  {
    p := plan;
    match kind
    case FullGate =>
      p := p.(full := true);
      KeepsSuites(plan, p, need, NOTHING.(full := true));
    case Doc =>
      KeepsSuites(plan, p, need, NOTHING);
    case DashboardFile(found) =>
      p := AddDashboard(plan, found, need);
    case PerfFile =>
      p := p.(runPerf := true);
      KeepsSuites(plan, p, need, NOTHING.(perf := true));
    case ServerTest(test) =>
      p := AddServerTest(plan, test, need);
    case ServerSource(found, audited) =>
      p := AddServerSource(plan, found, audited, need);
  }

  /** What the plan for these files makes the push run. */
  ghost function Planned(files: seq<string>, env: Lookups): Need {
    if Changed(files) == [] then EVERYTHING else Settle(JoinAll(Changed(files), Effects(env)))
  }

  method PlanFromFiles(files: seq<string>, env: Lookups) returns (plan: Plan)
    ensures Meaning(plan) == Planned(files, env)
    ensures plan.mode.Full? <==> plan.full
    ensures plan.mode.DocsOnly? <==>
              !plan.full && !plan.runDashboard && !plan.runServer && !plan.runPerf && !plan.runAudit
    ensures plan.runDashboard && plan.dashboardArgs == [] <==> plan.dashboardFull
    ensures plan.runServer && plan.serverArgs == [] <==> plan.serverFull
    ensures Increasing(plan.dashboardArgs) && Increasing(plan.serverArgs)
    ensures PlanRight(files, env, plan)
  {
    var changedFiles := Changed(files);
    var strict := AnyTrigger(changedFiles);
    AllStrictNeedsAudit(changedFiles, env);
    plan := Plan(Affected, false, false, false, false, false, strict, [], [], false, false);
    if |changedFiles| == 0 {
      plan := plan.(full := true);
    }
    ghost var need;
    plan, need := AddFiles(plan, changedFiles, env);
    plan := Conclude(plan, need.(strict := strict));
    PlanByPath(files, env, plan);
  }

  /** The loop over the changed files. */
  method AddFiles(plan: Plan, changedFiles: seq<string>, env: Lookups) returns (p: Plan, ghost need: Need)
    requires SoFar(plan, NOTHING.(full := plan.full))
    ensures SoFar(p, need) && p.auditStrict == plan.auditStrict && p.mode == plan.mode
    ensures need == Join(NOTHING.(full := plan.full), JoinAll(changedFiles, Effects(env))).(strict := need.strict)
  {
    p, need := plan, NOTHING.(full := plan.full);
    for i := 0 to |changedFiles|
      invariant SoFar(p, need) && p.auditStrict == plan.auditStrict && p.mode == plan.mode
      invariant need ==
        Join(NOTHING.(full := plan.full), JoinAll(changedFiles[..i], Effects(env))).(strict := need.strict)
    {
      ghost var file := changedFiles[i];
      assert changedFiles[..i + 1][..i] == changedFiles[..i];
      p := AddFile(p, Classify(changedFiles[i], env), need);
      JoinLaws(NOTHING.(full := plan.full), JoinAll(changedFiles[..i], Effects(env)), Effect(file, env));
      need := Join(need, KindNeed(Classify(file, env)));
    }
    assert changedFiles[..|changedFiles|] == changedFiles;
  }

  method AnyTrigger(changedFiles: seq<string>) returns (strict: bool)
    ensures strict <==> exists f :: f in changedFiles && IsAuditStrictTrigger(f)
  {
    for i := 0 to |changedFiles|
      invariant forall j :: 0 <= j < i ==> !IsAuditStrictTrigger(changedFiles[j])
    {
      if IsAuditStrictTrigger(changedFiles[i]) {
        return true;
      }
    }
    return false;
  }

  /** The steps after the loop over the files. */
  method Conclude(plan: Plan, ghost need: Need) returns (p: Plan)
    requires SoFar(plan, need) && plan.auditStrict == need.strict && plan.mode.Affected?
    ensures Meaning(p) == Settle(need)
    ensures p.mode.Full? <==> p.full
    ensures p.mode.DocsOnly? <==> !p.full && !p.runDashboard && !p.runServer && !p.runPerf && !p.runAudit
    ensures p.runDashboard && p.dashboardArgs == [] <==> p.dashboardFull
    ensures p.runServer && p.serverArgs == [] <==> p.serverFull
    ensures Increasing(p.dashboardArgs) && Increasing(p.serverArgs)
    ensures (!p.runDashboard ==> p.dashboardArgs == []) && (!p.runServer ==> p.serverArgs == [])
  {
    if plan.full {
      return Plan(Full, true, true, true, true, true, true, [], [], true, true);
    }
    p := Limited(plan, need);
  }

  /** The plan without a full gate: sorted arguments, no strict audit without an audit, and the mode. */
  method Limited(plan: Plan, ghost need: Need) returns (p: Plan)
    requires SoFar(plan, need) && plan.auditStrict == need.strict && !plan.full
    ensures Meaning(p) == Settle(need) && !p.full && !p.mode.Full?
    ensures p.mode.DocsOnly? <==> !p.runDashboard && !p.runServer && !p.runPerf && !p.runAudit
    ensures p.runDashboard && p.dashboardArgs == [] <==> p.dashboardFull
    ensures p.runServer && p.serverArgs == [] <==> p.serverFull
    ensures Increasing(p.dashboardArgs) && Increasing(p.serverArgs)
    ensures (!p.runDashboard ==> p.dashboardArgs == []) && (!p.runServer ==> p.serverArgs == [])
  {
    p := plan;
    var dashboardArgs := if p.runDashboard then UniqSorted(p.dashboardArgs) else [];
    var serverArgs := if p.runServer then UniqSorted(p.serverArgs) else [];
    SortedSame(p.dashboardArgs);
    SortedSame(p.serverArgs);
    p := p.(dashboardArgs := dashboardArgs, serverArgs := serverArgs);
    if !p.runAudit {
      p := p.(auditStrict := false);
    }
    if !p.runDashboard && !p.runServer && !p.runPerf && !p.runAudit {
      p := p.(mode := DocsOnly);
    } else {
      p := p.(mode := Affected);
    }
  }

  lemma SortedSame(args: seq<string>)
    ensures ToSet(UniqSorted(args)) == ToSet(args)
    ensures UniqSorted(args) == [] <==> args == []
  {
    assert args != [] ==> args[0] in UniqSorted(args);
  }

  // ----- What the planner promises -----

  /** The plan of a union is the join of the plans, for diffs that name some file. */
  lemma PlanOfUnion(a: seq<string>, b: seq<string>, both: seq<string>, env: Lookups)
    requires Changed(a) != [] && Changed(b) != []
    requires forall f :: f in both <==> f in a || f in b
    ensures Planned(both, env) == Join(Planned(a, env), Planned(b, env))
  {
    assert Changed(a)[0] in Changed(both);
    var x, y := JoinAll(Changed(a), Effects(env)), JoinAll(Changed(b), Effects(env));
    AllOfUnion(Changed(a), Changed(b), Changed(both), Effects(env));
    AllStrictNeedsAudit(Changed(a), env);
    AllStrictNeedsAudit(Changed(b), env);
  }

  /** The plan depends on the set of changed files only, not on their order. */
  lemma PlanOfSet(a: seq<string>, b: seq<string>, env: Lookups)
    requires forall f :: f in a <==> f in b
    ensures Planned(a, env) == Planned(b, env)
  {
    UniqSortedBySet(NonEmpty(a), NonEmpty(b));
  }

  /** The file runs everything: unsafe, a gate file, or under none of the known directories. */
  predicate RunsEverything(file: string) {
    || !IsSafePath(file) || IsGateFile(file)
    || !(IsDocPath(file) || StartsWith(file, "dashboard/") || StartsWith(file, "server/"))
  }

  lemma FullGateIff(file: string, env: Lookups)
    ensures Effect(file, env).full <==> RunsEverything(file)
  {
    assert StartsWith(file, "server/perf/") ==> file[..7] == "server/";
  }

  lemma {:induction false} FullOfAll(files: seq<string>, effect: string -> Need)
    ensures JoinAll(files, effect).full <==> exists f :: f in files && effect(f).full
  {
    if files != [] {
      var m := |files| - 1;
      FullOfAll(files[..m], effect);
      assert files == files[..m] + [files[m]];
    }
  }

  lemma NoneChanged(files: seq<string>)
    ensures Changed(files) == [] <==> forall f :: f in files ==> f == ""
  {
    if Changed(files) != [] {
      assert Changed(files)[0] in Changed(files);
    } else {
      assert forall f :: f in files && f != "" ==> f in Changed(files);
    }
  }

  /** Everything runs exactly when no file is named or one of them runs everything. */
  lemma EverythingIff(files: seq<string>, env: Lookups)
    ensures Planned(files, env) == EVERYTHING <==>
            (forall f :: f in files ==> f == "") || exists f :: f in files && f != "" && RunsEverything(f)
    ensures Planned(files, env).full <==> Planned(files, env) == EVERYTHING
  {
    FullOfAll(Changed(files), Effects(env));
    forall f ensures Effects(env)(f).full <==> RunsEverything(f) {
      FullGateIff(f, env);
    }
    NoneChanged(files);
  }

  /** Adding files never narrows the plan of a diff that names some file. */
  lemma NamedNeverNarrows(a: seq<string>, more: seq<string>, env: Lookups)
    requires Changed(a) != []
    ensures Covers(Planned(a + more, env), Planned(a, env))
  {
    if Changed(more) != [] {
      PlanOfUnion(a, more, a + more, env);
      JoinLaws(Planned(a, env), Planned(a, env), Planned(more, env));
    } else {
      UniqSortedBySet(NonEmpty(a + more), NonEmpty(a));
      JoinLaws(Planned(a, env), Planned(a, env), NOTHING);
    }
  }

  /**
    Adding files never narrows what runs, except that an empty diff, which runs everything, is
    narrowed by any files of which none runs everything.
   */
  lemma NeverNarrows(a: seq<string>, more: seq<string>, env: Lookups)
    ensures Covers(Planned(a + more, env), Planned(a, env)) <==>
            || (exists f :: f in a && f != "")
            || (forall f :: f in more ==> f == "")
            || (exists f :: f in more && f != "" && RunsEverything(f))
  {
    NoneChanged(a);
    if Changed(a) != [] {
      NamedNeverNarrows(a, more, env);
    } else {
      UniqSortedBySet(NonEmpty(a + more), NonEmpty(more));
      EverythingIff(more, env);
    }
  }

  /** An empty diff runs everything; with one documentation file it runs nothing. */
  lemma EmptyDiffNarrowed(env: Lookups)
    ensures Planned([], env) == EVERYTHING && Planned(["README.md"], env) == NOTHING
    ensures !Covers(Planned([] + ["README.md"], env), Planned([], env))
  {
    ReadmeIsDoc("README.md");
    assert [] + ["README.md"] == ["README.md"];
    OnlyDoc("README.md", env);
  }

  lemma OnlyDoc(f: string, env: Lookups)
    requires f != "" && IsSafePath(f) && !IsGateFile(f) && IsDocPath(f)
    ensures Planned([f], env) == NOTHING && Planned([], env) == EVERYTHING
  {
    assert f in [f];
    DocsOnlyIff([f], env);
    assert Changed([f]) != [] by { assert f in Changed([f]); }
    NoneChanged([]);
  }

  lemma ReadmeIsDoc(f: string)
    requires f == "README.md"
    ensures f != "" && IsSafePath(f) && !IsGateFile(f) && IsDocPath(f)
  {
    assert |f| == 9;
    ShortIsNoGateFile(f);
    assert IsDocPath(f);
  }

  lemma ShortIsNoGateFile(f: string)
    requires |f| < 12
    ensures !IsGateFile(f)
  {
  }

  /** A changed file that triggers the strict audit always makes the push run it. */
  lemma TriggerForcesAudit(files: seq<string>, env: Lookups, f: string)
    requires f in files && IsAuditStrictTrigger(f)
    ensures Planned(files, env).audit && Planned(files, env).strict
  {
    assert f != "";
    AllStrictNeedsAudit(Changed(files), env);
  }

  /** Nothing runs exactly when there are changes and all of them are safe documentation paths. */
  lemma DocsOnlyIff(files: seq<string>, env: Lookups)
    ensures Planned(files, env) == NOTHING <==>
            Changed(files) != [] &&
            forall f :: f in files && f != "" ==> IsSafePath(f) && !IsGateFile(f) && IsDocPath(f)
  {
    var changed := Changed(files);
    AllStrictNeedsAudit(changed, env);
    if forall f :: f in files && f != "" ==> IsSafePath(f) && !IsGateFile(f) && IsDocPath(f) {
      forall f | f in changed ensures Covers(NOTHING, Effects(env)(f)) {
        DocAsksNothing(f, env);
      }
      AllIsLeast(changed, Effects(env), NOTHING);
      JoinLaws(JoinAll(changed, Effects(env)), NOTHING, NOTHING);
    } else {
      var f :| f in files && f != "" && !(IsSafePath(f) && !IsGateFile(f) && IsDocPath(f));
      AllCoversEach(changed, Effects(env), f);
      DocAsksNothing(f, env);
      JoinLaws(Effect(f, env), NOTHING, NOTHING);
    }
  }

  lemma DocAsksNothing(f: string, env: Lookups)
    ensures Effect(f, env).(strict := false) == NOTHING <==> IsSafePath(f) && !IsGateFile(f) && IsDocPath(f)
    ensures Effect(f, env).(strict := false) == NOTHING ==> Effect(f, env) == NOTHING
  {
    StrictNeedsAudit(f, env);
  }

  // ----- What runs, from the paths and the lookups alone -----

  /** A named dashboard file that is not documentation. */
  ghost predicate DashboardAt(files: seq<string>, f: string) {
    f in files && f != "" && !IsDocPath(f) && "dashboard/" <= f
  }

  /** A named server file that is not documentation and not part of the perf suite. */
  ghost predicate ServerAt(files: seq<string>, f: string) {
    f in files && f != "" && !IsDocPath(f) && "server/" <= f && !("server/perf/" <= f)
  }

  /** f is a source file for which no test was found. */
  ghost predicate DashboardUntested(env: Lookups, f: string) { !IsDashboardTest(f) && env.dashboard(f) == [] }
  ghost predicate ServerUntested(env: Lookups, f: string) { !IsServerTest(f) && env.server(f) == [] }

  /** t is the changed test f without its leading directory, or a test found for the source file f. */
  ghost predicate DashboardTestFor(env: Lookups, f: string, t: string) {
    if IsDashboardTest(f) then f == "dashboard/" + t else t in env.dashboard(f)
  }

  ghost predicate ServerTestFor(env: Lookups, f: string, t: string) {
    if IsServerTest(f) then f == "server/" + t else t in env.server(f)
  }

  /** Everything runs: there is no named file, or one of them runs everything. */
  ghost predicate RunsAll(files: seq<string>) {
    (forall f :: f in files ==> f == "") || exists f :: f in files && f != "" && RunsEverything(f)
  }

  ghost predicate DashboardRight(files: seq<string>, env: Lookups, run: bool, args: seq<string>) {
    && (run <==> exists f :: DashboardAt(files, f))
    && (run ==> (args == [] <==> exists f :: DashboardAt(files, f) && DashboardUntested(env, f)))
    && ((forall f :: DashboardAt(files, f) ==> !DashboardUntested(env, f)) ==>
          forall t :: t in args <==> exists f :: DashboardAt(files, f) && DashboardTestFor(env, f, t))
  }

  ghost predicate ServerRight(files: seq<string>, env: Lookups, run: bool, args: seq<string>) {
    && (run <==> exists f :: ServerAt(files, f))
    && (run ==> (args == [] <==> exists f :: ServerAt(files, f) && ServerUntested(env, f)))
    && ((forall f :: ServerAt(files, f) ==> !ServerUntested(env, f)) ==>
          forall t :: t in args <==> exists f :: ServerAt(files, f) && ServerTestFor(env, f, t))
  }

  ghost predicate PerfRight(files: seq<string>, env: Lookups, run: bool) {
    run <==>
      || (exists f :: f in files && !IsDocPath(f) && "server/perf/" <= f)
      || (exists f :: ServerAt(files, f) && ServerUntested(env, f))
  }

  ghost predicate AuditRight(files: seq<string>, env: Lookups, run: bool, strict: bool) {
    && (run <==> exists f :: ServerAt(files, f) && !IsServerTest(f)
                   && (env.server(f) == [] || !("server/eslint-rules/" <= f)))
    && (strict <==> exists f :: f in files && IsAuditStrictTrigger(f))
  }

  /** The whole plan, gate by gate. */
  ghost predicate PlanRight(files: seq<string>, env: Lookups, p: Plan) {
    if RunsAll(files) then
      && p.full && p.runDashboard && p.runServer && p.runPerf && p.runAudit && p.auditStrict
      && p.dashboardArgs == [] && p.serverArgs == []
    else
      && !p.full
      && DashboardRight(files, env, p.runDashboard, p.dashboardArgs)
      && ServerRight(files, env, p.runServer, p.serverArgs)
      && PerfRight(files, env, p.runPerf)
      && AuditRight(files, env, p.runAudit, p.auditStrict)
  }

  function SuiteIn(n: Need, server: bool): Suite { if server then n.server else n.dashboard }

  /** Which tests a suite runs by name. */
  ghost predicate Names(suite: Suite, t: string) { suite.Tests? && t in suite.files }

  lemma JoinedSuite(a: Suite, b: Suite)
    ensures JoinSuites(a, b).Skip? <==> a.Skip? && b.Skip?
    ensures JoinSuites(a, b).Whole? <==> a.Whole? || b.Whole?
    ensures JoinSuites(a, b).Tests? ==> forall t :: Names(JoinSuites(a, b), t) <==> Names(a, t) || Names(b, t)
  {}

  /** The suites of a join of effects, file by file. */
  lemma SuiteOfAll(files: seq<string>, effect: string -> Need, server: bool)
    ensures var suite := SuiteIn(JoinAll(files, effect), server);
            && (suite.Skip? <==> forall f :: f in files ==> SuiteIn(effect(f), server).Skip?)
            && (suite.Whole? <==> exists f :: f in files && SuiteIn(effect(f), server).Whole?)
            && (suite.Tests? ==>
                  forall t :: t in suite.files <==> exists f :: f in files && Finds(effect, server, f, t))
  {
    SkipOfAll(files, effect, server);
    WholeOfAll(files, effect, server);
    var suite := SuiteIn(JoinAll(files, effect), server);
    if suite.Tests? {
      forall t ensures t in suite.files <==> exists f :: f in files && Finds(effect, server, f, t) {
        TestsOfAll(files, effect, server, t);
      }
    }
  }

  lemma {:induction false} SkipOfAll(files: seq<string>, effect: string -> Need, server: bool)
    ensures SuiteIn(JoinAll(files, effect), server).Skip? <==>
            forall f :: f in files ==> SuiteIn(effect(f), server).Skip?
  {
    if files != [] {
      var m := |files| - 1;
      SkipOfAll(files[..m], effect, server);
      JoinedSuite(SuiteIn(JoinAll(files[..m], effect), server), SuiteIn(effect(files[m]), server));
      assert files == files[..m] + [files[m]];
    }
  }

  lemma {:induction false} WholeOfAll(files: seq<string>, effect: string -> Need, server: bool)
    ensures SuiteIn(JoinAll(files, effect), server).Whole? <==>
            exists f :: f in files && SuiteIn(effect(f), server).Whole?
  {
    if files != [] {
      var m := |files| - 1;
      WholeOfAll(files[..m], effect, server);
      JoinedSuite(SuiteIn(JoinAll(files[..m], effect), server), SuiteIn(effect(files[m]), server));
      assert files == files[..m] + [files[m]];
    }
  }

  lemma {:induction false} TestsOfAll(files: seq<string>, effect: string -> Need, server: bool, t: string)
    requires !SuiteIn(JoinAll(files, effect), server).Whole?
    ensures Names(SuiteIn(JoinAll(files, effect), server), t) <==>
            exists f :: f in files && Finds(effect, server, f, t)
  {
    if files != [] {
      var m := |files| - 1;
      var before, last := SuiteIn(JoinAll(files[..m], effect), server), SuiteIn(effect(files[m]), server);
      JoinedSuite(before, last);
      TestsOfAll(files[..m], effect, server, t);
      assert files == files[..m] + [files[m]];
      assert Finds(effect, server, files[m], t) <==> Names(last, t);
    }
  }

  ghost predicate Finds(effect: string -> Need, server: bool, f: string, t: string) {
    Names(SuiteIn(effect(f), server), t)
  }

  lemma {:induction false} FlagsOfAll(files: seq<string>, effect: string -> Need)
    ensures JoinAll(files, effect).perf <==> exists f :: f in files && effect(f).perf
    ensures JoinAll(files, effect).audit <==> exists f :: f in files && effect(f).audit
  {
    if files != [] {
      var m := |files| - 1;
      FlagsOfAll(files[..m], effect);
      assert files == files[..m] + [files[m]];
    }
  }

  lemma RelativeIs(f: string, prefix: string, t: string)
    requires prefix <= f
    ensures Relative(f, prefix) == t <==> f == prefix + t
  {
    assert f == prefix + f[|prefix|..];
  }

  lemma FileOnDashboard(f: string, env: Lookups)
    requires f != "" && !RunsEverything(f)
    ensures var suite := Effect(f, env).dashboard;
            && (suite.Skip? <==> IsDocPath(f) || !("dashboard/" <= f))
            && (suite.Whole? <==> !suite.Skip? && DashboardUntested(env, f))
            && (suite.Tests? ==> forall t :: t in suite.files <==> DashboardTestFor(env, f, t))
  {
    if "dashboard/" <= f && IsDashboardTest(f) {
      forall t ensures Relative(f, "dashboard/") == t <==> f == "dashboard/" + t {
        RelativeIs(f, "dashboard/", t);
      }
    }
  }

  lemma FileOnServer(f: string, env: Lookups)
    requires f != "" && !RunsEverything(f)
    ensures var suite := Effect(f, env).server;
            && (suite.Skip? <==> IsDocPath(f) || !("server/" <= f) || "server/perf/" <= f)
            && (suite.Whole? <==> !suite.Skip? && ServerUntested(env, f))
            && (suite.Tests? ==> forall t :: t in suite.files <==> ServerTestFor(env, f, t))
  {
    NotBoth(f);
    if "server/" <= f && IsServerTest(f) {
      forall t ensures Relative(f, "server/") == t <==> f == "server/" + t {
        RelativeIs(f, "server/", t);
      }
    }
  }

  lemma FileFlags(f: string, env: Lookups)
    requires f != "" && !RunsEverything(f)
    ensures var onServer := !IsDocPath(f) && "server/" <= f && !("server/perf/" <= f);
            && (Effect(f, env).perf <==> (!IsDocPath(f) && "server/perf/" <= f) || (onServer && ServerUntested(env, f)))
            && (Effect(f, env).audit <==>
                  onServer && !IsServerTest(f) && (env.server(f) == [] || !("server/eslint-rules/" <= f)))
            && !Effect(f, env).full
  {
    NotBoth(f);
    FullGateIff(f, env);
  }

  lemma NotBoth(f: string)
    ensures !("dashboard/" <= f && "server/" <= f)
    ensures "server/perf/" <= f ==> "server/" <= f
  {
    if "dashboard/" <= f {
      assert f[0] == "dashboard/"[0] == 'd';
    }
    if "server/perf/" <= f {
      assert f[..7] == "server/perf/"[..7] == "server/";
    }
  }

  /** Not everything runs: every named file has a place of its own. */
  ghost predicate Ordinary(files: seq<string>) {
    && (exists f :: f in files && f != "")
    && forall f :: f in files && f != "" ==> !RunsEverything(f)
  }

  lemma NotAllIsOrdinary(files: seq<string>)
    ensures RunsAll(files) <==> !Ordinary(files)
  {}

  lemma DashboardByPath(files: seq<string>, env: Lookups, run: bool, args: seq<string>)
    requires Ordinary(files) && SuiteOf(run, args) == JoinAll(Changed(files), Effects(env)).dashboard
    requires !run ==> args == []
    ensures DashboardRight(files, env, run, args)
  {
    var effect, changed := Effects(env), Changed(files);
    SuiteOfAll(changed, effect, false);
    forall f | f in changed
      ensures effect(f).dashboard.Skip? <==> !DashboardAt(files, f)
      ensures effect(f).dashboard.Whole? <==> DashboardAt(files, f) && DashboardUntested(env, f)
      ensures forall t :: Finds(effect, false, f, t) <==>
                DashboardAt(files, f) && !DashboardUntested(env, f) && DashboardTestFor(env, f, t)
    {
      FileOnDashboard(f, env);
    }
    SuiteByPath(changed, effect, false, run, args);
  }

  lemma ServerByPath(files: seq<string>, env: Lookups, run: bool, args: seq<string>)
    requires Ordinary(files) && SuiteOf(run, args) == JoinAll(Changed(files), Effects(env)).server
    requires !run ==> args == []
    ensures ServerRight(files, env, run, args)
  {
    var effect, changed := Effects(env), Changed(files);
    SuiteOfAll(changed, effect, true);
    forall f | f in changed
      ensures effect(f).server.Skip? <==> !ServerAt(files, f)
      ensures effect(f).server.Whole? <==> ServerAt(files, f) && ServerUntested(env, f)
      ensures forall t :: Finds(effect, true, f, t) <==>
                ServerAt(files, f) && !ServerUntested(env, f) && ServerTestFor(env, f, t)
    {
      FileOnServer(f, env);
    }
    SuiteByPath(changed, effect, true, run, args);
  }

  /** The fields of a suite, from the files' effects. */
  lemma SuiteByPath(changed: seq<string>, effect: string -> Need, server: bool, run: bool, args: seq<string>)
    requires SuiteOf(run, args) == SuiteIn(JoinAll(changed, effect), server)
    requires !run ==> args == []
    ensures run <==> exists f :: f in changed && !SuiteIn(effect(f), server).Skip?
    ensures run ==> (args == [] <==> exists f :: f in changed && SuiteIn(effect(f), server).Whole?)
    ensures (forall f :: f in changed ==> !SuiteIn(effect(f), server).Whole?) ==>
              forall t :: t in args <==> exists f :: f in changed && Finds(effect, server, f, t)
  {
    SuiteOfAll(changed, effect, server);
    assert run && args != [] ==> forall t :: t in args <==> t in ToSet(args);
  }

  lemma GatesByPath(files: seq<string>, env: Lookups)
    requires Ordinary(files)
    ensures var n := Settle(JoinAll(Changed(files), Effects(env)));
            !n.full && PerfRight(files, env, n.perf) && AuditRight(files, env, n.audit, n.strict)
  {
    var effect, changed := Effects(env), Changed(files);
    FlagsOfAll(changed, effect);
    FullOfAll(changed, effect);
    AllStrictNeedsAudit(changed, env);
    forall f | f in changed
      ensures !effect(f).full
      ensures effect(f).perf <==>
                (!IsDocPath(f) && "server/perf/" <= f) || (ServerAt(files, f) && ServerUntested(env, f))
      ensures effect(f).audit <==>
                ServerAt(files, f) && !IsServerTest(f) && (env.server(f) == [] || !("server/eslint-rules/" <= f))
    {
      FileFlags(f, env);
    }
    forall f | f in files && f != "" ensures f in changed {
    }
    assert forall f :: f in files && "server/perf/" <= f ==> f != "";
    assert forall f :: f in files && IsAuditStrictTrigger(f) ==> f != "";
  }

  /** What the plan means, said of the paths. */
  lemma PlanByPath(files: seq<string>, env: Lookups, p: Plan)
    requires Meaning(p) == Planned(files, env)
    requires (!p.runDashboard ==> p.dashboardArgs == []) && (!p.runServer ==> p.serverArgs == [])
    ensures PlanRight(files, env, p)
  {
    NotAllIsOrdinary(files);
    NoneChanged(files);
    EverythingIff(files, env);
    if Ordinary(files) {
      GatesByPath(files, env);
      DashboardByPath(files, env, p.runDashboard, p.dashboardArgs);
      ServerByPath(files, env, p.runServer, p.serverArgs);
    }
  }

  // ----- The codegraph pass -----

  lemma MergedTests(args: seq<string>, extras: seq<string>)
    requires args != []
    ensures var merged := UniqSorted(args + extras);
            && merged != [] && ToSet(merged) == ToSet(args) + ToSet(extras)
            && ToSet(args) + ToSet(merged) == ToSet(merged)
  {
    MoreTests(args, extras);
    assert args[0] in UniqSorted(args + extras);
  }

  /** Adds the impacted tests to a server run that is already limited to some tests. */
  method Widen(plan: Plan, useCodegraph: bool, extras: seq<string>) returns (p: Plan)
    ensures Covers(Meaning(p), Meaning(plan))
    ensures Meaning(p) == Meaning(plan).(server := Meaning(p).server)
    ensures useCodegraph && plan.mode.Affected? && Meaning(plan).server.Tests? ==>
              Meaning(p).server == Tests(Meaning(plan).server.files + ToSet(extras))
    ensures !(useCodegraph && plan.mode.Affected? && Meaning(plan).server.Tests?) ==> p == plan
  {
    p := plan;
    JoinLaws(Meaning(plan), Meaning(plan), Meaning(plan));
    if useCodegraph && plan.mode.Affected? && plan.runServer && |plan.serverArgs| > 0 {
      if |extras| > 0 {
        p := p.(serverArgs := UniqSorted(plan.serverArgs + extras));
        MergedTests(plan.serverArgs, extras);
        SuiteLaws(Meaning(plan).dashboard, Skip, Skip);
      }
    }
  }
}
