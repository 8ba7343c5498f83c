/** The edit of a TOML file that registers the server (ensureCodexMcpConfig in server/index.js). */
module CodexConfig {
  import Text

  // ----- Lines -----

  /** The line patterns of the edit, and trimming. */
  datatype Syntax = Syntax(
    isTable: string -> bool, isSubtable: string -> bool, isAnyTable: string -> bool, isUrl: string -> bool,
    trim: string -> string)

  /** `line` without one final carriage return. */
  function DropCr(line: string): string {
    if line != "" && line[|line| - 1] == '\r' then line[..|line| - 1] else line
  }

  /** What the edit needs to know about the patterns. */
  ghost predicate Lawful(syn: Syntax, header: string, urlLine: string) {
    && syn.isTable(header)
    && syn.isUrl(urlLine) && syn.trim(urlLine) == urlLine && syn.trim(DropCr(urlLine)) == urlLine
    && !syn.isAnyTable("")
    && (forall l :: syn.isTable(l) ==> syn.isAnyTable(l))
    && (forall l :: syn.isSubtable(l) ==> !syn.isTable(l))
    && (forall l :: syn.isUrl(l) ==> !syn.isAnyTable(l))
    && (forall l :: syn.isTable(DropCr(l)) == syn.isTable(l) && syn.isAnyTable(DropCr(l)) == syn.isAnyTable(l))
    && (forall l :: syn.isUrl(DropCr(l)) == syn.isUrl(l) && syn.trim(DropCr(l)) == syn.trim(l))
  }

  /** Line s is the only table header. */
  ghost predicate OnlyTable(syn: Syntax, lines: seq<string>, s: nat) {
    && s < |lines| && syn.isTable(lines[s])
    && forall k :: 0 <= k < |lines| && k != s ==> !syn.isTable(lines[k])
  }

  /** Between lines s and e no table starts and there is no url line. */
  ghost predicate PlainBetween(syn: Syntax, lines: seq<string>, s: nat, e: nat) {
    e <= |lines| && forall k :: s < k < e ==> !syn.isAnyTable(lines[k]) && !syn.isUrl(lines[k])
  }

  /** Line s is the only table header, and line u the first url line of that table. */
  ghost predicate UrlAt(syn: Syntax, lines: seq<string>, s: nat, u: nat) {
    s < u < |lines| && OnlyTable(syn, lines, s) && PlainBetween(syn, lines, s, u) && syn.isUrl(lines[u])
  }

  /** Line s is the only table header, and its table ends before line e without a url line. */
  ghost predicate NoUrlUntil(syn: Syntax, lines: seq<string>, s: nat, e: nat) {
    && s < e <= |lines| && OnlyTable(syn, lines, s) && PlainBetween(syn, lines, s, e)
    && (e < |lines| ==> syn.isAnyTable(lines[e]))
  }

  /** The file has exactly one table for the server and its first url line is the expected one. */
  ghost predicate Configured(syn: Syntax, lines: seq<string>, urlLine: string) {
    exists s: nat, u: nat :: UrlAt(syn, lines, s, u) && syn.trim(lines[u]) == urlLine
  }

  ghost predicate NoTable(syn: Syntax, lines: seq<string>) {
    forall k :: 0 <= k < |lines| ==> !syn.isTable(lines[k])
  }

  ghost predicate TwoTables(syn: Syntax, lines: seq<string>) {
    exists i, j :: 0 <= i < j < |lines| && syn.isTable(lines[i]) && syn.isTable(lines[j])
  }

  /** Line k is the first subtable; without any, k is past the last line. */
  ghost predicate FirstSubtable(syn: Syntax, lines: seq<string>, k: nat) {
    && k <= |lines|
    && (k < |lines| ==> syn.isSubtable(lines[k]))
    && forall i :: 0 <= i < k ==> !syn.isSubtable(lines[i])
  }

  /** A table for the server, set off by blank lines from what surrounds it. */
  function NewTable(lines: seq<string>, at: nat, header: string, urlLine: string): seq<string>
    requires at <= |lines|
  {
    (if at > 0 && lines[at - 1] != "" then [""] else []) + [header, urlLine] +
    (if at < |lines| && lines[at] != "" then [""] else [])
  }

  function Splice(lines: seq<string>, from: nat, to: nat, added: seq<string>): seq<string>
    requires from <= to <= |lines|
  {
    lines[..from] + added + lines[to..]
  }

  /** No table: a new one goes before the first subtable, or at the end. */
  ghost predicate TableAdded(syn: Syntax, lines: seq<string>, next: seq<string>, header: string, urlLine: string) {
    && NoTable(syn, lines)
    && exists k: nat :: FirstSubtable(syn, lines, k) && next == Splice(lines, k, k, NewTable(lines, k, header, urlLine))
  }

  /** One table with a url line: the first of its url lines is replaced. */
  ghost predicate UrlReplaced(syn: Syntax, lines: seq<string>, next: seq<string>, urlLine: string) {
    exists s: nat, u: nat ::
      UrlAt(syn, lines, s, u) && syn.trim(lines[u]) != urlLine && next == Splice(lines, u, u + 1, [urlLine])
  }

  /** One table without a url line: one is added at its end. */
  ghost predicate UrlAdded(syn: Syntax, lines: seq<string>, next: seq<string>, urlLine: string) {
    exists s: nat, e: nat :: NoUrlUntil(syn, lines, s, e) && next == Splice(lines, e, e, [urlLine])
  }

  /** What the edit makes of a file that is to be rewritten. */
  ghost predicate EditOf(syn: Syntax, lines: seq<string>, next: seq<string>, header: string, urlLine: string) {
    || TableAdded(syn, lines, next, header, urlLine)
    || UrlReplaced(syn, lines, next, urlLine)
    || UrlAdded(syn, lines, next, urlLine)
  }

  datatype Edited = ParseError | AlreadyCurrent | Rewritten(lines: seq<string>)

  /** The line of the only table, the first subtable, or their absence (|lines|). */
  method FindTables(syn: Syntax, lines: seq<string>) returns (table: nat, subtable: nat, several: bool)
    requires forall l :: syn.isSubtable(l) ==> !syn.isTable(l)
    ensures several <==> TwoTables(syn, lines)
    ensures FirstSubtable(syn, lines, subtable)
    ensures !several ==> if table == |lines| then NoTable(syn, lines) else OnlyTable(syn, lines, table)
  {
    table, subtable, several := |lines|, |lines|, false;
    for index := 0 to |lines|
      invariant table < index || table == |lines|
      invariant subtable < index || subtable == |lines|
      invariant subtable < |lines| ==> syn.isSubtable(lines[subtable])
      invariant forall k :: 0 <= k < index && k < subtable ==> !syn.isSubtable(lines[k])
      invariant table == |lines| ==> !several && forall k :: 0 <= k < index ==> !syn.isTable(lines[k])
      invariant table < |lines| ==> syn.isTable(lines[table]) && forall k :: 0 <= k < table ==> !syn.isTable(lines[k])
      invariant several <==> table < |lines| && exists k :: table < k < index && syn.isTable(lines[k])
    {
      if syn.isTable(lines[index]) {
        if table == |lines| {
          table := index;
        } else {
          several := true;
        }
      } else if syn.isSubtable(lines[index]) {
        if subtable == |lines| {
          subtable := index;
        }
      }
    }
  }

  /** The first url line of the table at `start`, or the end of the table if it has none. */
  method FindUrl(syn: Syntax, lines: seq<string>, start: nat) returns (url: nat, found: bool)
    requires OnlyTable(syn, lines, start)
    requires forall l :: syn.isUrl(l) ==> !syn.isAnyTable(l)
    ensures if found then UrlAt(syn, lines, start, url) else NoUrlUntil(syn, lines, start, url)
  {
    var end := start + 1;
    while end < |lines| && !syn.isAnyTable(lines[end])
      invariant start < end <= |lines|
      invariant forall k :: start < k < end ==> !syn.isAnyTable(lines[k])
    {
      end := end + 1;
    }
    url := start + 1;
    while url < end && !syn.isUrl(lines[url])
      invariant start < url <= end
      invariant forall k :: start < k < url ==> !syn.isUrl(lines[k])
    {
      url := url + 1;
    }
    found := url < end;
  }

  /** A file has at most one place for its url line, found or missing. */
  lemma OnePlace(syn: Syntax, lines: seq<string>, s: nat, u: nat, s': nat, u': nat)
    requires forall l :: syn.isUrl(l) ==> !syn.isAnyTable(l)
    requires UrlAt(syn, lines, s, u) || NoUrlUntil(syn, lines, s, u)
    requires UrlAt(syn, lines, s', u') || NoUrlUntil(syn, lines, s', u')
    ensures s == s' && u == u'
    ensures UrlAt(syn, lines, s, u) <==> !NoUrlUntil(syn, lines, s, u)
  {
    assert s == s';
    assert u < u' ==> PlainBetween(syn, lines, s, u');
    assert u' < u ==> PlainBetween(syn, lines, s, u);
  }

  /** One table: give it the url line, in place of its first url line if it has one. */
  method UpdateTable(syn: Syntax, lines: seq<string>, start: nat, urlLine: string) returns (r: Edited)
    requires OnlyTable(syn, lines, start)
    requires forall l :: syn.isUrl(l) ==> !syn.isAnyTable(l)
    ensures !r.ParseError?
    ensures r.AlreadyCurrent? <==> Configured(syn, lines, urlLine)
    ensures r.Rewritten? ==> UrlReplaced(syn, lines, r.lines, urlLine) || UrlAdded(syn, lines, r.lines, urlLine)
  {
    var url, found := FindUrl(syn, lines, start);
    forall s: nat, u: nat | UrlAt(syn, lines, s, u) ensures found && u == url {
      OnePlace(syn, lines, s, u, start, url);
    }
    if found && syn.trim(lines[url]) == urlLine {
      return AlreadyCurrent;
    }
    return Rewritten(Splice(lines, url, if found then url + 1 else url, [urlLine]));
  }

  method EditLines(syn: Syntax, lines: seq<string>, header: string, urlLine: string) returns (r: Edited)
    requires Lawful(syn, header, urlLine)
    ensures r.ParseError? <==> TwoTables(syn, lines)
    ensures r.AlreadyCurrent? <==> Configured(syn, lines, urlLine)
    ensures r.Rewritten? ==> EditOf(syn, lines, r.lines, header, urlLine)
  {
    var table, subtable, several := FindTables(syn, lines);
    if several {
      return ParseError;
    }
    if table == |lines| {
      return Rewritten(Splice(lines, subtable, subtable, NewTable(lines, subtable, header, urlLine)));
    }
    r := UpdateTable(syn, lines, table, urlLine);
  }

  /** The edit leaves no choice: a file is rewritten in one way only. */
  lemma EditUnique(syn: Syntax, lines: seq<string>, a: seq<string>, b: seq<string>, header: string, urlLine: string)
    requires Lawful(syn, header, urlLine)
    requires EditOf(syn, lines, a, header, urlLine) && EditOf(syn, lines, b, header, urlLine)
    ensures a == b
  {
    if NoTable(syn, lines) {
      assert TableAdded(syn, lines, a, header, urlLine) && TableAdded(syn, lines, b, header, urlLine);
    } else {
      var s, u := PlaceOf(syn, lines, a, header, urlLine);
      var s', u' := PlaceOf(syn, lines, b, header, urlLine);
      OnePlace(syn, lines, s, u, s', u');
    }
  }

  /** Where the url line is put in a file with a table. */
  lemma PlaceOf(syn: Syntax, lines: seq<string>, next: seq<string>, header: string, urlLine: string)
    returns (s: nat, u: nat)
    requires EditOf(syn, lines, next, header, urlLine) && !NoTable(syn, lines)
    ensures UrlAt(syn, lines, s, u) || NoUrlUntil(syn, lines, s, u)
    ensures UrlAt(syn, lines, s, u) && !NoUrlUntil(syn, lines, s, u) ==> next == Splice(lines, u, u + 1, [urlLine])
    ensures NoUrlUntil(syn, lines, s, u) && !UrlAt(syn, lines, s, u) ==> next == Splice(lines, u, u, [urlLine])
  {
    if UrlReplaced(syn, lines, next, urlLine) {
      s, u :| UrlAt(syn, lines, s, u) && next == Splice(lines, u, u + 1, [urlLine]);
    } else {
      s, u :| NoUrlUntil(syn, lines, s, u) && next == Splice(lines, u, u, [urlLine]);
    }
  }

  /**
    `next` keeps every line of `lines` in order, except that at most one url line gave way, and
    adds only the header, the url line and blank lines, all in one place.
   */
  ghost predicate KeepsRest(syn: Syntax, lines: seq<string>, next: seq<string>, header: string, urlLine: string) {
    exists i: nat, j: nat, added :: Replaces(lines, next, i, j, added)
      && (j == i || (j == i + 1 && syn.isUrl(lines[i]) && added == [urlLine]))
      && forall l :: l in added ==> l == header || l == urlLine || l == ""
  }

  ghost predicate Replaces(lines: seq<string>, next: seq<string>, i: nat, j: nat, added: seq<string>) {
    i <= j <= |lines| && next == Splice(lines, i, j, added)
  }

  lemma SpliceAt(lines: seq<string>, from: nat, to: nat, added: seq<string>, i: nat)
    requires from <= to <= |lines| && i < |Splice(lines, from, to, added)|
    ensures Splice(lines, from, to, added)[i] ==
            if i < from then lines[i]
            else if i < from + |added| then added[i - from]
            else lines[i - |added| + to - from]
  {}

  /** A rewritten file is configured and keeps every other line. */
  lemma EditConfigures(syn: Syntax, lines: seq<string>, next: seq<string>, header: string, urlLine: string)
    requires Lawful(syn, header, urlLine) && EditOf(syn, lines, next, header, urlLine)
    ensures Configured(syn, next, urlLine)
    ensures KeepsRest(syn, lines, next, header, urlLine)
  {
    if TableAdded(syn, lines, next, header, urlLine) {
      var k: nat :| FirstSubtable(syn, lines, k) && next == Splice(lines, k, k, NewTable(lines, k, header, urlLine));
      assert Replaces(lines, next, k, k, NewTable(lines, k, header, urlLine));
      NewTableConfigures(syn, lines, k, header, urlLine);
    } else {
      var s, u := PlaceOf(syn, lines, next, header, urlLine);
      OnePlace(syn, lines, s, u, s, u);
      var to := if UrlAt(syn, lines, s, u) then u + 1 else u;
      assert Replaces(lines, next, u, to, [urlLine]);
      UrlConfigures(syn, lines, s, u, to, header, urlLine);
    }
  }

  /** The new table is the only one, and its first line is the url line. */
  lemma NewTableConfigures(syn: Syntax, lines: seq<string>, k: nat, header: string, urlLine: string)
    requires Lawful(syn, header, urlLine) && NoTable(syn, lines) && k <= |lines|
    ensures Configured(syn, Splice(lines, k, k, NewTable(lines, k, header, urlLine)), urlLine)
  {
    var added := NewTable(lines, k, header, urlLine);
    var next := Splice(lines, k, k, added);
    var s := if added[0] == header then k else k + 1;
    assert next[s] == header && next[s + 1] == urlLine;
    forall i | 0 <= i < |next| && i != s ensures !syn.isTable(next[i]) {
      SpliceAt(lines, k, k, added, i);
    }
    assert UrlAt(syn, next, s, s + 1);
  }

  /**
    A new table stands before the first subtable, or at the end, and a blank line is added only
    where the line next to it is not blank already.
   */
  lemma NewTableSetOff(syn: Syntax, lines: seq<string>, next: seq<string>, header: string, urlLine: string)
    returns (k: nat)
    requires TableAdded(syn, lines, next, header, urlLine)
    ensures FirstSubtable(syn, lines, k)
    ensures var above := if k > 0 && lines[k - 1] != "" then 1 else 0;
            var below := if k < |lines| && lines[k] != "" then 1 else 0;
            var s := k + above;
            && |next| == |lines| + 2 + above + below
            && next[..k] == lines[..k] && next[s + 2 + below..] == lines[k..]
            && next[s] == header && next[s + 1] == urlLine
            && (s > 0 ==> next[s - 1] == "") && (s + 2 < |next| ==> next[s + 2] == "")
  {
    k :| FirstSubtable(syn, lines, k) && next == Splice(lines, k, k, NewTable(lines, k, header, urlLine));
  }

  /** Putting the url line at `u`, in place of lines[u] or before it, configures the table. */
  lemma UrlConfigures(syn: Syntax, lines: seq<string>, s: nat, u: nat, to: nat, header: string, urlLine: string)
    requires Lawful(syn, header, urlLine) && OnlyTable(syn, lines, s) && PlainBetween(syn, lines, s, u)
    requires s < u <= to <= |lines| && (to == u || (to == u + 1 && syn.isUrl(lines[u])))
    ensures Configured(syn, Splice(lines, u, to, [urlLine]), urlLine)
  {
    var next := Splice(lines, u, to, [urlLine]);
    forall k | 0 <= k < |next|
      ensures next[k] == if k < u then lines[k] else if k == u then urlLine else lines[k - 1 + to - u] {
      SpliceAt(lines, u, to, [urlLine], k);
    }
    assert UrlAt(syn, next, s, u);
  }

  // ----- Texts -----

  /** `raw.split(/\r?\n/)`: every line but the last loses a carriage return before its newline. */
  function SplitLines(raw: string): seq<string> {
    var pieces := Text.Split(raw);
    DropCrs(pieces[..|pieces| - 1]) + [pieces[|pieces| - 1]]
  }

  function DropCrs(lines: seq<string>): seq<string> {
    seq(|lines|, i requires 0 <= i < |lines| => DropCr(lines[i]))
  }

  /** The lines of a file's content, without the empty one after a final newline. */
  function Parse(raw: string): seq<string> {
    var lines := if raw == "" then [] else SplitLines(raw);
    if lines != [] && lines[|lines| - 1] == "" then lines[..|lines| - 1] else lines
  }

  predicate UsesCrLf(raw: string) {
    exists i :: 0 <= i && i + 1 < |raw| && raw[i] == '\r' && raw[i + 1] == '\n'
  }

  /** `lines.join(newline) + newline` */
  function Serialize(lines: seq<string>, newline: string): string {
    Text.JoinWith(lines, newline) + newline
  }

  ghost predicate OneLiners(lines: seq<string>) {
    forall k :: 0 <= k < |lines| ==> '\n' !in lines[k]
  }

  function WithCr(lines: seq<string>): seq<string> {
    seq(|lines|, i requires 0 <= i < |lines| => lines[i] + "\r")
  }

  /** A serialized text is its lines, with their carriage returns, joined by newlines. */
  lemma {:induction false} SerializeIsJoin(lines: seq<string>, crLf: bool)
    requires lines != []
    ensures Serialize(lines, if crLf then "\r\n" else "\n") ==
            Text.Join((if crLf then WithCr(lines) else lines) + [""])
  {
    var newline := if crLf then "\r\n" else "\n";
    var ended := if crLf then WithCr(lines) else lines;
    var head := if crLf then lines[0] + "\r" else lines[0];
    assert lines[0] + newline == head + "\n";
    SerializeMore(lines, newline);
    if |lines| == 1 {
      assert ended + [""] == [head] + [""];
      Text.JoinCons(head, [""]);
    } else {
      var tail := if crLf then WithCr(lines[1..]) else lines[1..];
      SerializeIsJoin(lines[1..], crLf);
      assert ended + [""] == [head] + (tail + [""]);
      Text.JoinCons(head, tail + [""]);
    }
  }

  /**
    Reading back a written file gives its lines; written with bare newlines, a line that
    ended in a carriage return loses it.
   */
  lemma ParseOfSerialize(lines: seq<string>, crLf: bool)
    requires lines != [] && OneLiners(lines)
    ensures Parse(Serialize(lines, if crLf then "\r\n" else "\n")) == if crLf then lines else DropCrs(lines)
  {
    var ended := if crLf then WithCr(lines) else lines;
    var raw := Serialize(lines, if crLf then "\r\n" else "\n");
    SerializeIsJoin(lines, crLf);
    Text.SplitOfJoin(ended + [""]);
    ParseEnded(raw, ended);
    if crLf {
      DropAddedCrs(lines);
    }
  }

  /** Parsing a text whose last line is empty. */
  lemma ParseEnded(raw: string, ended: seq<string>)
    requires ended != [] && Text.Split(raw) == ended + [""]
    ensures Parse(raw) == DropCrs(ended)
  {
    assert raw != "" by { assert |Text.Split("")| == 1; }
    assert (ended + [""])[..|ended|] == ended;
    assert SplitLines(raw) == DropCrs(ended) + [""];
    assert (DropCrs(ended) + [""])[..|ended|] == DropCrs(ended);
  }

  /** The lines, each with a carriage return at its end where `crs` says so. */
  ghost function Ended(lines: seq<string>, crs: seq<bool>): seq<string>
    requires |crs| == |lines|
  {
    seq(|lines|, i requires 0 <= i < |lines| => if crs[i] then lines[i] + "\r" else lines[i])
  }

  /**
    A text is read as its lines, whichever of them end in CRLF and whichever in a bare newline,
    and whether or not there is a newline after the last one.
   */
  lemma ParseMixed(lines: seq<string>, crs: seq<bool>, last: string)
    requires |crs| == |lines| && OneLiners(lines) && '\n' !in last
    requires forall i :: 0 <= i < |lines| ==> lines[i] == "" || lines[i][|lines[i]| - 1] != '\r'
    ensures Parse(Text.Join(Ended(lines, crs) + [last])) == if last == "" then lines else lines + [last]
  {
    var ended := Ended(lines, crs);
    var raw := Text.Join(ended + [last]);
    Text.SplitOfJoin(ended + [last]);
    assert (ended + [last])[..|ended|] == ended;
    forall i | 0 <= i < |lines| ensures DropCr(ended[i]) == lines[i] {
    }
    assert DropCrs(ended) == lines;
    assert SplitLines(raw) == lines + [last];
    assert (lines + [""])[..|lines|] == lines;
    if raw == "" {
      assert Text.Split(raw) == [""];
      assert |ended| == 0;
    }
  }

  lemma DropAddedCrs(lines: seq<string>)
    ensures DropCrs(WithCr(lines)) == lines
  {
    forall i | 0 <= i < |lines| ensures DropCr(lines[i] + "\r") == lines[i] {
    }
  }

  lemma ParseOneLiners(raw: string)
    ensures OneLiners(Parse(raw))
  {
  }

  /** CRLF is used exactly if the text holds it somewhere. */
  lemma UsesCrLfMeans(raw: string)
    ensures UsesCrLf(raw) <==> exists before, after :: raw == before + "\r\n" + after
  {
    if UsesCrLf(raw) {
      var i :| 0 <= i && i + 1 < |raw| && raw[i] == '\r' && raw[i + 1] == '\n';
      assert raw == raw[..i] + "\r\n" + raw[i + 2..];
    }
    if before, after :| raw == before + "\r\n" + after {
      assert raw[|before|] == '\r' && raw[|before| + 1] == '\n';
    }
  }

  /** A serialized text consists of its lines, each followed by the newline. */
  lemma {:induction false} SerializeMore(lines: seq<string>, newline: string)
    requires lines != []
    ensures Serialize(lines, newline) ==
            lines[0] + newline + (if |lines| == 1 then "" else Serialize(lines[1..], newline))
  {
    if |lines| == 1 {
      assert lines[0] + newline + "" == lines[0] + newline;
    } else {
      var rest := Text.JoinWith(lines[1..], newline);
      assert lines[0] + newline + rest + newline == lines[0] + newline + (rest + newline);
    }
  }

  /** Every line of the text ends in CRLF. */
  ghost predicate AllCrLf(text: string) {
    forall i :: 0 <= i < |text| && text[i] == '\n' ==> i > 0 && text[i - 1] == '\r'
  }

  /** A text written with CRLF has no bare newline. */
  lemma {:induction false} SerializedCrLf(lines: seq<string>)
    requires lines != [] && OneLiners(lines)
    ensures AllCrLf(Serialize(lines, "\r\n"))
  {
    SerializeMore(lines, "\r\n");
    var rest := if |lines| == 1 then "" else Serialize(lines[1..], "\r\n");
    if |lines| > 1 {
      SerializedCrLf(lines[1..]);
    }
    var text := lines[0] + "\r\n" + rest;
    assert forall i :: 0 <= i < |lines[0]| ==> text[i] == lines[0][i] && lines[0][i] in lines[0];
    forall i | 0 <= i < |text| && text[i] == '\n' ensures i > 0 && text[i - 1] == '\r' {
      if i > |lines[0]| + 1 {
        assert rest[i - |lines[0]| - 2] == '\n';
        assert i - |lines[0]| - 2 > 0;
      }
    }
  }

  /** Dropping carriage returns does not change what is configured. */
  lemma DropCrsConfigured(syn: Syntax, lines: seq<string>, header: string, urlLine: string)
    requires Lawful(syn, header, urlLine) && Configured(syn, lines, urlLine)
    ensures Configured(syn, DropCrs(lines), urlLine)
  {
    var s: nat, u: nat :| UrlAt(syn, lines, s, u) && syn.trim(lines[u]) == urlLine;
    var dropped := DropCrs(lines);
    assert forall k :: 0 <= k < |lines| ==> dropped[k] == DropCr(lines[k]);
    assert UrlAt(syn, dropped, s, u);
  }

  /** Lines that are kept or added hold no newline. */
  lemma RestOneLiners(syn: Syntax, lines: seq<string>, next: seq<string>, header: string, urlLine: string)
    requires KeepsRest(syn, lines, next, header, urlLine) && OneLiners(lines)
    requires '\n' !in header && '\n' !in urlLine
    ensures OneLiners(next)
  {
    var i: nat, j: nat, added: seq<string> :| Replaces(lines, next, i, j, added)
      && forall l :: l in added ==> l == header || l == urlLine || l == "";
    forall k | 0 <= k < |next| ensures '\n' !in next[k] {
      SpliceAt(lines, i, j, added, k);
      if i <= k < i + |added| {
        assert added[k - i] in added;
      }
    }
  }

  datatype Reason = Created | Updated | Current | Malformed

  /** What one run of the edit on a file's content answers and leaves behind; an absent file reads as "". */
  ghost predicate Ensured(syn: Syntax, raw: string, header: string, urlLine: string, reason: Reason, text: string) {
    && (reason.Malformed? <==> TwoTables(syn, Parse(raw)))
    && (reason.Current? <==> Configured(syn, Parse(raw), urlLine))
    && (reason.Malformed? || reason.Current? ==> text == raw)
    && (reason.Created? ==> raw == "") && (reason.Updated? ==> raw != "")
    && (reason.Created? || reason.Updated? ==>
          exists next :: EditOf(syn, Parse(raw), next, header, urlLine)
            && text == Serialize(next, if UsesCrLf(raw) then "\r\n" else "\n"))
  }

  method EnsureConfig(syn: Syntax, raw: string, header: string, urlLine: string) returns (reason: Reason, text: string)
    requires Lawful(syn, header, urlLine)
    ensures Ensured(syn, raw, header, urlLine, reason, text)
  {
    var edited := EditLines(syn, Parse(raw), header, urlLine);
    match edited
    case ParseError => return Malformed, raw;
    case AlreadyCurrent => return Current, raw;
    case Rewritten(next) =>
      assert raw == "" ==> Parse(raw) == [];
      var newline := if UsesCrLf(raw) then "\r\n" else "\n";
      return if raw == "" then Created else Updated, Serialize(next, newline);
  }

  /** The answer and the text left behind are determined by the text found. */
  lemma EnsuredUnique(syn: Syntax, raw: string, header: string, urlLine: string,
      reason: Reason, text: string, reason': Reason, text': string)
    requires Lawful(syn, header, urlLine)
    requires Ensured(syn, raw, header, urlLine, reason, text) && Ensured(syn, raw, header, urlLine, reason', text')
    ensures reason == reason' && text == text'
  {
    if reason.Created? || reason.Updated? {
      var newline := if UsesCrLf(raw) then "\r\n" else "\n";
      var a :| EditOf(syn, Parse(raw), a, header, urlLine) && text == Serialize(a, newline);
      var b :| EditOf(syn, Parse(raw), b, header, urlLine) && text' == Serialize(b, newline);
      EditUnique(syn, Parse(raw), a, b, header, urlLine);
    }
  }

  /** The text written reads back as configured, and serializes the old lines with the table's in place. */
  lemma EnsuredConfigures(syn: Syntax, raw: string, header: string, urlLine: string, reason: Reason, text: string)
    requires Lawful(syn, header, urlLine) && '\n' !in header && '\n' !in urlLine
    requires Ensured(syn, raw, header, urlLine, reason, text) && !reason.Malformed?
    ensures Configured(syn, Parse(text), urlLine)
    ensures !reason.Current? ==>
              exists next :: KeepsRest(syn, Parse(raw), next, header, urlLine) && Configured(syn, next, urlLine)
                && text == Serialize(next, if UsesCrLf(raw) then "\r\n" else "\n")
  {
    if !reason.Current? {
      var next :| EditOf(syn, Parse(raw), next, header, urlLine)
        && text == Serialize(next, if UsesCrLf(raw) then "\r\n" else "\n");
      EditConfigures(syn, Parse(raw), next, header, urlLine);
      ParseOneLiners(raw);
      RestOneLiners(syn, Parse(raw), next, header, urlLine);
      ParseOfSerialize(next, UsesCrLf(raw));
      DropCrsConfigured(syn, next, header, urlLine);
    }
  }

  /** What is written keeps the line ending found: a file with a CRLF in it is written with CRLF throughout. */
  lemma LineEndingKept(syn: Syntax, raw: string, header: string, urlLine: string, reason: Reason, text: string)
    requires Lawful(syn, header, urlLine) && '\n' !in header && '\n' !in urlLine
    requires Ensured(syn, raw, header, urlLine, reason, text) && reason.Updated?
    ensures (exists before, after :: raw == before + "\r\n" + after) ==> AllCrLf(text)
    ensures !(exists before, after :: raw == before + "\r\n" + after) ==>
              exists next ::
                KeepsRest(syn, Parse(raw), next, header, urlLine) && text == Text.JoinWith(next, "\n") + "\n"
  {
    UsesCrLfMeans(raw);
    var next :| EditOf(syn, Parse(raw), next, header, urlLine)
      && text == Serialize(next, if UsesCrLf(raw) then "\r\n" else "\n");
    EditConfigures(syn, Parse(raw), next, header, urlLine);
    ParseOneLiners(raw);
    RestOneLiners(syn, Parse(raw), next, header, urlLine);
    if UsesCrLf(raw) {
      SerializedCrLf(next);
    }
  }

  /** Running the edit on what it left behind finds nothing to do and changes nothing. */
  lemma EnsureTwice(syn: Syntax, raw: string, header: string, urlLine: string,
      first: Reason, text: string, second: Reason, text2: string)
    requires Lawful(syn, header, urlLine) && '\n' !in header && '\n' !in urlLine
    requires Ensured(syn, raw, header, urlLine, first, text) && Ensured(syn, text, header, urlLine, second, text2)
    ensures text2 == text
    ensures second == if first.Malformed? then Malformed else Current
  {
    if !first.Malformed? {
      EnsuredConfigures(syn, raw, header, urlLine, first, text);
    }
  }

  // ----- The patterns themselves -----

  const HEADER := "[mcp_servers.torque]"

  predicate IsSpace(c: char) {
    || c == ' ' || '\t' <= c <= '\r' || c == '\U{00A0}' || c == '\U{1680}' || '\U{2000}' <= c <= '\U{200A}'
    || c == '\U{2028}' || c == '\U{2029}' || c == '\U{202F}' || c == '\U{205F}' || c == '\U{3000}' || c == '\U{FEFF}'
  }

  function TrimStart(s: string): string {
    if s != "" && IsSpace(s[0]) then TrimStart(s[1..]) else s
  }

  function TrimEnd(s: string): string {
    if s != "" && IsSpace(s[|s| - 1]) then TrimEnd(s[..|s| - 1]) else s
  }

  function Trim(s: string): string {
    TrimEnd(TrimStart(s))
  }

  /** `^\s*\[[^\]]+\]\s*$` on a trimmed line. */
  predicate Bracketed(t: string) {
    |t| >= 3 && t[0] == '[' && t[|t| - 1] == ']' && ']' !in t[1..|t| - 1]
  }

  predicate Subtable(t: string) {
    |t| >= 22 && "[mcp_servers.torque." <= t && t[|t| - 1] == ']' && ']' !in t[20..|t| - 1]
  }

  /** `^\s*url\s*=` */
  predicate UrlStart(t: string) {
    "url" <= t && "=" <= TrimStart(t[3..])
  }

  predicate IsTable(line: string) { Trim(line) == HEADER }
  predicate IsSubtable(line: string) { Subtable(Trim(line)) }
  predicate IsAnyTable(line: string) { Bracketed(Trim(line)) }
  predicate IsUrl(line: string) { UrlStart(TrimStart(line)) }

  const TOML := Syntax(IsTable, IsSubtable, IsAnyTable, IsUrl, Trim)

  lemma {:induction false} TrimStartCr(s: string)
    ensures TrimStart(DropCr(s)) == DropCr(TrimStart(s))
  {
    if s != "" && IsSpace(s[0]) {
      if |s| == 1 {
        assert TrimStart(s) == "";
      } else {
        assert DropCr(s)[1..] == DropCr(s[1..]);
        TrimStartCr(s[1..]);
      }
    }
  }

  lemma TrimCr(s: string)
    ensures Trim(DropCr(s)) == Trim(s)
  {
    TrimStartCr(s);
    var t := TrimStart(s);
    if t != "" && t[|t| - 1] == '\r' {
      assert TrimEnd(t) == TrimEnd(DropCr(t));
    }
  }

  lemma UrlStartCr(t: string)
    ensures UrlStart(DropCr(t)) == UrlStart(t)
  {
    if "url" <= t {
      assert t[2] == 'l';
      if |t| > 3 {
        assert DropCr(t)[3..] == DropCr(t[3..]);
        TrimStartCr(t[3..]);
      }
    }
  }

  lemma {:induction false} TrimEndPrefix(s: string)
    ensures TrimEnd(s) <= s
    ensures s != "" && !IsSpace(s[0]) ==> TrimEnd(s) != "" && TrimEnd(s)[0] == s[0]
  {
    if s != "" && IsSpace(s[|s| - 1]) {
      TrimEndPrefix(s[..|s| - 1]);
    }
  }

  /** A text that neither starts nor ends with a space is not trimmed, nor does it end in a carriage return. */
  lemma NotTrimmed(l: string)
    requires l != "" && !IsSpace(l[0]) && !IsSpace(l[|l| - 1])
    ensures TrimStart(l) == l && Trim(l) == l && DropCr(l) == l
  {}

  lemma TrimOne(c: char, rest: string)
    requires IsSpace(c) && rest != "" && !IsSpace(rest[0])
    ensures TrimStart([c] + rest) == rest
  {
    assert ([c] + rest)[1..] == rest;
  }

  lemma UrlLineFits(quoted: string)
    requires |quoted| >= 2 && quoted[|quoted| - 1] == '"'
    ensures var l := "url = " + quoted; IsUrl(l) && Trim(l) == l && DropCr(l) == l
  {
    var l := "url = " + quoted;
    var value := "= " + quoted;
    NotTrimmed(l);
    TrimOne(' ', value);
    assert l[..3] == "url";
    assert l[3..] == [' '] + value;
    assert value[..1] == "=";
  }

  lemma HeaderFits()
    ensures Trim(HEADER) == HEADER && Bracketed(HEADER) && !IsAnyTable("")
  {
    assert |HEADER| == 20;
    assert HEADER[0] == '[';
    assert HEADER[19] == ']';
  }

  lemma TableIsAnyTable(l: string)
    ensures IsTable(l) ==> IsAnyTable(l)
    ensures IsSubtable(l) ==> !IsTable(l)
  {
    HeaderFits();
    assert |HEADER| == 20;
  }

  lemma UrlNotTable(l: string)
    ensures IsUrl(l) ==> !IsAnyTable(l)
  {
    TrimEndPrefix(TrimStart(l));
  }

  /** A final carriage return makes no difference to any pattern. */
  lemma PatternsIgnoreCr(l: string)
    ensures Trim(DropCr(l)) == Trim(l) && IsUrl(DropCr(l)) == IsUrl(l)
    ensures IsTable(DropCr(l)) == IsTable(l) && IsAnyTable(DropCr(l)) == IsAnyTable(l)
  {
    TrimCr(l);
    TrimStartCr(l);
    UrlStartCr(TrimStart(l));
  }

  /** The repository's patterns are as the edit needs them, for any URL in double quotes. */
  lemma TomlIsLawful(quoted: string)
    requires |quoted| >= 2 && quoted[|quoted| - 1] == '"'
    ensures Lawful(TOML, HEADER, "url = " + quoted)
  {
    UrlLineFits(quoted);
    HeaderFits();
    TableIsAnyTable(HEADER);
    forall l
      ensures (IsTable(l) ==> IsAnyTable(l)) && (IsSubtable(l) ==> !IsTable(l)) && (IsUrl(l) ==> !IsAnyTable(l)) {
      TableIsAnyTable(l);
      UrlNotTable(l);
    }
    forall l
      ensures Trim(DropCr(l)) == Trim(l) && IsUrl(DropCr(l)) == IsUrl(l)
      ensures IsTable(DropCr(l)) == IsTable(l) && IsAnyTable(DropCr(l)) == IsAnyTable(l)
    {
      PatternsIgnoreCr(l);
    }
  }

  // ----- The patterns, as shapes of lines -----

  /** The space characters, by their code points. */
  lemma SpaceCodes(c: char)
    ensures IsSpace(c) <==>
            var code := c as int;
            || 9 <= code <= 13 || code in {32, 160, 5760, 8232, 8233, 8239, 8287, 12288, 65279}
            || 8192 <= code <= 8202
  {}

  ghost predicate Spaces(s: string) {
    forall c :: c in s ==> IsSpace(c)
  }

  /** Neither the first nor the last character is a space. */
  ghost predicate Tight(t: string) {
    t != "" && !IsSpace(t[0]) && !IsSpace(t[|t| - 1])
  }

  lemma {:induction false} TrimStartParts(s: string) returns (a: string)
    ensures Spaces(a) && s == a + TrimStart(s)
    ensures TrimStart(s) == "" || !IsSpace(TrimStart(s)[0])
  {
    if s != "" && IsSpace(s[0]) {
      var b := TrimStartParts(s[1..]);
      a := [s[0]] + b;
      assert s == [s[0]] + s[1..];
      assert a + TrimStart(s) == [s[0]] + (b + TrimStart(s[1..]));
    } else {
      a := "";
    }
  }

  lemma {:induction false} TrimEndParts(s: string) returns (b: string)
    ensures Spaces(b) && s == TrimEnd(s) + b
    ensures TrimEnd(s) == "" || !IsSpace(TrimEnd(s)[|TrimEnd(s)| - 1])
  {
    if s != "" && IsSpace(s[|s| - 1]) {
      var m := |s| - 1;
      var c := TrimEndParts(s[..m]);
      b := c + [s[m]];
      assert s == s[..m] + [s[m]];
      assert TrimEnd(s) + b == TrimEnd(s[..m]) + c + [s[m]];
    } else {
      b := "";
    }
  }

  /** Trimming takes away the spaces on both sides and nothing else. */
  lemma TrimParts(s: string) returns (a: string, b: string)
    ensures Spaces(a) && Spaces(b) && s == a + Trim(s) + b
    ensures Trim(s) == "" || Tight(Trim(s))
  {
    a := TrimStartParts(s);
    b := TrimEndParts(TrimStart(s));
    TrimEndPrefix(TrimStart(s));
    assert a + Trim(s) + b == a + (Trim(s) + b);
  }

  lemma {:induction false} TrimStartOf(a: string, t: string)
    requires Spaces(a) && (t == "" || !IsSpace(t[0]))
    ensures TrimStart(a + t) == t
  {
    if a == "" {
      assert a + t == t;
    } else {
      assert a[0] in a && (a + t)[1..] == a[1..] + t;
      assert forall c :: c in a[1..] ==> c in a;
      TrimStartOf(a[1..], t);
    }
  }

  lemma {:induction false} TrimEndOf(t: string, b: string)
    requires Spaces(b) && (t == "" || !IsSpace(t[|t| - 1]))
    ensures TrimEnd(t + b) == t
  {
    if b == "" {
      assert t + b == t;
    } else {
      var m := |b| - 1;
      assert b[m] in b && (t + b)[..|t + b| - 1] == t + b[..m];
      assert forall c :: c in b[..m] ==> c in b;
      TrimEndOf(t, b[..m]);
    }
  }

  lemma TrimOf(a: string, t: string, b: string)
    requires Spaces(a) && Spaces(b) && Tight(t)
    ensures Trim(a + t + b) == t
  {
    assert a + t + b == a + (t + b);
    TrimStartOf(a, t + b);
    TrimEndOf(t, b);
  }

  /** The line is t with spaces around it. */
  ghost predicate Padded(line: string, t: string) {
    exists a, b :: Spaces(a) && Spaces(b) && line == a + t + b
  }

  lemma PaddedIsTrimmed(line: string, t: string)
    requires Tight(t)
    ensures Padded(line, t) <==> Trim(line) == t
  {
    if Padded(line, t) {
      var a, b :| Spaces(a) && Spaces(b) && line == a + t + b;
      TrimOf(a, t, b);
    }
    var a, b := TrimParts(line);
  }

  /** A name between brackets. */
  ghost predicate Named(name: string) {
    name != "" && ']' !in name
  }

  /** The header line of the server's own table. */
  lemma TableShape(line: string)
    ensures IsTable(line) <==> Padded(line, "[mcp_servers.torque]")
  {
    assert HEADER[0] == '[' && HEADER[19] == ']' && |HEADER| == 20;
    PaddedIsTrimmed(line, HEADER);
  }

  lemma BracketTight(inner: string)
    ensures Tight("[" + inner + "]")
  {
    var t := "[" + inner + "]";
    assert t[0] == '[' && t[|t| - 1] == ']';
  }

  /** Any table's header line. */
  lemma AnyTableShape(line: string)
    ensures IsAnyTable(line) <==> exists name :: Named(name) && Padded(line, "[" + name + "]")
  {
    var t := Trim(line);
    if IsAnyTable(line) {
      var name := t[1..|t| - 1];
      assert t == "[" + name + "]";
      BracketTight(name);
      PaddedIsTrimmed(line, t);
    }
    if name :| Named(name) && Padded(line, "[" + name + "]") {
      BracketTight(name);
      PaddedIsTrimmed(line, "[" + name + "]");
      assert t[1..|t| - 1] == name;
    }
  }

  /** A header line below the server's own table. */
  lemma SubtableShape(line: string)
    ensures IsSubtable(line) <==> exists name :: Named(name) && Padded(line, "[mcp_servers.torque." + name + "]")
  {
    var t, start := Trim(line), "[mcp_servers.torque.";
    assert |start| == 20 && start[0] == '[';
    if IsSubtable(line) {
      var name := t[20..|t| - 1];
      assert t == start + name + "]";
      assert Tight(t);
      PaddedIsTrimmed(line, t);
    }
    if name :| Named(name) && Padded(line, start + name + "]") {
      assert (start + name + "]")[0] == '[';
      assert Tight(start + name + "]");
      PaddedIsTrimmed(line, start + name + "]");
      assert t[20..|t| - 1] == name;
    }
  }

  /** A line that sets the url: the word, spaces, and an equals sign. */
  ghost predicate SetsUrl(line: string, a: string, b: string, rest: string) {
    Spaces(a) && Spaces(b) && line == a + ("url" + (b + ("=" + rest)))
  }

  lemma UrlShape(line: string)
    ensures IsUrl(line) <==> exists a, b, rest :: SetsUrl(line, a, b, rest)
  {
    if IsUrl(line) {
      var a := TrimStartParts(line);
      var t := TrimStart(line);
      var b := TrimStartParts(t[3..]);
      var value := TrimStart(t[3..]);
      assert t == "url" + t[3..] && value == "=" + value[1..];
      assert SetsUrl(line, a, b, value[1..]);
    }
    if a, b, rest :| SetsUrl(line, a, b, rest) {
      var value := "=" + rest;
      var t := "url" + (b + value);
      assert t[0] == 'u' && t[..3] == "url" && t[3..] == b + value;
      TrimStartOf(a, t);
      TrimStartOf(b, value);
      assert value[..1] == "=";
    }
  }
}
