/** The rotating log file of server/logger.js, for one logger that starts with no log files. */
module RotatingLog {
  import opened Wrappers

  newtype Byte = b: int | 0 <= b < 0x100

  type Line = seq<Byte>

  /** The files' contents: the current file, and the rotated ones with the newest first. */
  datatype Log = Log(current: seq<Line>, archive: seq<seq<Line>>)

  const EMPTY := Log([], [])

  function Size(lines: seq<Line>): nat {
    if lines == [] then 0 else Size(lines[..|lines| - 1]) + |lines[|lines| - 1]|
  }

  function Take<T>(s: seq<T>, n: nat): seq<T> {
    if |s| <= n then s else s[..n]
  }

  /** What one logged line does to the files. */
  function Step(log: Log, line: Line, maxSize: nat, maxFiles: nat): Log {
    if Size(log.current) > maxSize then Log([line], Take([log.current] + log.archive, maxFiles))
    else Log(log.current + [line], log.archive)
  }

  function Run(lines: seq<Line>, maxSize: nat, maxFiles: nat): Log {
    if lines == [] then EMPTY
    else Step(Run(lines[..|lines| - 1], maxSize, maxFiles), lines[|lines| - 1], maxSize, maxFiles)
  }

  /** All lines of the rotated files, oldest first. */
  ghost function Archived(archive: seq<seq<Line>>): seq<Line> {
    if archive == [] then [] else Archived(archive[1..]) + archive[0]
  }

  ghost function Retained(log: Log): seq<Line> {
    Archived(log.archive) + log.current
  }

  lemma {:induction false} SizeAppend(a: seq<Line>, b: seq<Line>)
    ensures Size(a + b) == Size(a) + Size(b)
  {
    if b == [] {
      assert a + b == a;
    } else {
      var m := |b| - 1;
      SizeAppend(a, b[..m]);
      assert (a + b)[..|a + b| - 1] == a + b[..m];
    }
  }

  /** Cutting off old files leaves a suffix of the archived lines. */
  lemma {:induction false} CutIsSuffix(archive: seq<seq<Line>>, n: nat) returns (older: seq<Line>)
    requires n <= |archive|
    ensures Archived(archive) == older + Archived(archive[..n])
  {
    if n == 0 {
      older := Archived(archive);
    } else {
      older := CutIsSuffix(archive[1..], n - 1);
      assert archive[..n][1..] == archive[1..][..n - 1];
      assert Archived(archive) == older + Archived(archive[..n]);
    }
  }

  lemma {:induction false} FullFiles(archive: seq<seq<Line>>, maxSize: nat)
    requires forall i :: 0 <= i < |archive| ==> Size(archive[i]) > maxSize
    ensures Size(Archived(archive)) >= |archive| * (maxSize + 1)
  {
    if archive != [] {
      var rest := archive[1..];
      FullFiles(rest, maxSize);
      OneMoreFull(Archived(rest), archive[0], |rest|, maxSize);
    }
  }

  lemma OneMoreFull(older: seq<Line>, file: seq<Line>, n: nat, maxSize: nat)
    requires Size(older) >= n * (maxSize + 1) && Size(file) > maxSize
    ensures Size(older + file) >= (n + 1) * (maxSize + 1)
  {
    SizeAppend(older, file);
    MulSucc(n, maxSize + 1);
  }

  lemma MulSucc(a: nat, b: nat)
    ensures (a + 1) * b == a * b + b
  {}

  ghost predicate NoLineOver(lines: seq<Line>, longest: nat) {
    forall i :: 0 <= i < |lines| ==> |lines[i]| <= longest
  }

  /** Sizes of a reachable log, when no line is longer than `longest`. */
  ghost predicate Bounded(log: Log, maxSize: nat, maxFiles: nat, longest: nat) {
    && Size(log.current) <= maxSize + longest
    && |log.archive| <= maxFiles
    && (forall i :: 0 <= i < |log.archive| ==> maxSize < Size(log.archive[i]) <= maxSize + longest)
  }

  /** A step to `next` loses only the lines `older`, and only when there are maxFiles newer files. */
  ghost predicate StepFrom(log: Log, line: Line, next: Log, older: seq<Line>,
      maxSize: nat, maxFiles: nat, longest: nat)
  {
    && Bounded(next, maxSize, maxFiles, longest)
    && Retained(log) + [line] == older + Retained(next)
    && (older != [] ==> |next.archive| == maxFiles)
    && |next.archive| >= |log.archive|
  }

  lemma StepKeeps(log: Log, line: Line, maxSize: nat, maxFiles: nat, longest: nat) returns (older: seq<Line>)
    requires maxFiles >= 1 && |line| <= longest && Bounded(log, maxSize, maxFiles, longest)
    ensures StepFrom(log, line, Step(log, line, maxSize, maxFiles), older, maxSize, maxFiles, longest)
  {
    if Size(log.current) > maxSize {
      older := RotateAndWrite(log, line, maxSize, maxFiles, longest);
    } else {
      JustWrite(log, line, maxSize, maxFiles, longest);
      older := [];
    }
  }

  lemma SizeOne(line: Line)
    ensures Size([line]) == |line|
  {
    assert [line][..0] == [];
  }

  lemma JustWrite(log: Log, line: Line, maxSize: nat, maxFiles: nat, longest: nat)
    requires |line| <= longest && Bounded(log, maxSize, maxFiles, longest) && Size(log.current) <= maxSize
    ensures StepFrom(log, line, Log(log.current + [line], log.archive), [], maxSize, maxFiles, longest)
  {
    SizeOne(line);
    SizeAppend(log.current, [line]);
    assert Archived(log.archive) + (log.current + [line]) == Retained(log) + [line];
    assert [] + Retained(Log(log.current + [line], log.archive)) == Retained(log) + [line];
  }

  lemma RotateAndWrite(log: Log, line: Line, maxSize: nat, maxFiles: nat, longest: nat) returns (older: seq<Line>)
    requires maxFiles >= 1 && |line| <= longest && Bounded(log, maxSize, maxFiles, longest)
    requires Size(log.current) > maxSize
    ensures var next := Log([line], Take([log.current] + log.archive, maxFiles));
            StepFrom(log, line, next, older, maxSize, maxFiles, longest)
  {
    SizeOne(line);
    older := RotationKeeps(log, maxFiles);
    var kept := Archived(Take([log.current] + log.archive, maxFiles));
    assert older + kept + [line] == older + (kept + [line]);
  }

  /** Rotating loses the oldest file if there are too many, and nothing else. */
  lemma RotationKeeps(log: Log, maxFiles: nat) returns (older: seq<Line>)
    ensures var files := [log.current] + log.archive;
            && Retained(log) == older + Archived(Take(files, maxFiles))
            && (older != [] ==> |files| > maxFiles)
  {
    var files := [log.current] + log.archive;
    assert files[1..] == log.archive && Archived(files) == Retained(log);
    older := [];
    if |files| > maxFiles {
      older := CutIsSuffix(files, maxFiles);
    } else {
      assert [] + Archived(files) == Archived(files);
    }
  }

  /**
    After any sequence of lines: what the files hold is a suffix of what was written, in
    order; no file exceeds maxSize by more than one line and every rotated file exceeds
    maxSize; and once anything is lost there are maxFiles full files of newer lines.
   */
  lemma {:induction false} RunKeepsSuffix(lines: seq<Line>, maxSize: nat, maxFiles: nat, longest: nat)
    returns (lost: nat)
    requires maxFiles >= 1 && NoLineOver(lines, longest)
    ensures KeepsSuffix(Run(lines, maxSize, maxFiles), lines, lost, maxFiles)
    ensures Bounded(Run(lines, maxSize, maxFiles), maxSize, maxFiles, longest)
  {
    if lines == [] {
      lost := 0;
    } else {
      var m := |lines| - 1;
      lost := RunKeepsSuffix(lines[..m], maxSize, maxFiles, longest);
      lost := StepKeepsSuffix(Run(lines[..m], maxSize, maxFiles), lines, lost, maxSize, maxFiles, longest);
    }
  }

  /** The files hold all but the first `lost` lines, and nothing is lost before they are all full. */
  ghost predicate KeepsSuffix(log: Log, lines: seq<Line>, lost: nat, maxFiles: nat) {
    && lost <= |lines|
    && Retained(log) == lines[lost..]
    && (lost > 0 ==> |log.archive| == maxFiles)
  }

  lemma StepKeepsSuffix(log: Log, lines: seq<Line>, lost: nat, maxSize: nat, maxFiles: nat, longest: nat)
    returns (lost': nat)
    requires maxFiles >= 1 && lines != [] && |lines[|lines| - 1]| <= longest
    requires KeepsSuffix(log, lines[..|lines| - 1], lost, maxFiles) && Bounded(log, maxSize, maxFiles, longest)
    ensures KeepsSuffix(Step(log, lines[|lines| - 1], maxSize, maxFiles), lines, lost', maxFiles)
    ensures Bounded(Step(log, lines[|lines| - 1], maxSize, maxFiles), maxSize, maxFiles, longest)
  {
    var older := StepKeeps(log, lines[|lines| - 1], maxSize, maxFiles, longest);
    DropOlder(lines, lost, older, Retained(Step(log, lines[|lines| - 1], maxSize, maxFiles)));
    lost' := lost + |older|;
  }

  lemma DropOlder(lines: seq<Line>, lost: nat, older: seq<Line>, kept: seq<Line>)
    requires lost < |lines| && lines[..|lines| - 1][lost..] + [lines[|lines| - 1]] == older + kept
    ensures lost + |older| <= |lines| && lines[lost + |older|..] == kept
  {
    assert lines[lost..] == lines[..|lines| - 1][lost..] + [lines[|lines| - 1]];
    assert |lines| - lost == |older| + |kept|;
    assert lines[lost..][|older|..] == kept;
  }

  /** A line is lost only after more than maxFiles * maxSize bytes were written after it. */
  lemma LostOnlyWhenFull(lines: seq<Line>, maxSize: nat, maxFiles: nat, kept: seq<Line>)
    requires maxFiles >= 1
    requires kept == Retained(Run(lines, maxSize, maxFiles))
    ensures |kept| <= |lines| && kept == lines[|lines| - |kept|..]
    ensures |kept| < |lines| ==> Size(kept) > maxFiles * maxSize
  {
    var longest := Longest(lines);
    var lost := RunKeepsSuffix(lines, maxSize, maxFiles, longest);
    var log := Run(lines, maxSize, maxFiles);
    if lost > 0 {
      FullFiles(log.archive, maxSize);
      SizeAppend(Archived(log.archive), log.current);
      assert maxFiles * (maxSize + 1) == maxFiles * maxSize + maxFiles;
    }
  }

  lemma {:induction false} Longest(lines: seq<Line>) returns (longest: nat)
    ensures NoLineOver(lines, longest)
  {
    if lines == [] {
      longest := 0;
    } else {
      longest := Longest(lines[1..]);
      longest := if |lines[0]| > longest then |lines[0]| else longest;
    }
  }

  function Get(files: map<nat, seq<Line>>, j: nat): Option<seq<Line>> {
    if j in files then Some(files[j]) else None
  }

  /** The content of file j: 0 is the current file, j the j-th rotated one. */
  ghost function Slot(log: Log, j: nat): Option<seq<Line>> {
    if j == 0 then if log.current == [] then None else Some(log.current)
    else if j <= |log.archive| then Some(log.archive[j - 1])
    else None
  }

  /** The same while renaming, when files i+1 and up have been moved one further. */
  ghost function Shifting(log: Log, maxFiles: nat, i: nat, j: nat): Option<seq<Line>> {
    if j <= i || (j == i + 1 && j == maxFiles) then Slot(log, j)
    else if j == i + 1 || j > maxFiles then None
    else Slot(log, j - 1)
  }

  /** Renaming file i to i + 1, if it exists. */
  lemma ShiftOne(files: map<nat, seq<Line>>, files': map<nat, seq<Line>>, log: Log, maxFiles: nat, i: nat)
    requires 1 <= i < maxFiles && |log.archive| <= maxFiles
    requires forall j :: Get(files, j) == Shifting(log, maxFiles, i, j)
    requires files' == if i in files then (files - {i})[i + 1 := files[i]] else files
    ensures forall j :: Get(files', j) == Shifting(log, maxFiles, i - 1, j)
  {
    forall j ensures Get(files', j) == Shifting(log, maxFiles, i - 1, j) {
      assert Get(files, i) == Slot(log, i);
      assert Get(files, j) == Shifting(log, maxFiles, i, j);
    }
  }

  /** Renaming the current file to 1 completes the shift. */
  lemma ShiftCurrent(files: map<nat, seq<Line>>, files': map<nat, seq<Line>>, log: Log, maxFiles: nat)
    requires 1 <= maxFiles && |log.archive| <= maxFiles && log.current != []
    requires forall j :: Get(files, j) == Shifting(log, maxFiles, 0, j)
    requires files' == if 0 in files then (files - {0})[1 := files[0]] else files
    ensures forall j :: Get(files', j) == Slot(Log([], Take([log.current] + log.archive, maxFiles)), j)
  {
    forall j ensures Get(files', j) == Slot(Log([], Take([log.current] + log.archive, maxFiles)), j) {
      assert Get(files, 0) == Slot(log, 0);
      assert Get(files, j) == Shifting(log, maxFiles, 0, j);
    }
  }

  /** The files when the next line is about to be appended. */
  ghost function Ready(log: Log, maxSize: nat, maxFiles: nat): Log {
    if Size(log.current) > maxSize then Log([], Take([log.current] + log.archive, maxFiles)) else log
  }

  lemma RunMore(lines: seq<Line>, line: Line, maxSize: nat, maxFiles: nat)
    ensures Run(lines + [line], maxSize, maxFiles) == Step(Run(lines, maxSize, maxFiles), line, maxSize, maxFiles)
  {
    assert (lines + [line])[..|lines|] == lines;
  }

  ghost predicate FilesShow(files: map<nat, seq<Line>>, log: Log) {
    forall j :: Get(files, j) == Slot(log, j)
  }

  /** Appending a line to the current file. */
  lemma AppendCurrent(files: map<nat, seq<Line>>, log: Log, line: Line)
    requires FilesShow(files, log)
    ensures FilesShow(files[0 := CurrentFile(files) + [line]], Log(log.current + [line], log.archive))
  {
    assert Get(files, 0) == Slot(log, 0);
    var files' := files[0 := CurrentFile(files) + [line]];
    forall j ensures Get(files', j) == Slot(Log(log.current + [line], log.archive), j) {
      assert Get(files, j) == Slot(log, j);
    }
  }

  /** These files and this size counter are those of the log. */
  ghost predicate Shows(files: map<nat, seq<Line>>, currentSize: nat, log: Log, maxFiles: nat) {
    && |log.archive| <= maxFiles
    && FilesShow(files, log)
    && currentSize == Size(log.current)
  }

  function CurrentFile(files: map<nat, seq<Line>>): seq<Line> {
    if 0 in files then files[0] else []
  }

  lemma CurrentShown(files: map<nat, seq<Line>>, log: Log)
    requires FilesShow(files, log)
    ensures CurrentFile(files) == log.current
  {
    assert Get(files, 0) == Slot(log, 0);
  }

  /** Appending to the files that are ready for it completes the step. */
  lemma NextShows(files: map<nat, seq<Line>>, currentSize: nat, log: Log, line: Line, maxSize: nat, maxFiles: nat)
    requires |log.archive| <= maxFiles
    requires FilesShow(files, Ready(log, maxSize, maxFiles))
    requires currentSize == Size(CurrentFile(files) + [line])
    ensures Shows(files[0 := CurrentFile(files) + [line]], currentSize, Step(log, line, maxSize, maxFiles), maxFiles)
  {
    var ready := Ready(log, maxSize, maxFiles);
    CurrentShown(files, ready);
    AppendCurrent(files, ready, line);
    StepOfReady(log, line, maxSize, maxFiles);
  }

  lemma StepOfReady(log: Log, line: Line, maxSize: nat, maxFiles: nat)
    ensures var ready := Ready(log, maxSize, maxFiles);
            && Step(log, line, maxSize, maxFiles) == Log(ready.current + [line], ready.archive)
            && (|log.archive| <= maxFiles ==> |ready.archive| <= maxFiles)
  {
    assert [] + [line] == [line];
  }

  class Logger {
    const maxSize: nat
    const maxFiles: nat
    const minLevel: nat
    var files: map<nat, seq<Line>>
    var streamOpen: bool
    var currentSize: nat
    ghost var written: seq<Line>  // every line logged at or above minLevel

    ghost function Contents(): Log
      reads this
    {
      Run(written, maxSize, maxFiles)
    }

    ghost predicate Valid()
      reads this
    {
      maxFiles >= 1 && Shows(files, currentSize, Contents(), maxFiles)
    }

    constructor (maxSize: nat, maxFiles: nat, minLevel: nat)
      requires maxFiles >= 1
      ensures Valid() && written == []
      ensures this.maxSize == maxSize && this.maxFiles == maxFiles && this.minLevel == minLevel
    {
      this.maxSize, this.maxFiles, this.minLevel := maxSize, maxFiles, minLevel;
      files, streamOpen, currentSize := map[], false, 0;
      written := [];
    }

    /** Rename file i to i + 1 for i = maxFiles - 1 down to 1, then the current file to 1. */
    method Rotate()
      requires Valid() && Contents().current != []
      modifies this`files, this`streamOpen, this`currentSize
      ensures var log := Contents();
              forall j :: Get(files, j) == Slot(Log([], Take([log.current] + log.archive, maxFiles)), j)
      ensures currentSize == 0 && !streamOpen
    {
      streamOpen := false;
      var i := maxFiles - 1;
      while i >= 1
        modifies this`files
        invariant 0 <= i < maxFiles
        invariant forall j :: Get(files, j) == Shifting(Contents(), maxFiles, i, j)
      {
        ghost var before := files;
        if i in files {
          var content := files[i];
          files := (files - {i})[i + 1 := content];
        }
        ShiftOne(before, files, Contents(), maxFiles, i);
        i := i - 1;
      }
      ghost var before := files;
      if 0 in files {
        var content := files[0];
        files := (files - {0})[1 := content];
      }
      ShiftCurrent(before, files, Contents(), maxFiles);
      currentSize := 0;
    }

    method Write(level: nat, line: Line)
      requires Valid()
      modifies this
      ensures Valid()
      ensures written == if level < minLevel then old(written) else old(written) + [line]
    {
      if level < minLevel {
        return;
      }
      Append(line);
      RunMore(written, line, maxSize, maxFiles);
      written := written + [line];
    }

    /** Rotate if the current file is full, then write. */
    method Append(line: Line)
      requires Valid()
      modifies this`files, this`streamOpen, this`currentSize
      ensures Shows(files, currentSize, Step(Contents(), line, maxSize, maxFiles), maxFiles)
    {
      MakeReady();
      ghost var before := files;
      CurrentShown(files, Ready(Contents(), maxSize, maxFiles));
      WriteLine(line);
      NextShows(before, currentSize, Contents(), line, maxSize, maxFiles);
    }

    /** `if (root._currentSize > this.maxSize) root._rotate()` */
    method MakeReady()
      requires Valid()
      modifies this`files, this`streamOpen, this`currentSize
      ensures FilesShow(files, Ready(Contents(), maxSize, maxFiles))
      ensures currentSize == Size(Ready(Contents(), maxSize, maxFiles).current)
    {
      CurrentShown(files, Contents());
      if currentSize > maxSize {
        Rotate();
      }
    }

    /** Append to the current file, reading its size again if the stream has to be opened. */
    method WriteLine(line: Line)
      modifies this`files, this`streamOpen, this`currentSize
      requires streamOpen ==> currentSize == Size(CurrentFile(files))
      ensures files == old(files)[0 := CurrentFile(old(files)) + [line]]
      ensures currentSize == Size(files[0])
    {
      if !streamOpen {
        currentSize := Size(CurrentFile(files));
        streamOpen := true;
      }
      var before := CurrentFile(files);
      assert (before + [line])[..|before|] == before;
      files := files[0 := before + [line]];
      currentSize := currentSize + |line|;
    }

    method Close()
      requires Valid()
      modifies this`streamOpen
      ensures Valid()
    {
      streamOpen := false;
    }

    /** Read the files from the oldest to the current one. */
    method ReadBack() returns (lines: seq<Line>)
      requires Valid()
      ensures lines == Retained(Contents())
    {
      lines := ReadArchive();
      assert Get(files, 0) == Slot(Contents(), 0);
      if 0 in files {
        lines := lines + files[0];
      }
    }

    /** The rotated files, from the highest number down. */
    method ReadArchive() returns (lines: seq<Line>)
      requires Valid()
      ensures lines == Archived(Contents().archive)
    {
      ghost var archive := Contents().archive;
      lines := [];
      var j := maxFiles;
      assert |archive| == maxFiles ==> archive[j..] == [];
      while j >= 1
        invariant 0 <= j <= maxFiles
        invariant lines == if j < |archive| then Archived(archive[j..]) else []
      {
        assert Get(files, j) == Slot(Contents(), j);
        if j in files {
          assert archive[j - 1..][1..] == archive[j..];
          lines := lines + files[j];
        }
        j := j - 1;
      }
      assert archive[0..] == archive;
    }
  }
}
