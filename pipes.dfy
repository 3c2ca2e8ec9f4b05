/**
 * The pipeline handlers of src/executor.c: handlePipes (one `|`),
 * handleMultiplePipes (several `|`) and handlePipeRedirect (`|` together
 * with redirections). Each splits the argument vector at `|` into stages,
 * creates one pipe per `|`, forks one child per stage bound to its
 * neighbours' pipe ends, closes the raw pipe descriptors, and waits.
 * pipe, fork, dup2, close, execvp and wait are not run: the result records
 * the children forked in order, the message the parent writes, how many
 * children it waits for, and the pipe descriptors it still holds.
 */
module Pipes {
  import opened Common
  import opened Redirect

  datatype Run = Run(
    children: seq<Outcome>,
    message: Option<string>,
    waited: nat,
    parentPipeEnds: set<PipeEnd>)

  const EmptyBetweenPipes: string := "Error: Empty command between pipes.\n"
  const MissingAfterPipe: string := "Error: Command missing after pipe.\n"
  const EmptyCommand: string := "Error: Empty command.\n"

  function PipeCount(argv: seq<string>): nat {
    multiset(argv)["|"]
  }

  /** The index of the first `|`, or |argv| when there is none. */
  function FirstPipe(argv: seq<string>): (i: nat)
    ensures i <= |argv| && (i < |argv| ==> argv[i] == "|")
    ensures forall j :: 0 <= j < i ==> argv[j] != "|"
  {
    if argv == [] || argv[0] == "|" then 0 else 1 + FirstPipe(argv[1..])
  }

  /** The stages between the `|` tokens, in order. */
  function Stages(argv: seq<string>): (ss: seq<seq<string>>)
    ensures |ss| > 0
  {
    if argv == [] then [[]]
    else
      var rest := Stages(argv[1..]);
      if argv[0] == "|" then [[]] + rest else [[argv[0]] + rest[0]] + rest[1..]
  }

  function JoinStages(ss: seq<seq<string>>): seq<string>
    requires |ss| > 0
  {
    if |ss| == 1 then ss[0] else ss[0] + ["|"] + JoinStages(ss[1..])
  }

  /** There is one stage more than there are `|` tokens. */
  lemma {:induction false} StagesCount(argv: seq<string>)
    ensures |Stages(argv)| == PipeCount(argv) + 1
  {
    if argv != [] {
      StagesCount(argv[1..]);
      assert argv == [argv[0]] + argv[1..];
      assert multiset(argv) == multiset([argv[0]]) + multiset(argv[1..]);
    }
  }

  /** No stage holds a `|`. */
  lemma {:induction false} StagesHaveNoPipe(argv: seq<string>)
    ensures forall k :: 0 <= k < |Stages(argv)| ==> "|" !in Stages(argv)[k]
  {
    if argv != [] {
      var rest := Stages(argv[1..]);
      StagesHaveNoPipe(argv[1..]);
      if argv[0] != "|" {
        var ss := Stages(argv);
        forall k | 0 <= k < |ss| ensures "|" !in ss[k] {
          if k > 0 {
            assert ss[k] == rest[k];
          }
        }
      }
    }
  }

  /** Joining the stages with `|` gives the argument vector back. */
  lemma {:induction false} JoinStagesOfStages(argv: seq<string>)
    ensures JoinStages(Stages(argv)) == argv
  {
    if argv != [] {
      var x, tail := argv[0], argv[1..];
      var rest := Stages(tail);
      JoinStagesOfStages(tail);
      if x == "|" {
        JoinUnderPipe(rest);
      } else {
        JoinUnderWord(x, rest);
      }
      assert argv == [x] + tail;
    }
  }

  lemma JoinUnderPipe(rest: seq<seq<string>>)
    requires |rest| > 0
    ensures JoinStages([[]] + rest) == ["|"] + JoinStages(rest)
  {
    var ss := [[]] + rest;
    assert ss[0] == [] && ss[1..] == rest;
  }

  lemma JoinUnderWord(x: string, rest: seq<seq<string>>)
    requires |rest| > 0
    ensures JoinStages([[x] + rest[0]] + rest[1..]) == [x] + JoinStages(rest)
  {
    var ss := [[x] + rest[0]] + rest[1..];
    assert |ss| == |rest| && ss[0] == [x] + rest[0] && ss[1..] == rest[1..];
    JoinPrepend(x, ss, rest);
  }

  lemma JoinPrepend(x: string, ss: seq<seq<string>>, rest: seq<seq<string>>)
    requires |ss| == |rest| > 0 && ss[0] == [x] + rest[0] && ss[1..] == rest[1..]
    ensures JoinStages(ss) == [x] + JoinStages(rest)
  {
    if |rest| > 1 {
      var j := JoinStages(rest[1..]);
      assert ss[0] + ["|"] + j == [x] + (rest[0] + ["|"] + j);
    }
  }

  /**
   * A stage scanned by position: when no `|` occurs before index m and a
   * `|` (or the end) is at m, the first stage is s[..m] and the others are
   * the stages after that `|`.
   */
  lemma {:induction false} StagesOfRun(s: seq<string>, m: nat)
    requires m <= |s| && (m < |s| ==> s[m] == "|")
    requires forall j :: 0 <= j < m ==> s[j] != "|"
    ensures m < |s| ==> Stages(s) == [s[..m]] + Stages(s[m + 1..])
    ensures m == |s| ==> Stages(s) == [s]
    decreases m
  {
    if m > 0 {
      StagesOfRun(s[1..], m - 1);
      assert s == [s[0]] + s[1..];
      assert s[..m] == [s[0]] + s[1..][..m - 1];
      if m < |s| {
        assert s[1..][m..] == s[m + 1..];
      }
    }
  }

  /** The check of handleMultiplePipes: a `|` first, last, or followed by `|`. */
  predicate EmptyStageAt(argv: seq<string>, i: nat) {
    i < |argv| && argv[i] == "|" && (i == 0 || i + 1 == |argv| || argv[i + 1] == "|")
  }

  predicate HasEmptyStage(argv: seq<string>) {
    exists i :: 0 <= i < |argv| && EmptyStageAt(argv, i)
  }

  predicate SomeStageEmpty(ss: seq<seq<string>>) {
    exists k :: 0 <= k < |ss| && ss[k] == []
  }

  /** A `|` that is last or is followed by `|` ends an empty stage. */
  predicate ClosesEmptyStage(argv: seq<string>, j: nat) {
    j < |argv| && argv[j] == "|" && (j + 1 == |argv| || argv[j + 1] == "|")
  }

  predicate SomeClosesEmptyStage(argv: seq<string>) {
    exists j :: 0 <= j < |argv| && ClosesEmptyStage(argv, j)
  }

  lemma SomeStageEmptyCons(ss: seq<seq<string>>)
    requires ss != []
    ensures SomeStageEmpty(ss) <==> ss[0] == [] || SomeStageEmpty(ss[1..])
  {
    if SomeStageEmpty(ss) && ss[0] != [] {
      var k :| 0 <= k < |ss| && ss[k] == [];
      assert ss[1..][k - 1] == [];
    }
    if SomeStageEmpty(ss[1..]) {
      var k :| 0 <= k < |ss| - 1 && ss[1..][k] == [];
      assert ss[k + 1] == [];
    }
  }

  lemma ClosesCons(argv: seq<string>)
    requires argv != []
    ensures SomeClosesEmptyStage(argv) <==> ClosesEmptyStage(argv, 0) || SomeClosesEmptyStage(argv[1..])
  {
    var r := argv[1..];
    if SomeClosesEmptyStage(argv) && !ClosesEmptyStage(argv, 0) {
      var j :| 0 <= j < |argv| && ClosesEmptyStage(argv, j);
      assert ClosesEmptyStage(r, j - 1);
    }
    if SomeClosesEmptyStage(r) {
      var j :| 0 <= j < |r| && ClosesEmptyStage(r, j);
      assert ClosesEmptyStage(argv, j + 1);
    }
  }

  /** The stages after the first: one is empty exactly when some `|` ends an empty stage. */
  lemma {:induction false} LaterStageEmpty(argv: seq<string>)
    ensures SomeStageEmpty(Stages(argv)[1..]) <==> SomeClosesEmptyStage(argv)
  {
    if argv != [] {
      var r := argv[1..];
      var rest := Stages(r);
      LaterStageEmpty(r);
      ClosesCons(argv);
      if argv[0] == "|" {
        assert Stages(argv)[1..] == rest;
        SomeStageEmptyCons(rest);
        assert rest[0] == [] <==> ClosesEmptyStage(argv, 0);
      } else {
        assert Stages(argv)[1..] == rest[1..];
      }
    }
  }

  /** The check finds exactly the argument vectors with an empty stage (the empty vector aside). */
  lemma EmptyStageCheck(argv: seq<string>)
    ensures SomeStageEmpty(Stages(argv)) <==> argv == [] || HasEmptyStage(argv)
  {
    var ss := Stages(argv);
    SomeStageEmptyCons(ss);
    LaterStageEmpty(argv);
    if argv != [] {
      assert ss[0] == [] <==> argv[0] == "|";
      if HasEmptyStage(argv) && argv[0] != "|" {
        var j :| 0 <= j < |argv| && EmptyStageAt(argv, j);
        assert ClosesEmptyStage(argv, j);
      }
      if SomeClosesEmptyStage(argv) {
        var j :| 0 <= j < |argv| && ClosesEmptyStage(argv, j);
        assert EmptyStageAt(argv, j);
      }
      if argv[0] == "|" {
        assert EmptyStageAt(argv, 0);
      }
    } else {
      assert ss[0] == [];
    }
  }

  /**
   * The streams stage i of n gets: stage 0 writes pipe 0 (when there is a
   * pipe), a middle stage reads pipe i-1 and writes pipe i, the last stage
   * reads pipe n-2; stderr always stays as it was.
   */
  function StageStdio(i: nat, n: nat, entry: Stdio): Stdio {
    if i == 0 then (if n > 1 then entry.(stdout := Pipe(WriteEnd(0))) else entry)
    else if i == n - 1 then entry.(stdin := Pipe(ReadEnd(i - 1)))
    else entry.(stdin := Pipe(ReadEnd(i - 1)), stdout := Pipe(WriteEnd(i)))
  }

  predicate NoPipeEnd(e: Endpoint) {
    !e.Pipe?
  }

  /** Each pipe has exactly one writer and one reader, and they are adjacent stages. */
  lemma StageStdioLinksNeighbours(n: nat, entry: Stdio, i: nat, k: nat)
    requires NoPipeEnd(entry.stdin) && NoPipeEnd(entry.stdout)
    requires i < n && k + 1 < n
    ensures StageStdio(i, n, entry).stdout == Pipe(WriteEnd(k)) <==> i == k
    ensures StageStdio(i, n, entry).stdin == Pipe(ReadEnd(k)) <==> i == k + 1
    ensures StageStdio(i, n, entry).stdout != Pipe(ReadEnd(k)) && StageStdio(i, n, entry).stdin != Pipe(WriteEnd(k))
    ensures StageStdio(i, n, entry).stderr == entry.stderr
  {
  }

  /** The descriptors of pipes[0..count). */
  function AllEnds(count: nat): set<PipeEnd> {
    (set k | 0 <= k < count :: ReadEnd(k)) + (set k | 0 <= k < count :: WriteEnd(k))
  }

  /** The pipe() loop: pipes[0..count) are created. A failing pipe() is not modelled. */
  method CreatePipes(count: nat) returns (open: set<PipeEnd>)
    ensures open == AllEnds(count)
  {
    open := {};
    var i := 0;
    while i < count
      invariant i <= count && open == AllEnds(i)
    {
      open := open + {ReadEnd(i), WriteEnd(i)};
      i := i + 1;
      assert open == AllEnds(i) by {
        forall e | e in AllEnds(i) ensures e in open {
          if e.ReadEnd? && e.pipe < i - 1 { assert e in AllEnds(i - 1); }
          if e.WriteEnd? && e.pipe < i - 1 { assert e in AllEnds(i - 1); }
        }
      }
    }
  }

  /** The close loop over pipes[0..count), run in every child and in the parent. */
  method CloseAll(open: set<PipeEnd>, count: nat) returns (rest: set<PipeEnd>)
    ensures rest == open - AllEnds(count)
  {
    rest := open;
    var k := 0;
    while k < count
      invariant k <= count && rest == open - AllEnds(k)
    {
      rest := rest - {ReadEnd(k)} - {WriteEnd(k)};
      k := k + 1;
      assert rest == open - AllEnds(k) by {
        forall e | e in rest ensures e !in AllEnds(k) {}
        forall e | e in open && e !in AllEnds(k) ensures e in rest {}
      }
    }
  }

  lemma {:induction false} FirstPipeIsEnd(s: seq<string>, m: nat)
    requires m <= |s| && (m < |s| ==> s[m] == "|")
    requires forall j :: 0 <= j < m ==> s[j] != "|"
    ensures FirstPipe(s) == m
    decreases m
  {
    if m > 0 {
      assert s[0] != "|";
      FirstPipeIsEnd(s[1..], m - 1);
    }
  }

  /** The scan for the end of the stage that starts at `start`. */
  method StageEnd(argv: seq<string>, start: nat) returns (end: nat)
    requires start <= |argv|
    ensures end == start + FirstPipe(argv[start..])
    ensures start <= end <= |argv| && (end < |argv| ==> argv[end] == "|")
    ensures forall j :: start <= j < end ==> argv[j] != "|"
  {
    end := start;
    while end < |argv| && argv[end] != "|"
      invariant start <= end <= |argv|
      invariant forall j :: start <= j < end ==> argv[j] != "|"
    {
      end := end + 1;
    }
    FirstPipeIsEnd(argv[start..], end - start);
  }

  /** The copy of one stage into the child's cmd[50]. */
  method CopyStage(argv: seq<string>, start: nat, end: nat) returns (cmd: seq<string>)
    requires start <= end <= |argv| && end - start < 50
    ensures cmd == argv[start..end]
  {
    var a := new string[50];
    var j := 0;
    while j < end - start
      invariant j <= end - start && a[..j] == argv[start..start + j]
    {
      a[j] := argv[start + j];
      j := j + 1;
    }
    cmd := a[..j];
  }

  /**
   * One turn of a stage loop: the stage that starts at `start` is scanned
   * to its end and copied; the next stage, if any, starts after the `|`.
   */
  method NextStage(argv: seq<string>, start: nat, ghost ss: seq<seq<string>>, ghost i: nat)
    returns (end: nat, cmd: seq<string>)
    requires start <= |argv| && i < |ss| && Stages(argv[start..]) == ss[i..] && |ss[i]| < 50
    ensures start <= end <= |argv| && cmd == ss[i] && (end == start <==> ss[i] == [])
    ensures i + 1 < |ss| ==> end < |argv| && Stages(argv[end + 1..]) == ss[i + 1..]
    ensures i + 1 == |ss| ==> end == |argv|
  {
    end := StageEnd(argv, start);
    var s := argv[start..];
    StagesOfRun(s, end - start);
    assert s[..end - start] == argv[start..end];
    if end < |argv| {
      assert s[end - start + 1..] == argv[end + 1..];
      assert ss[i..] == [ss[i]] + ss[i + 1..];
    }
    cmd := CopyStage(argv, start, end);
  }

  /**
   * handlePipes: pipe() first, then the first `|` is looked for. No `|`,
   * or nothing after it, is an error; the pipe is then left open in the
   * parent. Otherwise the stage before the `|` writes the pipe, everything
   * after it reads the pipe, both children and the parent close both ends,
   * and the parent waits for both.
   */
  method HandlePipes(argv: seq<string>, entry: Stdio) returns (r: Run)
    ensures var i := FirstPipe(argv);
      if i == |argv| || i + 1 == |argv| then
        r == Run([], Some(MissingAfterPipe), 0, AllEnds(1))
      else
        r == Run([Exec(Launch(argv[..i], entry.(stdout := Pipe(WriteEnd(0))), {}), []),
                  Exec(Launch(argv[i + 1..], entry.(stdin := Pipe(ReadEnd(0))), {}), [])],
                 None, 2, {})
  {
    var open := CreatePipes(1);
    assert argv[0..] == argv;
    var i := StageEnd(argv, 0);
    if i == |argv| || i + 1 == |argv| {
      return Run([], Some(MissingAfterPipe), 0, open);
    }
    var strayLeft := CloseAll(open, 1);
    assert strayLeft == {};
    assert i == FirstPipe(argv);
    var left := Exec(Launch(argv[..i], entry.(stdout := Pipe(WriteEnd(0))), strayLeft), []);
    var strayRight := CloseAll(open, 1);
    var right := Exec(Launch(argv[i + 1..], entry.(stdin := Pipe(ReadEnd(0))), strayRight), []);
    open := CloseAll(open, 1);
    r := Run([left, right], None, 2, open);
  }

  /** The stage loop's wiring, written as the branches of the C code. */
  method WireStage(i: nat, n: nat, entry: Stdio) returns (stdio: Stdio)
    requires i < n
    ensures stdio == StageStdio(i, n, entry)
  {
    stdio := entry;
    if i == 0 {
      if n > 1 {
        stdio := stdio.(stdout := Pipe(WriteEnd(0)));
      }
    } else if i == n - 1 {
      stdio := stdio.(stdin := Pipe(ReadEnd(i - 1)));
    } else {
      stdio := stdio.(stdin := Pipe(ReadEnd(i - 1)));
      stdio := stdio.(stdout := Pipe(WriteEnd(i)));
    }
  }

  /** The loop of handleMultiplePipes that rejects an empty stage. */
  method CheckEmptyStages(argv: seq<string>) returns (empty: bool)
    ensures empty == HasEmptyStage(argv)
  {
    var i := 0;
    while i < |argv|
      invariant i <= |argv|
      invariant forall j :: 0 <= j < i ==> !EmptyStageAt(argv, j)
    {
      if argv[i] == "|" && (i == 0 || i + 1 == |argv| || argv[i + 1] == "|") {
        assert EmptyStageAt(argv, i);
        return true;
      }
      i := i + 1;
    }
    return false;
  }

  /** The loop that counts the `|` tokens. */
  method CountPipes(argv: seq<string>) returns (count: nat)
    ensures count == PipeCount(argv)
  {
    count := 0;
    var i := 0;
    while i < |argv|
      invariant i <= |argv| && count == multiset(argv[..i])["|"]
    {
      assert argv[..i + 1] == argv[..i] + [argv[i]];
      if argv[i] == "|" {
        count := count + 1;
      }
      i := i + 1;
    }
    assert argv[..i] == argv;
  }

  predicate StagesFit(argv: seq<string>) {
    forall k :: 0 <= k < |Stages(argv)| ==> |Stages(argv)[k]| < 50
  }

  /** The child handleMultiplePipes forks for stage i of n. */
  function PipeChild(ss: seq<seq<string>>, i: nat, entry: Stdio): Outcome
    requires i < |ss|
  {
    Exec(Launch(ss[i], StageStdio(i, |ss|, entry), {}), [])
  }

  /**
   * handleMultiplePipes: an empty stage is rejected before any pipe is
   * created or any child forked. Otherwise one child per stage, in order,
   * wired to its neighbours; all raw pipe descriptors closed in every child
   * and in the parent; the parent waits for every child. pipes[10] holds
   * at most ten pipes.
   */
  method HandleMultiplePipes(argv: seq<string>, entry: Stdio) returns (r: Run)
    requires 1 <= PipeCount(argv)
    requires !HasEmptyStage(argv) ==> PipeCount(argv) <= 10 && StagesFit(argv)
    ensures HasEmptyStage(argv) ==> r == Run([], Some(EmptyBetweenPipes), 0, {})
    ensures !HasEmptyStage(argv) ==>
      var ss := Stages(argv);
      && |r.children| == |ss| == PipeCount(argv) + 1
      && (forall i :: 0 <= i < |ss| ==> r.children[i] == PipeChild(ss, i, entry))
      && r.message == None && r.waited == |ss| && r.parentPipeEnds == {}
  {
    var count := CountPipes(argv);
    var empty := CheckEmptyStages(argv);
    if empty {
      return Run([], Some(EmptyBetweenPipes), 0, {});
    }
    StagesCount(argv);
    var open := CreatePipes(count);
    var children := ForkPipeline(argv, count + 1, entry, open);
    open := CloseAll(open, count);
    r := Run(children, None, count + 1, open);
  }

  /** One turn of the stage loop of handleMultiplePipes: the child for stage i. */
  method ForkPipeStage(argv: seq<string>, start: nat, ghost ss: seq<seq<string>>, i: nat, n: nat, entry: Stdio, open: set<PipeEnd>)
    returns (end: nat, child: Outcome)
    requires start <= |argv| && i < |ss| == n && Stages(argv[start..]) == ss[i..] && |ss[i]| < 50
    requires open == AllEnds(n - 1)
    ensures child == PipeChild(ss, i, entry)
    ensures i + 1 < n ==> end < |argv| && Stages(argv[end + 1..]) == ss[i + 1..]
  {
    var cmd;
    end, cmd := NextStage(argv, start, ss, i);
    var stdio := WireStage(i, n, entry);
    var stray := CloseAll(open, n - 1);
    child := Exec(Launch(cmd, stdio, stray), []);
  }

  /** Where the stage loop of handleMultiplePipes stands before turn i. */
  ghost predicate Piped(argv: seq<string>, entry: Stdio, start: nat, i: nat, children: seq<Outcome>) {
    var ss := Stages(argv);
    && i <= |ss|
    && (i < |ss| ==> start <= |argv| && Stages(argv[start..]) == ss[i..])
    && |children| == i
    && (forall k :: 0 <= k < i ==> children[k] == PipeChild(ss, k, entry))
  }

  lemma PipedNext(argv: seq<string>, entry: Stdio, start: nat, end: nat, i: nat, children: seq<Outcome>)
    requires i < |Stages(argv)| && Piped(argv, entry, start, i, children)
    requires i + 1 < |Stages(argv)| ==> end < |argv| && Stages(argv[end + 1..]) == Stages(argv)[i + 1..]
    ensures Piped(argv, entry, end + 1, i + 1, children + [PipeChild(Stages(argv), i, entry)])
  {
  }

  /** The stage loop of handleMultiplePipes: one child per stage, in order. */
  method ForkPipeline(argv: seq<string>, n: nat, entry: Stdio, open: set<PipeEnd>) returns (children: seq<Outcome>)
    requires n == |Stages(argv)| && StagesFit(argv) && open == AllEnds(n - 1)
    ensures |children| == n
    ensures forall k :: 0 <= k < n ==> children[k] == PipeChild(Stages(argv), k, entry)
  {
    ghost var ss := Stages(argv);
    children := [];
    var start: nat := 0;
    var i := 0;
    assert argv[0..] == argv;
    while i < n
      invariant i <= n && Piped(argv, entry, start, i, children)
    {
      var end, child := ForkPipeStage(argv, start, ss, i, n, entry, open);
      PipedNext(argv, entry, start, end, i, children);
      children, start, i := children + [child], end + 1, i + 1;
    }
  }


  /**
   * What the child of one handlePipeRedirect stage does once its pipe ends
   * are wired: the combined scan, then the empty-command check, which runs
   * before the files are bound and so writes to the stderr of the scan.
   */
  function StageOutcome(cmd: seq<string>, stdio: Stdio): Outcome {
    match Plan(cmd, Combined, stdio)
    case Exec(launch, opens) =>
      if launch.argv == [] then Abort(EmptyCommand, LiveStderr(Combined, ScanList(cmd, Combined, Start).state, stdio), opens)
      else Exec(launch, opens)
    case Abort(msg, err, opens) => Abort(msg, err, opens)
  }

  /** The index of the first empty stage, or |ss| when there is none. */
  function FirstEmpty(ss: seq<seq<string>>): (e: nat)
    ensures e <= |ss| && (e < |ss| ==> ss[e] == [])
    ensures forall k :: 0 <= k < e ==> ss[k] != []
  {
    if ss == [] then 0
    else if ss[0] == [] then 0
    else 1 + FirstEmpty(ss[1..])
  }

  /**
   * handlePipeRedirect copies a stage into cmd[50] only once it has checked
   * that the stage is not empty, so only the stages before the first empty
   * one need to fit.
   */
  predicate ForkedStagesFit(argv: seq<string>) {
    var ss := Stages(argv);
    forall k :: 0 <= k < FirstEmpty(ss) ==> |ss[k]| < 50
  }

  function RedirectChildren(ss: seq<seq<string>>, count: nat, entry: Stdio): (cs: seq<Outcome>)
    requires count <= |ss|
    ensures |cs| == count
    ensures forall k :: 0 <= k < count ==> cs[k] == StageOutcome(ss[k], StageStdio(k, |ss|, entry))
    decreases count
  {
    if count == 0 then []
    else RedirectChildren(ss, count - 1, entry) + [StageOutcome(ss[count - 1], StageStdio(count - 1, |ss|, entry))]
  }

  /**
   * handlePipeRedirect notices an empty stage only when its loop reaches it.
   * With none, every stage is forked and waited for. A trailing `|` is seen
   * right after the stage before it is forked: the stages forked so far are
   * waited for. Any other empty stage is seen when its turn comes: the
   * stages before it have been forked, none is waited for. The parent
   * closes every pipe descriptor on every path.
   */
  function PipeRedirectPlan(argv: seq<string>, entry: Stdio): Run {
    var ss := Stages(argv);
    var n := |ss|;
    var e := FirstEmpty(ss);
    if e == n then Run(RedirectChildren(ss, n, entry), None, n, {})
    else if e == n - 1 && n > 1 then Run(RedirectChildren(ss, n - 1, entry), Some(MissingAfterPipe), n - 1, {})
    else Run(RedirectChildren(ss, e, entry), Some(EmptyBetweenPipes), 0, {})
  }

  lemma {:induction false} KeptAtMost(toks: seq<string>, mode: Mode, st: ScanState)
    ensures |ScanList(toks, mode, st).state.kept| <= |st.kept| + |toks|
    decreases |toks|
  {
    if toks == [] {
    } else if TakesFile(mode, toks[0]) {
      if |toks| > 1 {
        KeptAtMost(toks[2..], mode, Record(st, toks[0], toks[1]));
      }
    } else if IsMerge(mode, toks[0]) {
      KeptAtMost(toks[1..], mode, st.(merged := true));
    } else {
      KeptAtMost(toks[1..], mode, st.(kept := st.kept + [toks[0]]));
    }
  }

  /** The child of one stage: wired stdio, every raw pipe end closed, then the combined scan. */
  method RunStage(cmd: seq<string>, stdio: Stdio, open: set<PipeEnd>, count: nat) returns (child: Outcome)
    requires |cmd| < 50 && open == AllEnds(count)
    ensures child == StageOutcome(cmd, stdio)
  {
    var stray := CloseAll(open, count);
    KeptAtMost(cmd, Combined, Start);
    var scanStderr;
    child, scanStderr := HandleCombinedRedirect(cmd, stdio);
    if child.Exec? {
      if |child.launch.argv| == 0 {
        child := Abort(EmptyCommand, scanStderr, child.opens);
      } else {
        child := child.(launch := child.launch.(strayPipeEnds := stray));
      }
    }
  }

  /** Only the empty vector has a single, empty stage. */
  lemma SingleEmptyStage(s: seq<string>)
    ensures Stages(s) == [[]] ==> s == []
  {
    if s != [] && s[0] != "|" {
      assert Stages(s)[0] != [];
    }
  }

  lemma RedirectChildrenSnoc(ss: seq<seq<string>>, i: nat, entry: Stdio)
    requires i < |ss|
    ensures RedirectChildren(ss, i + 1, entry)
         == RedirectChildren(ss, i, entry) + [StageOutcome(ss[i], StageStdio(i, |ss|, entry))]
  {
  }

  /** With no empty stage, every stage is forked and waited for. */
  lemma PlanForksAll(argv: seq<string>, entry: Stdio)
    requires forall k :: 0 <= k < |Stages(argv)| ==> Stages(argv)[k] != []
    ensures var ss := Stages(argv);
      PipeRedirectPlan(argv, entry) == Run(RedirectChildren(ss, |ss|, entry), None, |ss|, {})
  {
  }

  /** An empty stage that is not a trailing one stops the loop before it is forked; nothing is waited for. */
  lemma PlanStopsAtEmptyStage(argv: seq<string>, entry: Stdio, i: nat)
    requires var ss := Stages(argv);
      && i < |ss| && ss[i] == [] && !(i == |ss| - 1 && |ss| > 1)
      && forall k :: 0 <= k < i ==> ss[k] != []
    ensures PipeRedirectPlan(argv, entry) == Run(RedirectChildren(Stages(argv), i, entry), Some(EmptyBetweenPipes), 0, {})
  {
    assert FirstEmpty(Stages(argv)) == i;
  }

  /** A trailing `|` is noticed after the stage before it is forked; the forked stages are waited for. */
  lemma PlanMissingAfterPipe(argv: seq<string>, entry: Stdio)
    requires var ss := Stages(argv);
      && |ss| > 1 && ss[|ss| - 1] == []
      && forall k :: 0 <= k < |ss| - 1 ==> ss[k] != []
    ensures var n := |Stages(argv)|;
      PipeRedirectPlan(argv, entry) == Run(RedirectChildren(Stages(argv), n - 1, entry), Some(MissingAfterPipe), n - 1, {})
  {
    assert FirstEmpty(Stages(argv)) == |Stages(argv)| - 1;
  }

  /**
   * One turn of the stage loop of handlePipeRedirect: None when the stage
   * is empty, otherwise the child forked for it.
   */
  method ForkRedirectStage(argv: seq<string>, start: nat, ghost ss: seq<seq<string>>, i: nat, n: nat, entry: Stdio, open: set<PipeEnd>)
    returns (end: nat, child: Option<Outcome>)
    requires start <= |argv| && i < |ss| == n && Stages(argv[start..]) == ss[i..] && |ss[i]| < 50
    requires open == AllEnds(n - 1)
    ensures child.None? <==> ss[i] == []
    ensures child.Some? ==> child.value == StageOutcome(ss[i], StageStdio(i, n, entry))
    ensures i + 1 < n ==> end < |argv| && Stages(argv[end + 1..]) == ss[i + 1..]
  {
    var cmd;
    end, cmd := NextStage(argv, start, ss, i);
    if end == start {
      return end, None;
    }
    var stdio := WireStage(i, n, entry);
    var outcome := RunStage(cmd, stdio, open, n - 1);
    child := Some(outcome);
  }

  /**
   * Where the stage loop of handlePipeRedirect stands before turn i: the
   * stages from i on start at `start`, the stages before i were non-empty
   * and their children were forked.
   */
  ghost predicate Forked(argv: seq<string>, entry: Stdio, start: nat, i: nat, children: seq<Outcome>) {
    var ss := Stages(argv);
    && i <= |ss|
    && (i < |ss| ==> start <= |argv| && Stages(argv[start..]) == ss[i..])
    && (0 < i < |ss| ==> start < |argv|)
    && (forall k :: 0 <= k < i ==> ss[k] != [])
    && children == RedirectChildren(ss, i, entry)
  }

  /** An empty stage reached by the loop ends it with nothing waited for. */
  lemma ForkedUpToEmpty(argv: seq<string>, entry: Stdio, start: nat, i: nat, children: seq<Outcome>)
    requires i < |Stages(argv)| && Stages(argv)[i] == []
    requires Forked(argv, entry, start, i, children)
    ensures Run(children, Some(EmptyBetweenPipes), 0, {}) == PipeRedirectPlan(argv, entry)
  {
    SingleEmptyStage(argv[start..]);
    PlanStopsAtEmptyStage(argv, entry, i);
  }

  /** A forked stage followed by a `|` that ends the vector ends the loop. */
  lemma ForkedUpToTrailingPipe(argv: seq<string>, entry: Stdio, start: nat, end: nat, i: nat, children: seq<Outcome>)
    requires var ss := Stages(argv); i + 1 < |ss| && ss[i] != [] && end + 1 == |argv|
    requires Stages(argv[end + 1..]) == Stages(argv)[i + 1..]
    requires Forked(argv, entry, start, i, children)
    ensures var ss := Stages(argv);
      Run(children + [StageOutcome(ss[i], StageStdio(i, |ss|, entry))], Some(MissingAfterPipe), i + 1, {})
        == PipeRedirectPlan(argv, entry)
  {
    var ss := Stages(argv);
    assert argv[end + 1..] == [];
    assert ss[i + 1..] == [[]];
    RedirectChildrenSnoc(ss, i, entry);
    PlanMissingAfterPipe(argv, entry);
  }

  /** A forked stage with more stages after it moves the loop on. */
  lemma ForkedNext(argv: seq<string>, entry: Stdio, start: nat, end: nat, i: nat, children: seq<Outcome>)
    requires var ss := Stages(argv); i < |ss| && ss[i] != []
    requires i + 1 < |Stages(argv)| ==> end + 1 < |argv| && Stages(argv[end + 1..]) == Stages(argv)[i + 1..]
    requires Forked(argv, entry, start, i, children)
    ensures var ss := Stages(argv);
      Forked(argv, entry, end + 1, i + 1, children + [StageOutcome(ss[i], StageStdio(i, |ss|, entry))])
  {
    RedirectChildrenSnoc(Stages(argv), i, entry);
  }

  /**
   * One turn of the stage loop of handlePipeRedirect: the stage is rejected
   * when empty, forked otherwise, and then a `|` that ends the vector is
   * rejected. `stop` carries the message and the number of children waited
   * for when the loop ends here.
   */
  method ForkRedirectTurn(argv: seq<string>, start: nat, i: nat, n: nat, entry: Stdio, open: set<PipeEnd>, children: seq<Outcome>)
    returns (next: nat, forked: seq<Outcome>, stop: Option<(string, nat)>)
    requires n == |Stages(argv)| && i < n && ForkedStagesFit(argv) && open == AllEnds(n - 1)
    requires Forked(argv, entry, start, i, children)
    ensures stop.Some? ==> Run(forked, Some(stop.value.0), stop.value.1, {}) == PipeRedirectPlan(argv, entry)
    ensures stop.None? ==> Forked(argv, entry, next, i + 1, forked)
  {
    ghost var ss := Stages(argv);
    assert |ss[i]| < 50;
    var end, child := ForkRedirectStage(argv, start, ss, i, n, entry, open);
    if child.None? {
      ForkedUpToEmpty(argv, entry, start, i, children);
      return end, children, Some((EmptyBetweenPipes, 0));
    }
    forked := children + [child.value];
    next := end + 1;
    if i < n - 1 && next == |argv| {
      ForkedUpToTrailingPipe(argv, entry, start, end, i, children);
      return next, forked, Some((MissingAfterPipe, i + 1));
    }
    ForkedNext(argv, entry, start, end, i, children);
    stop := None;
  }

  /** The stage loop of handlePipeRedirect, up to the first empty stage. */
  method ForkRedirectPipeline(argv: seq<string>, n: nat, entry: Stdio, open: set<PipeEnd>)
    returns (children: seq<Outcome>, message: Option<string>, waited: nat)
    requires n == |Stages(argv)| && ForkedStagesFit(argv) && open == AllEnds(n - 1)
    ensures Run(children, message, waited, {}) == PipeRedirectPlan(argv, entry)
  {
    children := [];
    var start: nat := 0;
    var i := 0;
    assert argv[0..] == argv;
    while i < n
      invariant i <= n && Forked(argv, entry, start, i, children)
    {
      var next, forked, stop := ForkRedirectTurn(argv, start, i, n, entry, open, children);
      if stop.Some? {
        return forked, Some(stop.value.0), stop.value.1;
      }
      children, start, i := forked, next, i + 1;
    }
    PlanForksAll(argv, entry);
    return children, None, n;
  }

  /**
   * handlePipeRedirect: count the stages, create the pipes, then for each
   * stage in turn reject it if it is empty, fork its child, and reject a
   * `|` that ends the vector. pipes[10] holds at most ten pipes. The parent
   * closes every pipe descriptor on every path.
   */
  method HandlePipeRedirect(argv: seq<string>, entry: Stdio) returns (r: Run)
    requires PipeCount(argv) <= 10 && ForkedStagesFit(argv)
    ensures r == PipeRedirectPlan(argv, entry)
  {
    var count := CountPipes(argv);
    StagesCount(argv);
    var open := CreatePipes(count);
    var children, message, waited := ForkRedirectPipeline(argv, count + 1, entry, open);
    open := CloseAll(open, count);
    r := Run(children, message, waited, open);
  }

  /**
   * Inside a pipeline a stage's own redirections win over its pipe ends:
   * each stream goes to the last file named for it, else to its pipe end
   * or inherited stream; a stage of redirections alone is rejected after
   * its files were opened, on its pipe write end when it holds `2>&1`.
   */
  lemma StageRedirectionsOverridePipe(items: seq<Item>, i: nat, n: nat, entry: Stdio)
    requires AllFit(Combined, items)
    ensures var wired := StageStdio(i, n, entry);
      StageOutcome(Render(items), wired) ==
        if Words(items) == [] then Abort(EmptyCommand, if AnyMerge(items) then wired.stdout else wired.stderr, Opens(items))
        else Exec(Launch(Words(items), Stdio(
          TargetOr(LastTarget(items, "<"), wired.stdin),
          TargetOr(LastTarget(items, ">"), wired.stdout),
          TargetOr(LastTarget(items, "2>"), if AnyMerge(items) then wired.stdout else wired.stderr)), {}),
          Opens(items))
  {
    PlanOfRendered(Combined, items, StageStdio(i, n, entry));
    ScanRendered(Combined, items, [], Start);
    assert Render(items) + [] == Render(items);
  }

  /** `2>&1 | wc`: the first stage's "Error: Empty command." goes down the pipe to wc. */
  lemma EmptyCommandWrittenToPipe(entry: Stdio)
    ensures PipeRedirectPlan(["2>&1", "|", "wc"], entry).children[0] == Abort(EmptyCommand, Pipe(WriteEnd(0)), [])
  {
    var argv := ["2>&1", "|", "wc"];
    StagesOfRun(argv, 1);
    assert argv[..1] == ["2>&1"] && argv[2..] == ["wc"];
    StagesOfRun(["wc"], 1);
    assert Stages(argv) == [["2>&1"], ["wc"]];
    assert ScanList(["2>&1"], Combined, Start) == Finished(Start.(merged := true));
  }

  /** `| ls`: the leading empty stage is rejected before anything is forked. */
  lemma LeadingPipeRejected(entry: Stdio)
    ensures PipeRedirectPlan(["|", "ls"], entry) == Run([], Some(EmptyBetweenPipes), 0, {})
  {
    var argv := ["|", "ls"];
    StagesOfRun(argv, 0);
    assert argv[1..] == ["ls"];
    StagesOfRun(["ls"], 1);
    assert Stages(argv) == [[], ["ls"]];
  }

  /** `ls | | wc`: ls has been forked when the empty middle stage is found, and is not waited for. */
  lemma DoubledPipeRejected(entry: Stdio)
    ensures PipeRedirectPlan(["ls", "|", "|", "wc"], entry)
         == Run([StageOutcome(["ls"], entry.(stdout := Pipe(WriteEnd(0))))], Some(EmptyBetweenPipes), 0, {})
  {
    var argv := ["ls", "|", "|", "wc"];
    StagesOfRun(argv, 1);
    assert argv[..1] == ["ls"] && argv[2..] == ["|", "wc"];
    StagesOfRun(["|", "wc"], 0);
    assert ["|", "wc"][1..] == ["wc"];
    StagesOfRun(["wc"], 1);
    assert Stages(argv) == [["ls"], [], ["wc"]];
    PlanStopsAtEmptyStage(argv, entry, 1);
    assert RedirectChildren(Stages(argv), 1, entry) == [StageOutcome(["ls"], StageStdio(0, 3, entry))];
  }

  /** `ls |`: ls is forked and waited for, then the missing command is reported. */
  lemma TrailingPipeRejected(entry: Stdio)
    ensures PipeRedirectPlan(["ls", "|"], entry)
         == Run([StageOutcome(["ls"], entry.(stdout := Pipe(WriteEnd(0))))], Some(MissingAfterPipe), 1, {})
  {
    var argv := ["ls", "|"];
    StagesOfRun(argv, 1);
    assert argv[..1] == ["ls"] && argv[2..] == [];
    assert Stages(argv) == [["ls"], []];
  }

  lemma CatFromFile()
    ensures StageOutcome(["cat", "<", "in.txt"], StageStdio(0, 2, Entry))
         == Exec(Launch(["cat"], Stdio(File("in.txt"), Pipe(WriteEnd(0)), Inherited(2)), {}), [FileOpen("in.txt", ReadOnly)])
  {
    var a := [Word("cat"), Redirection("<", "in.txt")];
    assert Render(a[1..]) == ["<", "in.txt"];
    assert Render(a) == ["cat", "<", "in.txt"];
    assert a[1..][1..] == [];
    assert !AnyMerge(a) by {
      assert forall k :: 0 <= k < 2 ==> a[k] != MergeErrors;
    }
    assert Words(a) == ["cat"];
    assert Opens(a) == [FileOpen("in.txt", ReadOnly)];
    assert LastTarget(a, "<") == Some("in.txt");
    StageRedirectionsOverridePipe(a, 0, 2, Entry);
  }

  lemma SortToFile()
    ensures StageOutcome(["sort", ">", "out.txt"], StageStdio(1, 2, Entry))
         == Exec(Launch(["sort"], Stdio(Pipe(ReadEnd(0)), File("out.txt"), Inherited(2)), {}), [FileOpen("out.txt", CreateTruncate)])
  {
    var b := [Word("sort"), Redirection(">", "out.txt")];
    assert Render(b[1..]) == [">", "out.txt"];
    assert Render(b) == ["sort", ">", "out.txt"];
    assert b[1..][1..] == [];
    assert !AnyMerge(b) by {
      assert forall k :: 0 <= k < 2 ==> b[k] != MergeErrors;
    }
    assert Words(b) == ["sort"];
    assert Opens(b) == [FileOpen("out.txt", CreateTruncate)];
    assert LastTarget(b, ">") == Some("out.txt");
    StageRedirectionsOverridePipe(b, 1, 2, Entry);
  }

  lemma RedirectedPipelineStages()
    ensures Stages(["cat", "<", "in.txt", "|", "sort", ">", "out.txt"]) == [["cat", "<", "in.txt"], ["sort", ">", "out.txt"]]
  {
    var argv := ["cat", "<", "in.txt", "|", "sort", ">", "out.txt"];
    var first, second := ["cat", "<", "in.txt"], ["sort", ">", "out.txt"];
    StagesOfRun(argv, 3);
    assert argv[..3] == first && argv[4..] == second;
    StagesOfRun(second, 3);
  }

  /** `cat < in.txt | sort > out.txt`: the files take the place of the outer ends of the pipeline. */
  lemma RedirectedPipeline()
    ensures PipeRedirectPlan(["cat", "<", "in.txt", "|", "sort", ">", "out.txt"], Entry) == Run([
      Exec(Launch(["cat"], Stdio(File("in.txt"), Pipe(WriteEnd(0)), Inherited(2)), {}), [FileOpen("in.txt", ReadOnly)]),
      Exec(Launch(["sort"], Stdio(Pipe(ReadEnd(0)), File("out.txt"), Inherited(2)), {}), [FileOpen("out.txt", CreateTruncate)])],
      None, 2, {})
  {
    var argv := ["cat", "<", "in.txt", "|", "sort", ">", "out.txt"];
    var first, second := ["cat", "<", "in.txt"], ["sort", ">", "out.txt"];
    RedirectedPipelineStages();
    TwoStagePlan(argv, Entry, first, second);
    CatFromFile();
    SortToFile();
  }

  /** Two non-empty stages are both forked and waited for. */
  lemma TwoStagePlan(argv: seq<string>, entry: Stdio, first: seq<string>, second: seq<string>)
    requires Stages(argv) == [first, second] && first != [] && second != []
    ensures PipeRedirectPlan(argv, entry)
         == Run([StageOutcome(first, StageStdio(0, 2, entry)), StageOutcome(second, StageStdio(1, 2, entry))], None, 2, {})
  {
    PlanForksAll(argv, entry);
    assert RedirectChildren([first, second], 2, entry)
        == [StageOutcome(first, StageStdio(0, 2, entry)), StageOutcome(second, StageStdio(1, 2, entry))];
  }
}
