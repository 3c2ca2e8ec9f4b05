/**
 * The task queue and scheduling policy of src/scheduler.c: tasks are
 * appended with ids from a shared counter, one dispatch step picks a task
 * (shell tasks first, then least remaining time, then queue order), runs
 * one round of it and commits the round, and a shell task's token vector
 * is classified to choose the handler of src/executor.c that runs it.
 *
 * The linked list becomes a sequence field of a queue object, `send`
 * becomes an append to the log of messages sent, and the mutex, threads,
 * sleeps and printf logging are not modelled.
 */
module Scheduler {
  import opened Common
  import opened Parser
  import opened Pipes

  /** A queued task: a batch ("demo") task or a shell command. */
  datatype Task = Task(
    id: int,
    clientId: int,
    burstTime: int,
    remaining: int,
    isShell: bool,
    roundCount: int,
    socketFd: int,
    currentIteration: int,
    command: string)

  /** One `send` call: the socket and the bytes sent. */
  datatype Message = Message(fd: int, text: string)

  const FirstRoundQuantum: int := 3
  const NextRoundQuantum: int := 7
  /** The command field is a char[1024]. */
  const CommandCapacity: nat := 1024
  const TaskDone: string := "__TASK_DONE__"
  /** The socket of a task added without one. */
  const NoSocket: int := -1

  /** strncpy into command[1024] followed by a terminating NUL: at most 1023 characters survive. */
  function Truncate(command: string): (r: string)
    ensures |r| <= CommandCapacity - 1
    ensures r <= command
    ensures |command| <= CommandCapacity - 1 ==> r == command
    ensures |command| >= CommandCapacity - 1 ==> |r| == CommandCapacity - 1
  {
    if |command| < CommandCapacity then command else command[..CommandCapacity - 1]
  }

  /** The record add_task and add_task_with_socket build. */
  function NewTask(id: int, command: string, clientId: int, burstTime: int, isShell: bool, socketFd: int): Task {
    Task(id, clientId, burstTime, burstTime, isShell, 0, socketFd, 0, Truncate(command))
  }

  /**
   * What the queue relies on of a task: a shell task holds remaining -1
   * and a command of fewer than 50 tokens (parsedCommand[50]); a queued
   * batch task has time left and has run exactly burst - remaining
   * iterations.
   */
  predicate WellFormed(t: Task) {
    && |t.command| < CommandCapacity
    && t.roundCount >= 0
    && (t.isShell ==> t.remaining == -1 && |Split(t.command)| < 50)
    && (!t.isShell ==> t.remaining > 0 && t.currentIteration >= 0 && t.currentIteration + t.remaining == t.burstTime)
  }

  /** What the submitter of a task guarantees: shell tasks come with burst -1, batch tasks with a positive burst. */
  predicate Submittable(command: string, burstTime: int, isShell: bool) {
    if isShell then burstTime == -1 && |Split(Truncate(command))| < 50 else burstTime > 0
  }

  lemma SubmittedIsWellFormed(id: int, command: string, clientId: int, burstTime: int, isShell: bool, socketFd: int)
    requires Submittable(command, burstTime, isShell)
    ensures WellFormed(NewTask(id, command, clientId, burstTime, isShell, socketFd))
  {
  }

  predicate IdsIncrease(ts: seq<Task>) {
    forall i, j :: 0 <= i < j < |ts| ==> ts[i].id < ts[j].id
  }

  // ---------------------------------------------------------------------
  // Removal by identity and by client, as functions on the task sequence

  /** The queue without the first task with this id. */
  function Without(ts: seq<Task>, id: int): seq<Task> {
    if ts == [] then []
    else if ts[0].id == id then ts[1..]
    else [ts[0]] + Without(ts[1..], id)
  }

  lemma {:induction false} WithoutAbsent(ts: seq<Task>, id: int)
    requires forall k :: 0 <= k < |ts| ==> ts[k].id != id
    ensures Without(ts, id) == ts
  {
    if ts != [] {
      WithoutAbsent(ts[1..], id);
    }
  }

  lemma {:induction false} WithoutFirst(ts: seq<Task>, id: int, k: nat)
    requires k < |ts| && ts[k].id == id
    requires forall j :: 0 <= j < k ==> ts[j].id != id
    ensures Without(ts, id) == ts[..k] + ts[k + 1..]
  {
    if k > 0 {
      WithoutFirst(ts[1..], id, k - 1);
      assert ts[..k] == [ts[0]] + ts[1..][..k - 1];
      assert ts[k + 1..] == ts[1..][k..];
    }
  }

  /** The tasks of other clients, in their order. */
  function KeepOthers(ts: seq<Task>, clientId: int): seq<Task> {
    if ts == [] then []
    else
      var kept := KeepOthers(ts[..|ts| - 1], clientId);
      if ts[|ts| - 1].clientId == clientId then kept else kept + [ts[|ts| - 1]]
  }

  /** Removal by client keeps exactly the other clients' tasks... */
  lemma {:induction false} KeepOthersMembers(ts: seq<Task>, clientId: int, t: Task)
    ensures t in KeepOthers(ts, clientId) <==> t in ts && t.clientId != clientId
  {
    if ts != [] {
      var init := ts[..|ts| - 1];
      KeepOthersMembers(init, clientId, t);
      assert ts == init + [ts[|ts| - 1]];
    }
  }

  /** ...and keeps their relative order: it distributes over concatenation. */
  lemma {:induction false} KeepOthersAppend(a: seq<Task>, b: seq<Task>, clientId: int)
    ensures KeepOthers(a + b, clientId) == KeepOthers(a, clientId) + KeepOthers(b, clientId)
    decreases |b|
  {
    if b == [] {
      assert a + b == a;
    } else {
      var b' := b[..|b| - 1];
      KeepOthersAppend(a, b', clientId);
      assert (a + b)[..|a + b| - 1] == a + b';
    }
  }

  lemma {:induction false} KeepOthersIdsIncrease(ts: seq<Task>, clientId: int)
    requires IdsIncrease(ts)
    ensures IdsIncrease(KeepOthers(ts, clientId))
  {
    if ts != [] {
      var init := ts[..|ts| - 1];
      var last := ts[|ts| - 1];
      KeepOthersIdsIncrease(init, clientId);
      var kept := KeepOthers(init, clientId);
      forall k | 0 <= k < |kept| ensures kept[k].id < last.id {
        KeepOthersMembers(init, clientId, kept[k]);
      }
    }
  }

  lemma KeepOthersWellFormed(ts: seq<Task>, clientId: int)
    requires forall k :: 0 <= k < |ts| ==> WellFormed(ts[k])
    ensures forall k :: 0 <= k < |KeepOthers(ts, clientId)| ==> WellFormed(KeepOthers(ts, clientId)[k])
  {
    var kept := KeepOthers(ts, clientId);
    forall k | 0 <= k < |kept| ensures WellFormed(kept[k]) {
      KeepOthersMembers(ts, clientId, kept[k]);
    }
  }

  lemma {:induction false} WithoutMembers(ts: seq<Task>, id: int)
    ensures forall t :: t in Without(ts, id) ==> t in ts
  {
    if ts != [] && ts[0].id != id {
      WithoutMembers(ts[1..], id);
    }
  }

  /** What the queue keeps: ids increase along it and lie in [1, counter); every task is well formed. */
  ghost predicate QueueInvariant(ts: seq<Task>, counter: int) {
    && counter >= 1
    && IdsIncrease(ts)
    && (forall k :: 0 <= k < |ts| ==> 1 <= ts[k].id < counter && WellFormed(ts[k]))
  }

  /** Unlinking one task keeps the queue invariant. */
  lemma UnlinkKeepsInvariant(ts: seq<Task>, counter: int, i: nat)
    requires QueueInvariant(ts, counter) && i < |ts|
    ensures QueueInvariant(ts[..i] + ts[i + 1..], counter)
  {
    var r := ts[..i] + ts[i + 1..];
    assert forall a :: 0 <= a < |r| ==> r[a] == (if a < i then ts[a] else ts[a + 1]);
  }

  // ---------------------------------------------------------------------
  // Selection

  predicate ShellBefore(ts: seq<Task>, i: nat) {
    exists j :: 0 <= j < i && j < |ts| && ts[j].isShell
  }

  /**
   * The task a dispatch picks: the earliest shell task if there is one,
   * else the earliest of the batch tasks with the least remaining time.
   */
  predicate IsPick(ts: seq<Task>, k: nat) {
    && k < |ts|
    && (if ShellBefore(ts, |ts|) then
          ts[k].isShell && forall j :: 0 <= j < k ==> !ts[j].isShell
        else
          && (forall j :: 0 <= j < |ts| ==> ts[k].remaining <= ts[j].remaining)
          && (forall j :: 0 <= j < k ==> ts[j].remaining > ts[k].remaining))
  }

  /** At most one task is the pick. */
  lemma PickUnique(ts: seq<Task>, a: nat, b: nat)
    requires IsPick(ts, a) && IsPick(ts, b)
    ensures a == b
  {
    var ta, tb := ts[a], ts[b];
    assert ShellBefore(ts, |ts|) || (ta.remaining <= tb.remaining && tb.remaining <= ta.remaining);
  }

  // ---------------------------------------------------------------------
  // One round of a task

  function Quantum(roundCount: int): int {
    if roundCount == 0 then FirstRoundQuantum else NextRoundQuantum
  }

  /** A shell task runs to completion; a batch task for its quantum or what is left, whichever is less. */
  function Runtime(t: Task): int {
    var q := Quantum(t.roundCount);
    if t.isShell || t.remaining < q then t.remaining else q
  }

  function IterationsThisRound(t: Task): int {
    var runtime := Runtime(t);
    var left := t.burstTime - t.currentIteration;
    if runtime > left then left else runtime
  }

  /** How often the iteration loop runs: it also stops once the last iteration is reached. */
  function DemoCount(t: Task): nat {
    var n := IterationsThisRound(t);
    var left := t.burstTime - t.currentIteration;
    if n <= 0 || left <= 0 then 0 else if n < left then n else left
  }

  /** The decimal digits of n, most significant first. */
  function NatToString(n: nat): (s: string)
    ensures |s| > 0 && forall k :: 0 <= k < |s| ==> '0' <= s[k] <= '9'
    decreases n
  {
    if n < 10 then [(n + '0' as int) as char]
    else NatToString(n / 10) + [(n % 10 + '0' as int) as char]
  }

  /** %d */
  function IntToString(i: int): string {
    if i < 0 then "-" + NatToString(-i) else NatToString(i)
  }

  /** The number a string of decimal digits denotes: an independent reading of NatToString. */
  function DigitsValue(s: string): int {
    if s == [] then 0 else 10 * DigitsValue(s[..|s| - 1]) + (s[|s| - 1] as int - '0' as int)
  }

  lemma {:induction false} NatToStringValue(n: nat)
    ensures DigitsValue(NatToString(n)) == n
    ensures |NatToString(n)| > 1 ==> NatToString(n)[0] != '0'
    decreases n
  {
    var s := NatToString(n);
    if n >= 10 {
      NatToStringValue(n / 10);
      assert s[..|s| - 1] == NatToString(n / 10);
    }
  }

  /** %d is one to one on naturals. */
  lemma NatToStringInjective(a: nat, b: nat)
    requires NatToString(a) == NatToString(b)
    ensures a == b
  {
    NatToStringValue(a);
    NatToStringValue(b);
  }

  /** "Demo %d/%d\n" with the current iteration and burst - 1. */
  function DemoLine(iteration: int, total: int): string {
    "Demo " + IntToString(iteration) + "/" + IntToString(total - 1) + "\n"
  }

  function RoundLines(t: Task): seq<string> {
    seq(DemoCount(t), k => DemoLine(t.currentIteration + k, t.burstTime))
  }

  /** One send to the socket fd per line, in order. */
  function Messages(fd: int, lines: seq<string>): seq<Message> {
    seq(|lines|, k requires 0 <= k < |lines| => Message(fd, lines[k]))
  }

  /** The task after its round: iterations advanced, a batch task charged its runtime, one more round. */
  function AfterRound(t: Task): Task {
    t.(currentIteration := if t.isShell then t.currentIteration else t.currentIteration + DemoCount(t),
       remaining := if t.isShell then t.remaining else t.remaining - Runtime(t),
       roundCount := t.roundCount + 1)
  }

  /** The commit's completion test. */
  predicate Completes(t: Task) {
    AfterRound(t).remaining <= 0 || t.isShell
  }

  /**
   * A round of a well-formed batch task runs min(quantum, remaining)
   * iterations, keeps current + remaining == burst, never takes remaining
   * below 0, and completes exactly when remaining reaches 0.
   */
  lemma BatchRound(t: Task)
    requires WellFormed(t) && !t.isShell
    ensures DemoCount(t) == Runtime(t) > 0
    ensures Runtime(t) == if t.remaining < Quantum(t.roundCount) then t.remaining else Quantum(t.roundCount)
    ensures AfterRound(t).currentIteration + AfterRound(t).remaining == t.burstTime
    ensures AfterRound(t).remaining >= 0
    ensures AfterRound(t).roundCount == t.roundCount + 1
    ensures Completes(t) <==> AfterRound(t).remaining == 0
    ensures !Completes(t) ==> WellFormed(AfterRound(t))
  {
  }

  lemma ShellRound(t: Task)
    requires WellFormed(t) && t.isShell
    ensures Completes(t) && RoundLines(t) == [] && AfterRound(t).roundCount == t.roundCount + 1
  {
  }

  /** The lines a batch task emits from now until it completes, dispatch after dispatch. */
  function Lifetime(t: Task): seq<string>
    requires WellFormed(t) && !t.isShell
    decreases t.remaining
  {
    BatchRound(t);
    if Completes(t) then RoundLines(t) else RoundLines(t) + Lifetime(AfterRound(t))
  }

  /** The runtimes of the dispatches of a batch task until it completes. */
  function Rounds(t: Task): seq<int>
    requires WellFormed(t) && !t.isShell
    decreases t.remaining
  {
    BatchRound(t);
    if Completes(t) then [Runtime(t)] else [Runtime(t)] + Rounds(AfterRound(t))
  }

  lemma {:induction false} LifetimeLines(t: Task)
    requires WellFormed(t) && !t.isShell
    ensures Lifetime(t) == seq(t.remaining, k => DemoLine(t.currentIteration + k, t.burstTime))
    decreases t.remaining
  {
    BatchRound(t);
    var n := DemoCount(t);
    if !Completes(t) {
      var t' := AfterRound(t);
      LifetimeLines(t');
      var all := seq(t.remaining, k => DemoLine(t.currentIteration + k, t.burstTime));
      assert all == RoundLines(t) + seq(t'.remaining, k => DemoLine(t'.currentIteration + k, t'.burstTime)) by {
        forall k | 0 <= k < t.remaining
          ensures all[k] == (RoundLines(t) + seq(t'.remaining, k => DemoLine(t'.currentIteration + k, t'.burstTime)))[k]
        {
          if k >= n {
            assert t'.currentIteration + (k - n) == t.currentIteration + k;
          }
        }
      }
    }
  }

  /** A fresh task with burst B emits Demo 0/(B-1) up to Demo (B-1)/(B-1), once each, in order. */
  lemma FreshLifetime(id: int, command: string, clientId: int, b: int, socketFd: int)
    requires b > 0
    ensures Lifetime(NewTask(id, command, clientId, b, false, socketFd)) == seq(b, k => DemoLine(k, b))
  {
    LifetimeLines(NewTask(id, command, clientId, b, false, socketFd));
  }

  /** Over its lifetime a batch task runs exactly its remaining iterations. */
  lemma {:induction false} RoundsSum(t: Task)
    requires WellFormed(t) && !t.isShell
    ensures Sum(Rounds(t)) == t.remaining
    decreases t.remaining
  {
    BatchRound(t);
    if !Completes(t) {
      RoundsSum(AfterRound(t));
    }
  }

  function Sum(xs: seq<int>): int {
    if xs == [] then 0 else xs[0] + Sum(xs[1..])
  }

  /** Burst 5 runs 3 iterations, then 2. */
  lemma BurstFiveRounds(id: int, command: string, clientId: int, socketFd: int)
    ensures Rounds(NewTask(id, command, clientId, 5, false, socketFd)) == [3, 2]
  {
    var t := NewTask(id, command, clientId, 5, false, socketFd);
    BatchRound(t);
    var t' := AfterRound(t);
    assert t'.remaining == 2 && t'.roundCount == 1;
    BatchRound(t');
  }

  // ---------------------------------------------------------------------
  // Classification of a shell command

  /** The handler of src/executor.c a shell command is given to. */
  datatype Handler =
    | PipeRedirect      // handlePipeRedirect
    | MultiplePipes     // handleMultiplePipes
    | SinglePipe        // handlePipes
    | CombinedRedirect  // handleCombinedRedirect
    | InputRedirect     // inputRedirect
    | OutputRedirect    // handleRedirect
    | PlainExec         // execvp

  predicate HasInput(toks: seq<string>) { "<" in toks }
  predicate HasOutput(toks: seq<string>) { ">" in toks }
  predicate HasError(toks: seq<string>) { "2>" in toks || "2>&1" in toks }

  predicate HasRedirect(toks: seq<string>) {
    HasInput(toks) || HasOutput(toks) || HasError(toks)
  }

  /** The if-chain of execute_shell_command over the flags its loop sets. */
  function Classify(toks: seq<string>): Handler {
    var input, output, error := HasInput(toks), HasOutput(toks), HasError(toks);
    var pipe, redirect := "|" in toks, input || output || error;
    if pipe && redirect then PipeRedirect
    else if pipe then (if PipeCount(toks) > 1 then MultiplePipes else SinglePipe)
    else if redirect then
      (if (input && output) || (input && error) || (output && error) then CombinedRedirect
       else if input then InputRedirect
       else OutputRedirect)
    else PlainExec
  }

  /** How many of the three kinds of redirection (`<`; `>`; `2>` or `2>&1`) occur. */
  function Kinds(toks: seq<string>): nat {
    (if HasInput(toks) then 1 else 0) + (if HasOutput(toks) then 1 else 0) + (if HasError(toks) then 1 else 0)
  }

  /** Which handler runs, stated for each handler by what the tokens contain. */
  lemma ClassifyCases(toks: seq<string>)
    ensures Classify(toks) == PipeRedirect <==> PipeCount(toks) >= 1 && Kinds(toks) >= 1
    ensures Classify(toks) == MultiplePipes <==> PipeCount(toks) >= 2 && Kinds(toks) == 0
    ensures Classify(toks) == SinglePipe <==> PipeCount(toks) == 1 && Kinds(toks) == 0
    ensures Classify(toks) == CombinedRedirect <==> PipeCount(toks) == 0 && Kinds(toks) >= 2
    ensures Classify(toks) == InputRedirect <==> PipeCount(toks) == 0 && Kinds(toks) == 1 && HasInput(toks)
    ensures Classify(toks) == OutputRedirect <==> PipeCount(toks) == 0 && Kinds(toks) == 1 && !HasInput(toks)
    ensures Classify(toks) == PlainExec <==> PipeCount(toks) == 0 && Kinds(toks) == 0
  {
    assert PipeCount(toks) >= 1 <==> "|" in toks by {
      assert "|" in toks <==> "|" in multiset(toks);
    }
  }

  /** `2>&1` alone counts as an error redirection: `ls 2>&1` goes to handleRedirect. */
  lemma MergeAloneIsOutputRedirect()
    ensures Classify(["ls", "2>&1"]) == OutputRedirect
  {
    assert ["ls", "2>&1"][1] == "2>&1";
    assert "|" !in ["ls", "2>&1"];
    assert multiset(["ls", "2>&1"])["|"] == 0;
  }

  /** The flag loop and the if-chain of execute_shell_command. */
  method ClassifyTokens(argv: seq<string>) returns (h: Handler)
    ensures h == Classify(argv)
  {
    var pipeFound, redirectFound := false, false;
    var inputFound, outputFound, errorFound := false, false, false;
    for j := 0 to |argv|
      invariant pipeFound == ("|" in argv[..j])
      invariant inputFound == HasInput(argv[..j]) && outputFound == HasOutput(argv[..j])
      invariant errorFound == HasError(argv[..j])
      invariant redirectFound == HasRedirect(argv[..j])
    {
      assert argv[..j + 1] == argv[..j] + [argv[j]];
      if argv[j] == "|" {
        pipeFound := true;
      }
      if argv[j] == "<" {
        redirectFound, inputFound := true, true;
      }
      if argv[j] == ">" {
        redirectFound, outputFound := true, true;
      }
      if argv[j] == "2>" || argv[j] == "2>&1" {
        redirectFound, errorFound := true, true;
      }
    }
    assert argv[..|argv|] == argv;
    if pipeFound && redirectFound {
      h := PipeRedirect;
    } else if pipeFound {
      var pipeCount := CountPipes(argv);
      h := if pipeCount > 1 then MultiplePipes else SinglePipe;
    } else if redirectFound {
      if (inputFound && outputFound) || (inputFound && errorFound) || (outputFound && errorFound) {
        h := CombinedRedirect;
      } else if inputFound {
        h := InputRedirect;
      } else {
        h := OutputRedirect;
      }
    } else {
      h := PlainExec;
    }
  }

  /** What the scheduler itself sends for a shell command: a lone newline when it has no tokens. */
  function ShellMessages(t: Task): seq<Message> {
    if Tokens(t.command) == [] then [Message(t.socketFd, "\n")] else []
  }

  /** Everything sent during one dispatch of t. */
  function RoundMessages(t: Task): seq<Message> {
    RoundOutput(t) + (if Completes(t) then [Message(t.socketFd, TaskDone)] else [])
  }

  /** What the round itself sends, before the commit. */
  function RoundOutput(t: Task): seq<Message> {
    if t.isShell then ShellMessages(t) else Messages(t.socketFd, RoundLines(t))
  }

  /** The queue after one dispatch of its k-th task. */
  function Commit(ts: seq<Task>, k: nat): seq<Task>
    requires k < |ts|
  {
    if Completes(ts[k]) then Without(ts, ts[k].id) else ts[k := AfterRound(ts[k])]
  }

  /** A dispatch sends exactly one completion sentinel when the task completes, and none otherwise. */
  lemma OneSentinel(t: Task)
    requires WellFormed(t)
    ensures multiset(RoundMessages(t))[Message(t.socketFd, TaskDone)] == if Completes(t) then 1 else 0
  {
    var body := RoundOutput(t);
    assert Message(t.socketFd, TaskDone) !in body by {
      if !t.isShell {
        forall k | 0 <= k < |body| ensures body[k] != Message(t.socketFd, TaskDone) {
          var line := DemoLine(t.currentIteration + k, t.burstTime);
          assert body[k].text == line;
          assert line[0] == 'D' && TaskDone[0] == '_';
        }
      }
    }
    assert multiset(RoundMessages(t)) == multiset(body) + multiset(if Completes(t) then [Message(t.socketFd, TaskDone)] else []);
  }

  // ---------------------------------------------------------------------
  // The queue

  class TaskQueue {
    var tasks: seq<Task>
    var idCounter: int
    var sent: seq<Message>

    /** Ids increase along the queue and stay below the counter, which starts at 1. */
    ghost predicate Valid()
      reads this
    {
      QueueInvariant(tasks, idCounter)
    }

    constructor()
      ensures tasks == [] && idCounter == 1 && sent == []
      ensures Valid()
    {
      tasks, idCounter, sent := [], 1, [];
    }

    /** The shared body of the two add functions: the next id, then a tail append. */
    method Enqueue(command: string, clientId: int, burstTime: int, isShell: bool, socketFd: int)
      requires Valid() && Submittable(command, burstTime, isShell)
      modifies this
      ensures Valid()
      ensures tasks == old(tasks) + [NewTask(old(idCounter), command, clientId, burstTime, isShell, socketFd)]
      ensures idCounter == old(idCounter) + 1 && sent == old(sent)
    {
      var t := NewTask(idCounter, command, clientId, burstTime, isShell, socketFd);
      SubmittedIsWellFormed(idCounter, command, clientId, burstTime, isShell, socketFd);
      idCounter := idCounter + 1;
      tasks := tasks + [t];
    }

    /** add_task: no socket. */
    method AddTask(command: string, clientId: int, burstTime: int, isShell: bool)
      requires Valid() && Submittable(command, burstTime, isShell)
      modifies this
      ensures Valid()
      ensures tasks == old(tasks) + [NewTask(old(idCounter), command, clientId, burstTime, isShell, NoSocket)]
      ensures idCounter == old(idCounter) + 1 && sent == old(sent)
    {
      Enqueue(command, clientId, burstTime, isShell, NoSocket);
    }

    /** add_task_with_socket: the task's messages go to socketFd. */
    method AddTaskWithSocket(command: string, clientId: int, burstTime: int, isShell: bool, socketFd: int)
      requires Valid() && Submittable(command, burstTime, isShell)
      modifies this
      ensures Valid()
      ensures tasks == old(tasks) + [NewTask(old(idCounter), command, clientId, burstTime, isShell, socketFd)]
      ensures idCounter == old(idCounter) + 1 && sent == old(sent)
    {
      Enqueue(command, clientId, burstTime, isShell, socketFd);
    }

    /**
     * remove_task: the task is named by its id (ids are unique). None, like
     * NULL, and an id not in the queue change nothing; otherwise the first
     * task with that id is unlinked and the rest keep their order.
     */
    method RemoveTask(handle: Option<int>)
      requires Valid()
      modifies this
      ensures Valid()
      ensures tasks == (if handle.None? then old(tasks) else Without(old(tasks), handle.value))
      ensures idCounter == old(idCounter) && sent == old(sent)
    {
      if handle.None? {
        return;
      }
      var id := handle.value;
      var i := 0;
      while i < |tasks|
        invariant i <= |tasks|
        invariant forall j :: 0 <= j < i ==> tasks[j].id != id
      {
        if tasks[i].id == id {
          WithoutFirst(tasks, id, i);
          UnlinkKeepsInvariant(tasks, idCounter, i);
          tasks := tasks[..i] + tasks[i + 1..];
          return;
        }
        i := i + 1;
      }
      WithoutAbsent(tasks, id);
    }

    /** remove_tasks_by_client: every task of the client goes, the others stay in their order. */
    method RemoveTasksByClient(clientId: int)
      requires Valid()
      modifies this
      ensures Valid()
      ensures tasks == KeepOthers(old(tasks), clientId)
      ensures idCounter == old(idCounter) && sent == old(sent)
    {
      var kept: seq<Task> := [];
      var i := 0;
      while i < |tasks|
        invariant i <= |tasks| && kept == KeepOthers(tasks[..i], clientId)
      {
        assert tasks[..i + 1][..i] == tasks[..i];
        if tasks[i].clientId != clientId {
          kept := kept + [tasks[i]];
        }
        i := i + 1;
      }
      assert tasks[..i] == tasks;
      KeepOthersIdsIncrease(tasks, clientId);
      KeepOthersWellFormed(tasks, clientId);
      forall k | 0 <= k < |kept| ensures 1 <= kept[k].id < idCounter {
        KeepOthersMembers(tasks, clientId, kept[k]);
      }
      tasks := kept;
    }

    /** The selection loop of scheduler_loop. It changes nothing. */
    method Select() returns (selected: nat)
      requires Valid() && tasks != []
      ensures IsPick(tasks, selected)
    {
      selected := 0;
      var curr := 0;
      while curr < |tasks|
        invariant curr <= |tasks| && selected < |tasks| && (curr > 0 ==> selected < curr)
        invariant curr == 0 ==> selected == 0
        invariant curr > 0 ==>
          if ShellBefore(tasks, curr) then
            tasks[selected].isShell && forall j :: 0 <= j < selected ==> !tasks[j].isShell
          else
            && !tasks[selected].isShell
            && (forall j :: 0 <= j < curr ==> tasks[selected].remaining <= tasks[j].remaining)
            && (forall j :: 0 <= j < selected ==> tasks[j].remaining > tasks[selected].remaining)
      {
        var t := tasks[curr];
        assert WellFormed(t) && WellFormed(tasks[selected]);
        if !t.isShell && t.remaining < tasks[selected].remaining {
          selected := curr;
        }
        if t.isShell && !tasks[selected].isShell {
          selected := curr;
        }
        assert ShellBefore(tasks, curr + 1) <==> ShellBefore(tasks, curr) || t.isShell;
        curr := curr + 1;
      }
    }

    /** The iteration loop of a batch round; the lines it sends are returned in order. */
    method RunDemoRound(t: Task) returns (out: seq<Message>, iteration: int)
      ensures out == Messages(t.socketFd, RoundLines(t))
      ensures iteration == t.currentIteration + DemoCount(t)
    {
      var total := t.burstTime;
      var iterations := IterationsThisRound(t);
      iteration := t.currentIteration;
      out := [];
      var i := 0;
      while i < iterations && iteration < total
        invariant 0 <= i && iteration == t.currentIteration + i
        invariant i <= DemoCount(t)
        invariant out == Messages(t.socketFd, RoundLines(t)[..i])
      {
        out := out + [Message(t.socketFd, DemoLine(iteration, total))];
        iteration := iteration + 1;
        i := i + 1;
        assert RoundLines(t)[..i] == RoundLines(t)[..i - 1] + [DemoLine(iteration - 1, total)];
      }
      assert i == DemoCount(t);
      assert RoundLines(t)[..i] == RoundLines(t);
    }

    /**
     * execute_shell_command up to the fork: parse into parsedCommand[50];
     * no tokens sends "\n"; otherwise the child's handler is chosen. What
     * the child prints reaches the client through a pipe the parent reads;
     * that stream is not modelled.
     */
    method ExecuteShellCommand(t: Task) returns (handler: Option<Handler>)
      requires |Split(t.command)| < 50
      modifies this
      ensures sent == old(sent) + ShellMessages(t)
      ensures handler == if Tokens(t.command) == [] then None else Some(Classify(Tokens(t.command)))
      ensures tasks == old(tasks) && idCounter == old(idCounter)
    {
      var parsedCommand := new Option<string>[50](_ => None);
      var argCount := ParseInput(t.command, parsedCommand);
      if parsedCommand[0] == None {
        assert argCount == 0;
        sent := sent + [Message(t.socketFd, "\n")];
        return None;
      }
      var argv := parsedCommand[..argCount];
      var toks := seq(argCount, k requires 0 <= k < argCount => argv[k].value);
      assert toks == Tokens(t.command);
      var h := ClassifyTokens(toks);
      handler := Some(h);
    }

    /** The round of the picked task: the demo loop of a batch task, execute_shell_command for a shell task. */
    method Dispatch(t: Task)
      requires WellFormed(t)
      modifies this
      ensures sent == old(sent) + RoundOutput(t)
      ensures tasks == old(tasks) && idCounter == old(idCounter)
    {
      if !t.isShell {
        var out, iteration := RunDemoRound(t);
        // The loop's iteration is the one the commit stores back.
        assert iteration == AfterRound(t).currentIteration;
        sent := sent + out;
      } else {
        var _ := ExecuteShellCommand(t);
      }
    }

    /**
     * The commit of a round to the k-th task: a completed task gets the
     * sentinel and is removed, any other is stored back with its new state.
     */
    method Charge(k: nat)
      requires Valid() && k < |tasks|
      modifies this
      ensures Valid()
      ensures tasks == Commit(old(tasks), k)
      ensures sent == old(sent) + (if Completes(old(tasks)[k]) then [Message(old(tasks)[k].socketFd, TaskDone)] else [])
      ensures idCounter == old(idCounter)
    {
      var t := tasks[k];
      var t' := AfterRound(t);
      if t'.remaining <= 0 || t.isShell {
        sent := sent + [Message(t.socketFd, TaskDone)];
        RemoveTask(Some(t.id));
      } else {
        BatchRound(t);
        ghost var before := tasks;
        tasks := tasks[k := t'];
        assert IdsIncrease(tasks) by {
          assert forall j :: 0 <= j < |tasks| ==> tasks[j].id == before[j].id;
        }
      }
    }

    /**
     * One pass of scheduler_loop: with an empty queue nothing happens;
     * otherwise the pick runs one round, is charged for it, and is removed
     * after the sentinel is sent if it completed.
     */
    method Step() returns (picked: Option<nat>)
      requires Valid()
      modifies this
      ensures Valid()
      ensures old(tasks) == [] ==> picked == None && tasks == old(tasks) && sent == old(sent)
      ensures old(tasks) != [] ==>
        && picked.Some? && IsPick(old(tasks), picked.value)
        && tasks == Commit(old(tasks), picked.value)
        && sent == old(sent) + RoundMessages(old(tasks)[picked.value])
      ensures idCounter == old(idCounter)
    {
      if tasks == [] {
        return None;
      }
      var k := Select();
      picked := Some(k);
      Dispatch(tasks[k]);
      Charge(k);
    }
  }
}
