/**
 * The redirection scans of src/executor.c: handleRedirect (`>` and `2>`),
 * inputRedirect (`<`) and handleCombinedRedirect (`<`, `>`, `2>`, `2>&1`),
 * whose loop handlePipeRedirect repeats for each stage. Each scan removes
 * the operators and their filenames from the argument vector, opens the
 * named files and binds the standard streams. fork, open, dup2 and execvp
 * are not run: the result is the Outcome the forked child reaches.
 */
module Redirect {
  import opened Common

  /** Which scan runs: handleRedirect, inputRedirect, or handleCombinedRedirect. */
  datatype Mode = OutputOrError | InputOnly | Combined

  /** The operators the scan of a mode treats as "operator then filename". */
  predicate TakesFile(mode: Mode, tok: string) {
    match mode
    case OutputOrError => tok == ">" || tok == "2>"
    case InputOnly => tok == "<"
    case Combined => tok == "<" || tok == ">" || tok == "2>"
  }

  /** `2>&1` is an operator only for the combined scan; the other two keep it as an argument. */
  predicate IsMerge(mode: Mode, tok: string) {
    mode == Combined && tok == "2>&1"
  }

  predicate IsOperator(mode: Mode, tok: string) {
    TakesFile(mode, tok) || IsMerge(mode, tok)
  }

  /** The message written to stderr when an operator is the last token. */
  function MissingFileMessage(mode: Mode, op: string): string
    requires TakesFile(mode, op)
  {
    match mode
    case OutputOrError =>
      if op == ">" then "Output file not file not specified\n"
      else "Error: Missing filename after '2>'\n"
    case InputOnly => "Error: Missing filename after '<'\n"
    case Combined =>
      if op == "<" then "Error: Input file not specified.\n"
      else if op == ">" then "Error: Output file not specified.\n"
      else "Error: Error output file not specified.\n"
  }

  /** How an operator opens its file. */
  function OpenFor(op: string, target: string): FileOpen {
    FileOpen(target, if op == "<" then ReadOnly else CreateTruncate)
  }

  /**
   * What a scan has gathered so far: the kept arguments, the files opened,
   * the last target seen for each stream, and whether `2>&1` was seen.
   */
  datatype ScanState = ScanState(
    kept: seq<string>,
    opens: seq<FileOpen>,
    input: Option<string>,
    output: Option<string>,
    error: Option<string>,
    merged: bool)

  const Start: ScanState := ScanState([], [], None, None, None, false)

  datatype ScanResult = Finished(state: ScanState) | MissingFile(op: string, state: ScanState)

  function Record(st: ScanState, op: string, target: string): ScanState {
    var opens := st.opens + [OpenFor(op, target)];
    if op == "<" then st.(opens := opens, input := Some(target))
    else if op == ">" then st.(opens := opens, output := Some(target))
    else st.(opens := opens, error := Some(target))
  }

  /** The left-to-right scan of the remaining tokens from state st. */
  function ScanList(toks: seq<string>, mode: Mode, st: ScanState): (r: ScanResult)
    ensures r.MissingFile? ==> TakesFile(mode, r.op)
    decreases |toks|
  {
    if toks == [] then Finished(st)
    else if TakesFile(mode, toks[0]) then
      if |toks| == 1 then MissingFile(toks[0], st)
      else ScanList(toks[2..], mode, Record(st, toks[0], toks[1]))
    else if IsMerge(mode, toks[0]) then ScanList(toks[1..], mode, st.(merged := true))
    else ScanList(toks[1..], mode, st.(kept := st.kept + [toks[0]]))
  }

  function TargetOr(target: Option<string>, otherwise: Endpoint): Endpoint {
    if target.Some? then File(target.value) else otherwise
  }

  /**
   * The streams execvp runs with. A file target replaces the stream the
   * process entered with; `2>&1` copies the stdout the process entered with,
   * because dup2(STDOUT_FILENO, STDERR_FILENO) runs during the scan, before
   * the `>` file is bound to stdout; a `2>` file wins over `2>&1`, because
   * it is bound after the scan.
   */
  function Streams(st: ScanState, entry: Stdio): Stdio {
    Stdio(
      TargetOr(st.input, entry.stdin),
      TargetOr(st.output, entry.stdout),
      TargetOr(st.error, if st.merged then entry.stdout else entry.stderr))
  }

  /**
   * The stderr in force while a scan runs, where its error messages go:
   * handleRedirect dup2s each `2>` file as soon as it is opened, the
   * combined scan dup2s only `2>&1` (a copy of the entry stdout), and
   * inputRedirect leaves stderr alone.
   */
  function LiveStderr(mode: Mode, st: ScanState, entry: Stdio): Endpoint {
    if mode == Combined then (if st.merged then entry.stdout else entry.stderr)
    else TargetOr(st.error, entry.stderr)
  }

  /** What the forked child of a scan reaches, for the process streams `entry`. */
  function Plan(argv: seq<string>, mode: Mode, entry: Stdio): Outcome {
    match ScanList(argv, mode, Start)
    case Finished(st) => Exec(Launch(st.kept, Streams(st, entry), {}), st.opens)
    case MissingFile(op, st) => Abort(MissingFileMessage(mode, op), LiveStderr(mode, st, entry), st.opens)
  }

  /** The arguments the scan copies into its fixed-size array, up to where it stops. */
  function KeptCount(argv: seq<string>, mode: Mode): nat {
    |ScanList(argv, mode, Start).state.kept|
  }

  /** The kept arguments only grow as the scan goes on. */
  lemma {:induction false} KeptGrows(toks: seq<string>, mode: Mode, st: ScanState)
    ensures |ScanList(toks, mode, st).state.kept| >= |st.kept|
    decreases |toks|
  {
    if toks == [] {
    } else if TakesFile(mode, toks[0]) {
      if |toks| > 1 {
        KeptGrows(toks[2..], mode, Record(st, toks[0], toks[1]));
      }
    } else if IsMerge(mode, toks[0]) {
      KeptGrows(toks[1..], mode, st.(merged := true));
    } else {
      KeptGrows(toks[1..], mode, st.(kept := st.kept + [toks[0]]));
    }
  }

  /**
   * handleRedirect: `>` and `2>` take the next token as a file, opened
   * create+truncate and bound at once to stdout or stderr; every other
   * token, `<` and `2>&1` included, is copied into cleanCommand[10].
   */
  method HandleRedirect(argv: seq<string>, entry: Stdio) returns (r: Outcome)
    requires KeptCount(argv, OutputOrError) < 10
    ensures r == Plan(argv, OutputOrError, entry)
  {
    var cleanCommand := new string[10];
    var i, j := 0, 0;
    var stdio := entry;
    var opens: seq<FileOpen> := [];
    ghost var st := Start;
    assert argv[0..] == argv;
    while i < |argv|
      invariant 0 <= i <= |argv|
      invariant ScanList(argv, OutputOrError, Start) == ScanList(argv[i..], OutputOrError, st)
      invariant j == |st.kept| && j <= 10 && cleanCommand[..j] == st.kept
      invariant opens == st.opens && stdio == Streams(st, entry)
      invariant st.input == None && !st.merged
    {
      assert argv[i..][0] == argv[i];
      if argv[i] == ">" {
        if i + 1 == |argv| {
          return Abort("Output file not file not specified\n", stdio.stderr, opens);
        }
        assert argv[i..][1] == argv[i + 1] && argv[i..][2..] == argv[i + 2..];
        opens := opens + [FileOpen(argv[i + 1], CreateTruncate)];
        stdio := stdio.(stdout := File(argv[i + 1]));
        st := Record(st, ">", argv[i + 1]);
        i := i + 2;
      } else if argv[i] == "2>" {
        if i + 1 == |argv| {
          return Abort("Error: Missing filename after '2>'\n", stdio.stderr, opens);
        }
        assert argv[i..][1] == argv[i + 1] && argv[i..][2..] == argv[i + 2..];
        opens := opens + [FileOpen(argv[i + 1], CreateTruncate)];
        stdio := stdio.(stderr := File(argv[i + 1]));
        st := Record(st, "2>", argv[i + 1]);
        i := i + 2;
      } else {
        assert argv[i..][1..] == argv[i + 1..];
        st := st.(kept := st.kept + [argv[i]]);
        KeptGrows(argv[i + 1..], OutputOrError, st);
        cleanCommand[j] := argv[i];
        j := j + 1;
        i := i + 1;
      }
    }
    r := Exec(Launch(cleanCommand[..j], stdio, {}), opens);
  }

  /**
   * inputRedirect: `<` takes the next token as a file, opened read-only and
   * bound at once to stdin; every other token is copied into cleanCommand[50].
   */
  method InputRedirect(argv: seq<string>, entry: Stdio) returns (r: Outcome)
    requires KeptCount(argv, InputOnly) < 50
    ensures r == Plan(argv, InputOnly, entry)
  {
    var cleanCommand := new string[50];
    var i, j := 0, 0;
    var stdio := entry;
    var opens: seq<FileOpen> := [];
    ghost var st := Start;
    assert argv[0..] == argv;
    while i < |argv|
      invariant 0 <= i <= |argv|
      invariant ScanList(argv, InputOnly, Start) == ScanList(argv[i..], InputOnly, st)
      invariant j == |st.kept| && j <= 50 && cleanCommand[..j] == st.kept
      invariant opens == st.opens && stdio == Streams(st, entry)
      invariant st.output == None && st.error == None && !st.merged
    {
      assert argv[i..][0] == argv[i];
      if argv[i] == "<" {
        if i + 1 == |argv| {
          return Abort("Error: Missing filename after '<'\n", stdio.stderr, opens);
        }
        assert argv[i..][1] == argv[i + 1] && argv[i..][2..] == argv[i + 2..];
        opens := opens + [FileOpen(argv[i + 1], ReadOnly)];
        stdio := stdio.(stdin := File(argv[i + 1]));
        st := Record(st, "<", argv[i + 1]);
        i := i + 2;
      } else {
        assert argv[i..][1..] == argv[i + 1..];
        st := st.(kept := st.kept + [argv[i]]);
        KeptGrows(argv[i + 1..], InputOnly, st);
        cleanCommand[j] := argv[i];
        j := j + 1;
        i := i + 1;
      }
    }
    r := Exec(Launch(cleanCommand[..j], stdio, {}), opens);
  }

  /**
   * handleCombinedRedirect: `<`, `>` and `2>` open their files during the
   * scan but only remember the descriptors (in_fd, out_fd, err_fd), which
   * are bound after it; `2>&1` is dup2'd during the scan. The other tokens
   * are copied into cmd[50]. handlePipeRedirect runs the same scan in each
   * stage; scanStderr is the stderr in force when the scan ends, before the
   * descriptors are bound.
   */
  method HandleCombinedRedirect(argv: seq<string>, entry: Stdio) returns (r: Outcome, scanStderr: Endpoint)
    requires KeptCount(argv, Combined) < 50
    ensures r == Plan(argv, Combined, entry)
    ensures scanStderr == LiveStderr(Combined, ScanList(argv, Combined, Start).state, entry)
  {
    var cmd := new string[50];
    var i, j := 0, 0;
    var stdio := entry;
    var opens: seq<FileOpen> := [];
    var inTarget, outTarget, errTarget: Option<string> := None, None, None;
    ghost var st := Start;
    assert argv[0..] == argv;
    while i < |argv|
      invariant 0 <= i <= |argv|
      invariant ScanList(argv, Combined, Start) == ScanList(argv[i..], Combined, st)
      invariant j == |st.kept| && j <= 50 && cmd[..j] == st.kept
      invariant opens == st.opens
      invariant inTarget == st.input && outTarget == st.output && errTarget == st.error
      invariant stdio == entry.(stderr := if st.merged then entry.stdout else entry.stderr)
    {
      assert argv[i..][0] == argv[i];
      if argv[i] == "<" {
        if i + 1 == |argv| {
          return Abort("Error: Input file not specified.\n", stdio.stderr, opens), stdio.stderr;
        }
        assert argv[i..][1] == argv[i + 1] && argv[i..][2..] == argv[i + 2..];
        opens := opens + [FileOpen(argv[i + 1], ReadOnly)];
        inTarget := Some(argv[i + 1]);
        st := Record(st, "<", argv[i + 1]);
        i := i + 2;
      } else if argv[i] == ">" {
        if i + 1 == |argv| {
          return Abort("Error: Output file not specified.\n", stdio.stderr, opens), stdio.stderr;
        }
        assert argv[i..][1] == argv[i + 1] && argv[i..][2..] == argv[i + 2..];
        opens := opens + [FileOpen(argv[i + 1], CreateTruncate)];
        outTarget := Some(argv[i + 1]);
        st := Record(st, ">", argv[i + 1]);
        i := i + 2;
      } else if argv[i] == "2>" {
        if i + 1 == |argv| {
          return Abort("Error: Error output file not specified.\n", stdio.stderr, opens), stdio.stderr;
        }
        assert argv[i..][1] == argv[i + 1] && argv[i..][2..] == argv[i + 2..];
        opens := opens + [FileOpen(argv[i + 1], CreateTruncate)];
        errTarget := Some(argv[i + 1]);
        st := Record(st, "2>", argv[i + 1]);
        i := i + 2;
      } else if argv[i] == "2>&1" {
        assert argv[i..][1..] == argv[i + 1..];
        stdio := stdio.(stderr := stdio.stdout);
        st := st.(merged := true);
        i := i + 1;
      } else {
        assert argv[i..][1..] == argv[i + 1..];
        st := st.(kept := st.kept + [argv[i]]);
        KeptGrows(argv[i + 1..], Combined, st);
        cmd[j] := argv[i];
        j := j + 1;
        i := i + 1;
      }
    }
    scanStderr := stdio.stderr;
    if inTarget.Some? {
      stdio := stdio.(stdin := File(inTarget.value));
    }
    if outTarget.Some? {
      stdio := stdio.(stdout := File(outTarget.value));
    }
    if errTarget.Some? {
      stdio := stdio.(stderr := File(errTarget.value));
    }
    r := Exec(Launch(cmd[..j], stdio, {}), opens);
  }

  // ---------------------------------------------------------------------
  // A reference description of the scans: a command line is a sequence of
  // arguments and redirections in any order.

  datatype Item = Word(word: string) | Redirection(op: string, target: string) | MergeErrors

  /** An item a scan of the mode reads back as itself. */
  predicate Fits(mode: Mode, it: Item) {
    match it
    case Word(w) => !IsOperator(mode, w)
    case Redirection(op, _) => TakesFile(mode, op)
    case MergeErrors => mode == Combined
  }

  predicate AllFit(mode: Mode, items: seq<Item>) {
    forall k :: 0 <= k < |items| ==> Fits(mode, items[k])
  }

  function RenderItem(it: Item): seq<string> {
    match it
    case Word(w) => [w]
    case Redirection(op, target) => [op, target]
    case MergeErrors => ["2>&1"]
  }

  /** The tokens a command line made of these items consists of. */
  function Render(items: seq<Item>): seq<string> {
    if items == [] then [] else RenderItem(items[0]) + Render(items[1..])
  }

  /** The arguments, in order. */
  function Words(items: seq<Item>): seq<string> {
    if items == [] then []
    else (if items[0].Word? then [items[0].word] else []) + Words(items[1..])
  }

  /** The file opened by each redirection, in order. */
  function Opens(items: seq<Item>): seq<FileOpen> {
    if items == [] then []
    else (if items[0].Redirection? then [OpenFor(items[0].op, items[0].target)] else []) + Opens(items[1..])
  }

  /** The target of the last redirection with operator op, if there is one. */
  function LastTarget(items: seq<Item>, op: string): Option<string> {
    if items == [] then None
    else
      var later := LastTarget(items[1..], op);
      if later.Some? then later
      else if items[0].Redirection? && items[0].op == op then Some(items[0].target)
      else None
  }

  predicate AnyMerge(items: seq<Item>) {
    exists k :: 0 <= k < |items| && items[k] == MergeErrors
  }

  function Override(earlier: Option<string>, later: Option<string>): Option<string> {
    if later.Some? then later else earlier
  }

  lemma AnyMergeSplit(items: seq<Item>)
    requires items != []
    ensures AnyMerge(items) <==> items[0] == MergeErrors || AnyMerge(items[1..])
  {
    if AnyMerge(items) && items[0] != MergeErrors {
      var k :| 0 <= k < |items| && items[k] == MergeErrors;
      assert items[1..][k - 1] == MergeErrors;
    }
    if AnyMerge(items[1..]) {
      var k :| 0 <= k < |items[1..]| && items[1..][k] == MergeErrors;
      assert items[k + 1] == MergeErrors;
    }
  }

  /** The state after scanning the tokens of the items, starting from st. */
  function Advance(st: ScanState, items: seq<Item>): ScanState {
    ScanState(
      st.kept + Words(items),
      st.opens + Opens(items),
      Override(st.input, LastTarget(items, "<")),
      Override(st.output, LastTarget(items, ">")),
      Override(st.error, LastTarget(items, "2>")),
      st.merged || AnyMerge(items))
  }

  /** The state after scanning the tokens of one item. */
  function StepItem(st: ScanState, it: Item): ScanState {
    match it
    case Word(w) => st.(kept := st.kept + [w])
    case Redirection(op, target) => Record(st, op, target)
    case MergeErrors => st.(merged := true)
  }

  lemma ScanItem(mode: Mode, it: Item, toks: seq<string>, st: ScanState)
    requires Fits(mode, it)
    ensures ScanList(RenderItem(it) + toks, mode, st) == ScanList(toks, mode, StepItem(st, it))
  {
    var all := RenderItem(it) + toks;
    match it
    case Word(w) =>
      assert all[0] == w && all[1..] == toks;
    case Redirection(op, target) =>
      assert all[0] == op && all[1] == target && all[2..] == toks;
    case MergeErrors =>
      assert all[0] == "2>&1" && all[1..] == toks;
  }

  lemma LastTargetCons(items: seq<Item>, op: string, earlier: Option<string>)
    requires items != []
    ensures Override(Override(earlier, LastTarget([items[0]], op)), LastTarget(items[1..], op))
         == Override(earlier, LastTarget(items, op))
  {
    assert [items[0]][1..] == [];
  }

  /** What a single item contributes. */
  lemma SingleItem(it: Item, op: string)
    ensures Words([it]) == (if it.Word? then [it.word] else [])
    ensures Opens([it]) == (if it.Redirection? then [OpenFor(it.op, it.target)] else [])
    ensures LastTarget([it], op) == (if it.Redirection? && it.op == op then Some(it.target) else None)
    ensures AnyMerge([it]) <==> it == MergeErrors
  {
    assert [it][1..] == [];
    assert [it][0] == it;
  }

  /** Scanning one item that fits the mode is advancing over that item alone. */
  lemma StepIsAdvance(mode: Mode, st: ScanState, it: Item)
    requires Fits(mode, it)
    ensures StepItem(st, it) == Advance(st, [it])
  {
    SingleItem(it, "<");
    SingleItem(it, ">");
    SingleItem(it, "2>");
  }

  lemma WordsCons(items: seq<Item>)
    requires items != []
    ensures Words(items) == Words([items[0]]) + Words(items[1..])
  {
    SingleItem(items[0], "");
  }

  lemma OpensCons(items: seq<Item>)
    requires items != []
    ensures Opens(items) == Opens([items[0]]) + Opens(items[1..])
  {
    SingleItem(items[0], "");
  }

  lemma KeptCons(st: ScanState, items: seq<Item>)
    requires items != []
    ensures Advance(Advance(st, [items[0]]), items[1..]).kept == Advance(st, items).kept
  {
    var first, rest := Words([items[0]]), Words(items[1..]);
    assert Advance(st, [items[0]]).kept == st.kept + first;
    WordsCons(items);
    assert (st.kept + first) + rest == st.kept + (first + rest);
  }

  lemma OpenedCons(st: ScanState, items: seq<Item>)
    requires items != []
    ensures Advance(Advance(st, [items[0]]), items[1..]).opens == Advance(st, items).opens
  {
    var first, rest := Opens([items[0]]), Opens(items[1..]);
    assert Advance(st, [items[0]]).opens == st.opens + first;
    OpensCons(items);
    assert (st.opens + first) + rest == st.opens + (first + rest);
  }

  lemma TargetsCons(st: ScanState, items: seq<Item>)
    requires items != []
    ensures var a, b := Advance(Advance(st, [items[0]]), items[1..]), Advance(st, items);
      a.input == b.input && a.output == b.output && a.error == b.error
  {
    LastTargetCons(items, "<", st.input);
    LastTargetCons(items, ">", st.output);
    LastTargetCons(items, "2>", st.error);
  }

  lemma MergedCons(st: ScanState, items: seq<Item>)
    requires items != []
    ensures Advance(Advance(st, [items[0]]), items[1..]).merged == Advance(st, items).merged
  {
    SingleItem(items[0], "");
    AnyMergeSplit(items);
  }

  lemma AdvanceCons(st: ScanState, items: seq<Item>)
    requires items != []
    ensures Advance(Advance(st, [items[0]]), items[1..]) == Advance(st, items)
  {
    KeptCons(st, items);
    OpenedCons(st, items);
    TargetsCons(st, items);
    MergedCons(st, items);
  }

  /** Scanning the tokens of some items moves the state by exactly what the items say. */
  lemma {:induction false} ScanRendered(mode: Mode, items: seq<Item>, tail: seq<string>, st: ScanState)
    requires AllFit(mode, items)
    ensures ScanList(Render(items) + tail, mode, st) == ScanList(tail, mode, Advance(st, items))
    decreases |items|
  {
    if items == [] {
      assert Render(items) + tail == tail;
      assert Advance(st, items) == st;
    } else {
      var it, rest := items[0], items[1..];
      assert Fits(mode, items[0]);
      assert AllFit(mode, rest) by {
        forall k | 0 <= k < |rest| ensures Fits(mode, rest[k]) {
          assert rest[k] == items[k + 1];
        }
      }
      assert Render(items) + tail == RenderItem(it) + (Render(rest) + tail);
      ScanItem(mode, it, Render(rest) + tail, st);
      ScanRendered(mode, rest, tail, StepItem(st, it));
      StepIsAdvance(mode, st, it);
      AdvanceCons(st, items);
    }
  }

  /**
   * A command line of arguments and redirections, in any order: the process
   * runs the arguments in their order, each stream goes to the last file
   * named for it (else to what it was), `2>&1` sends stderr to the stdout
   * the process entered with unless a `2>` file is named anywhere, and every
   * named file is opened, output files with truncation.
   */
  lemma PlanOfRendered(mode: Mode, items: seq<Item>, entry: Stdio)
    requires AllFit(mode, items)
    ensures Plan(Render(items), mode, entry) == Exec(Launch(Words(items), Stdio(
      TargetOr(LastTarget(items, "<"), entry.stdin),
      TargetOr(LastTarget(items, ">"), entry.stdout),
      TargetOr(LastTarget(items, "2>"), if AnyMerge(items) then entry.stdout else entry.stderr)), {}),
      Opens(items))
  {
    ScanRendered(mode, items, [], Start);
    assert Render(items) + [] == Render(items);
  }

  /**
   * An operator with no filename after it aborts the child, after the files
   * before it were opened. The message goes to the last `2>` file named
   * before it under handleRedirect, to the entry stdout under the combined
   * scan once `2>&1` was seen, and otherwise to the entry stderr.
   */
  lemma PlanOfMissingFile(mode: Mode, items: seq<Item>, op: string, entry: Stdio)
    requires AllFit(mode, items) && TakesFile(mode, op)
    ensures Plan(Render(items) + [op], mode, entry) == Abort(MissingFileMessage(mode, op),
      if mode == Combined then (if AnyMerge(items) then entry.stdout else entry.stderr)
      else TargetOr(LastTarget(items, "2>"), entry.stderr),
      Opens(items))
  {
    ScanRendered(mode, items, [op], Start);
  }

  /** `ls 2> e.txt >` under handleRedirect: the complaint about `>` is written into e.txt. */
  lemma MissingFileReportedToErrorFile(entry: Stdio)
    ensures Plan(["ls", "2>", "e.txt", ">"], OutputOrError, entry)
         == Abort("Output file not file not specified\n", File("e.txt"), [FileOpen("e.txt", CreateTruncate)])
  {
    var items := [Word("ls"), Redirection("2>", "e.txt")];
    assert Render(items[1..]) == ["2>", "e.txt"];
    assert Render(items) + [">"] == ["ls", "2>", "e.txt", ">"];
    assert items[1..][1..] == [];
    assert LastTarget(items, "2>") == Some("e.txt");
    assert Opens(items) == [FileOpen("e.txt", CreateTruncate)];
    PlanOfMissingFile(OutputOrError, items, ">", entry);
  }

  /** The files named after `>` or `2>` among the items. */
  predicate NamedForOutput(items: seq<Item>, name: string) {
    exists k :: 0 <= k < |items| && (items[k] == Redirection(">", name) || items[k] == Redirection("2>", name))
  }

  lemma NamedForOutputCons(items: seq<Item>, name: string)
    requires items != []
    ensures NamedForOutput(items, name) <==>
      items[0] == Redirection(">", name) || items[0] == Redirection("2>", name) || NamedForOutput(items[1..], name)
  {
    if NamedForOutput(items[1..], name) {
      var j :| 0 <= j < |items[1..]| && (items[1..][j] == Redirection(">", name) || items[1..][j] == Redirection("2>", name));
      assert items[j + 1] == items[1..][j];
    }
    if NamedForOutput(items, name) && items[0] != Redirection(">", name) && items[0] != Redirection("2>", name) {
      var j :| 0 <= j < |items| && (items[j] == Redirection(">", name) || items[j] == Redirection("2>", name));
      assert items[1..][j - 1] == items[j];
    }
  }

  lemma {:induction false} TruncatedOpens(mode: Mode, items: seq<Item>, name: string)
    requires AllFit(mode, items)
    ensures name in Truncated(Opens(items)) <==> NamedForOutput(items, name)
    decreases |items|
  {
    if items != [] {
      var it, rest := items[0], items[1..];
      assert Fits(mode, it);
      assert AllFit(mode, rest) by {
        forall k | 0 <= k < |rest| ensures Fits(mode, rest[k]) {
          assert rest[k] == items[k + 1];
        }
      }
      TruncatedOpens(mode, rest, name);
      NamedForOutputCons(items, name);
      OpensCons(items);
      SingleItem(it, "");
      TruncatedAppend(Opens([it]), Opens(rest));
      if it.Redirection? {
        assert Opens([it])[0] == OpenFor(it.op, it.target);
      }
    }
  }

  /**
   * A child that reaches execvp has created or truncated exactly the files
   * named after `>` and `2>`; a file named after `<` is only read.
   */
  lemma TruncatesOutputTargets(mode: Mode, items: seq<Item>, entry: Stdio, name: string)
    requires AllFit(mode, items)
    ensures name in Truncated(Plan(Render(items), mode, entry).opens) <==> NamedForOutput(items, name)
  {
    PlanOfRendered(mode, items, entry);
    TruncatedOpens(mode, items, name);
  }

  /**
   * `ls nonexistent > out.txt 2>&1` under the combined scan: stdout goes to
   * out.txt, but stderr goes to the stdout the process entered with.
   */
  lemma MergeCopiesEntryStdout(entry: Stdio)
    ensures Plan(["ls", "nonexistent", ">", "out.txt", "2>&1"], Combined, entry)
         == Exec(Launch(["ls", "nonexistent"], Stdio(entry.stdin, File("out.txt"), entry.stdout), {}),
                 [FileOpen("out.txt", CreateTruncate)])
  {
    var items := MergeExample();
    PlanOfRendered(Combined, items, entry);
  }

  /** The items of `ls nonexistent > out.txt 2>&1`, and what they contribute. */
  lemma MergeExample() returns (items: seq<Item>)
    ensures AllFit(Combined, items) && Render(items) == ["ls", "nonexistent", ">", "out.txt", "2>&1"]
    ensures Words(items) == ["ls", "nonexistent"] && Opens(items) == [FileOpen("out.txt", CreateTruncate)]
    ensures LastTarget(items, "<") == None && LastTarget(items, ">") == Some("out.txt") && LastTarget(items, "2>") == None
    ensures AnyMerge(items)
  {
    items := [Word("ls"), Word("nonexistent"), Redirection(">", "out.txt"), MergeErrors];
    assert items[3] == MergeErrors;
  }
}
