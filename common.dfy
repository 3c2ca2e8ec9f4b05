/**
 * Values shared by the tokenizer, the execution engine and the scheduler:
 * an optional value (a C pointer that may be NULL), the descriptors a
 * process's standard streams can be bound to, the files a process opens,
 * and what one forked process ends up doing.
 */
module Common {

  datatype Option<T> = None | Some(value: T)

  /** One end of a pipe created with pipe(): pipes[k][0] or pipes[k][1]. */
  datatype PipeEnd = ReadEnd(pipe: nat) | WriteEnd(pipe: nat)

  /**
   * What a standard stream is bound to: the descriptor the process already
   * had as fd 0, 1 or 2 when the handler was entered, a file opened by a
   * redirection, or an end of one of the handler's pipes.
   */
  datatype Endpoint = Inherited(fd: nat) | File(name: string) | Pipe(end: PipeEnd)

  datatype Stdio = Stdio(stdin: Endpoint, stdout: Endpoint, stderr: Endpoint)

  /** The streams as the handler received them. */
  const Entry: Stdio := Stdio(Inherited(0), Inherited(1), Inherited(2))

  /** O_RDONLY for `<`; O_WRONLY | O_CREAT | O_TRUNC (mode 0644) for `>` and `2>`. */
  datatype OpenMode = ReadOnly | CreateTruncate

  datatype FileOpen = FileOpen(name: string, mode: OpenMode)

  /**
   * The execvp call a process makes: its argument vector, its standard
   * streams, and the raw pipe descriptors it still holds besides them.
   */
  datatype Launch = Launch(argv: seq<string>, stdio: Stdio, strayPipeEnds: set<PipeEnd>)

  /**
   * What one forked process does: either it reaches execvp, or it writes an
   * error message to the stderr in force at that moment and exits with
   * status 1. Either way `opens` lists, in order, the files it opened before
   * that point.
   */
  datatype Outcome =
    | Exec(launch: Launch, opens: seq<FileOpen>)
    | Abort(message: string, stderr: Endpoint, opens: seq<FileOpen>)

  /** The names of the files that were created or truncated by the opens. */
  function Truncated(opens: seq<FileOpen>): set<string> {
    set k | 0 <= k < |opens| && opens[k].mode == CreateTruncate :: opens[k].name
  }

  /** Opening files one batch after another truncates the files of both batches. */
  lemma TruncatedAppend(a: seq<FileOpen>, b: seq<FileOpen>)
    ensures Truncated(a + b) == Truncated(a) + Truncated(b)
  {
    var ab := a + b;
    forall name | name in Truncated(ab) ensures name in Truncated(a) + Truncated(b) {
      var k :| 0 <= k < |ab| && ab[k].mode == CreateTruncate && ab[k].name == name;
      if k >= |a| {
        assert b[k - |a|] == ab[k];
      }
    }
    forall name | name in Truncated(b) ensures name in Truncated(ab) {
      var k :| 0 <= k < |b| && b[k].mode == CreateTruncate && b[k].name == name;
      assert ab[k + |a|] == b[k];
    }
    forall name | name in Truncated(a) ensures name in Truncated(ab) {
      var k :| 0 <= k < |a| && a[k].mode == CreateTruncate && a[k].name == name;
      assert ab[k] == a[k];
    }
  }
}
