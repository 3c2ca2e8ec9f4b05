/**
 * The tokenizer of src/parser.c. parseInput splits a command line with
 * strtok on the delimiter set " \n" and strips a leading double quote up to
 * the first later double quote of a token. The input is the contents of the
 * C string (the characters before its terminating NUL).
 */
module Parser {
  import opened Common

  predicate IsSeparator(c: char) {
    c == ' ' || c == '\n'
  }

  predicate NoSeparator(s: string) {
    forall k :: 0 <= k < |s| ==> !IsSeparator(s[k])
  }

  /** The length of the run of non-separators that starts s. */
  function RunLength(s: string): (n: nat)
    ensures n <= |s|
    ensures NoSeparator(s[..n])
    ensures n < |s| ==> IsSeparator(s[n])
  {
    if s == [] || IsSeparator(s[0]) then 0 else 1 + RunLength(s[1..])
  }

  /**
   * What the strtok loop returns: the maximal runs of characters other than
   * ' ' and '\n', in input order.
   */
  function Split(s: string): seq<string>
    decreases |s|
  {
    if s == [] then []
    else if IsSeparator(s[0]) then Split(s[1..])
    else
      var n := RunLength(s);
      [s[..n]] + Split(s[n..])
  }

  /** Every token strtok returns is non-empty and holds no separator. */
  lemma {:induction false} SplitPiecesAreWords(s: string)
    ensures forall k :: 0 <= k < |Split(s)| ==> |Split(s)[k]| > 0 && NoSeparator(Split(s)[k])
    decreases |s|
  {
    if s == [] {
    } else if IsSeparator(s[0]) {
      SplitPiecesAreWords(s[1..]);
    } else {
      SplitPiecesAreWords(s[RunLength(s)..]);
    }
  }

  /** The position of the first c in s. */
  function IndexOf(s: string, c: char): (i: nat)
    requires c in s
    ensures i < |s| && s[i] == c && c !in s[..i]
  {
    if s[0] == c then 0 else 1 + IndexOf(s[1..], c)
  }

  predicate HasClosingQuote(tok: string) {
    |tok| > 0 && tok[0] == '"' && '"' in tok[1..]
  }

  /**
   * The quote rule of parseInput: a token that starts with '"' and has a
   * later '"' becomes the text strictly between the two; any other token is
   * kept as it is.
   */
  function Unquote(tok: string): (r: string)
    ensures HasClosingQuote(tok) ==> |r| + 2 <= |tok| && tok[..|r| + 2] == "\"" + r + "\"" && '"' !in r
    ensures !HasClosingQuote(tok) ==> r == tok
  {
    if HasClosingQuote(tok) then tok[1..1 + IndexOf(tok[1..], '"')] else tok
  }

  /** The quote rule only ever drops characters, so it never brings in a separator. */
  lemma UnquoteKeepsWords(tok: string)
    requires NoSeparator(tok)
    ensures NoSeparator(Unquote(tok))
  {
    if HasClosingQuote(tok) {
      var r := Unquote(tok);
      forall k | 0 <= k < |r| ensures !IsSeparator(r[k]) {
        assert r[k] == tok[..|r| + 2][k + 1];
      }
    }
  }

  /**
   * The argument vector parseInput produces: one argument per strtok token,
   * none of them holding a space or a newline, and none at all exactly when
   * the command line is blank.
   */
  function Tokens(s: string): (r: seq<string>)
    ensures |r| == |Split(s)|
    ensures forall k :: 0 <= k < |r| ==> NoSeparator(r[k])
    ensures r == [] <==> forall i :: 0 <= i < |s| ==> IsSeparator(s[i])
  {
    var pieces := Split(s);
    SplitPiecesAreWords(s);
    SplitEmptyIffBlank(s);
    forall k | 0 <= k < |pieces| ensures NoSeparator(Unquote(pieces[k])) {
      UnquoteKeepsWords(pieces[k]);
    }
    seq(|pieces|, k requires 0 <= k < |pieces| => Unquote(pieces[k]))
  }

  /** strtok's skip over the delimiters in front of the next token. */
  method SkipSeparators(input: string, from: nat) returns (pos: nat)
    requires from <= |input|
    ensures from <= pos <= |input|
    ensures pos < |input| ==> !IsSeparator(input[pos])
    ensures Split(input[from..]) == Split(input[pos..])
  {
    pos := from;
    while pos < |input| && IsSeparator(input[pos])
      invariant from <= pos <= |input|
      invariant Split(input[from..]) == Split(input[pos..])
      decreases |input| - pos
    {
      assert input[pos..][1..] == input[pos + 1..];
      pos := pos + 1;
    }
  }

  /** strtok's scan to the end of the token that starts at `from`. */
  method ScanToken(input: string, from: nat) returns (pos: nat)
    requires from <= |input|
    ensures pos == from + RunLength(input[from..])
  {
    pos := from;
    while pos < |input| && !IsSeparator(input[pos])
      invariant from <= pos <= |input|
      invariant NoSeparator(input[from..pos])
      decreases |input| - pos
    {
      assert input[from..pos + 1] == input[from..pos] + [input[pos]];
      pos := pos + 1;
    }
    assert input[from..][..pos - from] == input[from..pos];
    RunLengthIsRunEnd(input[from..], pos - from);
  }

  /** RunLength is the one position where the run of non-separators ends. */
  lemma {:induction false} RunLengthIsRunEnd(s: string, m: nat)
    requires m <= |s| && NoSeparator(s[..m])
    requires m < |s| ==> IsSeparator(s[m])
    ensures RunLength(s) == m
    decreases m
  {
    if m > 0 {
      assert s[0] == s[..m][0];
      assert s[1..][..m - 1] == s[..m][1..];
      RunLengthIsRunEnd(s[1..], m - 1);
    }
  }

  lemma SplitAtToken(input: string, start: nat, end: nat)
    requires start < |input| && !IsSeparator(input[start])
    requires end == start + RunLength(input[start..])
    ensures Split(input[start..]) == [input[start..end]] + Split(input[end..])
  {
    var rest := input[start..];
    assert rest[..end - start] == input[start..end];
    assert rest[end - start..] == input[end..];
  }

  /** One strtok call: the next token of input[from..], if there is one. */
  method NextToken(input: string, from: nat) returns (start: nat, end: nat)
    requires from <= |input|
    ensures from <= start <= end <= |input|
    ensures start == |input| ==> Split(input[from..]) == []
    ensures start < |input| ==> start < end && Split(input[from..]) == [input[start..end]] + Split(input[end..])
  {
    start := SkipSeparators(input, from);
    if start == |input| {
      assert input[start..] == [];
      return start, start;
    }
    end := ScanToken(input, start);
    SplitAtToken(input, start, end);
  }

  /**
   * parseInput: fills the caller's array with the tokens, stores their number
   * in argCount and writes NULL (None) after the last one. The caller's
   * array must have room for the tokens and the NULL.
   */
  method ParseInput(input: string, command: array<Option<string>>) returns (argCount: nat)
    requires |Split(input)| < command.Length
    modifies command
    ensures argCount == |Tokens(input)|
    ensures forall k :: 0 <= k < argCount ==> command[k] == Some(Tokens(input)[k])
    ensures command[argCount] == None
    ensures forall k :: argCount < k < command.Length ==> command[k] == old(command[k])
  {
    argCount := StoreTokens(input, command);
    command[argCount] := None;
  }

  lemma NextPiece(pieces: seq<string>, count: nat, token: string, later: seq<string>)
    requires count <= |pieces| && pieces[count..] == [token] + later
    ensures count < |pieces| && pieces[count] == token && pieces[count + 1..] == later
  {
    assert pieces[count..][0] == token && pieces[count..][1..] == later;
  }

  /** The strtok loop: each token, unquoted, into the next cell. */
  method StoreTokens(input: string, command: array<Option<string>>) returns (argCount: nat)
    requires |Split(input)| < command.Length
    modifies command
    ensures argCount == |Split(input)|
    ensures forall k :: 0 <= k < argCount ==> command[k] == Some(Unquote(Split(input)[k]))
    ensures forall k :: argCount <= k < command.Length ==> command[k] == old(command[k])
  {
    argCount := 0;
    var pos := 0;
    ghost var pieces := Split(input);
    assert input[0..] == input;
    while pos < |input|
      invariant pos <= |input|
      invariant argCount <= |pieces|
      invariant Split(input[pos..]) == pieces[argCount..]
      invariant forall k :: 0 <= k < argCount ==> command[k] == Some(Unquote(pieces[k]))
      invariant forall k :: argCount <= k < command.Length ==> command[k] == old(command[k])
      decreases |input| - pos
    {
      var start, end := NextToken(input, pos);
      if start == |input| {
        break;
      }
      NextPiece(pieces, argCount, input[start..end], Split(input[end..]));
      command[argCount] := Some(Unquote(input[start..end]));
      argCount := argCount + 1;
      pos := end;
    }
    if pos == |input| {
      assert input[pos..] == [];
    }
  }

  /** The characters of s that are not separators, in order. */
  function RemoveSeparators(s: string): (r: string)
    ensures NoSeparator(r)
  {
    if s == [] then []
    else if IsSeparator(s[0]) then RemoveSeparators(s[1..])
    else [s[0]] + RemoveSeparators(s[1..])
  }

  function Concat(ss: seq<string>): string {
    if ss == [] then [] else ss[0] + Concat(ss[1..])
  }

  /** Tokens joined by single spaces, as a client would type them. */
  function JoinSpace(ss: seq<string>): string {
    if ss == [] then []
    else if |ss| == 1 then ss[0]
    else ss[0] + " " + JoinSpace(ss[1..])
  }

  lemma {:induction false} RemoveSeparatorsAppend(a: string, b: string)
    ensures RemoveSeparators(a + b) == RemoveSeparators(a) + RemoveSeparators(b)
    decreases |a|
  {
    if a != [] {
      assert (a + b)[1..] == a[1..] + b;
      RemoveSeparatorsAppend(a[1..], b);
    } else {
      assert a + b == b;
    }
  }

  lemma {:induction false} RemoveSeparatorsOfRun(s: string)
    requires NoSeparator(s)
    ensures RemoveSeparators(s) == s
    decreases |s|
  {
    if s != [] {
      RemoveSeparatorsOfRun(s[1..]);
    }
  }

  /** Splitting loses exactly the separators: the pieces, concatenated, are the other characters in order. */
  lemma {:induction false} SplitKeepsEveryOtherCharacter(s: string)
    ensures Concat(Split(s)) == RemoveSeparators(s)
    decreases |s|
  {
    if s == [] {
    } else if IsSeparator(s[0]) {
      SplitKeepsEveryOtherCharacter(s[1..]);
    } else {
      var n := RunLength(s);
      assert s == s[..n] + s[n..];
      SplitKeepsEveryOtherCharacter(s[n..]);
      RemoveSeparatorsAppend(s[..n], s[n..]);
      RemoveSeparatorsOfRun(s[..n]);
      assert ([s[..n]] + Split(s[n..]))[1..] == Split(s[n..]);
    }
  }

  /** Input made only of spaces and newlines (or nothing) gives no token, and only such input does. */
  lemma {:induction false} SplitEmptyIffBlank(s: string)
    ensures Split(s) == [] <==> forall k :: 0 <= k < |s| ==> IsSeparator(s[k])
    decreases |s|
  {
    if s != [] {
      SplitEmptyIffBlank(s[1..]);
      if IsSeparator(s[0]) {
        forall k | 0 <= k < |s| && (forall j :: 0 <= j < |s[1..]| ==> IsSeparator(s[1..][j]))
          ensures IsSeparator(s[k])
        {
          if k > 0 { assert s[k] == s[1..][k - 1]; }
        }
      }
    }
  }

  lemma {:induction false} SplitSkipsSeparator(s: string)
    requires s != [] && IsSeparator(s[0])
    ensures Split(s) == Split(s[1..])
  {
  }

  lemma RunLengthOfRunThenSeparator(w: string, rest: string)
    requires NoSeparator(w) && rest != [] && IsSeparator(rest[0])
    ensures RunLength(w + rest) == |w|
    decreases |w|
  {
    if w != [] {
      assert (w + rest)[1..] == w[1..] + rest;
      RunLengthOfRunThenSeparator(w[1..], rest);
    } else {
      assert w + rest == rest;
    }
  }

  lemma RunLengthOfWholeRun(w: string)
    requires NoSeparator(w)
    ensures RunLength(w) == |w|
    decreases |w|
  {
    if w != [] {
      RunLengthOfWholeRun(w[1..]);
    }
  }

  /** Joining separator-free tokens with single spaces and splitting again gives the tokens back. */
  lemma {:induction false} SplitJoinSpace(ts: seq<string>)
    requires forall k :: 0 <= k < |ts| ==> |ts[k]| > 0 && NoSeparator(ts[k])
    ensures Split(JoinSpace(ts)) == ts
    decreases |ts|
  {
    if ts == [] {
    } else if |ts| == 1 {
      var w := ts[0];
      RunLengthOfWholeRun(w);
      assert w[..|w|] == w && w[|w|..] == [];
    } else {
      var w := ts[0];
      var tail := " " + JoinSpace(ts[1..]);
      var s := JoinSpace(ts);
      assert s == w + tail;
      RunLengthOfRunThenSeparator(w, tail);
      assert s[..|w|] == w;
      assert s[|w|..] == tail;
      SplitSkipsSeparator(tail);
      assert tail[1..] == JoinSpace(ts[1..]);
      SplitJoinSpace(ts[1..]);
      assert Split(s) == [w] + ts[1..];
    }
  }

  /** A tab is not a separator: "a\tb" is a single token. */
  lemma TabIsNotSeparator()
    ensures Tokens("a\tb") == ["a\tb"]
  {
    RunLengthOfWholeRun("a\tb");
    assert "a\tb"[..3] == "a\tb";
    assert "a\tb"[3..] == [];
    assert Split("a\tb") == ["a\tb"];
  }

  /** Splitting comes first, so a quoted phrase with a space in it is two tokens, each keeping its quote. */
  lemma QuotedPhraseIsSplit()
    ensures Tokens("\"a b\"") == ["\"a", "b\""]
  {
    var s := "\"a b\"";
    RunLengthOfRunThenSeparator("\"a", " b\"");
    assert s == "\"a" + " b\"";
    assert s[..2] == "\"a" && s[2..] == " b\"";
    SplitSkipsSeparator(" b\"");
    assert " b\""[1..] == "b\"";
    RunLengthOfWholeRun("b\"");
    assert "b\""[..2] == "b\"" && "b\""[2..] == [];
    assert Split(s) == ["\"a", "b\""];
    assert !HasClosingQuote("\"a");
    assert !HasClosingQuote("b\"");
  }

  /** A quoted token keeps what lies between its quotes and drops what follows the closing quote. */
  lemma QuotedTokenKeepsInterior(inner: string, after: string)
    requires '"' !in inner
    ensures Unquote("\"" + inner + "\"" + after) == inner
  {
    var tok := "\"" + inner + "\"" + after;
    assert tok[1..] == inner + "\"" + after;
    assert tok[1..][|inner|] == '"';
    assert HasClosingQuote(tok);
    var r := Unquote(tok);
    assert tok[..|r| + 2][1..|r| + 1] == r;
  }

  /** Only a leading quote is looked at: ab"c" is kept as typed. */
  lemma InnerQuotesAreKept()
    ensures Unquote("ab\"c\"") == "ab\"c\""
  {
  }
}
