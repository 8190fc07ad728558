/**
 * The pure part of the persistent session's response handling: a response
 * is split at every CR LF, and only lines that are neither empty nor the
 * bare `QNET> ` prompt are forwarded, in order.
 */
module Lines {
  const Prompt: string := "QNET> "

  /** `s` holds a CR LF somewhere. */
  predicate HasCrlf(s: string)
  {
    exists i :: 0 <= i < |s| - 1 && s[i] == '\r' && s[i + 1] == '\n'
  }

  /** `s.split('\r\n')`. */
  function SplitLines(s: string): (pieces: seq<string>)
    ensures |pieces| >= 1
    decreases |s|
  {
    if s == [] then [""]
    else if |s| >= 2 && s[0] == '\r' && s[1] == '\n' then [""] + SplitLines(s[2..])
    else
      var rest := SplitLines(s[1..]);
      [[s[0]] + rest[0]] + rest[1..]
  }

  /** Every piece of the split is free of CR LF, and the first one begins the text. */
  lemma {:induction false} SplitLinesPieces(s: string)
    ensures SplitLines(s)[0] <= s
    ensures forall k :: 0 <= k < |SplitLines(s)| ==> !HasCrlf(SplitLines(s)[k])
    decreases |s|
  {
    if s == [] {
    } else if |s| >= 2 && s[0] == '\r' && s[1] == '\n' {
      SplitLinesPieces(s[2..]);
    } else {
      var rest := SplitLines(s[1..]);
      SplitLinesPieces(s[1..]);
      var head := [s[0]] + rest[0];
      assert !HasCrlf(head) by {
        forall i | 0 <= i < |head| - 1
          ensures !(head[i] == '\r' && head[i + 1] == '\n')
        {
          if i == 0 {
            assert head[1] == s[1];
          } else {
            assert head[i] == rest[0][i - 1] && head[i + 1] == rest[0][i];
          }
        }
      }
      assert SplitLines(s) == [head] + rest[1..];
    }
  }

  /** Each of `pieces` preceded by CR LF. */
  function Separated(pieces: seq<string>): string
  {
    if pieces == [] then "" else "\r\n" + pieces[0] + Separated(pieces[1..])
  }

  /** `pieces.join('\r\n')`. */
  function JoinLines(pieces: seq<string>): string
    requires |pieces| >= 1
  {
    pieces[0] + Separated(pieces[1..])
  }

  /** Joining after an empty first piece puts CR LF in front. */
  lemma JoinEmptyFirst(rest: seq<string>)
    requires |rest| >= 1
    ensures JoinLines([""] + rest) == "\r\n" + JoinLines(rest)
  {
  }

  /** Joining after a first piece that gained one character in front. */
  lemma JoinCons(c: char, rest: seq<string>)
    requires |rest| >= 1
    ensures JoinLines([[c] + rest[0]] + rest[1..]) == [c] + JoinLines(rest)
  {
  }

  /** Splitting loses nothing: joining the pieces with CR LF gives the response back. */
  lemma {:induction false} JoinSplit(s: string)
    ensures JoinLines(SplitLines(s)) == s
    decreases |s|
  {
    if s == [] {
    } else if |s| >= 2 && s[0] == '\r' && s[1] == '\n' {
      JoinSplit(s[2..]);
      JoinEmptyFirst(SplitLines(s[2..]));
      assert s == "\r\n" + s[2..];
    } else {
      JoinSplit(s[1..]);
      JoinCons(s[0], SplitLines(s[1..]));
      assert s == [s[0]] + s[1..];
    }
  }

  /** A line that is forwarded to the parent process. */
  predicate IsReply(line: string)
  {
    line != Prompt && |line| > 0
  }

  /** The replies among `lines`, in their order. */
  function Replies(lines: seq<string>): (r: seq<string>)
    ensures |r| <= |lines|
  {
    if lines == [] then []
    else (if IsReply(lines[0]) then [lines[0]] else []) + Replies(lines[1..])
  }

  /** Only replies are kept, and every reply is. */
  lemma {:induction false} RepliesExactly(lines: seq<string>)
    ensures forall k :: 0 <= k < |Replies(lines)| ==> IsReply(Replies(lines)[k])
    ensures forall k :: 0 <= k < |Replies(lines)| ==> Replies(lines)[k] in lines
    ensures forall k :: 0 <= k < |lines| && IsReply(lines[k]) ==> lines[k] in Replies(lines)
  {
    if lines != [] {
      RepliesExactly(lines[1..]);
      var r := Replies(lines);
      var head := if IsReply(lines[0]) then [lines[0]] else [];
      assert r == head + Replies(lines[1..]);
      forall k | 0 <= k < |r|
        ensures r[k] in lines
      {
        if k >= |head| {
          assert r[k] == Replies(lines[1..])[k - |head|];
          assert r[k] in lines[1..];
        }
      }
      forall k | 0 <= k < |lines| && IsReply(lines[k])
        ensures lines[k] in r
      {
        if k > 0 {
          assert lines[k] == lines[1..][k - 1];
        }
      }
    }
  }

  /** Filtering a concatenation filters each part. */
  lemma {:induction false} RepliesAppend(a: seq<string>, b: seq<string>)
    ensures Replies(a + b) == Replies(a) + Replies(b)
    decreases |a|
  {
    if a == [] {
      assert a + b == b;
    } else {
      var head := if IsReply(a[0]) then [a[0]] else [];
      assert (a + b)[0] == a[0] && (a + b)[1..] == a[1..] + b;
      RepliesAppend(a[1..], b);
      calc {
        Replies(a + b);
        head + Replies(a[1..] + b);
        head + (Replies(a[1..]) + Replies(b));
        (head + Replies(a[1..])) + Replies(b);
        Replies(a) + Replies(b);
      }
    }
  }

  /** The lines of a response forwarded to the parent process. */
  function Forwarded(response: string): seq<string>
  {
    Replies(SplitLines(response))
  }

  /** A text without CR LF is one line. */
  lemma {:induction false} SplitWithoutCrlf(s: string)
    requires !HasCrlf(s)
    ensures SplitLines(s) == [s]
    decreases |s|
  {
    if s != [] {
      assert !HasCrlf(s[1..]) by {
        forall i | 0 <= i < |s[1..]| - 1
          ensures !(s[1..][i] == '\r' && s[1..][i + 1] == '\n')
        {
          assert s[1..][i] == s[i + 1] && s[1..][i + 1] == s[i + 2];
        }
      }
      SplitWithoutCrlf(s[1..]);
      assert [s[0]] + s[1..] == s;
    }
  }

  /** The prompt alone, or prompts and blank lines, forward nothing. */
  lemma PromptForwardsNothing()
    ensures Forwarded("QNET> ") == []
    ensures Forwarded("\r\nQNET> ") == []
  {
    SplitWithoutCrlf(Prompt);
    assert "\r\nQNET> "[2..] == Prompt;
    assert SplitLines("\r\nQNET> ") == ["", "QNET> "];
  }
}
