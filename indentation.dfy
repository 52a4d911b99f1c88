/** The two text helpers of the tool: a run of spaces, and the indentation of
    multi-line text by putting that run in front of the text and after every
    newline in it. */
module Indentation {

  /** `Indent(n)`: a string of `n` spaces. */
  function Spaces(n: nat): (r: string)
    ensures |r| == n
    ensures forall i :: 0 <= i < |r| ==> r[i] == ' '
  {
    seq(n, _ => ' ')
  }

  /** Every newline of `s` replaced by a newline followed by `pad`; all other
      characters kept. (Replacing every occurrence of the one-character pattern
      "\n", left to right, without rescanning the inserted text.) */
  function ReplaceNewlines(s: string, pad: string): (r: string)
  {
    if s == [] then []
    else (if s[0] == '\n' then "\n" + pad else [s[0]]) + ReplaceNewlines(s[1..], pad)
  }

  /** `IndentString(s, n)`: `s` with `n` spaces in front of it and after each of its newlines. */
  function IndentString(s: string, n: nat): (r: string)
  {
    Spaces(n) + ReplaceNewlines(s, Spaces(n))
  }

  /** The number of newline characters in `s`. */
  function NewlineCount(s: string): nat
  {
    if s == [] then 0 else (if s[0] == '\n' then 1 else 0) + NewlineCount(s[1..])
  }

  /** The inverse of ReplaceNewlines: drop the `k` characters that follow each newline. */
  function DropAfterNewlines(t: string, k: nat): string
  {
    if t == [] then []
    else if t[0] == '\n' && k + 1 <= |t| then "\n" + DropAfterNewlines(t[k + 1..], k)
    else [t[0]] + DropAfterNewlines(t[1..], k)
  }

  /** The inverse of IndentString: drop the leading indentation and the indentation
      after each newline. */
  function Unindent(t: string, n: nat): string
  {
    if n <= |t| then DropAfterNewlines(t[n..], n) else t
  }

  lemma {:induction false} ReplaceNewlinesLength(s: string, pad: string)
    ensures |ReplaceNewlines(s, pad)| == |s| + |pad| * NewlineCount(s)
  {
    if s != [] {
      ReplaceNewlinesLength(s[1..], pad);
    }
  }

  /** The indented text is the original text plus `n` spaces for its first line
      and `n` more for every newline. */
  lemma IndentStringLength(s: string, n: nat)
    ensures |IndentString(s, n)| == |s| + n * (1 + NewlineCount(s))
  {
    ReplaceNewlinesLength(s, Spaces(n));
  }

  lemma {:induction false} ReplaceNewlinesEmptyPad(s: string)
    ensures ReplaceNewlines(s, "") == s
  {
    if s != [] {
      ReplaceNewlinesEmptyPad(s[1..]);
      assert s == [s[0]] + s[1..];
    }
  }

  /** Indenting by zero leaves the text unchanged. */
  lemma IndentStringZero(s: string)
    ensures IndentString(s, 0) == s
  {
    ReplaceNewlinesEmptyPad(s);
  }

  lemma {:induction false} DropAfterReplace(s: string, pad: string)
    ensures DropAfterNewlines(ReplaceNewlines(s, pad), |pad|) == s
  {
    if s != [] {
      var rest := ReplaceNewlines(s[1..], pad);
      DropAfterReplace(s[1..], pad);
      if s[0] == '\n' {
        var t := "\n" + pad + rest;
        assert t[|pad| + 1..] == rest;
      } else {
        var t := [s[0]] + rest;
        assert t[1..] == rest;
      }
      assert s == [s[0]] + s[1..];
    }
  }

  /** Indentation loses nothing: Unindent recovers the original text. */
  lemma IndentStringRoundTrip(s: string, n: nat)
    ensures Unindent(IndentString(s, n), n) == s
  {
    var t := IndentString(s, n);
    assert t[n..] == ReplaceNewlines(s, Spaces(n));
    DropAfterReplace(s, Spaces(n));
  }

  /** In `r`, the newline at `i` is followed by `pad`. */
  predicate PadFollows(r: string, i: nat, pad: string)
  {
    i + 1 + |pad| <= |r| && r[i + 1..i + 1 + |pad|] == pad
  }

  /** Every newline of `r` is followed by `pad`. */
  predicate NewlinesPadded(r: string, pad: string)
  {
    forall i :: 0 <= i < |r| && r[i] == '\n' ==> PadFollows(r, i, pad)
  }

  lemma {:induction false} ReplaceNewlinesPads(s: string, pad: string)
    requires '\n' !in pad
    ensures NewlinesPadded(ReplaceNewlines(s, pad), pad)
  {
    if s != [] {
      var head := if s[0] == '\n' then "\n" + pad else [s[0]];
      var rest := ReplaceNewlines(s[1..], pad);
      assert ReplaceNewlines(s, pad) == head + rest;
      ReplaceNewlinesPads(s[1..], pad);
      PaddedAfterHead(head, rest, pad);
    }
  }

  /** Putting a padded newline, or one character other than a newline, in front of a
      text whose newlines are all padded keeps them all padded. */
  lemma PaddedAfterHead(head: string, rest: string, pad: string)
    requires '\n' !in pad
    requires head == "\n" + pad || (|head| == 1 && head[0] != '\n')
    requires NewlinesPadded(rest, pad)
    ensures NewlinesPadded(head + rest, pad)
  {
    var r := head + rest;
    forall i | 0 <= i < |r| && r[i] == '\n'
      ensures PadFollows(r, i, pad)
    {
      if i < |head| {
        assert r[..|head|] == head;
        assert r[1..1 + |pad|] == pad;
      } else {
        var j := i - |head|;
        assert rest[j] == '\n';
        assert PadFollows(rest, j, pad);
        SliceAfter(head, rest, i + 1, i + 1 + |pad|);
      }
    }
  }

  /** A slice of `a + b` that lies within `b`. */
  lemma SliceAfter<T>(a: seq<T>, b: seq<T>, lo: nat, hi: nat)
    requires |a| <= lo <= hi <= |a| + |b|
    ensures (a + b)[lo..hi] == b[lo - |a|..hi - |a|]
  {
  }

  /** Every line of the indented text starts with the `n` spaces: the first one,
      and each one that follows a newline. */
  lemma IndentStringPadsEveryLine(s: string, n: nat)
    ensures IndentString(s, n)[..n] == Spaces(n)
    ensures NewlinesPadded(IndentString(s, n), Spaces(n))
  {
    var pad := Spaces(n);
    var rest := ReplaceNewlines(s, pad);
    var r := IndentString(s, n);
    assert r == pad + rest;
    assert '\n' !in pad;
    ReplaceNewlinesPads(s, pad);
    forall i | 0 <= i < |r| && r[i] == '\n'
      ensures PadFollows(r, i, pad)
    {
      if i >= n {
        assert rest[i - n] == r[i] == '\n';
        assert PadFollows(rest, i - n, pad);
        SliceAfter(pad, rest, i + 1, i + 1 + n);
      }
    }
  }
}
