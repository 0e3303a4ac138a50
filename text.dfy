/**
 * The few string operations of Go's `strings` package and of
 * `github.com/pkg/errors` that the manifest engine relies on.
 * Text is a sequence of characters, one character per byte of the source.
 */
module Text {

  /**
   * The single-byte characters Go's `unicode.IsSpace` accepts, i.e. what
   * `strings.TrimSpace` cuts from text in this byte-per-character model.
   */
  const Whitespace: set<char> := {'\t', '\n', '\U{0B}', '\U{0C}', '\r', ' '}

  /** `strings.HasSuffix(s, t)`: `s` is some text followed by `t`. */
  predicate HasSuffix(s: string, t: string): (b: bool)
    ensures b <==> |t| <= |s| && s == s[..|s| - |t|] + t
  {
    |t| <= |s| && s[|s| - |t|..] == t
  }

  /** Index of the first character at or after `i` that does not belong to `cut`, or `|s|`. */
  function FirstKept(s: string, cut: set<char>, i: nat): (n: nat)
    requires i <= |s|
    ensures i <= n <= |s| && (n < |s| ==> s[n] !in cut)
    decreases |s| - i
  {
    if i < |s| && s[i] in cut then FirstKept(s, cut, i + 1) else i
  }

  /** Length of `s[..n]` once its trailing characters that belong to `cut` are dropped. */
  function LastKept(s: string, cut: set<char>, n: nat): (m: nat)
    requires n <= |s|
    ensures m <= n && (m > 0 ==> s[m - 1] !in cut)
    decreases n
  {
    if n > 0 && s[n - 1] in cut then LastKept(s, cut, n - 1) else n
  }

  /** `strings.TrimLeft`: drops the longest prefix made of characters in `cut`. */
  function TrimLeft(s: string, cut: set<char>): string {
    s[FirstKept(s, cut, 0)..]
  }

  /** `strings.TrimRight`: drops the longest suffix made of characters in `cut`. */
  function TrimRight(s: string, cut: set<char>): string {
    s[..LastKept(s, cut, |s|)]
  }

  /** `FirstKept` skips only characters of `cut`. */
  lemma {:induction false} FirstKeptSkipsCut(s: string, cut: set<char>, i: nat, k: nat)
    requires i <= |s| && i <= k < FirstKept(s, cut, i)
    ensures s[k] in cut
    decreases |s| - i
  {
    if k > i {
      FirstKeptSkipsCut(s, cut, i + 1, k);
    }
  }

  /** `FirstKept` stops at or before any kept character from `i` on. */
  lemma {:induction false} FirstKeptStops(s: string, cut: set<char>, i: nat, k: nat)
    requires i <= k < |s| && s[k] !in cut
    ensures FirstKept(s, cut, i) <= k
    decreases |s| - i
  {
    if i < k {
      FirstKeptStops(s, cut, i + 1, k);
    }
  }

  /** `LastKept` drops only characters of `cut`. */
  lemma {:induction false} LastKeptDropsCut(s: string, cut: set<char>, n: nat, k: nat)
    requires n <= |s| && LastKept(s, cut, n) <= k < n
    ensures s[k] in cut
    decreases n
  {
    if k < n - 1 {
      LastKeptDropsCut(s, cut, n - 1, k);
    }
  }

  /** `LastKept` keeps every kept character before `n`. */
  lemma {:induction false} LastKeptCovers(s: string, cut: set<char>, n: nat, k: nat)
    requires k < n <= |s| && s[k] !in cut
    ensures k < LastKept(s, cut, n)
    decreases n
  {
    if k < n - 1 {
      LastKeptCovers(s, cut, n - 1, k);
    }
  }

  /** `LastKept(s, cut, n)` is the one `m` with a kept character before it and only `cut` from it to `n`. */
  lemma LastKeptUnique(s: string, cut: set<char>, n: nat, m: nat)
    requires m <= n <= |s| && (m > 0 ==> s[m - 1] !in cut)
    requires forall k :: m <= k < n ==> s[k] in cut
    ensures LastKept(s, cut, n) == m
  {
    var m0 := LastKept(s, cut, n);
    if m0 < m {
      LastKeptDropsCut(s, cut, n, m - 1);
    }
  }

  /** `strings.Trim(s, cutset)`: left side first, then right side. */
  function Trim(s: string, cut: set<char>): (r: string)
    ensures |r| <= |s|
    ensures r == [] || r[|r| - 1] !in cut
  {
    TrimRight(TrimLeft(s, cut), cut)
  }

  /** `strings.TrimSpace`: no longer than `s`, and neither starting nor ending with white space. */
  function TrimSpace(s: string): (r: string)
    ensures |r| <= |s|
    ensures r == [] || (r[0] !in Whitespace && r[|r| - 1] !in Whitespace)
  {
    TrimEnds(s, Whitespace);
    Trim(s, Whitespace)
  }

  /** Lower-case form of one ASCII letter; every other character is kept. */
  function LowerChar(c: char): char {
    if 'A' <= c <= 'Z' then (c as int + 32) as char else c
  }

  /** `strings.ToLower`, restricted to the ASCII letters. */
  function ToLower(s: string): (r: string)
    ensures |r| == |s|
  {
    seq(|s|, k requires 0 <= k < |s| => LowerChar(s[k]))
  }

  /** The text of `errors.Wrap(cause, message).Error()`: the message first, the cause last. */
  function Wrap(message: string, cause: string): (r: string)
    ensures |message| <= |r| && r[..|message|] == message && HasSuffix(r, cause)
  {
    EndsWith(message + ": ", cause);
    message + ": " + cause
  }

  /** Number of occurrences of `c` in `s`. */
  function Count(s: string, c: char): nat {
    if s == [] then 0 else (if s[0] == c then 1 else 0) + Count(s[1..], c)
  }

  /** `strings.Split(s, string(sep))`: the pieces between separators, in order. */
  function Split(s: string, sep: char): (parts: seq<string>)
    ensures |parts| >= 1
    decreases |s|
  {
    if s == [] then [""]
    else
      var rest := Split(s[1..], sep);
      if s[0] == sep then [""] + rest else [[s[0]] + rest[0]] + rest[1..]
  }

  /** `strings.Join(parts, string(sep))`, the inverse of `Split`. */
  function Join(parts: seq<string>, sep: char): string
    requires |parts| >= 1
  {
    if |parts| == 1 then parts[0] else parts[0] + [sep] + Join(parts[1..], sep)
  }

  /** Splitting yields one piece more than there are separators. */
  lemma {:induction false} SplitCount(s: string, sep: char)
    ensures |Split(s, sep)| == Count(s, sep) + 1
    decreases |s|
  {
    if s != [] {
      SplitCount(s[1..], sep);
    }
  }

  /** No piece of a split contains the separator. */
  lemma {:induction false} SplitPiecesFree(s: string, sep: char)
    ensures forall k :: 0 <= k < |Split(s, sep)| ==> sep !in Split(s, sep)[k]
    decreases |s|
  {
    if s != [] {
      SplitPiecesFree(s[1..], sep);
      var rest := Split(s[1..], sep);
      if s[0] != sep {
        assert forall k :: 1 <= k < |rest| ==> sep !in rest[k];
        assert sep !in [s[0]] + rest[0];
      }
    }
  }

  /** Gluing a character to the first piece glues it to the joined text. */
  lemma JoinPrepend(c: char, parts: seq<string>, sep: char)
    requires |parts| >= 1
    ensures Join([[c] + parts[0]] + parts[1..], sep) == [c] + Join(parts, sep)
  {
    var q := [[c] + parts[0]] + parts[1..];
    if |parts| > 1 {
      assert q[1..] == parts[1..];
    }
  }

  /** Joining the pieces of a split gives back the original text. */
  lemma {:induction false} JoinSplit(s: string, sep: char)
    ensures Join(Split(s, sep), sep) == s
    decreases |s|
  {
    if s != [] {
      JoinSplit(s[1..], sep);
      var rest := Split(s[1..], sep);
      if s[0] == sep {
        assert Split(s, sep)[1..] == rest;
        assert s == [sep] + s[1..];
      } else {
        JoinPrepend(s[0], rest, sep);
        assert s == [s[0]] + s[1..];
      }
    }
  }

  /** A text without the separator splits into itself. */
  lemma {:induction false} SplitNoSeparator(s: string, sep: char)
    requires sep !in s
    ensures Split(s, sep) == [s]
    decreases |s|
  {
    if s != [] {
      assert sep !in s[1..];
      SplitNoSeparator(s[1..], sep);
      assert [s[0]] + s[1..] == s;
    }
  }

  /** Text made of `a`, one separator and `b` (neither holding it) splits into `[a, b]`. */
  lemma {:induction false} SplitOneSeparator(a: string, b: string, sep: char)
    requires sep !in a && sep !in b
    ensures Split(a + [sep] + b, sep) == [a, b]
    decreases |a|
  {
    if a == [] {
      assert a + [sep] + b == [sep] + b;
      assert ([sep] + b)[1..] == b;
      SplitNoSeparator(b, sep);
    } else {
      assert (a + [sep] + b)[1..] == a[1..] + [sep] + b;
      assert sep !in a[1..];
      SplitOneSeparator(a[1..], b, sep);
      assert [a[0]] + a[1..] == a;
    }
  }

  /** What trimming keeps of `e` lies between its first and its last kept character. */
  lemma TrimIsSlice(e: string, cut: set<char>)
    requires Trim(e, cut) != []
    ensures FirstKept(e, cut, 0) < LastKept(e, cut, |e|)
    ensures Trim(e, cut) == e[FirstKept(e, cut, 0)..LastKept(e, cut, |e|)]
  {
    var c := FirstKept(e, cut, 0);
    var t := e[c..];
    var n := LastKept(t, cut, |t|);
    assert t[n - 1] == e[c + n - 1];
    forall k | c + n <= k < |e|
      ensures e[k] in cut
    {
      LastKeptDropsCut(t, cut, |t|, k - c);
    }
    LastKeptUnique(e, cut, |e|, c + n);
  }

  /** Before a kept character of the head, `FirstKept` does not look past the head. */
  lemma {:induction false} FirstKeptConcat(p: string, e: string, cut: set<char>, i: nat, k: nat)
    requires i <= k < |p| && p[k] !in cut
    ensures FirstKept(p + e, cut, i) == FirstKept(p, cut, i)
    decreases |p| - i
  {
    assert (p + e)[i] == p[i];
    if i < k && p[i] in cut {
      FirstKeptConcat(p, e, cut, i + 1, k);
    }
  }

  /** After a kept character of the tail, `LastKept` does not look before the tail. */
  lemma {:induction false} LastKeptConcat(l: string, e: string, cut: set<char>, n: nat, j: nat)
    requires j < n <= |e| && e[j] !in cut
    ensures LastKept(l + e, cut, |l| + n) == |l| + LastKept(e, cut, n)
    decreases n
  {
    assert (l + e)[|l| + n - 1] == e[n - 1];
    if j < n - 1 && e[n - 1] in cut {
      LastKeptConcat(l, e, cut, n - 1, j);
    }
  }

  /** Trimming a head holding a kept character at `k` in front of a tail holding one at `j`. */
  lemma TrimConcat(p: string, e: string, cut: set<char>, k: nat, j: nat)
    requires k < |p| && p[k] !in cut && j < |e| && e[j] !in cut
    ensures Trim(p + e, cut) == TrimLeft(p, cut) + TrimRight(e, cut)
  {
    FirstKeptConcat(p, e, cut, 0, k);
    var a := FirstKept(p, cut, 0);
    var l := p[a..];
    assert (p + e)[a..] == l + e;
    LastKeptConcat(l, e, cut, |e|, j);
  }

  /** Putting a head that holds a kept character at `k` in front keeps the suffix of the trimmed text. */
  lemma PrefixKeepsTrimmedSuffix(p: string, e: string, t: string, cut: set<char>, k: nat)
    requires k < |p| && p[k] !in cut
    requires t != [] && HasSuffix(Trim(e, cut), t)
    ensures HasSuffix(Trim(p + e, cut), t)
  {
    TrimIsSlice(e, cut);
    var m := LastKept(e, cut, |e|);
    var ts := Trim(e, cut);
    assert ts == e[FirstKept(e, cut, 0)..m];
    assert ts[|ts| - |t|..] == e[m - |t|..m];
    TrimConcat(p, e, cut, k, m - 1);
    var l := TrimLeft(p, cut);
    var r := e[..m];
    assert (l + r)[|l| + m - |t|..] == r[m - |t|..];
  }

  /**
   * Wrapping an error keeps the suffix its trimmed text ends with: the error
   * classification of the batch driver sees through every `errors.Wrap` layer.
   */
  lemma WrapKeepsSuffix(message: string, cause: string, t: string)
    requires t != [] && HasSuffix(TrimSpace(cause), t)
    ensures HasSuffix(TrimSpace(Wrap(message, cause)), t)
  {
    var p := message + ": ";
    assert p[|message|] == ':' && ':' !in Whitespace;
    PrefixKeepsTrimmedSuffix(p, cause, t, Whitespace, |message|);
    assert p + cause == Wrap(message, cause);
  }

  /** A text that ends with `a` does not end with `b` when the two differ `i` characters from their ends. */
  lemma SuffixesDiffer(s: string, a: string, b: string, i: nat)
    requires HasSuffix(s, a) && 0 < i <= |a| && i <= |b| && a[|a| - i] != b[|b| - i]
    ensures !HasSuffix(s, b)
  {
    assert s[|s| - |a|..][|a| - i] == s[|s| - i];
    if |b| <= |s| {
      assert s[|s| - |b|..][|b| - i] == s[|s| - i];
    }
  }

  /** A text ends with what was appended to it last. */
  lemma EndsWith(a: string, t: string)
    ensures HasSuffix(a + t, t)
  {
    assert (a + t)[|a|..] == t;
  }

  /** Trimming keeps a suffix that starts and ends with kept characters. */
  lemma TrimKeepsSuffix(s: string, t: string, cut: set<char>)
    requires HasSuffix(s, t) && t != [] && t[0] !in cut && t[|t| - 1] !in cut
    ensures HasSuffix(Trim(s, cut), t)
  {
    assert s[|s| - |t|] == t[0];
    FirstKeptStops(s, cut, 0, |s| - |t|);
    var c := FirstKept(s, cut, 0);
    var l := s[c..];
    assert l[|l| - 1] == t[|t| - 1];
    assert LastKept(l, cut, |l|) == |l|;
    assert l[|l| - |t|..] == s[|s| - |t|..];
  }

  /** A trimmed text neither starts nor ends with a character of `cut`. */
  lemma TrimEnds(s: string, cut: set<char>)
    ensures Trim(s, cut) == [] || (Trim(s, cut)[0] !in cut && Trim(s, cut)[|Trim(s, cut)| - 1] !in cut)
  {
    var a := FirstKept(s, cut, 0);
    var t := s[a..];
    if t != [] {
      assert t[0] == s[a];
    }
  }

  /** Trailing characters of `cut` make no difference to the trimmed text. */
  lemma TrimIgnoresPadding(t: string, pad: string, cut: set<char>)
    requires forall k :: 0 <= k < |pad| ==> pad[k] in cut
    ensures Trim(t + pad, cut) == Trim(t, cut)
  {
    var w := t + pad;
    if j :| 0 <= j < |t| && t[j] !in cut {
      FirstKeptConcat(t, pad, cut, 0, j);
      var a := FirstKept(t, cut, 0);
      var l := t[a..];
      var v := w[a..];
      assert v == l + pad;
      var m := LastKept(l, cut, |l|);
      forall k | m <= k < |v|
        ensures v[k] in cut
      {
        if k < |l| {
          LastKeptDropsCut(l, cut, |l|, k);
        } else {
          assert v[k] == pad[k - |l|];
        }
      }
      if m > 0 {
        assert v[m - 1] == l[m - 1];
      }
      LastKeptUnique(v, cut, |v|, m);
      assert v[..m] == l[..m];
    }
  }
}
