/** String operations of Python and JavaScript that the model relies on. */
module Text {

  /** The ASCII whitespace that Python's `str.strip()` and JavaScript's `trim()` both remove. */
  predicate IsSpace(c: char) {
    c == ' ' || c == '\t' || c == '\n' || c == '\r' || c == '\U{000B}' || c == '\U{000C}'
  }

  /** `s` with its leading whitespace removed. */
  function TrimStart(s: string): (r: string)
    ensures |r| <= |s| && r == s[|s| - |r|..]
    ensures r == "" || !IsSpace(r[0])
    ensures forall i :: 0 <= i < |s| - |r| ==> IsSpace(s[i])
  {
    if s != "" && IsSpace(s[0]) then TrimStart(s[1..]) else s
  }

  /** `s` with its trailing whitespace removed. */
  function TrimEnd(s: string): (r: string)
    ensures |r| <= |s| && r == s[..|r|]
    ensures r == "" || !IsSpace(r[|r| - 1])
    ensures forall i :: |r| <= i < |s| ==> IsSpace(s[i])
  {
    if s != "" && IsSpace(s[|s| - 1]) then TrimEnd(s[..|s| - 1]) else s
  }

  /** Python's `s.strip()` and JavaScript's `s.trim()`: whitespace removed at both ends. */
  function Strip(s: string): (r: string)
    ensures r == "" || (!IsSpace(r[0]) && !IsSpace(r[|r| - 1]))
    ensures |r| <= |s|
  {
    TrimEnd(TrimStart(s))
  }

  /** A string with no whitespace at either end is its own strip. */
  lemma StripUnpadded(s: string)
    requires s == "" || (!IsSpace(s[0]) && !IsSpace(s[|s| - 1]))
    ensures Strip(s) == s
  {
  }

  /** Python's `s.startswith(prefix)` and JavaScript's `s.startsWith(prefix)`. */
  predicate StartsWith(s: string, prefix: string) {
    |prefix| <= |s| && s[..|prefix|] == prefix
  }

  /** JavaScript's `s.includes(t)`: `t` occurs somewhere in `s`. */
  predicate Contains(s: string, t: string)
    decreases |s|
  {
    StartsWith(s, t) || (s != "" && Contains(s[1..], t))
  }

  /** What a suffix contains, the whole string contains. */
  lemma {:induction false} ContainsSuffix(p: string, s: string, t: string)
    requires Contains(s, t)
    ensures Contains(p + s, t)
  {
    if p != "" {
      assert (p + s)[1..] == p[1..] + s;
      ContainsSuffix(p[1..], s, t);
    } else {
      assert p + s == s;
    }
  }

  /** A prefix where `t` starts nowhere adds no occurrence of `t`. */
  lemma {:induction false} ContainsAfterPrefix(p: string, s: string, t: string)
    requires forall k :: 0 <= k < |p| ==> !StartsWith(p[k..] + s, t)
    ensures Contains(p + s, t) <==> Contains(s, t)
  {
    if p == "" {
      assert p + s == s;
    } else {
      assert p[0..] == p;
      assert (p + s)[1..] == p[1..] + s;
      forall k | 0 <= k < |p[1..]|
        ensures !StartsWith(p[1..][k..] + s, t)
      {
        assert p[1..][k..] == p[k + 1..];
      }
      ContainsAfterPrefix(p[1..], s, t);
    }
  }

  /** Python's `s[:n]` and JavaScript's `s.slice(0, n)` for `n >= 0`: at most the first `n` elements. */
  function Prefix<T>(s: seq<T>, n: nat): (r: seq<T>)
    ensures |r| == if |s| < n then |s| else n
    ensures r == s[..|r|]
  {
    if |s| <= n then s else s[..n]
  }

  /** `''.join(parts)`: the parts one after another. */
  function Concat(parts: seq<string>): (r: string)
    ensures (forall i :: 0 <= i < |parts| ==> parts[i] == "") ==> r == ""
  {
    if parts == [] then "" else parts[0] + Concat(parts[1..])
  }

  /** One step of `''.join` at position `k`. */
  lemma ConcatUnfold(parts: seq<string>, k: nat)
    requires k < |parts|
    ensures Concat(parts[k..]) == parts[k] + Concat(parts[k + 1..])
  {
    assert parts[k..][1..] == parts[k + 1..];
  }

  lemma {:induction false} ConcatAppend(a: seq<string>, b: seq<string>)
    ensures Concat(a + b) == Concat(a) + Concat(b)
  {
    if a == [] {
      assert a + b == b;
    } else {
      assert (a + b)[1..] == a[1..] + b;
      ConcatAppend(a[1..], b);
    }
  }
}
