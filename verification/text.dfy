/** String and list helpers shared by both relay pipelines. */
module Text {

  /** The strings of `parts` joined in order with no separator, built left to right
      the way `s += v` does in a Go range loop. */
  function Concat(parts: seq<string>): string
  {
    if parts == [] then "" else Concat(parts[..|parts| - 1]) + parts[|parts| - 1]
  }

  /** Joining distributes over appending lists of parts. */
  lemma {:induction false} ConcatAppend(a: seq<string>, b: seq<string>)
    ensures Concat(a + b) == Concat(a) + Concat(b)
    decreases |b|
  {
    if b == [] {
      assert a + b == a;
    } else {
      var b' := b[..|b| - 1];
      assert (a + b)[..|a + b| - 1] == a + b';
      ConcatAppend(a, b');
    }
  }

  /** Every part sits, whole, in the join, right after the join of the parts before it. */
  lemma {:induction false} ConcatHasEveryPart(parts: seq<string>, i: nat)
    requires i < |parts|
    ensures |Concat(parts[..i])| + |parts[i]| <= |Concat(parts)|
    ensures Concat(parts)[|Concat(parts[..i])|..|Concat(parts[..i])| + |parts[i]|] == parts[i]
  {
    var a, b := parts[..i + 1], parts[i + 1..];
    assert parts == a + b;
    ConcatAppend(a, b);
    assert a[..|a| - 1] == parts[..i];
  }

  /** `sub` occurs somewhere in `s` (Go's strings.Contains). The empty string occurs everywhere. */
  predicate Contains(s: string, sub: string)
    decreases |s|
  {
    sub <= s || (|s| > 0 && Contains(s[1..], sub))
  }

  /** An occurrence at position `i` is found by Contains. */
  lemma {:induction false} ContainsAt(s: string, sub: string, i: nat)
    requires i <= |s| && sub <= s[i..]
    ensures Contains(s, sub)
    decreases i
  {
    if i == 0 {
      assert s[0..] == s;
    } else {
      assert s[1..][i - 1..] == s[i..];
      ContainsAt(s[1..], sub, i - 1);
    }
  }

  /** Whatever Contains finds is an occurrence at some position. */
  lemma {:induction false} ContainsFound(s: string, sub: string)
    requires Contains(s, sub)
    ensures exists i :: 0 <= i <= |s| && sub <= s[i..]
    decreases |s|
  {
    if sub <= s {
      assert s[0..] == s;
    } else {
      ContainsFound(s[1..], sub);
      var i :| 0 <= i <= |s| - 1 && sub <= s[1..][i..];
      assert s[1..][i..] == s[i + 1..];
    }
  }

  /** A string in which the first character of `sub` never occurs does not contain `sub`. */
  lemma {:induction false} AbsentFirstChar(s: string, sub: string)
    requires |sub| > 0 && forall i :: 0 <= i < |s| ==> s[i] != sub[0]
    ensures !Contains(s, sub)
    decreases |s|
  {
    if |s| > 0 {
      assert s[0] != sub[0];
      if |sub| <= |s| {
        assert s[..|sub|][0] != sub[0];
      }
      assert forall i :: 0 <= i < |s[1..]| ==> s[1..][i] == s[i + 1];
      AbsentFirstChar(s[1..], sub);
    }
  }

  /** The `n` most recent (last) entries of `s`, or all of `s` when it is shorter. */
  function Newest<T>(s: seq<T>, n: nat): seq<T>
  {
    if |s| <= n then s else s[|s| - n..]
  }

  /** Keeping the newest `n` entries, then appending, then keeping the newest `n` again,
      is the same as keeping the newest `n` of everything: eviction only ever removes
      the oldest entries. */
  lemma NewestAppend<T>(s: seq<T>, t: seq<T>, n: nat)
    ensures Newest(Newest(s, n) + t, n) == Newest(s + t, n)
  {
    if |s| > n {
      var dropped := s[..|s| - n];
      var q := Newest(s, n) + t;
      assert s + t == dropped + q;
      assert |q| >= n;
      assert Newest(s + t, n) == (dropped + q)[|dropped| + |q| - n..];
      assert (dropped + q)[|dropped| + |q| - n..] == q[|q| - n..];
    }
  }
}
