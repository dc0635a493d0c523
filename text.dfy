/** The JavaScript string operations the core relies on: a global `replace` of a
    literal pattern by the empty string, `trim`, `Array.prototype.join` and
    `toLowerCase` on the ASCII words of the idea tables. */
module Text {

  /** `p` occurs in `s` starting at index `i`. */
  predicate OccursAt(s: string, p: string, i: nat)
  {
    i + |p| <= |s| && s[i..i + |p|] == p
  }

  ghost predicate Contains(s: string, p: string)
  {
    exists i: nat :: OccursAt(s, p, i)
  }

  /** `s.replace(/p/g, "")`: scan left to right, drop each match and resume after
      it; where nothing matches, keep one character and move on. */
  function RemoveAll(s: string, p: string): (r: string)
    requires p != []
    ensures |r| <= |s|
    decreases |s|
  {
    if |s| < |p| then s
    else if s[..|p|] == p then RemoveAll(s[|p|..], p)
    else [s[0]] + RemoveAll(s[1..], p)
  }

  /** A global replace by the empty string never adds a character: what it
      keeps is a sub-multiset of the input. */
  lemma {:induction false} RemoveAllSubMultiset(s: string, p: string)
    requires p != []
    ensures multiset(RemoveAll(s, p)) <= multiset(s)
    decreases |s|
  {
    if |s| < |p| {
    } else if s[..|p|] == p {
      RemoveAllSubMultiset(s[|p|..], p);
      assert s == s[..|p|] + s[|p|..];
    } else {
      RemoveAllSubMultiset(s[1..], p);
      assert s == [s[0]] + s[1..];
    }
  }

  /** Removing a pattern that does not occur changes nothing. */
  lemma {:induction false} RemoveAllAbsent(s: string, p: string)
    requires p != [] && !Contains(s, p)
    ensures RemoveAll(s, p) == s
    decreases |s|
  {
    if |s| < |p| {
    } else {
      assert !OccursAt(s, p, 0);
      assert s[..|p|] != p;
      forall i: nat ensures !OccursAt(s[1..], p, i) {
        if i + |p| <= |s| - 1 {
          assert s[1..][i..i + |p|] == s[i + 1..i + 1 + |p|];
          assert !OccursAt(s, p, i + 1);
        }
      }
      RemoveAllAbsent(s[1..], p);
      assert s == [s[0]] + s[1..];
    }
  }

  /** Text before a match of `p`, holding no first character of `p`, is kept
      as it is; the match is dropped and the scan resumes after it. */
  lemma {:induction false} RemoveAllKeepsPrefix(a: string, p: string, b: string)
    requires p != [] && p[0] !in a
    ensures RemoveAll(a + p + b, p) == a + RemoveAll(b, p)
    decreases |a|
  {
    var s := a + p + b;
    if a == [] {
      assert s[..|p|] == p && s[|p|..] == b;
    } else {
      assert s[0] == a[0] && s[..|p|][0] == s[0];
      var rest := a[1..] + p + b;
      assert s[1..] == rest;
      RemoveAllKeepsPrefix(a[1..], p, b);
      calc {
        RemoveAll(s, p);
        [s[0]] + RemoveAll(rest, p);
        [a[0]] + (a[1..] + RemoveAll(b, p));
        { assert a == [a[0]] + a[1..]; }
        a + RemoveAll(b, p);
      }
    }
  }

  const Fence: string := "```"
  const JsonFence: string := "```json"

  /** What `RemoveAll(t, Fence)` starts with when `t` does not start with a backtick. */
  lemma RemoveFenceHead(t: string)
    requires |t| > 0 && t[0] != '`'
    ensures |RemoveAll(t, Fence)| > 0 && RemoveAll(t, Fence)[0] == t[0]
  {
    if |t| >= 3 {
      assert t[..3][0] == t[0];
    }
  }

  /** A kept backtick is never followed by a removed fence: the fence would
      have matched one character earlier. So the first three characters kept
      from a string that does not start with a fence are not a fence. */
  lemma NoFenceAtHead(s: string)
    requires |s| >= 3 && s[..3] != Fence
    ensures !OccursAt([s[0]] + RemoveAll(s[1..], Fence), Fence, 0)
  {
    var tail := RemoveAll(s[1..], Fence);
    var r := [s[0]] + tail;
    assert s[..3] == [s[0], s[1], s[2]];
    if s[0] != '`' {
      assert r[0] != '`';
    } else if s[1] != '`' {
      RemoveFenceHead(s[1..]);
      assert r[1] != '`';
    } else if |s| == 3 {
      assert tail == s[1..];
      assert r[2] == s[2] != '`';
    } else {
      assert s[1..][..3] != Fence by { assert s[1..][..3][1] == s[2]; }
      assert tail == [s[1]] + RemoveAll(s[2..], Fence) by {
        assert s[1..][1..] == s[2..];
      }
      RemoveFenceHead(s[2..]);
      assert |r| < 3 || r[2] != '`';
    }
    assert |r| < 3 || r[..3] != Fence by {
      if |r| >= 3 { assert r[..3] == [r[0], r[1], r[2]]; }
    }
  }

  /** An occurrence in `c` followed by `tail` that does not start at the first
      character lies within `tail`. */
  lemma OccursAfterHead(c: char, tail: string, p: string, i: nat)
    requires 0 < i && OccursAt([c] + tail, p, i)
    ensures OccursAt(tail, p, i - 1)
  {
    var r := [c] + tail;
    assert r[i..i + |p|] == tail[i - 1..i - 1 + |p|];
  }

  /** Removing every "```" leaves none behind. */
  lemma {:induction false} NoFenceAfterRemoval(s: string)
    ensures !Contains(RemoveAll(s, Fence), Fence)
    decreases |s|
  {
    var r := RemoveAll(s, Fence);
    if |s| < 3 {
      assert r == s;
    } else if s[..3] == Fence {
      assert r == RemoveAll(s[3..], Fence);
      NoFenceAfterRemoval(s[3..]);
    } else {
      var tail := RemoveAll(s[1..], Fence);
      assert r == [s[0]] + tail;
      NoFenceAfterRemoval(s[1..]);
      NoFenceAtHead(s);
      forall i: nat | OccursAt(r, Fence, i) ensures false {
        OccursAfterHead(s[0], tail, Fence, i);
      }
    }
  }

  /** The characters `String.prototype.trim` strips: ECMAScript WhiteSpace
      (tab, vertical tab, form feed, space, no-break space, the byte order mark
      and the Unicode space separators) and LineTerminator. */
  predicate IsJsSpace(c: char)
  {
    c == '\t' || c == '\n' || c == '\U{B}' || c == '\U{C}' || c == '\r' || c == ' '
    || c == '\U{A0}' || c == '\U{1680}' || ('\U{2000}' <= c <= '\U{200A}')
    || c == '\U{2028}' || c == '\U{2029}' || c == '\U{202F}' || c == '\U{205F}'
    || c == '\U{3000}' || c == '\U{FEFF}'
  }

  /** Strips the longest all-space prefix: what is left is a suffix of `s`
      that does not start with a space. */
  function TrimStart(s: string): (r: string)
    ensures |r| <= |s| && r == s[|s| - |r|..]
    ensures r == [] || !IsJsSpace(r[0])
  {
    if |s| > 0 && IsJsSpace(s[0]) then TrimStart(s[1..]) else s
  }

  /** Only spaces are stripped from the front. */
  lemma {:induction false} TrimStartStripsSpaces(s: string)
    ensures forall i :: 0 <= i < |s| - |TrimStart(s)| ==> IsJsSpace(s[i])
    decreases |s|
  {
    if |s| > 0 && IsJsSpace(s[0]) {
      TrimStartStripsSpaces(s[1..]);
      forall i | 1 <= i < |s| - |TrimStart(s)| ensures IsJsSpace(s[i]) {
        assert s[i] == s[1..][i - 1];
      }
    }
  }

  /** Strips the longest all-space suffix: what is left is a prefix of `s`
      that does not end with a space. */
  function TrimEnd(s: string): (r: string)
    ensures |r| <= |s| && r == s[..|r|]
    ensures r == [] || !IsJsSpace(r[|r| - 1])
  {
    if |s| > 0 && IsJsSpace(s[|s| - 1]) then TrimEnd(s[..|s| - 1]) else s
  }

  /** Only spaces are stripped from the back. */
  lemma {:induction false} TrimEndStripsSpaces(s: string)
    ensures forall i :: |TrimEnd(s)| <= i < |s| ==> IsJsSpace(s[i])
    decreases |s|
  {
    if |s| > 0 && IsJsSpace(s[|s| - 1]) {
      TrimEndStripsSpaces(s[..|s| - 1]);
    }
  }

  /** `s.trim()`: a contiguous piece of `s` with no space at either end. */
  function Trim(s: string): (r: string)
    ensures |r| <= |s|
    ensures r == [] || (!IsJsSpace(r[0]) && !IsJsSpace(r[|r| - 1]))
  {
    var t := TrimStart(s);
    var r := TrimEnd(t);
    assert r != [] ==> r[0] == t[0];
    r
  }

  /** A string with no space at either end is its own trim. */
  lemma TrimTrimmed(s: string)
    requires s == [] || (!IsJsSpace(s[0]) && !IsJsSpace(s[|s| - 1]))
    ensures Trim(s) == s
  {
    assert TrimStart(s) == s;
  }

  /** An occurrence inside a slice is an occurrence in the whole. */
  lemma OccursInSlice(s: string, p: string, a: nat, b: nat, i: nat)
    requires a <= b <= |s| && OccursAt(s[a..b], p, i)
    ensures OccursAt(s, p, a + i)
  {
    forall j | 0 <= j < |p| ensures s[a + i + j] == p[j] {
      assert s[a..b][i..i + |p|][j] == p[j];
    }
    assert s[a + i..a + i + |p|] == p;
  }

  /** The trimmed string is the slice of `s` starting at offset `k`. */
  lemma TrimSlice(s: string) returns (k: nat)
    ensures k + |Trim(s)| <= |s| && Trim(s) == s[k..k + |Trim(s)|]
  {
    var t := TrimStart(s);
    var r := TrimEnd(t);
    k := |s| - |t|;
    assert r == t[..|r|] && t == s[k..];
  }

  /** Trimming keeps a contiguous piece, so it cannot create an occurrence. */
  lemma TrimContains(s: string, p: string)
    requires Contains(Trim(s), p)
    ensures Contains(s, p)
  {
    var r := Trim(s);
    var k := TrimSlice(s);
    var i: nat :| OccursAt(r, p, i);
    assert OccursAt(s[k..k + |r|], p, i);
    OccursInSlice(s, p, k, k + |r|, i);
    assert OccursAt(s, p, k + i);
  }

  /** A pattern containing `q` cannot occur where `q` does not. */
  lemma ContainsFromPart(s: string, p: string, q: string, j: nat)
    requires OccursAt(p, q, j) && Contains(s, p)
    ensures Contains(s, q)
  {
    var i: nat :| OccursAt(s, p, i);
    forall k | 0 <= k < |q| ensures s[i + j + k] == q[k] {
      assert s[i..i + |p|][j + k] == p[j + k];
      assert p[j..j + |q|][k] == q[k];
    }
    assert s[i + j..i + j + |q|] == q;
    assert OccursAt(s, q, i + j);
  }

  /** A string without "```" has no "```json" either. */
  lemma NoJsonFence(s: string)
    requires !Contains(s, Fence)
    ensures !Contains(s, JsonFence)
  {
    if Contains(s, JsonFence) {
      assert OccursAt(JsonFence, Fence, 0);
      ContainsFromPart(s, JsonFence, Fence, 0);
    }
  }

  /** `xs.join(sep)`. */
  function Join(xs: seq<string>, sep: string): string
  {
    if |xs| == 0 then ""
    else if |xs| == 1 then xs[0]
    else xs[0] + sep + Join(xs[1..], sep)
  }

  function LowerChar(c: char): char
  {
    if 'A' <= c <= 'Z' then (c as int + 32) as char else c
  }

  /** `toLowerCase` on ASCII letters. */
  function ToLower(s: string): (r: string)
    ensures |r| == |s|
    ensures forall i :: 0 <= i < |s| ==> r[i] == LowerChar(s[i])
  {
    if s == [] then [] else [LowerChar(s[0])] + ToLower(s[1..])
  }
}
