/**
 * String helpers standing in for the JavaScript string methods the storefront uses:
 * `trim`, `toLowerCase`, `toUpperCase`, `includes`, `startsWith` and `split`.
 * Case folding and whitespace are ASCII only.
 */
module Text {
  import opened Wrappers

  /** The ASCII whitespace characters that `String.prototype.trim` removes. */
  predicate IsWhitespace(c: char) {
    c == ' ' || c == '\t' || c == '\n' || c == '\r' || c == '\U{0B}' || c == '\U{0C}'
  }

  predicate AllWhitespace(s: string) {
    forall i :: 0 <= i < |s| ==> IsWhitespace(s[i])
  }

  /** Drops the leading whitespace, and only that. */
  function TrimStart(s: string): (r: string)
    ensures |r| <= |s| && r == s[|s| - |r|..]
    ensures forall i :: 0 <= i < |s| - |r| ==> IsWhitespace(s[i])
    ensures r == [] || !IsWhitespace(r[0])
  {
    if s != [] && IsWhitespace(s[0]) then
      var r := TrimStart(s[1..]);
      assert s[|s| - |r|..] == s[1..][|s| - 1 - |r|..];
      r
    else s
  }

  /** Drops the trailing whitespace, and only that. */
  function TrimEnd(s: string): (r: string)
    ensures |r| <= |s| && r == s[..|r|]
    ensures AllWhitespace(s[|r|..])
    ensures r == [] || !IsWhitespace(r[|r| - 1])
  {
    if s != [] && IsWhitespace(s[|s| - 1]) then TrimEnd(s[..|s| - 1]) else s
  }

  function Trim(s: string): string {
    TrimEnd(TrimStart(s))
  }

  /** JavaScript's `s.trim()` used as a condition: falsy exactly when nothing but whitespace is left. */
  predicate IsBlank(s: string) {
    Trim(s) == []
  }

  lemma BlankIffAllWhitespace(s: string)
    ensures IsBlank(s) <==> AllWhitespace(s)
  {
    var t := TrimStart(s);
    if AllWhitespace(s) {
      assert s == s[..|s| - |t|] + t;
      assert AllWhitespace(t);
      assert t == [];
    }
    if IsBlank(s) {
      assert AllWhitespace(t[|TrimEnd(t)|..]);
      assert t[|TrimEnd(t)|..] == t;
      assert s == s[..|s| - |t|] + t;
    }
  }

  /** Leading whitespace does not change TrimStart. */
  lemma {:induction false} TrimStartSkipsPadding(pad: string, s: string)
    requires AllWhitespace(pad)
    ensures TrimStart(pad + s) == TrimStart(s)
  {
    if pad != [] {
      var rest := pad[1..] + s;
      assert pad + s == [pad[0]] + rest;
      TrimStartSkipsChar(pad[0], rest);
      assert AllWhitespace(pad[1..]) by {
        forall i | 0 <= i < |pad[1..]| ensures IsWhitespace(pad[1..][i]) {
          assert pad[1..][i] == pad[i + 1];
        }
      }
      TrimStartSkipsPadding(pad[1..], s);
    } else {
      assert pad + s == s;
    }
  }

  lemma TrimStartSkipsChar(c: char, s: string)
    requires IsWhitespace(c)
    ensures TrimStart([c] + s) == TrimStart(s)
  {
    assert ([c] + s)[1..] == s;
  }

  /** Trailing whitespace does not change TrimEnd. */
  lemma {:induction false} TrimEndSkipsPadding(s: string, pad: string)
    requires AllWhitespace(pad)
    ensures TrimEnd(s + pad) == TrimEnd(s)
  {
    if pad != [] {
      var p := pad[..|pad| - 1];
      var sp := s + pad;
      assert sp[|sp| - 1] == pad[|pad| - 1] && IsWhitespace(pad[|pad| - 1]);
      assert TrimEnd(sp) == TrimEnd(sp[..|sp| - 1]);
      assert sp[..|sp| - 1] == s + p;
      assert AllWhitespace(p);
      TrimEndSkipsPadding(s, p);
    } else {
      assert s + pad == s;
    }
  }

  /** When s holds something besides whitespace, trailing text passes through TrimStart untouched. */
  lemma {:induction false} TrimStartKeepsTail(s: string, tail: string)
    requires !AllWhitespace(s)
    ensures TrimStart(s + tail) == TrimStart(s) + tail
  {
    assert s != [];
    if IsWhitespace(s[0]) {
      assert (s + tail)[1..] == s[1..] + tail;
      assert !AllWhitespace(s[1..]) by {
        var i :| 0 <= i < |s| && !IsWhitespace(s[i]);
        assert s[1..][i - 1] == s[i];
      }
      TrimStartKeepsTail(s[1..], tail);
    }
  }

  /** Whitespace around a string never changes what `trim` returns. */
  lemma TrimIgnoresPadding(front: string, s: string, back: string)
    requires AllWhitespace(front) && AllWhitespace(back)
    ensures Trim(front + s + back) == Trim(s)
  {
    assert front + s + back == front + (s + back);
    TrimStartSkipsPadding(front, s + back);
    if AllWhitespace(s) {
      assert AllWhitespace(s + back);
      BlankIffAllWhitespace(s + back);
      BlankIffAllWhitespace(s);
    } else {
      TrimStartKeepsTail(s, back);
      TrimEndSkipsPadding(TrimStart(s), back);
    }
  }

  function LowerChar(c: char): char {
    if 'A' <= c <= 'Z' then (c as int + 32) as char else c
  }

  function UpperChar(c: char): char {
    if 'a' <= c <= 'z' then (c as int - 32) as char else c
  }

  /** `toLowerCase`, letter by letter. */
  function Lower(s: string): (r: string)
    ensures |r| == |s|
    ensures forall i :: 0 <= i < |s| ==> r[i] == LowerChar(s[i])
  {
    if s == [] then [] else [LowerChar(s[0])] + Lower(s[1..])
  }

  /** `toUpperCase`, letter by letter. */
  function Upper(s: string): (r: string)
    ensures |r| == |s|
    ensures forall i :: 0 <= i < |s| ==> r[i] == UpperChar(s[i])
  {
    if s == [] then [] else [UpperChar(s[0])] + Upper(s[1..])
  }

  /** `s.startsWith(prefix)`. */
  predicate StartsWith(s: string, prefix: string) {
    |prefix| <= |s| && s[..|prefix|] == prefix
  }

  /** `s.includes(sub)`: sub occurs somewhere in s. */
  predicate Contains(s: string, sub: string)
    decreases |s|
  {
    StartsWith(s, sub) || (s != [] && Contains(s[1..], sub))
  }

  /** Contains means an occurrence at some position. */
  lemma {:induction false} ContainsAt(s: string, sub: string, k: nat)
    requires k + |sub| <= |s| && s[k..k + |sub|] == sub
    ensures Contains(s, sub)
    decreases k
  {
    if k > 0 {
      assert s[1..][k - 1..k - 1 + |sub|] == s[k..k + |sub|];
      ContainsAt(s[1..], sub, k - 1);
    }
  }

  /** Every string contains the empty string, so an empty query matches everything. */
  lemma EverythingContainsEmpty(s: string)
    ensures Contains(s, [])
  {
    assert StartsWith(s, []);
  }

  /** sep occurs in s starting at position k. */
  predicate OccursAt(s: string, sep: string, k: nat) {
    k + |sep| <= |s| && s[k..k + |sep|] == sep
  }

  /** `s.indexOf(sep)`: the position of the first occurrence of sep in s, if any. */
  function IndexOf(s: string, sep: string): (r: Option<nat>)
    requires |sep| > 0
    ensures r.Some? ==> OccursAt(s, sep, r.value)
    ensures r.Some? ==> forall k: nat :: k < r.value ==> !OccursAt(s, sep, k)
    ensures r.None? ==> forall k: nat :: !OccursAt(s, sep, k)
    decreases |s|
  {
    if |s| < |sep| then None
    else if s[..|sep|] == sep then Some(0)
    else
      assert forall k: nat :: 1 <= k ==> (OccursAt(s, sep, k) <==> OccursAt(s[1..], sep, k - 1)) by {
        forall k: nat | 1 <= k ensures OccursAt(s, sep, k) <==> OccursAt(s[1..], sep, k - 1) {
          if k + |sep| <= |s| {
            var here, there := s[k..k + |sep|], s[1..][k - 1..k - 1 + |sep|];
            assert forall j :: 0 <= j < |here| ==> here[j] == there[j];
          }
        }
      }
      match IndexOf(s[1..], sep)
      case None => None
      case Some(i) => Some(i + 1)
  }

  /** `s.split(sep)`: the pieces between occurrences of sep, at least one. */
  function Split(s: string, sep: string): (parts: seq<string>)
    requires |sep| > 0
    ensures |parts| >= 1
    decreases |s|
  {
    match IndexOf(s, sep)
    case None => [s]
    case Some(i) => [s[..i]] + Split(s[i + |sep|..], sep)
  }
}
