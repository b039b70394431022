/** The three ECMAScript string built-ins the router relies on:
    `String.prototype.endsWith`, `replace` with a string pattern (first occurrence only)
    and `trim`. */
module JsString {

  /** A WhiteSpace or LineTerminator code point: exactly what `trim` strips from both ends. */
  predicate IsJsSpace(c: char) {
    c == '\t' || c == '\n' || c == '\U{000B}' || c == '\U{000C}' || c == '\r' || c == ' '
    || c == '\U{00A0}' || c == '\U{1680}' || ('\U{2000}' <= c <= '\U{200A}')
    || c == '\U{2028}' || c == '\U{2029}' || c == '\U{202F}' || c == '\U{205F}'
    || c == '\U{3000}' || c == '\U{FEFF}'
  }

  predicate AllSpace(s: string) {
    forall i :: 0 <= i < |s| ==> IsJsSpace(s[i])
  }

  /** Neither end of `s` is a character that `trim` would remove. */
  predicate IsTrimmed(s: string) {
    s != [] ==> !IsJsSpace(s[0]) && !IsJsSpace(s[|s| - 1])
  }

  predicate EndsWith(s: string, suffix: string) {
    |suffix| <= |s| && s[|s| - |suffix|..] == suffix
  }

  /** Number of white-space characters at the start of `s`. */
  function Leading(s: string): (n: nat)
    ensures n <= |s|
    ensures forall i :: 0 <= i < n ==> IsJsSpace(s[i])
    ensures n < |s| ==> !IsJsSpace(s[n])
  {
    if s != [] && IsJsSpace(s[0]) then 1 + Leading(s[1..]) else 0
  }

  /** Number of white-space characters at the end of `s`. */
  function Trailing(s: string): (n: nat)
    ensures n <= |s|
    ensures forall i :: |s| - n <= i < |s| ==> IsJsSpace(s[i])
    ensures n < |s| ==> !IsJsSpace(s[|s| - 1 - n])
  {
    if s != [] && IsJsSpace(s[|s| - 1]) then 1 + Trailing(s[..|s| - 1]) else 0
  }

  /** `String.prototype.trim`: the slice of `s` that starts after its leading white space and
      is followed only by white space; empty exactly when `s` is all white space. */
  function Trim(s: string): (r: string)
    ensures IsTrimmed(r)
    ensures r == [] <==> AllSpace(s)
    ensures Leading(s) + |r| <= |s| && r == s[Leading(s)..Leading(s) + |r|]
    ensures forall i :: Leading(s) + |r| <= i < |s| ==> IsJsSpace(s[i])
  {
    var t := s[Leading(s)..];
    t[..|t| - Trailing(t)]
  }

  /** The count of leading white space is determined by the two facts that define it. */
  lemma LeadingUnique(s: string, n: nat)
    requires n <= |s|
    requires forall i :: 0 <= i < n ==> IsJsSpace(s[i])
    requires n < |s| ==> !IsJsSpace(s[n])
    ensures Leading(s) == n
  {
  }

  lemma TrailingUnique(s: string, n: nat)
    requires n <= |s|
    requires forall i :: |s| - n <= i < |s| ==> IsJsSpace(s[i])
    requires n < |s| ==> !IsJsSpace(s[|s| - 1 - n])
    ensures Trailing(s) == n
  {
  }

  /** `s.replace(c, "")` for a one-character pattern. */
  function RemoveFirst(s: string, c: char): string {
    if s == [] then []
    else if s[0] == c then s[1..]
    else [s[0]] + RemoveFirst(s[1..], c)
  }

  /** A string without `c` is left as it is. */
  lemma {:induction false} RemoveFirstAbsent(s: string, c: char)
    requires forall j :: 0 <= j < |s| ==> s[j] != c
    ensures RemoveFirst(s, c) == s
  {
    if s != [] {
      RemoveFirstAbsent(s[1..], c);
      assert [s[0]] + s[1..] == s;
    }
  }

  /** Only the FIRST occurrence of `c` goes: the characters before it and after it stay, in
      order, and any later `c` stays too. */
  lemma {:induction false} RemoveFirstAt(p: string, c: char, q: string)
    requires forall j :: 0 <= j < |p| ==> p[j] != c
    ensures RemoveFirst(p + [c] + q, c) == p + q
  {
    if p == [] {
      assert p + [c] + q == [c] + q;
    } else {
      var s := p + [c] + q;
      RemoveFirstAt(p[1..], c, q);
      assert s[0] == p[0] && s[1..] == p[1..] + [c] + q;
      assert [p[0]] + (p[1..] + q) == p + q;
    }
  }

  /** Padding a trimmed string with white space on either side is undone by `trim`. */
  lemma TrimPadded(a: string, v: string, b: string)
    requires AllSpace(a) && AllSpace(b) && IsTrimmed(v)
    ensures Trim(a + v + b) == v
  {
    var s := a + v + b;
    if v == [] {
      assert AllSpace(s) by {
        forall i | 0 <= i < |s| ensures IsJsSpace(s[i]) {
          if i < |a| { assert s[i] == a[i]; } else { assert s[i] == b[i - |a|]; }
        }
      }
    } else {
      assert forall i :: 0 <= i < |a| ==> s[i] == a[i];
      assert s[|a|] == v[0];
      LeadingUnique(s, |a|);
      var t := s[|a|..];
      assert t == v + b;
      assert forall i :: |v| <= i < |t| ==> t[i] == b[i - |v|];
      assert t[|t| - 1 - |b|] == v[|v| - 1];
      TrailingUnique(t, |b|);
      assert t[..|t| - |b|] == v;
    }
  }
}
