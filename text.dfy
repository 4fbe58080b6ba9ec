/** The few operations on Python `str` values the assistant relies on:
    `strip()`, `lower()`, the substring test `k in t` and `replace(x, "")`. */
module Text {

  /** The characters for which Python's `str.isspace()` holds, by code point;
      `str.strip()` without an argument removes exactly these from both ends. */
  predicate IsSpace(c: char)
  {
    var n := c as int;
    (0x09 <= n <= 0x0D) || (0x1C <= n <= 0x20) || n == 0x85 || n == 0xA0 || n == 0x1680
    || (0x2000 <= n <= 0x200A) || n == 0x2028 || n == 0x2029 || n == 0x202F || n == 0x205F
    || n == 0x3000
  }

  /** Every character is a space; for a whole input this is Python's
      `not s.strip()` (see StripEmptyIffBlank). */
  predicate IsBlank(s: string)
  {
    forall i :: 0 <= i < |s| ==> IsSpace(s[i])
  }

  /** Neither end of `s` is a space character. */
  predicate Trimmed(s: string)
  {
    s == [] || (!IsSpace(s[0]) && !IsSpace(s[|s| - 1]))
  }

  /** `s.lstrip()`. */
  function TrimStart(s: string): string
  {
    if s != [] && IsSpace(s[0]) then TrimStart(s[1..]) else s
  }

  /** `s.rstrip()`. */
  function TrimEnd(s: string): string
  {
    if s != [] && IsSpace(s[|s| - 1]) then TrimEnd(s[..|s| - 1]) else s
  }

  /** `s.strip()`. */
  function Strip(s: string): string
  {
    TrimEnd(TrimStart(s))
  }

  /** `lstrip` cuts a run of spaces off the front and stops at the first
      character that is not a space. */
  lemma {:induction false} TrimStartShape(s: string)
    ensures |TrimStart(s)| <= |s| && TrimStart(s) == s[|s| - |TrimStart(s)|..]
    ensures IsBlank(s[..|s| - |TrimStart(s)|])
    ensures TrimStart(s) == [] || !IsSpace(TrimStart(s)[0])
  {
    if s != [] && IsSpace(s[0]) {
      TrimStartShape(s[1..]);
      var r := TrimStart(s[1..]);
      assert s[1..][..|s| - 1 - |r|] == s[1..|s| - |r|];
      assert forall k :: 0 < k < |s| - |r| ==> s[k] == s[1..|s| - |r|][k - 1];
    }
  }

  /** `rstrip` cuts a run of spaces off the back and stops at the last
      character that is not a space. */
  lemma {:induction false} TrimEndShape(s: string)
    ensures |TrimEnd(s)| <= |s| && TrimEnd(s) == s[..|TrimEnd(s)|]
    ensures IsBlank(s[|TrimEnd(s)|..])
    ensures TrimEnd(s) == [] || !IsSpace(TrimEnd(s)[|TrimEnd(s)| - 1])
  {
    if s != [] && IsSpace(s[|s| - 1]) {
      var s' := s[..|s| - 1];
      TrimEndShape(s');
      var r := TrimEnd(s');
      assert forall k :: |r| <= k < |s| - 1 ==> s[k] == s'[|r|..][k - |r|];
    }
  }

  /** Neither end of a stripped text is a space. */
  lemma StripTrimmed(s: string)
    ensures Trimmed(Strip(s))
  {
    var t := TrimStart(s);
    TrimStartShape(s);
    TrimEndShape(t);
    assert TrimEnd(t) != [] ==> TrimEnd(t)[0] == t[0];
  }

  /** `Strip(s)` is what remains of `s` once a run of spaces is cut off each end. */
  lemma StripShape(s: string) returns (a: nat)
    ensures a + |Strip(s)| <= |s|
    ensures s == s[..a] + Strip(s) + s[a + |Strip(s)|..]
    ensures IsBlank(s[..a]) && IsBlank(s[a + |Strip(s)|..])
    ensures Trimmed(Strip(s))
  {
    StripTrimmed(s);
    var t := TrimStart(s);
    var r := TrimEnd(t);
    TrimStartShape(s);
    TrimEndShape(t);
    a := |s| - |t|;
    Regroup(s, t, r, a);
  }

  /** A prefix `r` of the suffix `t` of `s` splits `s` in three. */
  lemma Regroup(s: string, t: string, r: string, a: nat)
    requires a <= |s| && t == s[a..] && |r| <= |t| && r == t[..|r|]
    ensures s == s[..a] + r + s[a + |r|..]
    ensures s[a + |r|..] == t[|r|..]
  {
    assert s == s[..a] + t;
    assert t == r + t[|r|..];
  }

  /** The stripped text sits between two runs of spaces in the original. */
  lemma StripBetweenBlanks(s: string)
    ensures exists a, b :: s == a + Strip(s) + b && IsBlank(a) && IsBlank(b)
  {
    var n := StripShape(s);
    var a, b := s[..n], s[n + |Strip(s)|..];
    assert s == a + Strip(s) + b && IsBlank(a) && IsBlank(b);
  }

  /** Stripping only removes characters. */
  lemma StripKeepsChars(s: string)
    ensures forall c :: c in Strip(s) ==> c in s
  {
    var a := StripShape(s);
  }

  lemma {:induction false} TrimStartSkips(w: string, r: string)
    requires IsBlank(w) && (r == [] || !IsSpace(r[0]))
    ensures TrimStart(w + r) == r
  {
    if w == [] {
      assert w + r == r;
    } else {
      assert (w + r)[0] == w[0];
      assert (w + r)[1..] == w[1..] + r;
      TrimStartSkips(w[1..], r);
    }
  }

  lemma {:induction false} TrimEndSkips(r: string, w: string)
    requires IsBlank(w) && (r == [] || !IsSpace(r[|r| - 1]))
    ensures TrimEnd(r + w) == r
  {
    if w == [] {
      assert r + w == r;
    } else {
      var w' := w[..|w| - 1];
      assert (r + w)[|r + w| - 1] == w[|w| - 1];
      assert (r + w)[..|r + w| - 1] == r + w';
      TrimEndSkips(r, w');
    }
  }

  /** Stripping is determined by the split: whatever is surrounded by runs of
      spaces and has no space at either end is the stripped text. */
  lemma StripUnique(w1: string, m: string, w2: string)
    requires IsBlank(w1) && IsBlank(w2) && Trimmed(m)
    ensures Strip(w1 + m + w2) == m
  {
    if m == [] {
      assert w1 + m + w2 == w1 + w2 + [];
      TrimStartSkips(w1 + w2, []);
    } else {
      assert w1 + m + w2 == w1 + (m + w2);
      TrimStartSkips(w1, m + w2);
      TrimEndSkips(m, w2);
    }
  }

  lemma StripIdempotent(s: string)
    ensures Strip(Strip(s)) == Strip(s)
  {
    assert [] + Strip(s) + [] == Strip(s);
    StripTrimmed(s);
    StripUnique([], Strip(s), []);
  }

  /** Spaces added around a text do not change what it strips to. */
  lemma StripSurrounded(w1: string, s: string, w2: string)
    requires IsBlank(w1) && IsBlank(w2)
    ensures Strip(w1 + s + w2) == Strip(s)
  {
    var a := StripShape(s);
    var m := Strip(s);
    var u1, u2 := s[..a], s[a + |m|..];
    assert w1 + s + w2 == (w1 + u1) + m + (u2 + w2);
    StripUnique(w1 + u1, m, u2 + w2);
  }

  /** A text is blank exactly when every character of it is a space. */
  lemma StripEmptyIffBlank(s: string)
    ensures Strip(s) == [] <==> IsBlank(s)
  {
    if IsBlank(s) {
      assert [] + [] + s == s;
      StripUnique([], [], s);
    }
    var a := StripShape(s);
    if Strip(s) == [] {
      BlankAppend(s[..a], s[a..]);
    }
  }

  lemma BlankAppend(x: string, y: string)
    requires IsBlank(x) && IsBlank(y)
    ensures IsBlank(x + y)
  {
  }

  /** Python's `c.lower()` restricted to ASCII letters. */
  function LowerChar(c: char): char
  {
    if 'A' <= c <= 'Z' then (c as int + 32) as char else c
  }

  /** `s.lower()`, letter by letter. */
  function Lower(s: string): (r: string)
    ensures |r| == |s|
  {
    seq(|s|, i requires 0 <= i < |s| => LowerChar(s[i]))
  }

  predicate IsLowerCase(s: string)
  {
    forall i :: 0 <= i < |s| ==> !('A' <= s[i] <= 'Z')
  }

  lemma LowerIsLowerCase(s: string)
    ensures IsLowerCase(Lower(s))
  {
  }

  lemma LowerIdempotent(s: string)
    ensures Lower(Lower(s)) == Lower(s)
  {
  }

  lemma LowerAppend(a: string, b: string)
    ensures Lower(a + b) == Lower(a) + Lower(b)
  {
  }

  /** Lower-casing neither adds nor removes spaces. */
  lemma LowerKeepsSpaces(s: string)
    ensures IsBlank(Lower(s)) <==> IsBlank(s)
    ensures Trimmed(Lower(s)) <==> Trimmed(s)
  {
    assert forall i :: 0 <= i < |s| ==> (IsSpace(Lower(s)[i]) <==> IsSpace(s[i]));
  }

  /** `s.lower().strip()` equals `s.strip().lower()`. */
  lemma LowerStripCommute(s: string)
    ensures Strip(Lower(s)) == Lower(Strip(s))
  {
    var a := StripShape(s);
    var m := Strip(s);
    var u1, u2 := s[..a], s[a + |m|..];
    LowerAppend(u1 + m, u2);
    LowerAppend(u1, m);
    LowerKeepsSpaces(u1);
    LowerKeepsSpaces(m);
    LowerKeepsSpaces(u2);
    StripUnique(Lower(u1), Lower(m), Lower(u2));
  }

  /** `k` occurs in `t` starting at position `i`. */
  predicate OccursAt(t: string, k: string, i: int)
  {
    0 <= i && i + |k| <= |t| && t[i..i + |k|] == k
  }

  /** Python's `k in t` for strings: `k` occurs in `t` as a contiguous block. */
  predicate Contains(t: string, k: string)
  {
    exists i :: 0 <= i <= |t| && OccursAt(t, k, i)
  }

  /** `s.replace(x, "")` for a single character `x`. */
  function RemoveChar(s: string, x: char): string
  {
    if s == [] then [] else (if s[0] == x then [] else [s[0]]) + RemoveChar(s[1..], x)
  }

  /** Every occurrence of `x` goes and every other character stays, as often
      as it occurred. */
  lemma {:induction false} RemoveCharCounts(s: string, x: char)
    ensures x !in RemoveChar(s, x)
    ensures forall c :: c != x ==> multiset(RemoveChar(s, x))[c] == multiset(s)[c]
    ensures |RemoveChar(s, x)| == |s| - multiset(s)[x]
  {
    if s != [] {
      RemoveCharCounts(s[1..], x);
      assert s == [s[0]] + s[1..];
      assert multiset(s) == multiset{s[0]} + multiset(s[1..]);
    }
  }

  /** Removal keeps the order of what remains: removing from two texts laid
      end to end is removing from each and laying the results end to end. */
  lemma {:induction false} RemoveCharAppend(s: string, t: string, x: char)
    ensures RemoveChar(s + t, x) == RemoveChar(s, x) + RemoveChar(t, x)
  {
    if s != [] {
      assert (s + t)[0] == s[0];
      assert (s + t)[1..] == s[1..] + t;
      RemoveCharAppend(s[1..], t, x);
    } else {
      assert s + t == t;
    }
  }

  /** What is left after removing `x` is all spaces exactly when every character
      of the original is `x` or a space. */
  lemma {:induction false} RemoveCharBlank(s: string, x: char)
    ensures IsBlank(RemoveChar(s, x)) <==> forall i :: 0 <= i < |s| ==> s[i] == x || IsSpace(s[i])
  {
    if s != [] {
      var tail := s[1..];
      RemoveCharBlank(tail, x);
      var r := RemoveChar(s, x);
      var rest := RemoveChar(tail, x);
      assert (forall i :: 0 <= i < |s| ==> s[i] == x || IsSpace(s[i])) <==>
        (s[0] == x || IsSpace(s[0])) && (forall i :: 0 <= i < |tail| ==> tail[i] == x || IsSpace(tail[i])) by {
        assert forall i :: 1 <= i < |s| ==> s[i] == tail[i - 1];
      }
      if s[0] == x {
        assert r == rest;
      } else {
        assert r == [s[0]] + rest;
        BlankCons(s[0], rest);
      }
    }
  }

  lemma BlankCons(c: char, s: string)
    ensures IsBlank([c] + s) <==> IsSpace(c) && IsBlank(s)
  {
    var cs := [c] + s;
    assert cs[0] == c;
    assert forall i :: 0 <= i < |s| ==> cs[i + 1] == s[i];
    assert forall i :: 1 <= i < |cs| ==> cs[i] == s[i - 1];
  }
}
