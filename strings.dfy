/** The string operations of the JavaScript standard library that the
    core uses, over `seq<char>`. */
module Strings {

  /** `s.startsWith(p)`. */
  predicate StartsWith(s: string, p: string)
  {
    |p| <= |s| && s[..|p|] == p
  }

  /** `p` occurs in `s` starting at offset `i`. */
  predicate OccursAt(s: string, p: string, i: int)
  {
    0 <= i && i + |p| <= |s| && s[i..i + |p|] == p
  }

  /** `s.includes(p)`: `p` occurs in `s` at some offset. */
  predicate Includes(s: string, p: string)
  {
    exists i | 0 <= i <= |s| - |p| :: OccursAt(s, p, i)
  }

  /** The empty string occurs in every string. */
  lemma IncludesEmpty(s: string)
    ensures Includes(s, "")
  {
    assert OccursAt(s, "", 0);
  }

  /** `toLowerCase` on one character (ASCII letters only). */
  function LowerChar(c: char): (d: char)
    ensures 'A' <= c <= 'Z' ==> d != c && 'a' <= d <= 'z'
    ensures !('A' <= c <= 'Z') ==> d == c
  {
    if 'A' <= c <= 'Z' then (c as int - 'A' as int + 'a' as int) as char else c
  }

  /** `s.toLowerCase()` (ASCII letters only). */
  function ToLower(s: string): (r: string)
    ensures |r| == |s|
    ensures forall i :: 0 <= i < |s| ==> r[i] == LowerChar(s[i])
  {
    seq(|s|, i requires 0 <= i < |s| => LowerChar(s[i]))
  }

  /** Lower-casing twice is lower-casing once. */
  lemma ToLowerIdempotent(s: string)
    ensures ToLower(ToLower(s)) == ToLower(s)
  {
  }

  /** `s.replace(from, to)` with a one-character string pattern: only the
      first occurrence of `from` is replaced. */
  function ReplaceFirst(s: string, from: char, to: char): (r: string)
    ensures |r| == |s|
  {
    if s == [] then []
    else if s[0] == from then [to] + s[1..]
    else [s[0]] + ReplaceFirst(s[1..], from, to)
  }

  /** The index of the first occurrence of `c` in `s`, or `|s|`. */
  function FirstIndex(s: string, c: char): (k: nat)
    ensures k <= |s|
    ensures forall i :: 0 <= i < k ==> s[i] != c
    ensures k < |s| ==> s[k] == c
  {
    if s == [] then 0
    else if s[0] == c then 0
    else 1 + FirstIndex(s[1..], c)
  }

  /** Exactly the first occurrence of `from` becomes `to`; every other
      character, later occurrences of `from` included, stays. */
  lemma {:induction false} ReplaceFirstAt(s: string, from: char, to: char, i: nat)
    requires i < |s|
    ensures ReplaceFirst(s, from, to)[i] == if i == FirstIndex(s, from) then to else s[i]
  {
    if s[0] != from && i > 0 {
      ReplaceFirstAt(s[1..], from, to, i - 1);
    }
  }

  /** The characters JavaScript's `\s` matches. */
  predicate IsWhitespace(c: char)
  {
    c == ' ' || c == '\t' || c == '\n' || c == '\r' || c == '\U{000B}' || c == '\U{000C}'
    || c == '\U{00A0}' || c == '\U{1680}' || ('\U{2000}' <= c <= '\U{200A}')
    || c == '\U{2028}' || c == '\U{2029}' || c == '\U{202F}' || c == '\U{205F}'
    || c == '\U{3000}' || c == '\U{FEFF}'
  }

  /** `s` without its leading whitespace. */
  function TrimStart(s: string): (r: string)
    ensures |r| <= |s|
    ensures s != [] && IsWhitespace(s[0]) ==> |r| < |s|
    ensures r != [] ==> !IsWhitespace(r[0])
  {
    if s != [] && IsWhitespace(s[0]) then TrimStart(s[1..]) else s
  }

  /** What `TrimStart` keeps is a suffix of its input. */
  lemma {:induction false} TrimStartSuffix(s: string)
    ensures TrimStart(s) == s[|s| - |TrimStart(s)|..]
    decreases |s|
  {
    if s != [] && IsWhitespace(s[0]) {
      TrimStartSuffix(s[1..]);
      assert s[1..][|s| - 1 - |TrimStart(s)|..] == s[|s| - |TrimStart(s)|..];
    }
  }

  /** `s.replace(/\s+/g, rep)`: every maximal run of whitespace becomes
      one copy of `rep`. */
  function ReplaceWhitespaceRuns(s: string, rep: string): string
    decreases |s|
  {
    if s == [] then []
    else if IsWhitespace(s[0]) then rep + ReplaceWhitespaceRuns(TrimStart(s), rep)
    else [s[0]] + ReplaceWhitespaceRuns(s[1..], rep)
  }

  predicate NoWhitespace(s: string)
  {
    forall i :: 0 <= i < |s| ==> !IsWhitespace(s[i])
  }

  /** With a whitespace-free replacement nothing of the whitespace is left. */
  lemma {:induction false} ReplaceWhitespaceRunsClears(s: string, rep: string)
    requires NoWhitespace(rep)
    ensures NoWhitespace(ReplaceWhitespaceRuns(s, rep))
    decreases |s|
  {
    if s != [] {
      if IsWhitespace(s[0]) {
        ReplaceWhitespaceRunsClears(TrimStart(s), rep);
      } else {
        ReplaceWhitespaceRunsClears(s[1..], rep);
      }
    }
  }

  /** A name without whitespace is left as it is. */
  lemma {:induction false} ReplaceWhitespaceRunsIdentity(s: string, rep: string)
    requires NoWhitespace(s)
    ensures ReplaceWhitespaceRuns(s, rep) == s
    decreases |s|
  {
    if s != [] {
      ReplaceWhitespaceRunsIdentity(s[1..], rep);
      assert [s[0]] + s[1..] == s;
    }
  }

  /** `s` is empty or its last character is not whitespace: nothing of a
      whitespace run that follows it can merge with it. */
  predicate EndsOutsideRun(s: string)
  {
    s == [] || !IsWhitespace(s[|s| - 1])
  }

  predicate StartsOutsideRun(s: string)
  {
    s == [] || !IsWhitespace(s[0])
  }

  /** Leading whitespace stops at the first character that is not whitespace,
      so text after it is kept as it is. */
  lemma {:induction false} TrimStartAppend(a: string, x: string)
    requires !AllWhitespace(a)
    ensures TrimStart(a + x) == TrimStart(a) + x
    decreases |a|
  {
    assert (a + x)[0] == a[0];
    if IsWhitespace(a[0]) {
      assert !AllWhitespace(a[1..]) by {
        var i :| 0 <= i < |a| && !IsWhitespace(a[i]);
        assert i != 0 && a[1..][i - 1] == a[i];
      }
      assert (a + x)[1..] == a[1..] + x;
      TrimStartAppend(a[1..], x);
    }
  }

  /** A whole run of whitespace in front of `b` is dropped by `TrimStart`. */
  lemma {:induction false} TrimStartRun(w: string, b: string)
    requires AllWhitespace(w)
    requires StartsOutsideRun(b)
    ensures TrimStart(w + b) == b
    decreases |w|
  {
    if w == [] {
      assert w + b == b;
    } else {
      assert (w + b)[0] == w[0] && (w + b)[1..] == w[1..] + b;
      TrimStartRun(w[1..], b);
    }
  }

  /** Every character of `w` is whitespace. */
  predicate AllWhitespace(w: string)
  {
    forall i :: 0 <= i < |w| ==> IsWhitespace(w[i])
  }

  /** Trimming a text that ends outside a run leaves a non-empty text that
      still ends outside a run. */
  lemma {:induction false} TrimStartEndsOutsideRun(a: string)
    requires a != [] && EndsOutsideRun(a)
    ensures TrimStart(a) != [] && EndsOutsideRun(TrimStart(a))
    decreases |a|
  {
    if IsWhitespace(a[0]) {
      assert a[1..] != [] && a[1..][|a| - 2] == a[|a| - 1];
      TrimStartEndsOutsideRun(a[1..]);
    }
  }

  /** One unfolding of `ReplaceWhitespaceRuns` at a leading run. */
  lemma ReplaceWhitespaceRunsLead(s: string, rep: string)
    requires s != [] && IsWhitespace(s[0])
    ensures ReplaceWhitespaceRuns(s, rep) == rep + ReplaceWhitespaceRuns(TrimStart(s), rep)
  {
  }

  /** One unfolding of `ReplaceWhitespaceRuns` at a kept character. */
  lemma ReplaceWhitespaceRunsKeep(s: string, rep: string)
    requires s != [] && !IsWhitespace(s[0])
    ensures ReplaceWhitespaceRuns(s, rep) == [s[0]] + ReplaceWhitespaceRuns(s[1..], rep)
  {
  }

  /** Text that ends outside a run is rewritten independently of what follows. */
  lemma {:induction false} ReplaceWhitespaceRunsAppend(a: string, x: string, rep: string)
    requires EndsOutsideRun(a)
    ensures ReplaceWhitespaceRuns(a + x, rep) == ReplaceWhitespaceRuns(a, rep) + ReplaceWhitespaceRuns(x, rep)
    decreases |a|
  {
    if a == [] {
      assert a + x == x;
    } else {
      var ax := a + x;
      assert ax[0] == a[0];
      if IsWhitespace(a[0]) {
        assert !AllWhitespace(a) by {
          assert !IsWhitespace(a[|a| - 1]);
        }
        TrimStartAppend(a, x);
        TrimStartEndsOutsideRun(a);
        var t := TrimStart(a);
        ReplaceWhitespaceRunsAppend(t, x, rep);
        ReplaceWhitespaceRunsLead(ax, rep);
        ReplaceWhitespaceRunsLead(a, rep);
      } else {
        var y := a[1..];
        assert ax[1..] == y + x;
        assert EndsOutsideRun(y);
        ReplaceWhitespaceRunsAppend(y, x, rep);
        ReplaceWhitespaceRunsKeep(ax, rep);
        ReplaceWhitespaceRunsKeep(a, rep);
      }
    }
  }

  /** The defining property of `s.replace(/\s+/g, rep)`: a maximal run of
      whitespace `w` between `a` and `b` becomes exactly one `rep`, and the
      text on either side is rewritten on its own. */
  lemma {:induction false} ReplaceWhitespaceRunsSplit(a: string, w: string, b: string, rep: string)
    requires EndsOutsideRun(a) && StartsOutsideRun(b)
    requires w != [] && AllWhitespace(w)
    ensures ReplaceWhitespaceRuns(a + w + b, rep)
         == ReplaceWhitespaceRuns(a, rep) + rep + ReplaceWhitespaceRuns(b, rep)
  {
    var wb := w + b;
    assert a + w + b == a + wb;
    assert wb[0] == w[0];
    ReplaceWhitespaceRunsAppend(a, wb, rep);
    ReplaceWhitespaceRunsLead(wb, rep);
    TrimStartRun(w, b);
  }

  /** Text without whitespace is copied one character at a time. */
  lemma ReplaceWhitespaceRunsChar(c: char, rep: string)
    requires !IsWhitespace(c)
    ensures ReplaceWhitespaceRuns([c], rep) == [c]
  {
    assert [c][1..] == [];
  }

  /** The length JavaScript reports for `s`: characters outside the Basic
      Multilingual Plane take two UTF-16 code units. */
  function Utf16Length(s: string): (n: nat)
    ensures |s| <= n <= 2 * |s|
  {
    if s == [] then 0 else (if s[0] as int > 0xFFFF then 2 else 1) + Utf16Length(s[1..])
  }

  /** A string made only of characters outside the Basic Multilingual Plane
      is twice as long in UTF-16 code units as in characters. */
  lemma {:induction false} Utf16LengthAstral(s: string)
    requires forall i :: 0 <= i < |s| ==> s[i] as int > 0xFFFF
    ensures Utf16Length(s) == 2 * |s|
  {
    if s != [] {
      Utf16LengthAstral(s[1..]);
    }
  }

  /** Within the Basic Multilingual Plane both lengths agree. */
  lemma {:induction false} Utf16LengthBmp(s: string)
    requires forall i :: 0 <= i < |s| ==> s[i] as int <= 0xFFFF
    ensures Utf16Length(s) == |s|
  {
    if s != [] {
      Utf16LengthBmp(s[1..]);
    }
  }

  function DigitChar(d: nat): (c: char)
    requires d < 10
    ensures '0' <= c <= '9'
  {
    ('0' as int + d) as char
  }

  /** The decimal text of a number, as a template literal prints it. */
  function NatToString(n: nat): (r: string)
    ensures |r| >= 1
    ensures forall i :: 0 <= i < |r| ==> '0' <= r[i] <= '9'
  {
    if n < 10 then [DigitChar(n)] else NatToString(n / 10) + [DigitChar(n % 10)]
  }

  predicate IsHexDigit(c: char)
  {
    ('0' <= c <= '9') || ('a' <= c <= 'f') || ('A' <= c <= 'F')
  }
}
