/**
  The string operations masterHI.py relies on: substring tests (`tag in line`),
  whitespace splitting (`line.split()`), right-aligned padding (`'{: >16}'.format`)
  and the decimal rendering of a line count (`str(n)`).
*/
module Text {

  /** The ASCII characters Python's `str.split()` treats as whitespace. */
  predicate IsSpace(c: char) {
    c == ' ' || c == '\t' || c == '\n' || c == '\r' || c == '\U{000B}' || c == '\U{000C}'
    || ('\U{001C}' <= c <= '\U{001F}')
  }

  predicate NoSpace(s: string) {
    forall i :: 0 <= i < |s| ==> !IsSpace(s[i])
  }

  predicate AllSpace(s: string) {
    forall i :: 0 <= i < |s| ==> IsSpace(s[i])
  }

  /** A word: what `split()` can return as one element. */
  predicate IsWord(s: string) {
    s != [] && NoSpace(s)
  }

  predicate IsPrefix(t: string, s: string) {
    |t| <= |s| && s[..|t|] == t
  }

  /** Python's `t in s` for strings: `t` occurs somewhere in `s`. */
  predicate Contains(s: string, t: string): (r: bool)
    ensures r ==> |t| <= |s|
    ensures t == [] ==> r
    decreases |s|
  {
    IsPrefix(t, s) || (s != [] && Contains(s[1..], t))
  }

  /** `t` sits in `s` starting at index `i`. */
  predicate OccursAt(s: string, t: string, i: int) {
    0 <= i && i + |t| <= |s| && s[i..i + |t|] == t
  }

  /** `Contains` is Python's `in`: `t` occurs in `s` at some index, and only then. */
  lemma {:induction false} ContainsOccurrence(s: string, t: string)
    ensures Contains(s, t) <==> exists i {:trigger OccursAt(s, t, i)} :: OccursAt(s, t, i)
    decreases |s|
  {
    if IsPrefix(t, s) {
      assert OccursAt(s, t, 0);
    } else if s == [] {
      forall i | OccursAt(s, t, i)
        ensures false
      {
      }
    } else {
      ContainsOccurrence(s[1..], t);
      forall i | OccursAt(s[1..], t, i)
        ensures OccursAt(s, t, i + 1)
      {
        assert s[i + 1..i + 1 + |t|] == s[1..][i..i + |t|];
      }
      forall i | OccursAt(s, t, i)
        ensures OccursAt(s[1..], t, i - 1)
      {
        assert i != 0;
        assert s[1..][i - 1..i - 1 + |t|] == s[i..i + |t|];
      }
    }
  }

  /** Length of the run of non-whitespace characters that starts `s`. */
  function WordEnd(s: string): (k: nat)
    ensures k <= |s|
    ensures forall i :: 0 <= i < k ==> !IsSpace(s[i])
    ensures k == |s| || IsSpace(s[k])
  {
    if s == [] || IsSpace(s[0]) then 0 else 1 + WordEnd(s[1..])
  }

  /** Python's `s.split()`: the maximal runs of non-whitespace characters, in order. */
  function Split(s: string): seq<string>
    decreases |s|
  {
    if s == [] then []
    else if IsSpace(s[0]) then Split(s[1..])
    else
      var k := WordEnd(s);
      [s[..k]] + Split(s[k..])
  }

  /** Every element `split()` returns is a word: non-empty and free of whitespace. */
  lemma {:induction false} SplitWords(s: string)
    ensures forall i :: 0 <= i < |Split(s)| ==> IsWord(Split(s)[i])
    decreases |s|
  {
    if s != [] {
      if IsSpace(s[0]) {
        SplitWords(s[1..]);
      } else {
        var k := WordEnd(s);
        SplitWords(s[k..]);
        assert IsWord(s[..k]);
      }
    }
  }

  function Spaces(n: nat): (r: string)
    ensures |r| == n && AllSpace(r)
  {
    if n == 0 then "" else " " + Spaces(n - 1)
  }

  /** `'{: >w}'.format(s)`: `s` right-aligned in a field of width `w`; never truncated. */
  function PadLeft(s: string, w: nat): (r: string)
    ensures |r| == if |s| < w then w else |s|
    ensures r[|r| - |s|..] == s && AllSpace(r[..|r| - |s|])
  {
    if |s| < w then Spaces(w - |s|) + s else s
  }

  function Digit(d: nat): (c: char)
    requires d < 10
  {
    "0123456789"[d]
  }

  /** `str(n)` for a non-negative integer. */
  function NatToString(n: nat): (r: string)
    ensures IsWord(r)
  {
    if n < 10 then [Digit(n)] else NatToString(n / 10) + [Digit(n % 10)]
  }

  /** The value of a string of decimal digits, read left to right. */
  function DigitsValue(s: string): int {
    if s == [] then 0
    else 10 * DigitsValue(s[..|s| - 1]) + (s[|s| - 1] as int - '0' as int)
  }

  /** `str` and reading back the digits are inverse on line counts. */
  lemma {:induction false} NatToStringRoundTrip(n: nat)
    ensures DigitsValue(NatToString(n)) == n
  {
    var r := NatToString(n);
    if n >= 10 {
      NatToStringRoundTrip(n / 10);
      assert r[..|r| - 1] == NatToString(n / 10);
    }
  }

  /** Leading whitespace does not change the words of a line. */
  lemma {:induction false} SplitAfterSpaces(w: string, s: string)
    requires AllSpace(w)
    ensures Split(w + s) == Split(s)
    decreases |w|
  {
    if w == [] {
      assert w + s == s;
    } else {
      assert (w + s)[0] == w[0];
      assert (w + s)[1..] == w[1..] + s;
      SplitAfterSpaces(w[1..], s);
    }
  }

  lemma {:induction false} WordEndOfWord(w: string, s: string)
    requires NoSpace(w) && (s == [] || IsSpace(s[0]))
    ensures WordEnd(w + s) == |w|
    decreases |w|
  {
    if w == [] {
      assert w + s == s;
    } else {
      assert (w + s)[1..] == w[1..] + s;
      WordEndOfWord(w[1..], s);
    }
  }

  /** A word followed by whitespace (or nothing) is the first element of the split. */
  lemma SplitWord(w: string, s: string)
    requires IsWord(w) && (s == [] || IsSpace(s[0]))
    ensures Split(w + s) == [w] + Split(s)
  {
    WordEndOfWord(w, s);
    assert (w + s)[..|w|] == w;
    assert (w + s)[|w|..] == s;
  }

  /** A word ends where the string ends or at whitespace, so what follows that point does not matter. */
  lemma {:induction false} WordEndAppend(a: string, b: string)
    requires WordEnd(a) < |a| || b == [] || IsSpace(b[0])
    ensures WordEnd(a + b) == WordEnd(a)
    decreases |a|
  {
    if a == [] {
      assert a + b == b;
    } else if !IsSpace(a[0]) {
      assert (a + b)[1..] == a[1..] + b;
      WordEndAppend(a[1..], b);
    }
  }

  /** Joining two strings at whitespace joins their words: `split()` of `a + b` is `split(a) + split(b)`. */
  lemma {:induction false} SplitAppend(a: string, b: string)
    requires a == [] || b == [] || IsSpace(a[|a| - 1]) || IsSpace(b[0])
    ensures Split(a + b) == Split(a) + Split(b)
    decreases |a|, 1
  {
    if a == [] {
      assert a + b == b;
    } else if IsSpace(a[0]) {
      assert (a + b)[1..] == a[1..] + b;
      SplitAppend(a[1..], b);
    } else {
      SplitAppendWord(a, b);
    }
  }

  /** `SplitAppend` when `a` starts with a word: that word opens both splits. */
  lemma {:induction false} SplitAppendWord(a: string, b: string)
    requires a != [] && !IsSpace(a[0])
    requires b == [] || IsSpace(a[|a| - 1]) || IsSpace(b[0])
    ensures Split(a + b) == Split(a) + Split(b)
    decreases |a|, 0
  {
    var k := WordEnd(a);
    var w, rest := a[..k], a[k..];
    assert Split(a + b) == [w] + Split(rest + b) by {
      assert k == |a| ==> !IsSpace(a[|a| - 1]);
      WordEndAppend(a, b);
      assert (a + b)[..k] == w;
      assert (a + b)[k..] == rest + b;
    }
    assert Split(rest + b) == Split(rest) + Split(b) by {
      assert rest != [] ==> rest[|rest| - 1] == a[|a| - 1];
      SplitAppend(rest, b);
    }
  }

  lemma WordAppend(a: string, b: string)
    requires IsWord(a) && NoSpace(b)
    ensures IsWord(a + b)
  {
    assert forall i :: 0 <= i < |a + b| ==> (a + b)[i] == if i < |a| then a[i] else b[i - |a|];
  }

  /** Whitespace then at most one word: that word is all `split()` finds. */
  lemma SplitSpacedWord(sp: string, w: string)
    requires AllSpace(sp) && (w == [] || IsWord(w))
    ensures Split(sp + w) == if w == [] then [] else [w]
  {
    SplitAfterSpaces(sp, w);
    if w != [] {
      SplitWord(w, "");
      assert w + "" == w;
    }
  }

  /** A word padded to any width still splits to that word. */
  lemma SplitPadLeft(v: string, w: nat)
    requires IsWord(v)
    ensures Split(PadLeft(v, w)) == [v]
  {
    var pad := PadLeft(v, w);
    var sv := pad[..|pad| - |v|];
    assert pad == sv + v;
    SplitSpacedWord(sv, v);
  }

  /** `seps[0] + words[0] + seps[1] + words[1] + ... + tail`: a line laid out word by word. */
  function Layout(seps: seq<string>, words: seq<string>, tail: string): string
    requires |seps| == |words|
  {
    if words == [] then tail else seps[0] + words[0] + Layout(seps[1..], words[1..], tail)
  }

  /**
    Splitting a line laid out with whitespace between its words gives back exactly
    those words, whatever whitespace separates them.
  */
  lemma {:induction false} SplitLayout(seps: seq<string>, words: seq<string>, tail: string)
    requires |seps| == |words|
    requires forall i :: 0 <= i < |words| ==> IsWord(words[i]) && AllSpace(seps[i])
    requires forall i :: 0 < i < |seps| ==> seps[i] != []
    requires AllSpace(tail)
    ensures Split(Layout(seps, words, tail)) == words
    decreases |words|
  {
    if words == [] {
      SplitAfterSpaces(tail, "");
      assert tail + "" == tail;
    } else {
      var rest := Layout(seps[1..], words[1..], tail);
      SplitLayout(seps[1..], words[1..], tail);
      assert rest == [] || IsSpace(rest[0]) by {
        if |words| > 1 {
          assert rest == seps[1] + (words[1] + Layout(seps[2..], words[2..], tail));
          assert rest[0] == seps[1][0];
        } else {
          assert rest == tail;
        }
      }
      SplitWord(words[0], rest);
      assert seps[0] + words[0] + rest == seps[0] + (words[0] + rest);
      SplitAfterSpaces(seps[0], words[0] + rest);
    }
  }

  /** `t in a + t + b`: a tag occurs in any line built around it. */
  lemma {:induction false} ContainsInfix(a: string, t: string, b: string)
    ensures Contains(a + t + b, t)
    decreases |a|
  {
    if a == [] {
      assert (a + t + b)[..|t|] == t;
    } else {
      assert (a + t + b)[1..] == a[1..] + t + b;
      ContainsInfix(a[1..], t, b);
    }
  }
}
