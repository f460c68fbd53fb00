/** The Python `str` operations the source uses: `split` on one separator character,
    `join`, `find`, `startswith`, `removeprefix`, `replace`, `strip`, `lower`, `in`,
    `str(int)` and `int(str)`. They follow CPython, with `strip` and `int` over the
    Unicode whitespace and decimal digits of Unicode 15.0; `lower` folds only the ASCII
    letters. */
module PyStr {

  import opened Common

  // ---------------------------------------------------------------------------
  // Characters

  /** The characters for which CPython's `str.isspace()` holds; `strip()` and `int()`
      remove exactly these. */
  predicate IsSpace(c: char)
  {
    var n := c as int;
    (9 <= n <= 13) || (28 <= n <= 32) || n == 0x85 || n == 0xa0 || n == 0x1680 ||
    (0x2000 <= n <= 0x200a) || n == 0x2028 || n == 0x2029 || n == 0x202f || n == 0x205f ||
    n == 0x3000
  }

  /** The code points of the Unicode 15.0 decimal-digit zeros, ascending. Each starts a
      run of ten consecutive characters with the values 0 to 9, and these runs hold
      every character `int()` reads as a digit. */
  const DigitZeros: seq<int> :=
    [0x30, 0x660, 0x6f0, 0x7c0, 0x966, 0x9e6, 0xa66, 0xae6, 0xb66, 0xbe6] +
    [0xc66, 0xce6, 0xd66, 0xde6, 0xe50, 0xed0, 0xf20, 0x1040, 0x1090, 0x17e0] +
    [0x1810, 0x1946, 0x19d0, 0x1a80, 0x1a90, 0x1b50, 0x1bb0, 0x1c40, 0x1c50, 0xa620] +
    [0xa8d0, 0xa900, 0xa9d0, 0xa9f0, 0xaa50, 0xabf0, 0xff10, 0x104a0, 0x10d30, 0x11066] +
    [0x110f0, 0x11136, 0x111d0, 0x112f0, 0x11450, 0x114d0, 0x11650, 0x116c0, 0x11730, 0x118e0] +
    [0x11950, 0x11c50, 0x11d50, 0x11da0, 0x11f50, 0x16a60, 0x16ac0, 0x16b50, 0x1d7ce, 0x1d7d8] +
    [0x1d7e2, 0x1d7ec, 0x1d7f6, 0x1e140, 0x1e2f0, 0x1e4f0, 0x1e950, 0x1fbf0]

  /** The value of `c` in the run, starting at one of the ascending `zeros`, that
      holds it; a character below the next zero is in no later run either. */
  function DigitIn(zeros: seq<int>, c: char): (r: Option<nat>)
    ensures r.Some? ==> r.value <= 9
  {
    if zeros == [] || c as int < zeros[0] then None
    else if c as int < zeros[0] + 10 then Some(c as int - zeros[0])
    else DigitIn(zeros[1..], c)
  }

  /** A decimal digit of any script, as Python's `int()` reads one. */
  predicate IsDigit(c: char)
  {
    DigitIn(DigitZeros, c).Some?
  }

  function DigitValue(c: char): (d: nat)
    requires IsDigit(c)
    ensures d <= 9
  {
    DigitIn(DigitZeros, c).value
  }

  predicate IsAsciiDigit(c: char)
  {
    '0' <= c <= '9'
  }

  function DigitChar(d: nat): (c: char)
    requires d <= 9
    ensures IsAsciiDigit(c) && IsDigit(c) && DigitValue(c) == d
  {
    ('0' as int + d) as char
  }

  /** `str.lower()` on one character, for the ASCII letters. */
  function LowerChar(c: char): (r: char)
  {
    if 'A' <= c <= 'Z' then (c as int - 'A' as int + 'a' as int) as char else c
  }

  // ---------------------------------------------------------------------------
  // strip and lower

  /** The number of whitespace characters at the start of `s`. */
  function LeadingSpaces(s: string): (n: nat)
    ensures n <= |s|
    ensures forall i :: 0 <= i < n ==> IsSpace(s[i])
    ensures n < |s| ==> !IsSpace(s[n])
    decreases |s|
  {
    if |s| > 0 && IsSpace(s[0]) then 1 + LeadingSpaces(s[1..]) else 0
  }

  /** The number of whitespace characters at the end of `s`. */
  function TrailingSpaces(s: string): (n: nat)
    ensures n <= |s|
    ensures forall i :: |s| - n <= i < |s| ==> IsSpace(s[i])
    ensures n < |s| ==> !IsSpace(s[|s| - n - 1])
    decreases |s|
  {
    if |s| > 0 && IsSpace(s[|s| - 1]) then 1 + TrailingSpaces(s[..|s| - 1]) else 0
  }

  /** `str.lstrip()`. */
  function LStrip(s: string): (r: string)
    ensures |r| > 0 ==> !IsSpace(r[0])
  {
    s[LeadingSpaces(s)..]
  }

  /** `str.rstrip()`. */
  function RStrip(s: string): (r: string)
    ensures |r| > 0 ==> !IsSpace(r[|r| - 1])
  {
    s[..|s| - TrailingSpaces(s)]
  }

  /** `str.strip()`: the text without its leading and trailing whitespace. An
      all-whitespace text strips to ""; any other keeps the infix between its leading
      and its trailing whitespace. */
  function Strip(s: string): (r: string)
    ensures |r| > 0 ==> !IsSpace(r[0]) && !IsSpace(r[|r| - 1])
    ensures LeadingSpaces(s) == |s| ==> r == ""
    ensures LeadingSpaces(s) < |s| ==>
      LeadingSpaces(s) < |s| - TrailingSpaces(s) && r == s[LeadingSpaces(s)..|s| - TrailingSpaces(s)]
  {
    StripInfix(s);
    RStrip(LStrip(s))
  }

  /** Past the leading whitespace, a text that is not all whitespace keeps its
      trailing whitespace count. */
  lemma StripInfix(s: string)
    ensures LeadingSpaces(s) < |s| ==>
      LeadingSpaces(s) < |s| - TrailingSpaces(s) && TrailingSpaces(s[LeadingSpaces(s)..]) == TrailingSpaces(s)
  {
    var n := LeadingSpaces(s);
    if n < |s| {
      var m := TrailingSpaces(s);
      assert !IsSpace(s[n]);
      assert n < |s| - m;
      TrailingOfSuffix(s, n);
    }
  }

  /** Dropping a prefix that ends before the trailing whitespace keeps its count. */
  lemma {:induction false} TrailingOfSuffix(s: string, n: nat)
    requires n < |s| - TrailingSpaces(s)
    ensures TrailingSpaces(s[n..]) == TrailingSpaces(s)
    decreases |s|
  {
    var t := s[n..];
    assert t[|t| - 1] == s[|s| - 1];
    if IsSpace(s[|s| - 1]) {
      assert t[..|t| - 1] == s[..|s| - 1][n..];
      TrailingOfSuffix(s[..|s| - 1], n);
    }
  }

  /** A text with no whitespace at either end is its own strip. */
  lemma StripIdentity(s: string)
    requires |s| > 0 ==> !IsSpace(s[0]) && !IsSpace(s[|s| - 1])
    ensures Strip(s) == s
  {
    assert LeadingSpaces(s) == 0;
    assert TrailingSpaces(s) == 0;
  }

  /** `str.lower()`, letter by letter. */
  function Lower(s: string): (r: string)
    ensures |r| == |s|
    ensures forall i :: 0 <= i < |s| ==> r[i] == LowerChar(s[i])
  {
    seq(|s|, i requires 0 <= i < |s| => LowerChar(s[i]))
  }

  // ---------------------------------------------------------------------------
  // split and join on one separator character

  function Count(s: string, c: char): nat
    decreases |s|
  {
    if |s| == 0 then 0 else (if s[0] == c then 1 else 0) + Count(s[1..], c)
  }

  /** `s.split(c)`: the pieces between the separators, empty ones included. */
  function Split(s: string, c: char): (r: seq<string>)
    ensures |r| >= 1
    decreases |s|
  {
    if |s| == 0 then [""]
    else
      var rest := Split(s[1..], c);
      if s[0] == c then [""] + rest else [[s[0]] + rest[0]] + rest[1..]
  }

  /** `c.join(ps)`. */
  function Join(ps: seq<string>, c: char): string
    decreases |ps|
  {
    if |ps| == 0 then "" else if |ps| == 1 then ps[0] else ps[0] + [c] + Join(ps[1..], c)
  }

  /** There is one more piece than there are separators. */
  lemma {:induction false} SplitCount(s: string, c: char)
    ensures |Split(s, c)| == Count(s, c) + 1
    decreases |s|
  {
    if |s| > 0 {
      SplitCount(s[1..], c);
    }
  }

  /** No piece contains the separator. */
  lemma {:induction false} SplitPiecesFree(s: string, c: char)
    ensures forall k :: 0 <= k < |Split(s, c)| ==> c !in Split(s, c)[k]
    decreases |s|
  {
    if |s| > 0 {
      SplitPiecesFree(s[1..], c);
      var rest := Split(s[1..], c);
      if s[0] != c {
        assert c !in rest[0];
        assert c !in [s[0]] + rest[0];
      }
    }
  }

  /** Joining the pieces with the separator gives the text back. */
  lemma {:induction false} JoinSplit(s: string, c: char)
    ensures Join(Split(s, c), c) == s
    decreases |s|
  {
    if |s| > 0 {
      JoinSplit(s[1..], c);
      var rest := Split(s[1..], c);
      if s[0] == c {
        assert Join([""] + rest, c) == "" + [c] + Join(rest, c);
        assert s == [s[0]] + s[1..];
      } else if |rest| == 1 {
        assert s == [s[0]] + s[1..];
      } else {
        var ps := [[s[0]] + rest[0]] + rest[1..];
        assert ps[1..] == rest[1..];
        assert Join(ps, c) == [s[0]] + rest[0] + [c] + Join(rest[1..], c);
        assert s == [s[0]] + s[1..];
      }
    }
  }

  /** Splitting at one separator splits the two sides independently. */
  lemma {:induction false} SplitConcat(x: string, y: string, c: char)
    ensures Split(x + [c] + y, c) == Split(x, c) + Split(y, c)
    decreases |x|
  {
    var s := x + [c] + y;
    if |x| == 0 {
      assert s == [c] + y;
      SplitCons(c, y, c);
    } else {
      var t := x[1..] + [c] + y;
      assert s == [x[0]] + t;
      assert x == [x[0]] + x[1..];
      SplitConcat(x[1..], y, c);
      SplitCons(x[0], t, c);
      SplitCons(x[0], x[1..], c);
      if x[0] != c {
        FirstPieceJoined([x[0]], Split(x[1..], c), Split(y, c));
      }
    }
  }

  /** One step of the split: a leading separator starts a new empty piece, any other
      character joins the first piece. */
  lemma SplitCons(ch: char, t: string, c: char)
    ensures Split([ch] + t, c) ==
      if ch == c then [""] + Split(t, c) else [[ch] + Split(t, c)[0]] + Split(t, c)[1..]
  {
    assert ([ch] + t)[1..] == t;
  }

  /** Prefixing the first piece commutes with appending more pieces. */
  lemma FirstPieceJoined(a: string, sx: seq<string>, sy: seq<string>)
    requires |sx| >= 1
    ensures [a + (sx + sy)[0]] + (sx + sy)[1..] == ([a + sx[0]] + sx[1..]) + sy
  {
    assert (sx + sy)[0] == sx[0];
    assert (sx + sy)[1..] == sx[1..] + sy;
  }

  /** A text without the separator is a single piece. */
  lemma {:induction false} SplitFree(s: string, c: char)
    requires c !in s
    ensures Split(s, c) == [s]
    decreases |s|
  {
    if |s| > 0 {
      assert s[0] in s;
      assert forall i :: 0 <= i < |s[1..]| ==> s[1..][i] == s[i + 1];
      SplitFree(s[1..], c);
      assert s == [s[0]] + s[1..];
    }
  }

  /** Splitting a join of separator-free pieces gives the pieces back. */
  lemma {:induction false} SplitJoin(ps: seq<string>, c: char)
    requires |ps| >= 1
    requires forall k :: 0 <= k < |ps| ==> c !in ps[k]
    ensures Split(Join(ps, c), c) == ps
    decreases |ps|
  {
    SplitFree(ps[0], c);
    if |ps| > 1 {
      SplitJoin(ps[1..], c);
      SplitConcat(ps[0], Join(ps[1..], c), c);
      assert ps == [ps[0]] + ps[1..];
    }
  }

  /** The last piece of a split is the text after the last separator, or the whole
      text when there is no separator. */
  lemma {:induction false} SplitLast(s: string, c: char)
    ensures var p := Split(s, c)[|Split(s, c)| - 1];
      c !in p && |p| <= |s| && s[|s| - |p|..] == p &&
      (c in s ==> |p| < |s| && s[|s| - |p| - 1] == c) &&
      (c !in s ==> p == s)
    decreases |s|
  {
    if c !in s {
      SplitFree(s, c);
    } else if |s| > 0 {
      var rest := Split(s[1..], c);
      var p := rest[|rest| - 1];
      SplitLast(s[1..], c);
      if s[0] == c {
        assert Split(s, c) == [""] + rest;
        assert s[|s| - |p|..] == s[1..][|s[1..]| - |p|..];
        if c in s[1..] {
          assert s[|s| - |p| - 1] == s[1..][|s[1..]| - |p| - 1];
        }
      } else {
        assert c in s[1..] by {
          var k :| 0 <= k < |s| && s[k] == c;
          assert s[1..][k - 1] == c;
        }
        if |rest| == 1 {
          JoinSplit(s[1..], c);
          assert false;
        }
        assert Split(s, c)[|Split(s, c)| - 1] == p;
        assert s[|s| - |p|..] == s[1..][|s[1..]| - |p|..];
        assert s[|s| - |p| - 1] == s[1..][|s[1..]| - |p| - 1];
      }
    }
  }

  // ---------------------------------------------------------------------------
  // Substrings: find, startswith, removeprefix, replace

  predicate StartsWith(s: string, p: string)
  {
    |p| <= |s| && s[..|p|] == p
  }

  /** `t` occurs in `s` at position `i`. */
  predicate OccursAt(s: string, t: string, i: int)
  {
    0 <= i && i + |t| <= |s| && s[i..i + |t|] == t
  }

  /** `t in s` for strings. */
  predicate Occurs(s: string, t: string)
  {
    exists i :: 0 <= i <= |s| && OccursAt(s, t, i)
  }

  /** `s.find(t)`: the first position where `t` occurs, or -1. */
  function Find(s: string, t: string): (r: int)
    ensures -1 <= r <= |s|
    ensures r >= 0 ==> OccursAt(s, t, r)
    ensures r >= 0 ==> forall i :: 0 <= i < r ==> !OccursAt(s, t, i)
    ensures r == -1 ==> !Occurs(s, t)
    decreases |s|
  {
    if |s| < |t| then -1
    else if s[..|t|] == t then 0
    else
      var k := Find(s[1..], t);
      assert forall i :: 1 <= i && OccursAt(s, t, i) ==> OccursAt(s[1..], t, i - 1) by {
        forall i | 1 <= i && OccursAt(s, t, i) ensures OccursAt(s[1..], t, i - 1) {
          assert s[1..][i - 1..i - 1 + |t|] == s[i..i + |t|];
        }
      }
      if k < 0 then -1
      else
        assert s[1..][k..k + |t|] == s[k + 1..k + 1 + |t|];
        k + 1
  }

  /** In particular `s.find(t) == 0` is exactly `s.startswith(t)`. */
  lemma FindZeroIffPrefix(s: string, t: string)
    ensures Find(s, t) == 0 <==> StartsWith(s, t)
  {
    if StartsWith(s, t) {
      assert OccursAt(s, t, 0);
    }
  }

  /** `s.removeprefix(p)`. */
  function RemovePrefix(s: string, p: string): (r: string)
    ensures StartsWith(s, p) ==> s == p + r
    ensures !StartsWith(s, p) ==> r == s
  {
    if StartsWith(s, p) then s[|p|..] else s
  }

  /** `s.replace(pat, rep)`: every occurrence, scanning from the left and resuming after
      each replaced one. */
  function ReplaceAll(s: string, pat: string, rep: string): string
    requires |pat| > 0
    decreases |s|
  {
    if |s| < |pat| then s
    else if s[..|pat|] == pat then rep + ReplaceAll(s[|pat|..], pat, rep)
    else [s[0]] + ReplaceAll(s[1..], pat, rep)
  }

  /** Replacing a text that does not occur changes nothing. */
  lemma {:induction false} ReplaceAbsent(s: string, pat: string, rep: string)
    requires |pat| > 0
    requires !Occurs(s, pat)
    ensures ReplaceAll(s, pat, rep) == s
    decreases |s|
  {
    if |s| >= |pat| {
      assert !OccursAt(s, pat, 0);
      forall i | OccursAt(s[1..], pat, i) ensures OccursAt(s, pat, i + 1) {
        assert s[i + 1..i + 1 + |pat|] == s[1..][i..i + |pat|];
      }
      ReplaceAbsent(s[1..], pat, rep);
      assert s == [s[0]] + s[1..];
    }
  }

  /** A text that starts with `pat` has that occurrence replaced first. */
  lemma ReplaceLeading(pat: string, s: string, rep: string)
    requires |pat| > 0
    ensures ReplaceAll(pat + s, pat, rep) == rep + ReplaceAll(s, pat, rep)
  {
    assert (pat + s)[..|pat|] == pat;
    assert (pat + s)[|pat|..] == s;
  }

  /** `t` cannot occur in `a + b` when it does not occur in `b` and its first character
      is not in `a`. */
  lemma AbsentAcross(a: string, b: string, t: string)
    requires |t| > 0 && t[0] !in a
    requires !Occurs(b, t)
    ensures !Occurs(a + b, t)
  {
    forall i | OccursAt(a + b, t, i) ensures false {
      if i >= |a| {
        assert (a + b)[i..i + |t|] == b[i - |a|..i - |a| + |t|];
        assert OccursAt(b, t, i - |a|);
      }
    }
  }

  // ---------------------------------------------------------------------------
  // str(int) and int(str)

  /** The decimal digits of a natural number, most significant first. */
  function NatToString(n: nat): (r: string)
    ensures |r| >= 1
    ensures forall i :: 0 <= i < |r| ==> IsAsciiDigit(r[i]) && IsDigit(r[i])
    decreases n
  {
    if n < 10 then [DigitChar(n)] else NatToString(n / 10) + [DigitChar(n % 10)]
  }

  /** `str(i)` for an integer. */
  function IntToString(i: int): (r: string)
    ensures |r| >= 1
    ensures i >= 0 ==> IsAsciiDigit(r[0]) && IsDigit(r[0])
    ensures i < 0 ==> r[0] == '-'
    ensures IsAsciiDigit(r[|r| - 1]) && IsDigit(r[|r| - 1])
  {
    if i < 0 then "-" + NatToString(-i) else NatToString(i)
  }

  /** A run of decimal digits in which single underscores may separate digits, as
      `int()` accepts it. */
  predicate IsDigitRun(s: string)
  {
    |s| > 0 && IsDigit(s[0]) && IsDigit(s[|s| - 1]) &&
    (forall i :: 0 <= i < |s| ==> IsDigit(s[i]) || s[i] == '_') &&
    (forall i :: 0 <= i < |s| - 1 ==> !(s[i] == '_' && s[i + 1] == '_'))
  }

  /** The value of a digit run, the underscores ignored. */
  function DigitRunValue(s: string): nat
    requires forall i :: 0 <= i < |s| ==> IsDigit(s[i]) || s[i] == '_'
    decreases |s|
  {
    if |s| == 0 then 0
    else if s[|s| - 1] == '_' then DigitRunValue(s[..|s| - 1])
    else DigitRunValue(s[..|s| - 1]) * 10 + DigitValue(s[|s| - 1])
  }

  /** A digit run with an optional sign in front. */
  function ParseSigned(t: string): Option<int>
  {
    if |t| > 0 && (t[0] == '-' || t[0] == '+') then
      if IsDigitRun(t[1..]) then
        var v: int := DigitRunValue(t[1..]);
        Some(if t[0] == '-' then -v else v)
      else None
    else if IsDigitRun(t) then Some(DigitRunValue(t))
    else None
  }

  /** `int(x)` for a text: optional surrounding whitespace, an optional sign, and a
      run of decimal digits of any script; `None` where Python raises `ValueError`. */
  function ParseInt(x: string): Option<int>
  {
    ParseSigned(Strip(x))
  }

  lemma {:induction false} NatToStringValue(n: nat)
    ensures IsDigitRun(NatToString(n))
    ensures DigitRunValue(NatToString(n)) == n
    decreases n
  {
    var s := NatToString(n);
    if n >= 10 {
      NatToStringValue(n / 10);
      var p := NatToString(n / 10);
      assert s[..|s| - 1] == p;
      assert forall i :: 0 <= i < |s| - 1 ==> s[i] == p[i];
    }
  }

  /** A printed integer carries no surrounding whitespace. */
  lemma IntToStringStripped(i: int)
    ensures Strip(IntToString(i)) == IntToString(i)
  {
    var s := IntToString(i);
    assert !IsSpace(s[0]) && !IsSpace(s[|s| - 1]);
    StripIdentity(s);
  }

  /** An unsigned digit run parses as its value. */
  lemma UnsignedParses(d: string)
    requires IsDigitRun(d)
    ensures ParseSigned(d) == Some(DigitRunValue(d) as int)
  {
    assert !IsDigit('-') && !IsDigit('+');
    assert d[0] != '-' && d[0] != '+';
  }

  /** A digit run behind a minus sign parses as the negated value. */
  lemma NegativeParses(d: string)
    requires IsDigitRun(d)
    ensures ParseSigned("-" + d) == Some(-(DigitRunValue(d) as int))
  {
    var t := "-" + d;
    assert t[0] == '-';
    assert t[1..] == d;
  }

  lemma SignedParses(i: int)
    ensures ParseSigned(IntToString(i)) == Some(i)
  {
    if i < 0 {
      var d := NatToString(-i);
      assert IntToString(i) == "-" + d;
      NatToStringValue(-i);
      NegativeParses(d);
    } else {
      var d := NatToString(i);
      assert IntToString(i) == d;
      NatToStringValue(i);
      UnsignedParses(d);
    }
  }

  /** `int(str(i)) == i`. */
  lemma IntToStringParses(i: int)
    ensures ParseInt(IntToString(i)) == Some(i)
  {
    IntToStringStripped(i);
    SignedParses(i);
  }

  /** A two-digit run parses as its value. */
  lemma TwoDigitsParse(t: string)
    requires |t| == 2 && IsDigit(t[0]) && IsDigit(t[1])
    ensures ParseSigned(t) == Some(DigitValue(t[0]) * 10 + DigitValue(t[1]))
  {
    assert DigitIn(DigitZeros[1..], '_').None?;
    assert !IsDigit('-') && !IsDigit('+') && !IsDigit('_');
    assert t[..1][..0] == [];
    assert DigitRunValue(t[..1]) == DigitValue(t[0]);
  }

  /** Digits of other scripts count as well: Arabic-Indic twelve, with a space around. */
  lemma OtherScriptDigitsParse()
    ensures ParseInt(" \U{0661}\U{0662}") == Some(12)
  {
    var x := " \U{0661}\U{0662}";
    var b := x[1..];
    assert DigitValue(b[0]) == 1 && DigitValue(b[1]) == 2;
    assert LeadingSpaces(b) == 0 && LeadingSpaces(x) == 1;
    assert TrailingSpaces(x) == 0;
    assert Strip(x) == b;
    TwoDigitsParse(b);
  }
}
