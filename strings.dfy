/** Text primitives the generators are built from: Python's `str.join`,
    `str.split` on one character, ASCII `str.upper` and the decimal rendering
    of a count that `"{}".format(n)` performs. */
module Strings {

  /** `sep.join(xs)`: the pieces in order, one separator between
      neighbours and none after the last. */
  function Join(xs: seq<string>, sep: string): string
    decreases |xs|
  {
    if |xs| == 0 then ""
    else if |xs| == 1 then xs[0]
    else xs[0] + sep + Join(xs[1..], sep)
  }

  /** Joining two non-empty lists puts exactly one separator at the seam. */
  lemma {:induction false} JoinAppend(a: seq<string>, b: seq<string>, sep: string)
    requires |a| > 0 && |b| > 0
    ensures Join(a + b, sep) == Join(a, sep) + sep + Join(b, sep)
    decreases |a|
  {
    if |a| == 1 {
      assert (a + b)[0] == a[0];
      assert (a + b)[1..] == b;
    } else {
      assert (a + b)[0] == a[0];
      assert (a + b)[1..] == a[1..] + b;
      JoinAppend(a[1..], b, sep);
    }
  }

  /** Joining a piece in front of a non-empty list. */
  lemma JoinCons(x: string, xs: seq<string>, sep: string)
    requires |xs| > 0
    ensures Join([x] + xs, sep) == x + sep + Join(xs, sep)
  {
    assert ([x] + xs)[1..] == xs;
  }

  /** Join of a seven-element list, written out. */
  lemma JoinSeven(xs: seq<string>, sep: string)
    requires |xs| == 7
    ensures Join(xs, sep) == xs[0] + sep + xs[1] + sep + xs[2] + sep + xs[3] + sep + xs[4] + sep + xs[5] + sep + xs[6]
  {
    JoinCons(xs[5], [xs[6]], sep);
    assert xs[5..] == [xs[5]] + [xs[6]];
    JoinCons(xs[4], xs[5..], sep);
    assert xs[4..] == [xs[4]] + xs[5..];
    JoinCons(xs[3], xs[4..], sep);
    assert xs[3..] == [xs[3]] + xs[4..];
    JoinCons(xs[2], xs[3..], sep);
    assert xs[2..] == [xs[2]] + xs[3..];
    JoinCons(xs[1], xs[2..], sep);
    assert xs[1..] == [xs[1]] + xs[2..];
    JoinCons(xs[0], xs[1..], sep);
    assert xs == [xs[0]] + xs[1..];
  }

  /** Growing a joined prefix of xs by one piece: the first piece stands
      alone, every later one follows a separator. */
  lemma JoinStep(xs: seq<string>, sep: string, i: nat)
    requires i < |xs|
    ensures Join(xs[..i + 1], sep) == if i == 0 then xs[0] else Join(xs[..i], sep) + sep + xs[i]
  {
    if i > 0 {
      assert xs[..i + 1] == xs[..i] + [xs[i]];
      JoinAppend(xs[..i], [xs[i]], sep);
    }
  }

  /** What a loop that appends the pieces of xs one at a time, a separator
      after every piece but the last, has built after i pieces. */
  function JoinPrefix(xs: seq<string>, sep: string, i: nat): string
    requires i <= |xs|
  {
    Join(xs[..i], sep) + (if 0 < i < |xs| then sep else "")
  }

  /** One more step of that loop appends piece i, followed by the separator
      unless it is the last. */
  lemma JoinPrefixStep(xs: seq<string>, sep: string, i: nat)
    requires i < |xs|
    ensures JoinPrefix(xs, sep, i + 1) == JoinPrefix(xs, sep, i) + (xs[i] + (if i + 1 < |xs| then sep else ""))
  {
    JoinStep(xs, sep, i);
  }

  /** Nothing has been built before the first step, and after the last the
      text is the whole join. */
  lemma JoinPrefixEnds(xs: seq<string>, sep: string)
    ensures JoinPrefix(xs, sep, 0) == ""
    ensures JoinPrefix(xs, sep, |xs|) == Join(xs, sep)
  {
    assert xs[..|xs|] == xs;
  }

  /** A character in neither the pieces nor the separator is not in the
      joined text. */
  lemma {:induction false} JoinKeepsAbsent(xs: seq<string>, sep: string, ch: char)
    requires ch !in sep
    requires forall i :: 0 <= i < |xs| ==> ch !in xs[i]
    ensures ch !in Join(xs, sep)
    decreases |xs|
  {
    if |xs| > 1 {
      JoinKeepsAbsent(xs[1..], sep, ch);
    }
  }

  /** Sum of the lengths of the pieces. */
  function TotalLength(xs: seq<string>): nat
    decreases |xs|
  {
    if |xs| == 0 then 0 else |xs[0]| + TotalLength(xs[1..])
  }

  /** The joined text is the pieces plus exactly |xs| - 1 separators: no
      separator leads or trails. */
  lemma {:induction false} JoinLength(xs: seq<string>, sep: string)
    ensures |Join(xs, sep)| == TotalLength(xs) + (if |xs| == 0 then 0 else (|xs| - 1) * |sep|)
    decreases |xs|
  {
    if |xs| > 1 {
      JoinLength(xs[1..], sep);
    }
  }

  /** Where piece k starts in `Join(xs, sep)`. */
  function Offset(xs: seq<string>, sep: string, k: nat): nat
    requires k < |xs|
    decreases k
  {
    if k == 0 then 0 else |xs[0]| + |sep| + Offset(xs[1..], sep, k - 1)
  }

  /** Piece k of the list occurs verbatim at its offset. */
  lemma {:induction false} JoinPieceAt(xs: seq<string>, sep: string, k: nat)
    requires k < |xs|
    ensures Offset(xs, sep, k) + |xs[k]| <= |Join(xs, sep)|
    ensures Join(xs, sep)[Offset(xs, sep, k) .. Offset(xs, sep, k) + |xs[k]|] == xs[k]
    decreases k
  {
    var j := Join(xs, sep);
    if k == 0 {
      if |xs| > 1 {
        assert j == xs[0] + (sep + Join(xs[1..], sep));
      }
    } else {
      var rest := Join(xs[1..], sep);
      var o := Offset(xs[1..], sep, k - 1);
      JoinPieceAt(xs[1..], sep, k - 1);
      assert j == (xs[0] + sep) + rest;
      assert xs[1..][k - 1] == xs[k];
      assert j[|xs[0] + sep| + o .. |xs[0] + sep| + o + |xs[k]|] == rest[o .. o + |xs[k]|];
    }
  }

  /** Between piece k and piece k + 1 stands exactly one separator. */
  lemma {:induction false} JoinSeparatorAt(xs: seq<string>, sep: string, k: nat)
    requires k + 1 < |xs|
    ensures Offset(xs, sep, k + 1) == Offset(xs, sep, k) + |xs[k]| + |sep|
    ensures Offset(xs, sep, k + 1) <= |Join(xs, sep)|
    ensures Join(xs, sep)[Offset(xs, sep, k) + |xs[k]| .. Offset(xs, sep, k + 1)] == sep
    decreases k
  {
    var j := Join(xs, sep);
    JoinPieceAt(xs, sep, k + 1);
    if k == 0 {
      assert j == xs[0] + sep + Join(xs[1..], sep);
    } else {
      var rest := Join(xs[1..], sep);
      JoinSeparatorAt(xs[1..], sep, k - 1);
      assert j == (xs[0] + sep) + rest;
      assert xs[1..][k - 1] == xs[k];
      var o := Offset(xs[1..], sep, k - 1) + |xs[k]|;
      assert j[|xs[0] + sep| + o .. |xs[0] + sep| + o + |sep|] == rest[o .. o + |sep|];
    }
  }

  /** The last piece ends exactly where the joined text ends, so nothing
      (in particular no separator) follows it. */
  lemma {:induction false} JoinEndsWithLast(xs: seq<string>, sep: string)
    requires |xs| > 0
    ensures Offset(xs, sep, |xs| - 1) + |xs[|xs| - 1]| == |Join(xs, sep)|
    decreases |xs|
  {
    if |xs| > 1 {
      JoinEndsWithLast(xs[1..], sep);
      assert xs[1..][|xs[1..]| - 1] == xs[|xs| - 1];
    }
  }

  /** `s.split(c)`: the maximal runs between occurrences of c, always at
      least one (Python gives `[""]` for the empty string). */
  function Split(s: string, c: char): (parts: seq<string>)
    ensures |parts| >= 1
    ensures |parts| > 1 <==> c in s
    ensures forall p :: p in parts ==> c !in p
    decreases |s|
  {
    if |s| == 0 then [""]
    else
      var rest := Split(s[1..], c);
      assert s == [s[0]] + s[1..];
      if s[0] == c then [""] + rest
      else [[s[0]] + rest[0]] + rest[1..]
  }

  /** Splitting text without the separator yields that text alone. */
  lemma {:induction false} SplitWithout(s: string, c: char)
    requires c !in s
    ensures Split(s, c) == [s]
    decreases |s|
  {
    if |s| > 0 {
      assert c !in s[1..];
      SplitWithout(s[1..], c);
      assert [s[0]] + s[1..] == s;
    }
  }

  /** Splitting `p + [c] + t` with a separator-free first run peels off p. */
  lemma {:induction false} SplitAfterRun(p: string, t: string, c: char)
    requires c !in p
    ensures Split(p + [c] + t, c) == [p] + Split(t, c)
    decreases |p|
  {
    var s := p + [c] + t;
    if |p| == 0 {
      assert s[0] == c && s[1..] == t;
    } else {
      assert s[0] == p[0];
      assert s[1..] == p[1..] + [c] + t;
      SplitAfterRun(p[1..], t, c);
      assert [p[0]] + p[1..] == p;
    }
  }

  /** Two separator-free lines, each ended by the separator, split into
      those lines and the empty rest. */
  lemma SplitTwoLines(a: string, b: string, c: char)
    requires c !in a && c !in b
    ensures Split(a + [c] + b + [c], c) == [a, b, ""]
  {
    SplitWithout("", c);
    SplitAfterRun(b, "", c);
    assert b + [c] + "" == b + [c];
    SplitAfterRun(a, b + [c], c);
    assert a + [c] + b + [c] == a + [c] + (b + [c]);
  }

  /** One separator-free line between a separator and a separator splits
      into an empty line, that line and the empty rest. */
  lemma SplitEnclosedLine(a: string, c: char)
    requires c !in a
    ensures Split([c] + a + [c], c) == ["", a, ""]
  {
    SplitTwoLines("", a, c);
    assert "" + [c] == [c];
  }

  /** A character absent from the text is absent from every piece. */
  lemma {:induction false} SplitKeepsAbsent(s: string, c: char, ch: char)
    requires ch !in s
    ensures forall p :: p in Split(s, c) ==> ch !in p
    decreases |s|
  {
    if |s| > 0 {
      assert ch !in s[1..];
      SplitKeepsAbsent(s[1..], c, ch);
      var rest := Split(s[1..], c);
      assert rest[0] in rest;
      assert forall i :: 1 <= i < |rest| ==> rest[i] in rest;
    }
  }

  /** Join undoes Split: `c.join(s.split(c)) == s`. */
  lemma {:induction false} JoinSplit(s: string, c: char)
    ensures Join(Split(s, c), [c]) == s
    decreases |s|
  {
    if |s| > 0 {
      var rest := Split(s[1..], c);
      JoinSplit(s[1..], c);
      if s[0] == c {
        assert ([""] + rest)[1..] == rest;
      } else if |rest| == 1 {
        assert Join(rest, [c]) == rest[0];
      } else {
        var parts := [[s[0]] + rest[0]] + rest[1..];
        assert parts[1..] == rest[1..];
        assert Join(rest, [c]) == rest[0] + [c] + Join(rest[1..], [c]);
      }
    }
  }

  /** Split undoes Join for a non-empty list of separator-free pieces; so a
      joined list can be read back line by line. */
  lemma {:induction false} SplitJoin(xs: seq<string>, c: char)
    requires |xs| > 0
    requires forall i :: 0 <= i < |xs| ==> c !in xs[i]
    ensures Split(Join(xs, [c]), c) == xs
    decreases |xs|
  {
    if |xs| == 1 {
      SplitWithout(xs[0], c);
    } else {
      SplitJoin(xs[1..], c);
      SplitAfterRun(xs[0], Join(xs[1..], [c]), c);
      assert [xs[0]] + xs[1..] == xs;
    }
  }

  predicate IsLower(ch: char) { 'a' <= ch <= 'z' }

  /** ASCII `str.upper` on one character. */
  function UpperChar(ch: char): (u: char)
    ensures !IsLower(u)
    ensures IsLower(ch) ==> u as int == ch as int - 32
    ensures !IsLower(ch) ==> u == ch
  {
    if IsLower(ch) then (ch as int - 32) as char else ch
  }

  /** ASCII `str.upper`: same length, each character upper-cased in place,
      no lower-case letter left. */
  function Upper(s: string): (r: string)
    ensures |r| == |s|
    ensures forall i :: 0 <= i < |s| ==> r[i] == UpperChar(s[i])
    ensures forall i :: 0 <= i < |r| ==> !IsLower(r[i])
    decreases |s|
  {
    if |s| == 0 then "" else [UpperChar(s[0])] + Upper(s[1..])
  }

  /** A character that is not a lower-case letter is in the upper-cased text
      exactly when it is in the original. */
  lemma UpperKeeps(s: string, c: char)
    requires !IsLower(c) && !('A' <= c <= 'Z')
    ensures c in Upper(s) <==> c in s
  {
    var u := Upper(s);
    if c in u {
      var i :| 0 <= i < |u| && u[i] == c;
      assert UpperChar(s[i]) == c;
    }
    if c in s {
      var i :| 0 <= i < |s| && s[i] == c;
      assert u[i] == c;
    }
  }

  predicate IsDigits(s: string)
  {
    forall i :: 0 <= i < |s| ==> '0' <= s[i] <= '9'
  }

  function DigitChar(d: nat): (ch: char)
    requires d < 10
    ensures '0' <= ch <= '9'
    ensures ch as int - '0' as int == d
  {
    ('0' as int + d) as char
  }

  /** Decimal rendering of a count, as `"{}".format(n)` prints it: at least
      one digit, and no leading zero unless the count is zero. */
  function NatToString(n: nat): (s: string)
    ensures |s| >= 1 && IsDigits(s)
    ensures s[0] == '0' ==> n == 0
    decreases n
  {
    if n < 10 then [DigitChar(n)] else NatToString(n / 10) + [DigitChar(n % 10)]
  }

  /** The number a string of decimal digits denotes. */
  function DigitsValue(s: string): nat
    requires IsDigits(s)
    decreases |s|
  {
    if |s| == 0 then 0
    else DigitsValue(s[..|s| - 1]) * 10 + (s[|s| - 1] as int - '0' as int)
  }

  /** Reading the printed count back gives the count. */
  lemma {:induction false} NatToStringValue(n: nat)
    ensures DigitsValue(NatToString(n)) == n
    decreases n
  {
    var s := NatToString(n);
    if n < 10 {
      assert s[..0] == [];
    } else {
      NatToStringValue(n / 10);
      assert s[..|s| - 1] == NatToString(n / 10);
    }
  }

  predicate StartsWith(s: string, prefix: string)
  {
    |prefix| <= |s| && s[..|prefix|] == prefix
  }

  predicate EndsWith(s: string, suffix: string)
  {
    |suffix| <= |s| && s[|s| - |suffix|..] == suffix
  }

  /** A string of decimal digits holds no other character. */
  lemma DigitsOnly(s: string, ch: char)
    requires IsDigits(s) && !('0' <= ch <= '9')
    ensures ch !in s
  {
    forall i | 0 <= i < |s|
      ensures s[i] != ch
    {
    }
  }
}
