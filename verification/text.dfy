/**
 * The Python string operations the backend relies on, over `seq<char>`:
 * `str.split` on a single-character separator, `str.join`, the substring
 * test `m in s`, and `str(n)` for integers (with its inverse, `int(s)`).
 */
module Text {

  /* ---------------------------------------------------------------------- */
  /* str.split(sep) and sep.join(parts)                                     */
  /* ---------------------------------------------------------------------- */

  /** `s.split(sep)` for a one-character separator: never empty, `""` gives
      `[""]`, and a trailing separator gives a trailing empty piece. */
  function Split(s: string, sep: char): (parts: seq<string>)
    ensures |parts| >= 1
    ensures forall k :: 0 <= k < |parts| ==> sep !in parts[k]
    decreases |s|
  {
    if |s| == 0 then [""]
    else
      var rest := Split(s[1..], sep);
      if s[0] == sep then [""] + rest
      else [[s[0]] + rest[0]] + rest[1..]
  }

  /** `sep.join(parts)`. */
  function Join(parts: seq<string>, sep: string): string
    decreases |parts|
  {
    if |parts| == 0 then ""
    else if |parts| == 1 then parts[0]
    else parts[0] + sep + Join(parts[1..], sep)
  }

  /** Joining the pieces of a split with the same separator gives back the
      original string. */
  lemma {:induction false} JoinSplit(s: string, sep: char)
    ensures Join(Split(s, sep), [sep]) == s
    decreases |s|
  {
    if |s| > 0 {
      var rest := Split(s[1..], sep);
      JoinSplit(s[1..], sep);
      if s[0] == sep {
        assert Split(s, sep) == [""] + rest;
        assert ([""] + rest)[1..] == rest;
        assert s == [sep] + s[1..];
      } else {
        var parts := [[s[0]] + rest[0]] + rest[1..];
        assert Split(s, sep) == parts;
        if |rest| == 1 {
          assert s == [s[0]] + s[1..];
        } else {
          assert parts[1..] == rest[1..];
          assert Join(rest, [sep]) == rest[0] + [sep] + Join(rest[1..], [sep]);
          assert s == [s[0]] + s[1..];
        }
      }
    }
  }

  /** A prefix without the separator glues onto the first piece of what
      follows it. */
  lemma {:induction false} SplitAfterPlainPrefix(x: string, y: string, sep: char)
    requires sep !in x
    ensures Split(x + y, sep) == [x + Split(y, sep)[0]] + Split(y, sep)[1..]
    decreases |x|
  {
    if |x| > 0 {
      SplitAfterPlainPrefix(x[1..], y, sep);
      assert (x + y)[1..] == x[1..] + y;
      assert (x + y)[0] == x[0];
      assert [x[0]] + (x[1..] + Split(y, sep)[0]) == x + Split(y, sep)[0];
    } else {
      assert x + y == y;
      assert x + Split(y, sep)[0] == Split(y, sep)[0];
      assert Split(y, sep) == [Split(y, sep)[0]] + Split(y, sep)[1..];
    }
  }

  /** A string without the separator splits into itself alone. */
  lemma SplitPlain(x: string, sep: char)
    requires sep !in x
    ensures Split(x, sep) == [x]
  {
    SplitAfterPlainPrefix(x, "", sep);
    assert x + "" == x;
  }

  /** A piece without the separator, then the separator, then the rest. */
  lemma SplitAtSeparator(x: string, y: string, sep: char)
    requires sep !in x
    ensures Split(x + [sep] + y, sep) == [x] + Split(y, sep)
  {
    SplitAfterPlainPrefix(x, [sep] + y, sep);
    assert x + [sep] + y == x + ([sep] + y);
    assert ([sep] + y)[1..] == y;
    assert Split([sep] + y, sep) == [""] + Split(y, sep);
    assert x + "" == x;
  }

  /** Splitting a join of separator-free pieces gives back the pieces. */
  lemma {:induction false} SplitJoin(parts: seq<string>, sep: char)
    requires |parts| >= 1
    requires forall k :: 0 <= k < |parts| ==> sep !in parts[k]
    ensures Split(Join(parts, [sep]), sep) == parts
    decreases |parts|
  {
    if |parts| == 1 {
      SplitPlain(parts[0], sep);
    } else {
      SplitJoin(parts[1..], sep);
      SplitAtSeparator(parts[0], Join(parts[1..], [sep]), sep);
      assert [parts[0]] + parts[1..] == parts;
    }
  }

  /** Joining a non-empty head onto a non-empty tail. */
  lemma JoinCons(head: string, tail: seq<string>, sep: string)
    requires |tail| >= 1
    ensures Join([head] + tail, sep) == head + sep + Join(tail, sep)
  {
    assert ([head] + tail)[1..] == tail;
  }

  /** A join of pieces free of `c`, with a separator free of `c`, is free
      of `c`. */
  lemma {:induction false} JoinAvoids(parts: seq<string>, sep: string, c: char)
    requires c !in sep
    requires forall k :: 0 <= k < |parts| ==> c !in parts[k]
    ensures c !in Join(parts, sep)
    decreases |parts|
  {
    if |parts| > 1 {
      JoinAvoids(parts[1..], sep, c);
    }
  }

  /** Appending one more piece to a non-empty join. */
  lemma {:induction false} JoinSnoc(parts: seq<string>, last: string, sep: string)
    requires |parts| >= 1
    ensures Join(parts + [last], sep) == Join(parts, sep) + sep + last
    decreases |parts|
  {
    if |parts| == 1 {
      assert parts + [last] == [parts[0], last];
    } else {
      JoinSnoc(parts[1..], last, sep);
      assert (parts + [last])[1..] == parts[1..] + [last];
    }
  }

  /** `s.startswith(p)`. */
  predicate StartsWith(s: string, p: string)
  {
    |p| <= |s| && s[..|p|] == p
  }

  /** One differing position rules out a prefix. */
  lemma DiffersAt(s: string, p: string, k: nat)
    requires k < |s| && k < |p| && s[k] != p[k]
    ensures !StartsWith(s, p)
  {
  }

  /* ---------------------------------------------------------------------- */
  /* m in s                                                                 */
  /* ---------------------------------------------------------------------- */

  /** `m` occurs in `s` starting at position `k`. */
  ghost predicate OccursAt(s: string, m: string, k: int)
  {
    0 <= k && k + |m| <= |s| && s[k..k + |m|] == m
  }

  /** Python's substring test `m in s` (case-sensitive; the empty string
      occurs in every string). */
  predicate Contains(s: string, m: string)
    decreases |s|
  {
    if |m| > |s| then false
    else if s[..|m|] == m then true
    else Contains(s[1..], m)
  }

  /** `Contains` holds exactly when `m` occurs somewhere in `s`. */
  lemma {:induction false} ContainsIsSubstring(s: string, m: string)
    ensures Contains(s, m) <==> exists k :: OccursAt(s, m, k)
    decreases |s|
  {
    if |m| > |s| {
    } else if s[..|m|] == m {
      assert OccursAt(s, m, 0);
    } else {
      ContainsIsSubstring(s[1..], m);
      if Contains(s, m) {
        var k :| OccursAt(s[1..], m, k);
        assert s[k + 1..k + 1 + |m|] == s[1..][k..k + |m|];
        assert OccursAt(s, m, k + 1);
      }
      if exists k :: OccursAt(s, m, k) {
        var k :| OccursAt(s, m, k);
        assert k != 0;
        assert s[1..][k - 1..k - 1 + |m|] == s[k..k + |m|];
        assert OccursAt(s[1..], m, k - 1);
      }
    }
  }

  /** The empty marker is contained in every line. */
  lemma EmptyIsEverywhere(s: string)
    ensures Contains(s, "")
  {
    assert s[..0] == "";
  }

  /* ---------------------------------------------------------------------- */
  /* str(n) and int(s)                                                      */
  /* ---------------------------------------------------------------------- */

  const Digits := "0123456789"

  predicate IsDigit(c: char)
  {
    '0' <= c <= '9'
  }

  function DigitValue(c: char): nat
    requires IsDigit(c)
  {
    (c - '0') as nat
  }

  /** Decimal rendering of a natural number, most significant digit first. */
  function NatToString(n: nat): (s: string)
    ensures |s| >= 1
    ensures forall i :: 0 <= i < |s| ==> IsDigit(s[i])
    decreases n
  {
    if n < 10 then [Digits[n]]
    else NatToString(n / 10) + [Digits[n % 10]]
  }

  /** Python's `str(i)` for an integer. */
  function IntToString(i: int): string
  {
    if i < 0 then "-" + NatToString(-i) else NatToString(i)
  }

  /** The value of a string of decimal digits (`int(s)` on digits). */
  function ParseNat(s: string): nat
    requires forall i :: 0 <= i < |s| ==> IsDigit(s[i])
    decreases |s|
  {
    if |s| == 0 then 0
    else ParseNat(s[..|s| - 1]) * 10 + DigitValue(s[|s| - 1])
  }

  /** The strings `str` produces for integers: an optional minus sign,
      then at least one decimal digit. */
  predicate IsIntLiteral(s: string)
  {
    |s| >= 1 && (s[0] == '-' ==> |s| >= 2)
    && forall i :: (if s[0] == '-' then 1 else 0) <= i < |s| ==> IsDigit(s[i])
  }

  /** Python's `int(s)` on what `str` produces. */
  function ParseInt(s: string): int
    requires IsIntLiteral(s)
  {
    if s[0] == '-' then -(ParseNat(s[1..]) as int) else ParseNat(s)
  }

  /** Reading back a rendered natural number gives the number. */
  lemma {:induction false} ParseNatToString(n: nat)
    ensures ParseNat(NatToString(n)) == n
    decreases n
  {
    var s := NatToString(n);
    if n >= 10 {
      ParseNatToString(n / 10);
      assert s[..|s| - 1] == NatToString(n / 10);
    }
  }

  /** `str(i)` is a minus sign exactly for negative `i`, followed by at
      least one digit. */
  lemma IntToStringShape(i: int)
    ensures IsIntLiteral(IntToString(i))
    ensures IntToString(i)[0] == '-' <==> i < 0
  {
    var s := IntToString(i);
    if i < 0 {
      var d := NatToString(-i);
      assert s == "-" + d;
      assert forall k :: 1 <= k < |s| ==> s[k] == d[k - 1];
    } else {
      assert IsDigit(s[0]);
    }
  }

  /** `int(str(i)) == i`. */
  lemma ParseIntToString(i: int)
    ensures IsIntLiteral(IntToString(i))
    ensures ParseInt(IntToString(i)) == i
  {
    IntToStringShape(i);
    var s := IntToString(i);
    if i < 0 {
      assert s[1..] == NatToString(-i);
      ParseNatToString(-i);
    } else {
      ParseNatToString(i);
    }
  }

  /** A rendered integer holds none of the characters that delimit a URL
      query. */
  lemma IntToStringHasNoDelimiters(i: int)
    ensures '&' !in IntToString(i) && '?' !in IntToString(i) && '\n' !in IntToString(i)
  {
    var d := NatToString(if i < 0 then -i else i);
    assert forall k :: 0 <= k < |d| ==> IsDigit(d[k]);
  }
}
