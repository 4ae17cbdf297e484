/** The string operations the bot relies on, with Go's semantics:
    `strings.HasPrefix`, `strings.Split` on a one-character separator,
    `strings.Join`, an ASCII `strings.ToLower`, `%d` on a non-negative
    integer, and `len` of a string (its length in UTF-8 bytes). */
module Text {

  /** `strings.HasPrefix(s, p)`. */
  predicate HasPrefix(s: string, p: string): (b: bool)
    ensures b <==> |p| <= |s| && s == p + s[|p|..]
  {
    |p| <= |s| && s[..|p|] == p
  }

  /** `x` occurs somewhere inside `s`. */
  ghost predicate IsInfix(x: string, s: string) {
    exists i :: InfixAt(x, s, i)
  }

  /** `x` occurs in `s` starting at index `i`. */
  predicate InfixAt(x: string, s: string, i: int) {
    0 <= i && i + |x| <= |s| && s[i..i + |x|] == x
  }

  lemma InfixOfConcat(a: string, x: string, b: string)
    ensures IsInfix(x, a + x + b)
  {
    assert InfixAt(x, a + x + b, |a|);
  }

  // ---------------------------------------------------------------------------
  // strings.Split and strings.Join

  /** `strings.Split(s, string(sep))`: the maximal runs between separators, so
      the empty string gives one empty field and every separator starts a new
      field, also a leading, trailing or doubled one. */
  function Split(s: string, sep: char): (fields: seq<string>)
    ensures |fields| >= 1
    ensures forall i :: 0 <= i < |fields| ==> sep !in fields[i]
    decreases |s|
  {
    if s == [] then [""]
    else
      var rest := Split(s[1..], sep);
      if s[0] == sep then [""] + rest
      else [[s[0]] + rest[0]] + rest[1..]
  }

  /** `strings.Join(parts, sep)`. */
  function Join(parts: seq<string>, sep: string): (r: string)
    ensures parts != [] ==> |parts[0]| <= |r| && r[..|parts[0]|] == parts[0]
    decreases |parts|
  {
    if parts == [] then ""
    else if |parts| == 1 then parts[0]
    else parts[0] + sep + Join(parts[1..], sep)
  }

  /** Joining the fields back with the separator restores the string, so
      `Split` loses nothing but the separators. */
  lemma {:induction false} JoinSplit(s: string, sep: char)
    ensures Join(Split(s, sep), [sep]) == s
    decreases |s|
  {
    if s != [] {
      var rest := Split(s[1..], sep);
      JoinSplit(s[1..], sep);
      if s[0] == sep {
        assert Split(s, sep) == [""] + rest;
        assert Join([""] + rest, [sep]) == "" + [sep] + Join(rest, [sep]);
        assert s == [s[0]] + s[1..];
      } else if |rest| == 1 {
        assert Split(s, sep) == [[s[0]] + rest[0]];
        assert s == [s[0]] + s[1..];
      } else {
        var fields := Split(s, sep);
        assert fields == [[s[0]] + rest[0]] + rest[1..];
        assert fields[1..] == rest[1..];
        assert Join(fields, [sep]) == [s[0]] + rest[0] + [sep] + Join(rest[1..], [sep]);
        assert Join(rest, [sep]) == rest[0] + [sep] + Join(rest[1..], [sep]);
        assert s == [s[0]] + s[1..];
      }
    }
  }

  /** A string without the separator is a single field. */
  lemma {:induction false} SplitWithoutSep(s: string, sep: char)
    requires sep !in s
    ensures Split(s, sep) == [s]
    decreases |s|
  {
    if s != [] {
      assert sep !in s[1..] by {
        forall i | 0 <= i < |s[1..]| ensures s[1..][i] != sep { assert s[1..][i] == s[i + 1]; }
      }
      SplitWithoutSep(s[1..], sep);
      assert s == [s[0]] + s[1..];
    }
  }

  /** There is more than one field exactly when the separator occurs. */
  lemma SingleFieldIff(s: string, sep: char)
    ensures |Split(s, sep)| == 1 <==> sep !in s
  {
    if sep in s {
      JoinSplit(s, sep);
    } else {
      SplitWithoutSep(s, sep);
    }
  }

  /** A first field `p` followed by the separator is split off as is. */
  lemma {:induction false} SplitAfter(p: string, sep: char, rest: string)
    requires sep !in p
    ensures Split(p + [sep] + rest, sep) == [p] + Split(rest, sep)
    decreases |p|
  {
    if p == [] {
      assert p + [sep] + rest == [sep] + rest;
      assert ([sep] + rest)[1..] == rest;
    } else {
      var s := p + [sep] + rest;
      assert s[0] == p[0];
      assert s[1..] == p[1..] + [sep] + rest;
      assert sep !in p[1..] by {
        forall i | 0 <= i < |p[1..]| ensures p[1..][i] != sep { assert p[1..][i] == p[i + 1]; }
      }
      SplitAfter(p[1..], sep, rest);
      assert [p[0]] + p[1..] == p;
    }
  }

  /** The first field is the longest prefix free of the separator: it is a
      prefix of `s`, and it is followed by the separator or by the end. */
  lemma {:induction false} FirstField(s: string, sep: char)
    ensures HasPrefix(s, Split(s, sep)[0])
    ensures |Split(s, sep)[0]| == |s| || s[|Split(s, sep)[0]|] == sep
    decreases |s|
  {
    if s != [] && s[0] != sep {
      FirstField(s[1..], sep);
      var f := Split(s[1..], sep)[0];
      assert Split(s, sep)[0] == [s[0]] + f;
      assert s[1..][..|f|] == f;
      assert s[..|f| + 1] == [s[0]] + s[1..][..|f|];
    }
  }

  /** An infix of an infix is an infix. */
  lemma InfixTrans(x: string, y: string, s: string)
    requires IsInfix(x, y) && IsInfix(y, s)
    ensures IsInfix(x, s)
  {
    var i :| InfixAt(x, y, i);
    var j :| InfixAt(y, s, j);
    var inS, inY := s[j + i..j + i + |x|], y[i..i + |x|];
    assert forall k :: 0 <= k < |x| ==> inS[k] == s[j..j + |y|][i + k] == inY[k];
    assert inS == inY;
    assert InfixAt(x, s, j + i);
  }

  /** Every part occurs in the joined string. */
  lemma {:induction false} JoinContains(parts: seq<string>, sep: string)
    ensures forall k :: 0 <= k < |parts| ==> IsInfix(parts[k], Join(parts, sep))
    decreases |parts|
  {
    if |parts| == 1 {
      assert InfixAt(parts[0], Join(parts, sep), 0);
    } else if |parts| >= 2 {
      var rest := Join(parts[1..], sep);
      JoinContains(parts[1..], sep);
      assert Join(parts, sep) == parts[0] + sep + rest;
      assert InfixAt(parts[0], Join(parts, sep), 0);
      InfixOfConcat(parts[0] + sep, rest, "");
      assert parts[0] + sep + rest + "" == Join(parts, sep);
      forall k | 1 <= k < |parts|
        ensures IsInfix(parts[k], Join(parts, sep))
      {
        assert parts[k] == parts[1..][k - 1];
        InfixTrans(parts[k], rest, Join(parts, sep));
      }
    }
  }

  /** Lower-casing twice is lower-casing once. */
  lemma ToLowerIdempotent(s: string)
    ensures ToLower(ToLower(s)) == ToLower(s)
  {
  }

  // ---------------------------------------------------------------------------
  // strings.ToLower, restricted to ASCII

  function LowerChar(c: char): char {
    if 'A' <= c <= 'Z' then (c as int + 32) as char else c
  }

  function ToLower(s: string): (r: string)
    ensures |r| == |s|
    ensures forall i :: 0 <= i < |r| ==> !('A' <= r[i] <= 'Z')
    ensures forall i :: 0 <= i < |s| && !('A' <= s[i] <= 'Z') ==> r[i] == s[i]
  {
    seq(|s|, i requires 0 <= i < |s| => LowerChar(s[i]))
  }

  // ---------------------------------------------------------------------------
  // fmt's %d on a non-negative integer

  predicate IsDecimal(s: string) {
    forall i :: 0 <= i < |s| ==> '0' <= s[i] <= '9'
  }

  function Digit(d: nat): char
    requires d < 10
  {
    ('0' as int + d) as char
  }

  /** The decimal rendering of `n`, without leading zeros. */
  function NatToDecimal(n: nat): (r: string)
    ensures 1 <= |r| && IsDecimal(r)
    decreases n
  {
    if n < 10 then [Digit(n)] else NatToDecimal(n / 10) + [Digit(n % 10)]
  }

  /** The value a string of decimal digits denotes. */
  function DecimalValue(s: string): nat
    requires IsDecimal(s)
    decreases |s|
  {
    if s == [] then 0
    else DecimalValue(s[..|s| - 1]) * 10 + (s[|s| - 1] as int - '0' as int)
  }

  lemma {:induction false} DecimalRoundTrip(n: nat)
    ensures DecimalValue(NatToDecimal(n)) == n
    decreases n
  {
    if n >= 10 {
      var r := NatToDecimal(n);
      DecimalRoundTrip(n / 10);
      assert r[..|r| - 1] == NatToDecimal(n / 10);
    }
  }

  /** Distinct numbers render differently. */
  lemma NatToDecimalInjective(m: nat, n: nat)
    requires NatToDecimal(m) == NatToDecimal(n)
    ensures m == n
  {
    DecimalRoundTrip(m);
    DecimalRoundTrip(n);
  }

  // ---------------------------------------------------------------------------
  // Go's len on a string: its length in UTF-8 bytes

  function Utf8Width(c: char): nat {
    if c as int < 0x80 then 1
    else if c as int < 0x800 then 2
    else if c as int < 0x10000 then 3
    else 4
  }

  function Utf8Length(s: string): (n: nat)
    ensures |s| <= n <= 4 * |s|
    decreases |s|
  {
    if s == [] then 0 else Utf8Width(s[0]) + Utf8Length(s[1..])
  }

  /** On ASCII text, bytes and characters coincide. */
  lemma {:induction false} AsciiUtf8Length(s: string)
    requires forall i :: 0 <= i < |s| ==> s[i] as int < 0x80
    ensures Utf8Length(s) == |s|
    decreases |s|
  {
    if s != [] {
      AsciiUtf8Length(s[1..]);
    }
  }
}
