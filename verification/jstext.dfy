/**
 * The few JavaScript string and array behaviours the components rely on:
 * `Array.prototype.join` with a one-character separator, `String.prototype.split`
 * on the same separator (its inverse), `String.prototype.trim`, and the decimal
 * rendering of an integral `number`.
 */
module JsText {

  /** Number of occurrences of `c` in `s`. */
  function Count(s: string, c: char): nat
  {
    if s == [] then 0 else (if s[0] == c then 1 else 0) + Count(s[1..], c)
  }

  lemma {:induction false} CountAppend(a: string, b: string, c: char)
    ensures Count(a + b, c) == Count(a, c) + Count(b, c)
  {
    if a == [] {
      assert a + b == b;
    } else {
      assert (a + b)[1..] == a[1..] + b;
      CountAppend(a[1..], b, c);
    }
  }

  lemma {:induction false} CountAbsent(s: string, c: char)
    requires c !in s
    ensures Count(s, c) == 0
  {
    if s != [] {
      CountAbsent(s[1..], c);
    }
  }

  /** Sum of the lengths of `parts`. */
  function TotalLength(parts: seq<string>): nat
  {
    if parts == [] then 0 else |parts[0]| + TotalLength(parts[1..])
  }

  /**
   * `parts.join(sep)` for parts that are already strings: all the parts' characters
   * and one separator between each two neighbours.
   */
  function Join(parts: seq<string>, sep: char): (r: string)
    ensures parts == [] ==> r == ""
    ensures parts != [] ==> |r| == TotalLength(parts) + |parts| - 1
  {
    if |parts| == 0 then ""
    else if |parts| == 1 then parts[0]
    else parts[0] + [sep] + Join(parts[1..], sep)
  }

  /** Where part `i` starts in `Join(parts, sep)`: the parts before it plus one separator each. */
  function Offset(parts: seq<string>, i: nat): nat
    requires i <= |parts|
  {
    TotalLength(parts[..i]) + i
  }

  lemma OffsetStep(parts: seq<string>, i: nat)
    requires 1 <= i <= |parts|
    ensures Offset(parts, i) == |parts[0]| + 1 + Offset(parts[1..], i - 1)
  {
    assert parts[..i][0] == parts[0];
    assert parts[..i][1..] == parts[1..][..i - 1];
  }

  /**
   * The content of `parts.join(sep)`: part `i` sits at `Offset(parts, i)`, and a
   * separator follows every part but the last.
   */
  lemma {:induction false} JoinLayout(parts: seq<string>, sep: char)
    ensures forall i :: 0 <= i < |parts| ==>
      Offset(parts, i) + |parts[i]| <= |Join(parts, sep)| &&
      Join(parts, sep)[Offset(parts, i)..Offset(parts, i) + |parts[i]|] == parts[i]
    ensures forall i :: 0 <= i < |parts| - 1 ==>
      Offset(parts, i) + |parts[i]| < |Join(parts, sep)| &&
      Join(parts, sep)[Offset(parts, i) + |parts[i]|] == sep
  {
    if |parts| == 1 {
      assert Offset(parts, 0) == 0;
    } else if |parts| > 1 {
      var rest := parts[1..];
      var r := Join(parts, sep);
      var tail := Join(rest, sep);
      JoinLayout(rest, sep);
      assert r == parts[0] + [sep] + tail;
      assert Offset(parts, 0) == 0;
      forall i | 1 <= i < |parts|
        ensures Offset(parts, i) + |parts[i]| <= |r|
        ensures r[Offset(parts, i)..Offset(parts, i) + |parts[i]|] == parts[i]
        ensures i < |parts| - 1 ==> Offset(parts, i) + |parts[i]| < |r| && r[Offset(parts, i) + |parts[i]|] == sep
      {
        OffsetStep(parts, i);
        var k := |parts[0]| + 1;
        assert r[k..] == tail;
        assert parts[i] == rest[i - 1];
        assert r[Offset(parts, i)..Offset(parts, i) + |parts[i]|]
          == tail[Offset(rest, i - 1)..Offset(rest, i - 1) + |rest[i - 1]|];
      }
    }
  }

  /** `s.split(sep)`: the maximal separator-free pieces; the empty string splits into `[""]`. */
  function Split(s: string, sep: char): (r: seq<string>)
    ensures |r| >= 1
    ensures forall i :: 0 <= i < |r| ==> sep !in r[i]
  {
    if s == [] then [""]
    else
      var rest := Split(s[1..], sep);
      if s[0] == sep then [""] + rest
      else [[s[0]] + rest[0]] + rest[1..]
  }

  /** A joined list with separator-free parts has exactly one separator between each pair of parts. */
  lemma {:induction false} JoinSeparatorCount(parts: seq<string>, sep: char)
    requires forall i :: 0 <= i < |parts| ==> sep !in parts[i]
    ensures Count(Join(parts, sep), sep) == if parts == [] then 0 else |parts| - 1
  {
    if |parts| == 0 {
    } else if |parts| == 1 {
      CountAbsent(parts[0], sep);
    } else {
      JoinSeparatorCount(parts[1..], sep);
      CountAbsent(parts[0], sep);
      CountAppend(parts[0], [sep], sep);
      CountAppend(parts[0] + [sep], Join(parts[1..], sep), sep);
    }
  }

  lemma {:induction false} SplitAfterPrefix(p: string, t: string, sep: char)
    requires sep !in p
    ensures Split(p + t, sep) == [p + Split(t, sep)[0]] + Split(t, sep)[1..]
  {
    if p != [] {
      assert (p + t)[1..] == p[1..] + t;
      SplitAfterPrefix(p[1..], t, sep);
      assert [p[0]] + (p[1..] + Split(t, sep)[0]) == p + Split(t, sep)[0];
    } else {
      assert p + t == t && p + Split(t, sep)[0] == Split(t, sep)[0];
      assert Split(t, sep) == [Split(t, sep)[0]] + Split(t, sep)[1..];
    }
  }

  /** `split` undoes `join` when no part contains the separator. */
  lemma {:induction false} SplitJoin(parts: seq<string>, sep: char)
    requires |parts| >= 1
    requires forall i :: 0 <= i < |parts| ==> sep !in parts[i]
    ensures Split(Join(parts, sep), sep) == parts
  {
    if |parts| == 1 {
      SplitAfterPrefix(parts[0], "", sep);
      assert parts[0] + "" == parts[0];
    } else {
      var rest := Join(parts[1..], sep);
      SplitJoin(parts[1..], sep);
      assert parts[0] + [sep] + rest == parts[0] + ([sep] + rest);
      SplitAfterPrefix(parts[0], [sep] + rest, sep);
      assert ([sep] + rest)[1..] == rest;
      assert Split([sep] + rest, sep) == [""] + parts[1..];
      assert parts[0] + "" == parts[0];
    }
  }

  /** The characters `String.prototype.trim` removes: ECMAScript WhiteSpace and LineTerminator. */
  predicate IsWhiteSpace(c: char)
  {
    c == '\t' || c == '\n' || c == '\U{000B}' || c == '\U{000C}' || c == '\r' || c == ' '
    || c == '\U{00A0}' || c == '\U{1680}' || ('\U{2000}' <= c <= '\U{200A}')
    || c == '\U{2028}' || c == '\U{2029}' || c == '\U{202F}' || c == '\U{205F}'
    || c == '\U{3000}' || c == '\U{FEFF}'
  }

  /** Drops leading white space: what is left is a suffix that is empty or starts with a non-space. */
  function TrimStart(s: string): (r: string)
    ensures |r| <= |s| && r == s[|s| - |r|..]
    ensures forall i :: 0 <= i < |s| - |r| ==> IsWhiteSpace(s[i])
    ensures r != [] ==> !IsWhiteSpace(r[0])
  {
    if s != [] && IsWhiteSpace(s[0]) then TrimStart(s[1..]) else s
  }

  /** Drops trailing white space: what is left is a prefix that is empty or ends with a non-space. */
  function TrimEnd(s: string): (r: string)
    ensures |r| <= |s| && r == s[..|r|]
    ensures forall i :: |r| <= i < |s| ==> IsWhiteSpace(s[i])
    ensures r != [] ==> !IsWhiteSpace(r[|r| - 1])
  {
    if s != [] && IsWhiteSpace(s[|s| - 1]) then TrimEnd(s[..|s| - 1]) else s
  }

  /**
   * `s.trim()`: the slice of `s` that starts where its leading white space ends and
   * neither starts nor ends with white space, everything dropped before and after
   * it being white space; it is empty exactly when `s` is all white space.
   */
  function Trim(s: string): (r: string)
    ensures |r| <= |TrimStart(s)| <= |s|
    ensures r == s[|s| - |TrimStart(s)|..|s| - |TrimStart(s)| + |r|]
    ensures r != [] ==> !IsWhiteSpace(r[0]) && !IsWhiteSpace(r[|r| - 1])
    ensures forall i :: 0 <= i < |s| - |TrimStart(s)| ==> IsWhiteSpace(s[i])
    ensures forall i :: |s| - |TrimStart(s)| + |r| <= i < |s| ==> IsWhiteSpace(s[i])
    ensures r == [] <==> forall i :: 0 <= i < |s| ==> IsWhiteSpace(s[i])
  {
    var t := TrimStart(s);
    SliceOfSuffix(s, t, TrimEnd(t));
    TrimKeepsFirst(t);
    TrimEmptyIff(s);
    TrimEnd(t)
  }

  lemma TrimKeepsFirst(t: string)
    requires t != [] ==> !IsWhiteSpace(t[0])
    ensures TrimEnd(t) != [] ==> !IsWhiteSpace(TrimEnd(t)[0])
  {
    var r := TrimEnd(t);
    if r != [] {
      assert r[0] == t[0];
    }
  }

  lemma TrimEmptyIff(s: string)
    ensures TrimEnd(TrimStart(s)) == [] <==> forall i :: 0 <= i < |s| ==> IsWhiteSpace(s[i])
  {
    var t := TrimStart(s);
    if TrimEnd(t) == [] {
      assert t == [];
    } else {
      assert s[|s| - |t|] == t[0];
    }
  }

  lemma SliceOfSuffix(s: string, t: string, r: string)
    requires |t| <= |s| && t == s[|s| - |t|..]
    requires |r| <= |t| && r == t[..|r|]
    ensures r == s[|s| - |t|..|s| - |t| + |r|]
  {
  }

  /** Value of a string of decimal digits. */
  function DigitsValue(s: string): nat
    requires forall i :: 0 <= i < |s| ==> '0' <= s[i] <= '9'
  {
    if s == [] then 0 else 10 * DigitsValue(s[..|s| - 1]) + (s[|s| - 1] - '0') as nat
  }

  function Digit(d: nat): (c: char)
    requires d < 10
    ensures '0' <= c <= '9' && (c - '0') as nat == d
  {
    ['0', '1', '2', '3', '4', '5', '6', '7', '8', '9'][d]
  }

  /** `String(n)` for a non-negative integer below 1e21: its shortest decimal digits. */
  function NatString(n: nat): (r: string)
    ensures |r| >= 1
    ensures forall i :: 0 <= i < |r| ==> '0' <= r[i] <= '9'
    ensures DigitsValue(r) == n
    ensures r[0] == '0' ==> r == "0"
  {
    if n < 10 then [Digit(n)]
    else
      var r := NatString(n / 10) + [Digit(n % 10)];
      assert r[..|r| - 1] == NatString(n / 10);
      r
  }

  /** `String(n)` for an integral number: a minus sign before the digits of a negative one. */
  function IntString(n: int): (r: string)
    ensures forall i :: 0 <= i < |r| ==> r[i] == '-' || '0' <= r[i] <= '9'
    ensures n >= 0 ==> r == NatString(n)
    ensures n < 0 ==> r == "-" + NatString(-n)
  {
    if n < 0 then "-" + NatString(-n) else NatString(n)
  }
}
