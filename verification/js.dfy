/** The JavaScript string built-ins the client relies on: `toLowerCase`, `includes`, `trim`,
    `split`, `slice` with negative indices, and number-to-text conversion in template literals.
    Strings are `seq<char>`, a `char` being one Unicode scalar value: lengths and offsets
    count characters where JavaScript counts UTF-16 code units, and the two differ only for
    characters outside the Basic Multilingual Plane. */
module Js {

  /** ECMAScript WhiteSpace and LineTerminator code points: what `trim` removes and what `\s`
      matches in a regular expression. */
  predicate IsSpace(c: char) {
    c == '\t' || c == '\n' || c == '\U{000B}' || c == '\U{000C}' || c == '\r' || c == ' '
    || c == '\U{00A0}' || c == '\U{1680}' || ('\U{2000}' <= c <= '\U{200A}')
    || c == '\U{2028}' || c == '\U{2029}' || c == '\U{202F}' || c == '\U{205F}'
    || c == '\U{3000}' || c == '\U{FEFF}'
  }

  /** Lower-case mapping of one character (ASCII letters only; see README). */
  function LowerChar(c: char): (r: char)
    ensures 'A' <= c <= 'Z' ==> r != c && 'a' <= r <= 'z'
    ensures !('A' <= c <= 'Z') ==> r == c
  {
    if 'A' <= c <= 'Z' then (c as int + 32) as char else c
  }

  /** `s.toLowerCase()`. */
  function ToLower(s: string): (r: string)
    ensures |r| == |s|
    ensures forall i :: 0 <= i < |s| ==> r[i] == LowerChar(s[i])
  {
    if s == [] then [] else [LowerChar(s[0])] + ToLower(s[1..])
  }

  /** Lower-casing twice is lower-casing once. */
  lemma ToLowerIdempotent(s: string)
    ensures ToLower(ToLower(s)) == ToLower(s)
  {
    var once := ToLower(s);
    assert forall i :: 0 <= i < |once| ==> ToLower(once)[i] == once[i];
  }

  predicate StartsWith(s: string, t: string) {
    |t| <= |s| && s[..|t|] == t
  }

  /** `t` occurs in `s` starting at offset `i`. */
  predicate OccursAt(s: string, t: string, i: int) {
    0 <= i <= |s| - |t| && s[i..i + |t|] == t
  }

  /** `s.includes(t)`: `t` occurs in `s` as a contiguous block. */
  function Includes(s: string, t: string): bool {
    StartsWith(s, t) || (s != [] && Includes(s[1..], t))
  }

  /** `includes` holds exactly when `t` sits at some offset of `s`. */
  lemma {:induction false} IncludesAt(s: string, t: string)
    ensures Includes(s, t) <==> exists i :: OccursAt(s, t, i)
  {
    if s == [] {
      if Includes(s, t) {
        assert OccursAt(s, t, 0);
      }
    } else {
      IncludesAt(s[1..], t);
      if Includes(s, t) {
        if StartsWith(s, t) {
          assert OccursAt(s, t, 0);
        } else {
          var i :| OccursAt(s[1..], t, i);
          assert s[i + 1..i + 1 + |t|] == s[1..][i..i + |t|];
          assert OccursAt(s, t, i + 1);
        }
      } else {
        forall i | 0 < i <= |s| - |t| ensures !OccursAt(s, t, i) {
          assert s[1..][i - 1..i - 1 + |t|] == s[i..i + |t|];
          assert OccursAt(s, t, i) ==> OccursAt(s[1..], t, i - 1);
        }
      }
    }
  }

  /** `s.trimStart()`. */
  function TrimStart(s: string): (r: string)
    ensures |r| <= |s| && r == s[|s| - |r|..]
    ensures r != [] ==> !IsSpace(r[0])
    ensures forall i :: 0 <= i < |s| - |r| ==> IsSpace(s[i])
  {
    if s != [] && IsSpace(s[0]) then TrimStart(s[1..]) else s
  }

  /** `s.trimEnd()`. */
  function TrimEnd(s: string): (r: string)
    ensures |r| <= |s| && r == s[..|r|]
    ensures r != [] ==> !IsSpace(r[|r| - 1])
    ensures forall i :: |r| <= i < |s| ==> IsSpace(s[i])
  {
    if s != [] && IsSpace(s[|s| - 1]) then TrimEnd(s[..|s| - 1]) else s
  }

  /** `r` sits at offset `k` of `s` with nothing but white space before and after it. */
  predicate TrimmedAt(s: string, r: string, k: int) {
    OccursAt(s, r, k)
    && (forall i :: 0 <= i < k ==> IsSpace(s[i]))
    && (forall i :: k + |r| <= i < |s| ==> IsSpace(s[i]))
  }

  /** `s.trim()`: both ends stripped of white space, the middle kept as it is. */
  function Trim(s: string): (r: string)
    ensures |r| <= |s|
    ensures r != [] ==> !IsSpace(r[0]) && !IsSpace(r[|r| - 1])
    ensures exists k :: TrimmedAt(s, r, k)
  {
    var a := TrimStart(s);
    var r := TrimEnd(a);
    assert r == s[|s| - |a|..|s| - |a| + |r|];
    assert TrimmedAt(s, r, |s| - |a|);
    r
  }

  /** A string is all white space exactly when trimming leaves nothing. */
  lemma {:induction false} TrimEmptyIffAllSpace(s: string)
    ensures Trim(s) == [] <==> forall i :: 0 <= i < |s| ==> IsSpace(s[i])
  {
    var a := TrimStart(s);
    if Trim(s) == [] {
      assert a == [];
    } else {
      var r := Trim(s);
      assert !IsSpace(r[0]);
      assert r[0] in s;
    }
  }

  /** A string with no white space at either end is its own trim. */
  lemma TrimOfTrimmed(s: string)
    requires s != [] ==> !IsSpace(s[0]) && !IsSpace(s[|s| - 1])
    ensures Trim(s) == s
  {
  }

  /** `s.split(c)` for a one-character separator: the pieces between separators, so there is
      always one more piece than separators. */
  function Split(s: string, c: char): (r: seq<string>)
    ensures |r| >= 1
    ensures forall i :: 0 <= i < |r| ==> c !in r[i]
  {
    if s == [] then [""]
    else
      var rest := Split(s[1..], c);
      if s[0] == c then [""] + rest else [[s[0]] + rest[0]] + rest[1..]
  }

  /** `pieces.join(c)`. */
  function Join(pieces: seq<string>, c: char): string
    requires |pieces| >= 1
  {
    if |pieces| == 1 then pieces[0] else pieces[0] + [c] + Join(pieces[1..], c)
  }

  /** Joining the pieces of a split gives back the original text. */
  lemma {:induction false} JoinSplit(s: string, c: char)
    ensures Join(Split(s, c), c) == s
  {
    if s != [] {
      JoinSplit(s[1..], c);
      var rest := Split(s[1..], c);
      if s[0] == c {
        assert Split(s, c) == [""] + rest;
        assert ([""] + rest)[1..] == rest;
      } else {
        var r := [[s[0]] + rest[0]] + rest[1..];
        assert Split(s, c) == r;
        if |rest| == 1 {
          assert Join(r, c) == [s[0]] + rest[0];
          assert [s[0]] + s[1..] == s;
        } else {
          assert r[1..] == rest[1..];
          assert Join(r, c) == [s[0]] + rest[0] + [c] + Join(rest[1..], c);
          assert Join(rest, c) == rest[0] + [c] + Join(rest[1..], c);
          assert [s[0]] + s[1..] == s;
        }
      }
    }
  }

  lemma {:induction false} SplitPrepend(x: char, s: string, c: char)
    requires x != c
    ensures Split([x] + s, c) == [[x] + Split(s, c)[0]] + Split(s, c)[1..]
  {
    assert ([x] + s)[1..] == s;
  }

  lemma {:induction false} SplitConcatNoSep(a: string, b: string, c: char)
    requires c !in a
    ensures Split(a + b, c) == [a + Split(b, c)[0]] + Split(b, c)[1..]
  {
    if a == [] {
      assert a + b == b;
      assert a + Split(b, c)[0] == Split(b, c)[0];
      assert Split(b, c) == [Split(b, c)[0]] + Split(b, c)[1..];
    } else {
      assert a + b == [a[0]] + (a[1..] + b);
      SplitConcatNoSep(a[1..], b, c);
      SplitPrepend(a[0], a[1..] + b, c);
      assert [a[0]] + (a[1..] + Split(b, c)[0]) == a + Split(b, c)[0];
    }
  }

  /** Splitting joined pieces that contain no separator gives back the pieces. */
  lemma {:induction false} SplitJoin(pieces: seq<string>, c: char)
    requires |pieces| >= 1
    requires forall i :: 0 <= i < |pieces| ==> c !in pieces[i]
    ensures Split(Join(pieces, c), c) == pieces
  {
    if |pieces| == 1 {
      SplitConcatNoSep(pieces[0], "", c);
      assert pieces[0] + "" == pieces[0];
    } else {
      var tail := Join(pieces[1..], c);
      SplitJoin(pieces[1..], c);
      assert Join(pieces, c) == pieces[0] + ([c] + tail);
      SplitConcatNoSep(pieces[0], [c] + tail, c);
      assert ([c] + tail)[1..] == tail;
      assert Split([c] + tail, c) == [""] + pieces[1..];
      assert pieces[0] + "" == pieces[0];
      assert [pieces[0]] + pieces[1..] == pieces;
    }
  }

  /** How `slice` turns a possibly negative index into a position in `0..len`. */
  function RelativeIndex(x: int, len: nat): (r: nat)
    ensures r <= len
    ensures 0 <= x <= len ==> r == x
    ensures x < 0 && len + x >= 0 ==> r == len + x
  {
    if x < 0 then (if len + x < 0 then 0 else len + x) else if x > len then len else x
  }

  /** `s.slice(start, end)`. */
  function Slice(s: string, start: int, end: int): (r: string)
    ensures |r| <= |s|
  {
    var from := RelativeIndex(start, |s|);
    var to := RelativeIndex(end, |s|);
    if from < to then s[from..to] else ""
  }

  /** `s.slice(start)`. */
  function SliceFrom(s: string, start: int): (r: string)
    ensures |r| <= |s|
  {
    Slice(s, start, |s|)
  }

  /** `s.slice(0, n)` keeps the first `n` characters, or all of a shorter `s`. */
  lemma SlicePrefix(s: string, n: int)
    ensures 0 <= n ==> Slice(s, 0, n) == if n <= |s| then s[..n] else s
  {
  }

  /** `s.slice(-n)` keeps the last `n` characters, or all of a shorter `s`. */
  lemma SliceSuffix(s: string, n: nat)
    requires n > 0
    ensures SliceFrom(s, -(n as int)) == if n <= |s| then s[|s| - n..] else s
  {
  }

  function DigitChar(d: nat): (c: char)
    requires d < 10
    ensures '0' <= c <= '9'
  {
    ('0' as int + d) as char
  }

  /** The decimal text of a natural number, as a template literal prints it. */
  function NatToString(n: nat): (r: string)
    ensures |r| >= 1
    ensures forall i :: 0 <= i < |r| ==> '0' <= r[i] <= '9'
    ensures |r| > 1 ==> r[0] != '0'
  {
    if n < 10 then [DigitChar(n)] else NatToString(n / 10) + [DigitChar(n % 10)]
  }

  /** The number a string of decimal digits denotes. */
  function DigitsValue(s: string): nat
    requires forall i :: 0 <= i < |s| ==> '0' <= s[i] <= '9'
  {
    if s == [] then 0 else 10 * DigitsValue(s[..|s| - 1]) + (s[|s| - 1] as int - '0' as int)
  }

  /** Printing a number and reading its digits back gives the number. */
  lemma {:induction false} NatToStringRoundTrip(n: nat)
    ensures DigitsValue(NatToString(n)) == n
  {
    if n >= 10 {
      NatToStringRoundTrip(n / 10);
      var r := NatToString(n);
      assert r[..|r| - 1] == NatToString(n / 10);
    }
  }

  /** Distinct numbers print differently. */
  lemma NatToStringInjective(m: nat, n: nat)
    requires NatToString(m) == NatToString(n)
    ensures m == n
  {
    NatToStringRoundTrip(m);
    NatToStringRoundTrip(n);
  }

  /** The position of the first space in `s`, or `|s|` when there is none. */
  function FirstSpace(s: string): (r: nat)
    ensures r <= |s|
  {
    if s == [] then 0 else if s[0] == ' ' then 0 else 1 + FirstSpace(s[1..])
  }

  lemma {:induction false} FirstSpaceAfterDigits(a: string, b: string)
    requires forall i :: 0 <= i < |a| ==> '0' <= a[i] <= '9'
    requires |b| > 0 && b[0] == ' '
    ensures FirstSpace(a + b) == |a|
  {
    if a == [] {
      assert a + b == b;
    } else {
      assert (a + b)[1..] == a[1..] + b;
      FirstSpaceAfterDigits(a[1..], b);
    }
  }

  /** Reading `r` from offset `start`: the digits up to the first space denote `n`, and the
      text from that space on is `rest`. */
  predicate ReadsNumber(r: string, start: nat, n: nat, rest: string) {
    start <= |r|
    && (forall i :: start <= i < start + FirstSpace(r[start..]) ==> '0' <= r[i] <= '9')
    && DigitsValue(r[start..start + FirstSpace(r[start..])]) == n
    && r[start + FirstSpace(r[start..])..] == rest
  }

  /** A number printed between a prefix and a text starting with a space reads back. */
  lemma ReadNumberBack(prefix: string, n: nat, rest: string)
    requires |rest| > 0 && rest[0] == ' '
    ensures ReadsNumber(prefix + NatToString(n) + rest, |prefix|, n, rest)
  {
    var d := NatToString(n);
    var r := prefix + d + rest;
    assert r[|prefix|..] == d + rest;
    FirstSpaceAfterDigits(d, rest);
    assert r[|prefix|..|prefix| + |d|] == d;
    assert r[|prefix| + |d|..] == rest;
    NatToStringRoundTrip(n);
  }

  /** The decimal text of an integer, with a leading minus sign when negative. */
  function IntToString(i: int): (r: string)
    ensures i >= 0 ==> r == NatToString(i)
    ensures i < 0 ==> r == "-" + NatToString(-i)
  {
    if i < 0 then "-" + NatToString(-i) else NatToString(i)
  }
}
