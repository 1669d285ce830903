/** The string operations of JavaScript the model relies on, over `seq<char>`. */
module Text {
  import opened Wrappers

  /** JavaScript truthiness of a string that may be missing: present and
      not empty. */
  predicate Truthy(s: Option<string>)
  {
    s.Some? && s.value != []
  }

  /** `s.includes(sub)`: `sub` occurs in `s` as a contiguous block. */
  predicate Contains(s: string, sub: string)
    decreases |s|
  {
    |sub| <= |s| && (s[..|sub|] == sub || Contains(s[1..], sub))
  }

  /** `sub` occurs in `s` starting at index `i`. */
  predicate OccursAt(s: string, sub: string, i: nat)
  {
    i + |sub| <= |s| && s[i..i + |sub|] == sub
  }

  /** `Contains` agrees with the positional reading of substring occurrence. */
  lemma {:induction false} ContainsIffOccurs(s: string, sub: string)
    ensures Contains(s, sub) <==> exists i: nat :: OccursAt(s, sub, i)
    decreases |s|
  {
    if |sub| <= |s| && s[..|sub|] == sub {
      assert OccursAt(s, sub, 0);
    } else if |sub| <= |s| {
      ContainsIffOccurs(s[1..], sub);
      if exists i: nat :: OccursAt(s, sub, i) {
        var i: nat :| OccursAt(s, sub, i);
        assert i > 0;
        assert OccursAt(s[1..], sub, i - 1);
      }
      if Contains(s[1..], sub) {
        var j: nat :| OccursAt(s[1..], sub, j);
        assert OccursAt(s, sub, j + 1);
      }
    }
  }

  /** A block placed anywhere inside a string is found by `Contains`. */
  lemma ContainsMiddle(a: string, b: string, c: string)
    ensures Contains(a + b + c, b)
  {
    var s := a + b + c;
    assert OccursAt(s, b, |a|);
    ContainsIffOccurs(s, b);
  }

  /** A block of the right-hand part of a concatenation is a block of the whole. */
  lemma ContainsRight(x: string, y: string, sub: string)
    requires Contains(y, sub)
    ensures Contains(x + y, sub)
  {
    ContainsIffOccurs(y, sub);
    var i: nat :| OccursAt(y, sub, i);
    assert (x + y)[|x| + i..|x| + i + |sub|] == y[i..i + |sub|];
    assert OccursAt(x + y, sub, |x| + i);
    ContainsIffOccurs(x + y, sub);
  }

  /** A block of the left-hand part of a concatenation is a block of the whole. */
  lemma ContainsLeft(x: string, y: string, sub: string)
    requires Contains(x, sub)
    ensures Contains(x + y, sub)
  {
    ContainsIffOccurs(x, sub);
    var i: nat :| OccursAt(x, sub, i);
    assert (x + y)[i..i + |sub|] == x[i..i + |sub|];
    assert OccursAt(x + y, sub, i);
    ContainsIffOccurs(x + y, sub);
  }

  /** Nothing but the empty string occurs in the empty string. */
  lemma EmptyContainsOnlyEmpty(sub: string)
    requires sub != []
    ensures !Contains([], sub)
  {
  }

  /** `Array.prototype.join(sep)` over strings. */
  function Join(parts: seq<string>, sep: string): string
  {
    if |parts| == 0 then []
    else if |parts| == 1 then parts[0]
    else parts[0] + sep + Join(parts[1..], sep)
  }

  /** `toLowerCase` on one character; only the ASCII capitals are mapped. */
  function LowerChar(c: char): char
  {
    if 'A' <= c <= 'Z' then (c as int + 32) as char else c
  }

  /** `s.toLowerCase()`, character by character. */
  function ToLower(s: string): string
  {
    seq(|s|, i requires 0 <= i < |s| => LowerChar(s[i]))
  }

  /** JavaScript's white space and line terminators: what `trim()` drops
      and what the regular-expression class `\s` matches. */
  predicate IsSpace(c: char)
  {
    || c == ' ' || c == '\t' || c == '\n' || c == '\r' || c == '\U{000B}' || c == '\U{000C}'
    || c == '\U{00A0}' || c == '\U{1680}' || '\U{2000}' <= c <= '\U{200A}'
    || c == '\U{2028}' || c == '\U{2029}' || c == '\U{202F}' || c == '\U{205F}'
    || c == '\U{3000}' || c == '\U{FEFF}'
  }

  /** JavaScript's `s.length`: the number of UTF-16 code units, where a
      character beyond U+FFFF takes two. */
  function Utf16Length(s: string): (n: nat)
    ensures |s| <= n <= 2 * |s|
    ensures (forall i :: 0 <= i < |s| ==> s[i] as int <= 0xFFFF) ==> n == |s|
  {
    if s == [] then 0
    else Utf16Length(s[..|s| - 1]) + (if s[|s| - 1] as int > 0xFFFF then 2 else 1)
  }

  /** `s.trim()`: drops leading and trailing white space. */
  function Trim(s: string): string
  {
    TrimEnd(TrimStart(s))
  }

  function TrimStart(s: string): (r: string)
    ensures |r| <= |s| && r == s[|s| - |r|..]
    ensures r == [] || !IsSpace(r[0])
    ensures forall i :: 0 <= i < |s| - |r| ==> IsSpace(s[i])
  {
    if s != [] && IsSpace(s[0]) then TrimStart(s[1..]) else s
  }

  /** Trimming twice trims nothing more. */
  lemma TrimIdempotent(s: string)
    ensures Trim(Trim(s)) == Trim(s)
  {
    var t := Trim(s);
    assert TrimStart(t) == t;
    assert TrimEnd(t) == t;
  }

  function TrimEnd(s: string): (r: string)
    ensures |r| <= |s| && r == s[..|r|]
    ensures r == [] || !IsSpace(r[|r| - 1])
    ensures forall i :: |r| <= i < |s| ==> IsSpace(s[i])
  {
    if s != [] && IsSpace(s[|s| - 1]) then TrimEnd(s[..|s| - 1]) else s
  }

  /** `String(n)` for a natural number: its decimal digits. */
  function NatToString(n: nat): (r: string)
    ensures |r| >= 1
    ensures forall i :: 0 <= i < |r| ==> '0' <= r[i] <= '9'
    ensures n >= 10 ==> |r| >= 2
    decreases n
  {
    if n < 10 then [Digit(n)] else NatToString(n / 10) + [Digit(n % 10)]
  }

  function Digit(d: nat): (c: char)
    requires d < 10
    ensures '0' <= c <= '9'
  {
    ('0' as int + d) as char
  }

  /** Different numbers are written differently. */
  lemma {:induction false} NatToStringInjective(m: nat, n: nat)
    requires NatToString(m) == NatToString(n)
    ensures m == n
    decreases m
  {
    var sm, sn := NatToString(m), NatToString(n);
    if m < 10 && n < 10 {
      assert sm[0] == sn[0];
    } else if m >= 10 && n >= 10 {
      assert sm[|sm| - 1] == sn[|sn| - 1];
      assert m % 10 == n % 10;
      assert NatToString(m / 10) == sm[..|sm| - 1] == sn[..|sn| - 1] == NatToString(n / 10);
      NatToStringInjective(m / 10, n / 10);
    }
  }

  /** Every character of a phrase that occurs in `s` occurs in `s`. */
  lemma {:induction false} ContainedCharsOccur(s: string, sub: string)
    requires Contains(s, sub)
    ensures forall c :: c in sub ==> c in s
    decreases |s|
  {
    if s[..|sub|] != sub {
      ContainedCharsOccur(s[1..], sub);
    }
  }

  /** A phrase holding a character the text lacks does not occur in it. */
  lemma AbsentCharRulesOut(s: string, sub: string, c: char)
    requires c in sub && c !in s
    ensures !Contains(s, sub)
  {
    if Contains(s, sub) {
      ContainedCharsOccur(s, sub);
    }
  }

  /** No two adjacent characters of `s` are `x` followed by `y`. */
  predicate PairFree(s: string, x: char, y: char)
  {
    forall i :: 0 <= i < |s| - 1 ==> !(s[i] == x && s[i + 1] == y)
  }

  lemma PairFreeAppend(a: string, b: string, x: char, y: char)
    requires PairFree(a, x, y) && PairFree(b, x, y)
    requires a == [] || b == [] || !(a[|a| - 1] == x && b[0] == y)
    ensures PairFree(a + b, x, y)
  {
    var s := a + b;
    forall i | 0 <= i < |s| - 1
      ensures !(s[i] == x && s[i + 1] == y)
    {
      if i + 1 < |a| {
        assert s[i] == a[i] && s[i + 1] == a[i + 1];
      } else if i >= |a| {
        assert s[i] == b[i - |a|] && s[i + 1] == b[i + 1 - |a|];
      }
    }
  }

  /** A text holding a phrase holds each adjacent pair of the phrase. */
  lemma ContainedPairsOccur(s: string, sub: string, j: nat)
    requires j + 1 < |sub|
    requires Contains(s, sub)
    ensures !PairFree(s, sub[j], sub[j + 1])
  {
    ContainsIffOccurs(s, sub);
    var i: nat :| OccursAt(s, sub, i);
    assert s[i + j] == sub[j] && s[i + j + 1] == sub[j + 1];
  }

  /** A phrase holding the adjacent pair `sub[j] sub[j+1]` does not occur in
      a text free of that pair. */
  lemma AbsentPairRulesOut(s: string, sub: string, j: nat)
    requires j + 1 < |sub|
    requires PairFree(s, sub[j], sub[j + 1])
    ensures !Contains(s, sub)
  {
    if Contains(s, sub) {
      ContainedPairsOccur(s, sub, j);
    }
  }

  /** `toLowerCase` works piece by piece. */
  lemma ToLowerAppend(a: string, b: string)
    ensures ToLower(a + b) == ToLower(a) + ToLower(b)
  {
  }

  // ---------------------------------------------------------------------
  // parseInt

  /** The value of a digit in bases up to 36 (either letter case); 36 for
      any other character. */
  function DigitValue(c: char): (v: nat)
    ensures v <= 36
    ensures '0' <= c <= '9' ==> v == c as int - '0' as int
  {
    if '0' <= c <= '9' then c as int - '0' as int
    else if 'a' <= c <= 'z' then c as int - 'a' as int + 10
    else if 'A' <= c <= 'Z' then c as int - 'A' as int + 10
    else 36
  }

  /** The length of the longest prefix of `s` made of digits below `radix`. */
  function DigitRun(s: string, radix: nat): (k: nat)
    ensures k <= |s|
    ensures forall i :: 0 <= i < k ==> DigitValue(s[i]) < radix
    ensures k < |s| ==> DigitValue(s[k]) >= radix
  {
    if s == [] || DigitValue(s[0]) >= radix then 0 else 1 + DigitRun(s[1..], radix)
  }

  /** The number the digits of `s` spell in base `radix`. */
  function DigitsValue(s: string, radix: nat): nat
  {
    if s == [] then 0 else DigitsValue(s[..|s| - 1], radix) * radix + DigitValue(s[|s| - 1])
  }

  /** JavaScript's `parseInt(s)` without a radix: leading white space is
      skipped, one sign is read, and what follows is read as an unsigned
      number; no digit at all is NaN, here `None`. */
  function ParseInt(s: string): (r: Option<int>)
    ensures TrimStart(s) == [] ==> r.None?
    ensures r.Some? && r.value < 0 ==> TrimStart(s)[0] == '-'
  {
    ParseSigned(TrimStart(s))
  }

  /** One optional sign, then the unsigned number. */
  function ParseSigned(t: string): (r: Option<int>)
  {
    var signed := t != [] && (t[0] == '-' || t[0] == '+');
    var negative := t != [] && t[0] == '-';
    match ParseUnsigned(if signed then t[1..] else t)
    case Some(n) => Some(if negative then 0 - n else n as int)
    case None => None
  }

  /** A `0x`/`0X` prefix selects base 16, otherwise base 10. */
  function ParseUnsigned(u: string): (r: Option<nat>)
  {
    if HexPrefixed(u) then LeadingNumber(u[2..], 16) else LeadingNumber(u, 10)
  }

  predicate HexPrefixed(u: string)
  {
    |u| >= 2 && u[0] == '0' && (u[1] == 'x' || u[1] == 'X')
  }

  /** The longest run of digits below `radix` at the start of `v`, read as
      a number; nothing when `v` does not start with such a digit. */
  function LeadingNumber(v: string, radix: nat): (r: Option<nat>)
  {
    var k := DigitRun(v, radix);
    if k == 0 then None else Some(DigitsValue(v[..k], radix))
  }

  /** A run of digits stops at the first character that is not one. */
  lemma {:induction false} DigitRunStops(d: string, tail: string, radix: nat)
    requires forall i :: 0 <= i < |d| ==> DigitValue(d[i]) < radix
    requires tail == [] || DigitValue(tail[0]) >= radix
    ensures DigitRun(d + tail, radix) == |d|
  {
    if d != [] {
      assert (d + tail)[1..] == d[1..] + tail;
      DigitRunStops(d[1..], tail, radix);
    }
  }

  /** The decimal digits of `n` spell `n`. */
  lemma {:induction false} DecimalDigitsValue(n: nat)
    ensures DigitsValue(NatToString(n), 10) == n
    decreases n
  {
    var d := NatToString(n);
    if n >= 10 {
      assert d[..|d| - 1] == NatToString(n / 10);
      DecimalDigitsValue(n / 10);
    }
  }

  /** A non-empty run of digits followed by a non-digit is read whole. */
  lemma LeadingNumberOf(d: string, tail: string, radix: nat)
    requires d != []
    requires forall i :: 0 <= i < |d| ==> DigitValue(d[i]) < radix
    requires tail == [] || DigitValue(tail[0]) >= radix
    ensures LeadingNumber(d + tail, radix) == Some(DigitsValue(d, radix))
  {
    DigitRunStops(d, tail, radix);
    assert (d + tail)[..|d|] == d;
  }

  /** The unsigned reading of decimal digits followed by something that
      is neither a digit nor an `x`. */
  lemma UnsignedReadsDecimal(n: nat, tail: string)
    requires tail == [] || (DigitValue(tail[0]) >= 10 && tail[0] != 'x' && tail[0] != 'X')
    ensures ParseUnsigned(NatToString(n) + tail) == Some(n)
  {
    var d := NatToString(n);
    var u := d + tail;
    assert !HexPrefixed(u) by {
      if |u| >= 2 {
        assert u[1] == if |d| >= 2 then d[1] else tail[0];
      }
    }
    forall i | 0 <= i < |d|
      ensures DigitValue(d[i]) < 10
    {
      assert '0' <= d[i] <= '9';
    }
    LeadingNumberOf(d, tail, 10);
    DecimalDigitsValue(n);
  }

  /** `parseInt` reads back a number written in decimal, whatever follows
      it, as long as what follows is not a digit and not an `x` that would
      turn a leading `0` into a hexadecimal prefix. */
  lemma ParseIntReadsDecimal(n: nat, tail: string)
    requires tail == [] || (DigitValue(tail[0]) >= 10 && tail[0] != 'x' && tail[0] != 'X')
    ensures ParseInt(NatToString(n) + tail) == Some(n)
  {
    var u := NatToString(n) + tail;
    assert '0' <= u[0] <= '9';
    StartsWithoutSpace(u);
    UnsignedReadsDecimal(n, tail);
  }

  lemma StartsWithoutSpace(s: string)
    requires s != [] && !IsSpace(s[0])
    ensures TrimStart(s) == s
  {
  }

  /** A minus sign negates the number that follows it. */
  lemma ParseIntReadsNegative(n: nat, tail: string)
    requires tail == [] || (DigitValue(tail[0]) >= 10 && tail[0] != 'x' && tail[0] != 'X')
    ensures ParseInt("-" + NatToString(n) + tail) == Some(0 - n)
  {
    var u := NatToString(n) + tail;
    AppendAssoc("-", NatToString(n), tail);
    UnsignedReadsDecimal(n, tail);
    MinusNegates(u, n);
  }

  lemma AppendAssoc(a: string, b: string, c: string)
    ensures a + b + c == a + (b + c)
  {
  }

  /** `parseInt` of a minus sign and an unsigned text. */
  lemma MinusNegates(u: string, n: nat)
    requires ParseUnsigned(u) == Some(n)
    ensures ParseInt("-" + u) == Some(0 - n)
  {
    var t := "-" + u;
    assert t[0] == '-';
    StartsWithoutSpace(t);
    assert t[1..] == u;
  }

  /** Leading white space does not change what `parseInt` reads. */
  lemma ParseIntSkipsSpace(c: char, s: string)
    requires IsSpace(c)
    ensures ParseInt([c] + s) == ParseInt(s)
  {
    assert ([c] + s)[1..] == s;
  }

  /** A text with no digit where the number should start is NaN. */
  lemma ParseIntNoDigits(s: string)
    requires s != [] && !IsSpace(s[0]) && DigitValue(s[0]) >= 10 && s[0] != '-' && s[0] != '+'
    ensures ParseInt(s) == None
  {
    assert TrimStart(s) == s;
  }
}
