/** Small shared vocabulary: optional values, error results, and the ASCII
    string operations that the Java and JavaScript sources call
    (toLowerCase, startsWith, indexOf, contains, substring, number printing). */
module Common {

  datatype Option<+T> = None | Some(value: T)

  /** An operation that either yields a value or fails with the message of the
      exception the source throws. */
  datatype Result<+T> = Ok(value: T) | Err(message: string)

  // ---------------------------------------------------------------- characters

  predicate IsUpperAscii(c: char) { 'A' <= c <= 'Z' }
  predicate IsLowerAscii(c: char) { 'a' <= c <= 'z' }
  predicate IsDigit(c: char) { '0' <= c <= '9' }

  function LowerChar(c: char): (r: char)
    ensures !IsUpperAscii(r)
    ensures IsUpperAscii(c) ==> r as int == c as int + 32
    ensures !IsUpperAscii(c) ==> r == c
  {
    if IsUpperAscii(c) then (c as int + 32) as char else c
  }

  function UpperChar(c: char): (r: char)
    ensures !IsLowerAscii(r)
    ensures IsLowerAscii(c) ==> r as int == c as int - 32
    ensures !IsLowerAscii(c) ==> r == c
  {
    if IsLowerAscii(c) then (c as int - 32) as char else c
  }

  function DigitChar(d: nat): (c: char)
    requires d < 10
    ensures IsDigit(c) && DigitValue(c) == d
  {
    ('0' as int + d) as char
  }

  function DigitValue(c: char): (d: nat)
    requires IsDigit(c)
    ensures d < 10
  {
    c as int - '0' as int
  }

  // ---------------------------------------------------------------- strings

  /** `String.toLowerCase` restricted to ASCII letters. */
  function ToLower(s: string): (r: string)
    ensures |r| == |s|
    ensures forall i :: 0 <= i < |s| ==> r[i] == LowerChar(s[i])
  {
    if s == [] then [] else [LowerChar(s[0])] + ToLower(s[1..])
  }

  /** `String.toUpperCase` restricted to ASCII letters. */
  function ToUpper(s: string): (r: string)
    ensures |r| == |s|
    ensures forall i :: 0 <= i < |s| ==> r[i] == UpperChar(s[i])
  {
    if s == [] then [] else [UpperChar(s[0])] + ToUpper(s[1..])
  }

  predicate EqualsIgnoreCase(a: string, b: string)
  {
    ToLower(a) == ToLower(b)
  }

  predicate StartsWith(s: string, prefix: string)
  {
    |prefix| <= |s| && s[..|prefix|] == prefix
  }

  /** `sub` occurs in `s` at position `i`. */
  predicate OccursAt(s: string, sub: string, i: int)
  {
    0 <= i && i + |sub| <= |s| && s[i..i + |sub|] == sub
  }

  /** The first position at or after `from` where `sub` occurs. */
  function IndexOfFrom(s: string, sub: string, from: nat): (r: Option<nat>)
    requires from <= |s|
    ensures r.Some? ==> from <= r.value && OccursAt(s, sub, r.value)
    ensures r.Some? ==> forall j :: from <= j < r.value ==> !OccursAt(s, sub, j)
    ensures r.None? ==> forall j :: from <= j ==> !OccursAt(s, sub, j)
    decreases |s| - from
  {
    if from + |sub| > |s| then None
    else if s[from..from + |sub|] == sub then Some(from)
    else if from == |s| then None
    else IndexOfFrom(s, sub, from + 1)
  }

  /** `String.indexOf`: the first occurrence of `sub` in `s`. */
  function IndexOf(s: string, sub: string): (r: Option<nat>)
    ensures r.Some? ==> OccursAt(s, sub, r.value)
    ensures r.Some? ==> forall j :: 0 <= j < r.value ==> !OccursAt(s, sub, j)
    ensures r.None? ==> forall j :: !OccursAt(s, sub, j)
  {
    IndexOfFrom(s, sub, 0)
  }

  /** `String.contains` / JavaScript `includes`. */
  predicate Contains(s: string, sub: string)
  {
    IndexOf(s, sub).Some?
  }

  lemma ContainsAt(s: string, sub: string, i: int)
    requires OccursAt(s, sub, i)
    ensures Contains(s, sub)
  {
  }

  /** If some character of `sub` never appears in `s`, then `sub` does not occur in `s`. */
  lemma {:induction false} MissingCharNotContained(s: string, sub: string, k: nat)
    requires k < |sub|
    requires forall j :: 0 <= j < |s| ==> s[j] != sub[k]
    ensures !Contains(s, sub)
  {
    forall i | 0 <= i && i + |sub| <= |s|
      ensures !OccursAt(s, sub, i)
    {
      assert s[i..i + |sub|][k] == s[i + k] != sub[k];
    }
  }

  /** A one-character string that does not occur before position `n` means
      the character is absent from the first `n` characters. */
  lemma CharBeforeFirstOccurrence(s: string, c: char, n: nat)
    requires n <= |s|
    requires forall j :: 0 <= j < n ==> !OccursAt(s, [c], j)
    ensures c !in s[..n]
  {
    forall j | 0 <= j < n ensures s[j] != c {
      assert s[j..j + 1] == [s[j]];
      assert !OccursAt(s, [c], j);
    }
  }

  /** A character that does not occur in `a` is first found right after it. */
  lemma FirstOccurrenceAfter(a: string, c: char, b: string)
    requires c !in a
    ensures IndexOf(a + [c] + b, [c]) == Some(|a|)
  {
    var s := a + [c] + b;
    assert s[|a|..|a| + 1] == [c];
    forall j | 0 <= j < |a| ensures !OccursAt(s, [c], j) {
      assert s[j..j + 1] == [a[j]];
    }
    assert OccursAt(s, [c], |a|);
    var r := IndexOf(s, [c]);
    assert r.Some?;
    assert !(r.value < |a|) && !(r.value > |a|);
  }

  /** JavaScript `substring(from, to)` for `0 <= from <= to`: indices past the end are clamped. */
  function Substring(s: string, from: nat, to: nat): (r: string)
    requires from <= to
    ensures |r| == (if to <= |s| then to else |s|) - (if from <= |s| then from else |s|)
    ensures forall i :: 0 <= i < |r| ==> r[i] == s[from + i]
  {
    var a := if from <= |s| then from else |s|;
    var b := if to <= |s| then to else |s|;
    s[a..b]
  }

  /** `String.replace(from, to)` for single characters. */
  function ReplaceChar(s: string, from: char, to: char): (r: string)
    ensures |r| == |s|
    ensures forall i :: 0 <= i < |s| ==> r[i] == (if s[i] == from then to else s[i])
  {
    if s == [] then [] else [if s[0] == from then to else s[0]] + ReplaceChar(s[1..], from, to)
  }

  // ---------------------------------------------------------------- numbers

  /** Decimal text of a natural number, as Java and JavaScript print it. */
  function NatToString(n: nat): (r: string)
    ensures |r| >= 1
    ensures forall i :: 0 <= i < |r| ==> IsDigit(r[i])
    decreases n
  {
    if n < 10 then [DigitChar(n)] else NatToString(n / 10) + [DigitChar(n % 10)]
  }

  /** Decimal value of a string of digits (most significant first). */
  function DigitsValue(s: string): (n: nat)
    requires forall i :: 0 <= i < |s| ==> IsDigit(s[i])
  {
    if s == [] then 0 else DigitsValue(s[..|s| - 1]) * 10 + DigitValue(s[|s| - 1])
  }

  /** Printing a number and reading its digits back gives the number. */
  lemma {:induction false} NatToStringRoundTrip(n: nat)
    ensures DigitsValue(NatToString(n)) == n
    decreases n
  {
    var s := NatToString(n);
    if n >= 10 {
      NatToStringRoundTrip(n / 10);
      assert s[..|s| - 1] == NatToString(n / 10);
    }
  }

  /** Decimal text of an integer, with a leading '-' for negatives. */
  function IntToString(i: int): (r: string)
    ensures |r| >= 1
    ensures i >= 0 ==> r == NatToString(i)
    ensures i < 0 ==> r == "-" + NatToString(-i)
  {
    if i < 0 then "-" + NatToString(-i) else NatToString(i)
  }

  lemma SmallIntToString(i: int)
    requires 0 <= i < 10
    ensures IntToString(i) == [DigitChar(i)]
  {
  }

  /** A 16-bit character code as JavaScript's `String.fromCharCode` and Java's
      `(char)` cast produce it. A lone surrogate cannot be a Dafny `char`, so
      those 2048 codes become U+FFFD. */
  function CodeUnitChar(n: int): (c: char)
    ensures 0 <= n < 0xD800 ==> c as int == n
  {
    var u := n % 0x1_0000;
    if 0xD800 <= u < 0xE000 then '�' else u as char
  }

  /** Java's `x != null ? x : fallback` on an optional string. */
  function OrElse(x: Option<string>, fallback: string): (s: string)
    ensures x.Some? ==> s == x.value
    ensures x.None? ==> s == fallback
  {
    if x.Some? then x.value else fallback
  }

  /** Some element of a non-empty set, as a witness for a later choice. */
  lemma MemberOf<T>(s: set<T>) returns (x: T)
    requires s != {}
    ensures x in s
  {
    x :| x in s;
  }
}
