/** The JavaScript string operations the console relies on: `startsWith`, `indexOf`,
    `split` with a string separator, `includes`, ASCII case mapping, `Number#toString` on
    integers and `parseInt(s, 10)`. Strings are sequences of characters. */
module Strings {
  import opened Wrappers

  predicate StartsWith(s: string, prefix: string) {
    |prefix| <= |s| && s[..|prefix|] == prefix
  }

  /** `sub` occurs in `s` starting at index `i`. */
  predicate OccursAt(s: string, sub: string, i: nat) {
    i + |sub| <= |s| && s[i..i + |sub|] == sub
  }

  /** The first index at or after `from` where `sub` occurs. */
  function IndexOfFrom(s: string, sub: string, from: nat): (r: Option<nat>)
    requires from <= |s|
    ensures r.Some? ==> from <= r.value && OccursAt(s, sub, r.value)
    ensures r.Some? ==> forall j :: from <= j < r.value ==> !OccursAt(s, sub, j)
    ensures r.None? ==> forall j :: from <= j <= |s| ==> !OccursAt(s, sub, j)
    decreases |s| - from
  {
    if OccursAt(s, sub, from) then Some(from)
    else if from == |s| then None
    else IndexOfFrom(s, sub, from + 1)
  }

  /** `s.indexOf(sub)`, with `None` for -1. */
  function IndexOf(s: string, sub: string): Option<nat> {
    IndexOfFrom(s, sub, 0)
  }

  /** `s.includes(sub)`. */
  predicate Includes(s: string, sub: string) {
    IndexOf(s, sub).Some?
  }

  /** `s.split(sep)` for a non-empty separator: the pieces between the occurrences of
      `sep`, found left to right. */
  function Split(s: string, sep: string): (parts: seq<string>)
    requires |sep| > 0
    ensures |parts| >= 1
    decreases |s|
  {
    match IndexOf(s, sep)
    case None => [s]
    case Some(i) => [s[..i]] + Split(s[i + |sep|..], sep)
  }

  /** `parts.join(sep)`. */
  function Join(parts: seq<string>, sep: string): string
    decreases |parts|
  {
    if parts == [] then ""
    else if |parts| == 1 then parts[0]
    else parts[0] + sep + Join(parts[1..], sep)
  }

  /** Splitting and joining again with the same separator gives back the string. */
  lemma {:induction false} JoinSplit(s: string, sep: string)
    requires |sep| > 0
    ensures Join(Split(s, sep), sep) == s
    decreases |s|
  {
    match IndexOf(s, sep)
    case None =>
    case Some(i) =>
      var rest := Split(s[i + |sep|..], sep);
      JoinSplit(s[i + |sep|..], sep);
      assert Split(s, sep) == [s[..i]] + rest;
      assert ([s[..i]] + rest)[1..] == rest;
      assert s == s[..i] + sep + s[i + |sep|..];
  }

  /** Searching from before the first occurrence finds it. */
  lemma {:induction false} IndexOfFirst(s: string, sub: string, from: nat, i: nat)
    requires from <= i && OccursAt(s, sub, i)
    requires forall j :: from <= j < i ==> !OccursAt(s, sub, j)
    ensures IndexOfFrom(s, sub, from) == Some(i)
    decreases i - from
  {
    if from < i {
      assert !OccursAt(s, sub, from);
      IndexOfFirst(s, sub, from + 1, i);
    }
  }

  /** Where the first occurrence of the separator is known, the first piece ends there and the
      rest of the pieces are those of what follows it. */
  lemma SplitAtFirst(s: string, sep: string, i: nat)
    requires |sep| > 0 && OccursAt(s, sep, i)
    requires forall j :: 0 <= j < i ==> !OccursAt(s, sep, j)
    ensures Split(s, sep) == [s[..i]] + Split(s[i + |sep|..], sep)
    ensures |Split(s, sep)| >= 2 && Split(s, sep)[1] == Split(s[i + |sep|..], sep)[0]
  {
    IndexOfFirst(s, sep, 0, i);
    var rest := Split(s[i + |sep|..], sep);
    assert Split(s, sep) == [s[..i]] + rest;
    assert ([s[..i]] + rest)[1] == rest[0];
  }

  /** The first piece of a split is the text up to the first occurrence of the separator. */
  lemma SplitHead(s: string, sep: string)
    requires |sep| > 0
    ensures Split(s, sep)[0] == s[..IndexOf(s, sep).GetOr(|s|)]
  {
  }

  /** `s.split(sep).pop()`: the last piece of the split. */
  function LastPiece(s: string, sep: string): string
    requires |sep| > 0
  {
    var parts := Split(s, sep);
    parts[|parts| - 1]
  }

  /** Past the first separator, the last piece is that of the rest of the string. */
  lemma LastPieceOfRest(s: string, sep: string, i: nat)
    requires |sep| > 0 && IndexOf(s, sep) == Some(i)
    ensures LastPiece(s, sep) == LastPiece(s[i + |sep|..], sep)
  {
    var rest := Split(s[i + |sep|..], sep);
    assert Split(s, sep) == [s[..i]] + rest;
  }

  /** The last piece is a suffix of the string that contains no separator. */
  lemma {:induction false} LastPieceSuffix(s: string, sep: string)
    requires |sep| > 0
    ensures var r := LastPiece(s, sep);
      |r| <= |s| && s[|s| - |r|..] == r && !Includes(r, sep)
    decreases |s|
  {
    match IndexOf(s, sep)
    case None =>
      assert Split(s, sep) == [s];
    case Some(i) =>
      var t := s[i + |sep|..];
      LastPieceOfRest(s, sep, i);
      LastPieceSuffix(t, sep);
      var r := LastPiece(t, sep);
      assert s[|s| - |r|..] == t[|t| - |r|..];
  }

  /** A slice counted from the end of a suffix is the same slice of the whole. */
  lemma SliceFromEnd(s: string, k: nat, a: nat, b: nat)
    requires k <= |s| && b <= a <= |s| - k
    ensures s[|s| - a..|s| - b] == s[k..][|s| - k - a..|s| - k - b]
  {
  }

  /** When the separator occurs, the last piece is preceded by one. */
  lemma {:induction false} LastPiecePreceded(s: string, sep: string)
    requires |sep| > 0 && IndexOf(s, sep).Some?
    ensures var r := LastPiece(s, sep);
      |r| + |sep| <= |s| && s[|s| - |r| - |sep|..|s| - |r|] == sep
    decreases |s|
  {
    var i := IndexOf(s, sep).value;
    assert OccursAt(s, sep, i);
    var t := s[i + |sep|..];
    LastPieceOfRest(s, sep, i);
    var r := LastPiece(t, sep);
    if IndexOf(t, sep).None? {
      assert Split(t, sep) == [t];
      assert r == t;
      assert |s| - |r| - |sep| == i;
    } else {
      LastPiecePreceded(t, sep);
      assert |t| == |s| - i - |sep|;
      SliceFromEnd(s, i + |sep|, |r| + |sep|, |r|);
    }
  }

  /** The last piece is the text after the last occurrence of the separator, or the whole
      string when the separator does not occur: a suffix of the string that contains no
      separator and, when shorter than the string, is preceded by one. */
  lemma LastPieceSpec(s: string, sep: string)
    requires |sep| > 0
    ensures var r := LastPiece(s, sep);
      && |r| <= |s| && s[|s| - |r|..] == r
      && !Includes(r, sep)
      && (IndexOf(s, sep).None? ==> r == s)
      && (IndexOf(s, sep).Some? ==> |r| + |sep| <= |s| && s[|s| - |r| - |sep|..|s| - |r|] == sep)
  {
    LastPieceSuffix(s, sep);
    if IndexOf(s, sep).Some? {
      LastPiecePreceded(s, sep);
    } else {
      assert Split(s, sep) == [s];
    }
  }

  /** A string without the one-character separator is a single piece. */
  lemma SplitWithoutChar(s: string, sep: string)
    requires |sep| > 0 && forall j :: 0 <= j < |s| ==> s[j] != sep[0]
    ensures IndexOf(s, sep) == None && Split(s, sep) == [s]
  {
    forall j | 0 <= j <= |s|
      ensures !OccursAt(s, sep, j)
    {
      if j + |sep| <= |s| {
        assert s[j..j + |sep|][0] == s[j];
      }
    }
  }

  /** For a one-character separator, the last piece of `x + sep + y` is `y` whenever `y`
      holds no separator, whatever `x` holds. */
  lemma {:induction false} LastPieceAfterSeparator(x: string, sep: string, y: string)
    requires |sep| == 1 && forall j :: 0 <= j < |y| ==> y[j] != sep[0]
    ensures LastPiece(x + sep + y, sep) == y
    decreases |x|
  {
    var s := x + sep + y;
    assert OccursAt(s, sep, |x|) by { assert s[|x|..|x| + 1] == sep; }
    var k := IndexOf(s, sep).value;
    assert k <= |x|;
    LastPieceOfRest(s, sep, k);
    if k == |x| {
      assert s[k + 1..] == y;
      SplitWithoutChar(y, sep);
    } else {
      var x' := x[k + 1..];
      assert s[k + 1..] == x' + sep + y;
      LastPieceAfterSeparator(x', sep, y);
    }
  }

  // ---- ASCII case mapping (`toUpperCase` / `toLowerCase` on ASCII letters) ----

  function UpperChar(c: char): char {
    if 'a' <= c <= 'z' then (c as int - 32) as char else c
  }

  function LowerChar(c: char): char {
    if 'A' <= c <= 'Z' then (c as int + 32) as char else c
  }

  function ToUpper(s: string): (r: string)
    ensures |r| == |s| && forall i :: 0 <= i < |s| ==> r[i] == UpperChar(s[i])
  {
    seq(|s|, i requires 0 <= i < |s| => UpperChar(s[i]))
  }

  function ToLower(s: string): (r: string)
    ensures |r| == |s| && forall i :: 0 <= i < |s| ==> r[i] == LowerChar(s[i])
  {
    seq(|s|, i requires 0 <= i < |s| => LowerChar(s[i]))
  }

  /** Upper-casing changes exactly the 26 lower-case letters, each into its capital, leaves no
      lower-case letter behind, and is therefore idempotent. */
  lemma UpperCaseSpec(s: string)
    ensures forall i :: 0 <= i < |s| ==> (ToUpper(s)[i] != s[i] <==> 'a' <= s[i] <= 'z')
    ensures forall i :: 0 <= i < |s| && 'a' <= s[i] <= 'z' ==>
      'A' <= ToUpper(s)[i] <= 'Z' && LowerChar(ToUpper(s)[i]) == s[i]
    ensures forall i :: 0 <= i < |s| ==> !('a' <= ToUpper(s)[i] <= 'z')
    ensures ToUpper(ToUpper(s)) == ToUpper(s)
  {
  }

  /** Lower-casing changes exactly the 26 capital letters, each into its lower-case letter,
      leaves no capital behind, and is therefore idempotent. */
  lemma LowerCaseSpec(s: string)
    ensures forall i :: 0 <= i < |s| ==> (ToLower(s)[i] != s[i] <==> 'A' <= s[i] <= 'Z')
    ensures forall i :: 0 <= i < |s| && 'A' <= s[i] <= 'Z' ==>
      'a' <= ToLower(s)[i] <= 'z' && UpperChar(ToLower(s)[i]) == s[i]
    ensures forall i :: 0 <= i < |s| ==> !('A' <= ToLower(s)[i] <= 'Z')
    ensures ToLower(ToLower(s)) == ToLower(s)
  {
  }

  /** Lower-casing forgets an earlier upper-casing: the two spellings compare equal. */
  lemma LowerOfUpper(s: string)
    ensures ToLower(ToUpper(s)) == ToLower(s)
  {
    assert forall i :: 0 <= i < |s| ==> LowerChar(UpperChar(s[i])) == LowerChar(s[i]);
  }

  lemma UpperOfLower(s: string)
    ensures ToUpper(ToLower(s)) == ToUpper(s)
  {
    assert forall i :: 0 <= i < |s| ==> UpperChar(LowerChar(s[i])) == UpperChar(s[i]);
  }

  // ---- Numbers as text ----

  predicate IsDigit(c: char) { '0' <= c <= '9' }

  function DigitChar(d: nat): (c: char)
    requires d < 10
    ensures IsDigit(c)
  {
    ('0' as int + d) as char
  }

  function DigitValue(c: char): nat
    requires IsDigit(c)
  {
    c as int - '0' as int
  }

  /** The decimal digits of `n`, most significant first, without leading zeros. */
  function NatToString(n: nat): (s: string)
    ensures |s| >= 1 && forall i :: 0 <= i < |s| ==> IsDigit(s[i])
    decreases n
  {
    if n < 10 then [DigitChar(n)] else NatToString(n / 10) + [DigitChar(n % 10)]
  }

  /** `n.toString()` for an integer `n`. */
  function IntToString(n: int): string {
    if n < 0 then "-" + NatToString(-n) else NatToString(n)
  }

  /** `b.toString()`. */
  function BoolToString(b: bool): string {
    if b then "true" else "false"
  }

  /** The value of a string of decimal digits, most significant first. */
  function DigitsValue(ds: string): nat
    requires forall i :: 0 <= i < |ds| ==> IsDigit(ds[i])
    decreases |ds|
  {
    if ds == [] then 0 else DigitsValue(ds[..|ds| - 1]) * 10 + DigitValue(ds[|ds| - 1])
  }

  /** The number of leading decimal digits of `s`. */
  function LeadingDigits(s: string): (k: nat)
    ensures k <= |s| && forall i :: 0 <= i < k ==> IsDigit(s[i])
    ensures k < |s| ==> !IsDigit(s[k])
    decreases |s|
  {
    if s != [] && IsDigit(s[0]) then 1 + LeadingDigits(s[1..]) else 0
  }

  /** The characters `parseInt` skips before the number: the ECMAScript WhiteSpace
      (TAB, VT, FF, ZWNBSP and the Space_Separator category) and LineTerminator characters. */
  predicate IsJsWhiteSpace(c: char) {
    c == '\t' || c == '\U{000B}' || c == '\U{000C}' || c == ' ' || c == '\U{00A0}' || c == '\U{FEFF}'
    || c == '\U{1680}' || ('\U{2000}' <= c <= '\U{200A}') || c == '\U{202F}' || c == '\U{205F}'
    || c == '\U{3000}' || c == '\n' || c == '\r' || c == '\U{2028}' || c == '\U{2029}'
  }

  function TrimStart(s: string): (t: string)
    ensures |t| <= |s| && t == s[|s| - |t|..]
    ensures t != [] ==> !IsJsWhiteSpace(t[0])
    decreases |s|
  {
    if s != [] && IsJsWhiteSpace(s[0]) then TrimStart(s[1..]) else s
  }

  /** The value of the leading run of digits, `None` when there is none. */
  function ParseDigits(body: string): Option<int> {
    var k := LeadingDigits(body);
    if k == 0 then None else Some(DigitsValue(body[..k]) as int)
  }

  /** `parseInt(s, 10)`, with `None` for `NaN`: leading white space is skipped, then an
      optional sign, then the longest run of decimal digits, which must not be empty. */
  function ParseInt10(s: string): Option<int> {
    var t := TrimStart(s);
    if t != [] && t[0] == '-' then
      match ParseDigits(t[1..])
      case None => None
      case Some(v) => Some(-v)
    else if t != [] && t[0] == '+' then ParseDigits(t[1..])
    else ParseDigits(t)
  }

  lemma {:induction false} NatToStringValue(n: nat)
    ensures DigitsValue(NatToString(n)) == n
    decreases n
  {
    var s := NatToString(n);
    if n >= 10 {
      NatToStringValue(n / 10);
      assert s[..|s| - 1] == NatToString(n / 10);
    }
  }

  lemma LeadingDigitsAll(s: string)
    requires forall i :: 0 <= i < |s| ==> IsDigit(s[i])
    ensures LeadingDigits(s) == |s|
  {
  }

  /** A string of digits with nothing before it parses to its own value. */
  lemma {:induction false} ParseIntOfDigits(s: string)
    requires s != [] && forall i :: 0 <= i < |s| ==> IsDigit(s[i])
    ensures ParseInt10(s) == Some(DigitsValue(s) as int)
  {
    assert !IsJsWhiteSpace(s[0]);
    assert TrimStart(s) == s;
    assert s[0] != '-' && s[0] != '+';
    LeadingDigitsAll(s);
    assert s[..|s|] == s;
    assert ParseDigits(s) == Some(DigitsValue(s) as int);
  }

  /** A minus sign followed by digits parses to the negated value. */
  lemma {:induction false} ParseIntOfNegativeDigits(s: string)
    requires s != [] && forall i :: 0 <= i < |s| ==> IsDigit(s[i])
    ensures ParseInt10("-" + s) == Some(-(DigitsValue(s) as int))
  {
    var t := "-" + s;
    assert t[0] == '-';
    assert TrimStart(t) == t;
    assert t[1..] == s;
    LeadingDigitsAll(s);
    assert s[..|s|] == s;
    assert ParseDigits(s) == Some(DigitsValue(s) as int);
    assert ParseDigits(t[1..]) == Some(DigitsValue(s) as int);
  }

  /** `parseInt(n.toString(), 10) === n` for every integer `n`. */
  lemma ParseIntOfToString(n: int)
    ensures ParseInt10(IntToString(n)) == Some(n)
  {
    if n < 0 {
      ParseIntOfNegative(n);
    } else {
      var d := NatToString(n);
      NatToStringValue(n);
      ParseIntOfDigits(d);
    }
  }

  lemma ParseIntOfNegative(n: int)
    requires n < 0
    ensures ParseInt10(IntToString(n)) == Some(n)
  {
    var m: nat := -n;
    var d := NatToString(m);
    assert IntToString(n) == "-" + d;
    NegativeOfDigits(d, m);
  }

  lemma NegativeOfDigits(d: string, m: nat)
    requires d == NatToString(m)
    ensures ParseInt10("-" + d) == Some(-(m as int))
  {
    NatToStringValue(m);
    ParseIntOfNegativeDigits(d);
  }
}
