/** Splitting, joining and reading numbers, as the standard library does them. */
module Text {

  // ----------------------------------------------------------- split and join

  /** The position of the first `c`, or the length when there is none. */
  function Index(s: string, c: char): (i: nat)
    ensures i <= |s|
    ensures c !in s[..i]
    ensures i < |s| ==> s[i] == c
    ensures i == |s| <==> c !in s
  {
    if |s| == 0 then 0 else if s[0] == c then 0 else 1 + Index(s[1..], c)
  }

  function Split(s: string, sep: char): (parts: seq<string>)
    ensures |parts| > 0
    decreases |s|
  {
    var i := Index(s, sep);
    if i == |s| then [s] else [s[..i]] + Split(s[i + 1..], sep)
  }

  function Join(parts: seq<string>, sep: char): string {
    if |parts| == 0 then ""
    else if |parts| == 1 then parts[0]
    else parts[0] + [sep] + Join(parts[1..], sep)
  }

  predicate NoneHas(parts: seq<string>, c: char) {
    forall i | 0 <= i < |parts| :: c !in parts[i]
  }

  lemma IndexAfter(a: string, c: char, rest: string)
    requires c !in a
    ensures Index(a + [c] + rest, c) == |a|
    ensures Index(a, c) == |a|
  {
    var s := a + [c] + rest;
    assert s[|a|] == c && c in s;
    assert s[..|a|] == a;
  }

  lemma SplitStep(s: string, sep: char)
    ensures var i := Index(s, sep); Split(s, sep) == if i == |s| then [s] else [s[..i]] + Split(s[i + 1..], sep)
  {
  }

  /** A part without the separator, put in front, is the first part. */
  lemma SplitCons(part: string, sep: char, rest: string)
    requires sep !in part
    ensures Split(part + [sep] + rest, sep) == [part] + Split(rest, sep)
  {
    hide Split;
    var s := part + [sep] + rest;
    IndexAfter(part, sep, rest);
    SplitStep(s, sep);
    assert s[..|part|] == part && s[|part| + 1..] == rest;
  }

  /** Splitting undoes joining parts that do not contain the separator. */
  lemma {:induction false} SplitJoin(parts: seq<string>, sep: char)
    requires |parts| > 0 && NoneHas(parts, sep)
    ensures Split(Join(parts, sep), sep) == parts
  {
    if |parts| == 1 {
      assert Index(parts[0], sep) == |parts[0]|;
    } else {
      var rest := Join(parts[1..], sep);
      IndexAfter(parts[0], sep, rest);
      var s := parts[0] + [sep] + rest;
      assert s[..|parts[0]|] == parts[0] && s[|parts[0]| + 1..] == rest;
      SplitJoin(parts[1..], sep);
    }
  }

  // ------------------------------------------------------------------ numbers

  const MAX_INT := 0x7FFF_FFFF_FFFF_FFFF
  const MIN_INT := -0x8000_0000_0000_0000

  /** A number, a text that is none, or one that does not fit 64 bits, with what it is cut to. */
  datatype Number = Parsed(n: int) | NotANumber | OutOfRange(cut: int)

  predicate IsDigit(c: char) {
    '0' <= c <= '9'
  }

  predicate AllDigits(s: string) {
    forall i | 0 <= i < |s| :: IsDigit(s[i])
  }

  function Value(s: string): nat
    requires AllDigits(s)
  {
    if |s| == 0 then 0 else 10 * Value(s[..|s| - 1]) + (s[|s| - 1] as int - '0' as int)
  }

  function Atoi(s: string): Number {
    var signed := |s| > 0 && (s[0] == '+' || s[0] == '-');
    var digits := if signed then s[1..] else s;
    if |digits| == 0 || !AllDigits(digits) then NotANumber
    else
      var v: int := if signed && s[0] == '-' then 0 - Value(digits) as int else Value(digits);
      if v > MAX_INT then OutOfRange(MAX_INT) else if v < MIN_INT then OutOfRange(MIN_INT) else Parsed(v)
  }

  function Digit(d: nat): char
    requires d < 10
  {
    ('0' as int + d) as char
  }

  function Print(n: nat): (s: string)
    ensures |s| > 0 && AllDigits(s)
  {
    if n < 10 then [Digit(n)] else Print(n / 10) + [Digit(n % 10)]
  }

  lemma {:induction false} ValueOfPrint(n: nat)
    ensures Value(Print(n)) == n
  {
    if n < 10 {
      assert Print(n)[..0] == "";
    } else {
      ValueOfPrint(n / 10);
      assert Print(n)[..|Print(n)| - 1] == Print(n / 10);
    }
  }

  /** A printed number reads back, if it fits. */
  lemma AtoiOfPrint(n: nat)
    ensures Atoi(Print(n)) == if n <= MAX_INT then Parsed(n) else OutOfRange(MAX_INT)
  {
    ValueOfPrint(n);
    assert IsDigit(Print(n)[0]);
  }

  datatype Sign = NoSign | Plus | Minus

  /** A number as it can be written: a sign or none, leading zeros, and its digits. */
  datatype Numeral = Numeral(sign: Sign, zeros: nat, digits: nat)

  function SignText(sign: Sign): string {
    match sign
    case NoSign => ""
    case Plus => "+"
    case Minus => "-"
  }

  function Zeros(k: nat): (s: string)
    ensures |s| == k && forall i | 0 <= i < k :: s[i] == '0'
  {
    if k == 0 then "" else ['0'] + Zeros(k - 1)
  }

  function Spell(x: Numeral): string {
    SignText(x.sign) + (Zeros(x.zeros) + Print(x.digits))
  }

  function ValueOf(x: Numeral): int {
    if x.sign.Minus? then 0 - x.digits as int else x.digits
  }

  /** What 64 bits make of a number. */
  function Within(v: int): Number {
    if v > MAX_INT then OutOfRange(MAX_INT) else if v < MIN_INT then OutOfRange(MIN_INT) else Parsed(v)
  }

  lemma {:induction false} ZerosAreNothing(k: nat, s: string)
    requires AllDigits(s)
    ensures AllDigits(Zeros(k) + s) && Value(Zeros(k) + s) == Value(s)
    decreases k + |s|
  {
    if |s| > 0 {
      ZerosAreNothing(k, s[..|s| - 1]);
      assert (Zeros(k) + s)[..k + |s| - 1] == Zeros(k) + s[..|s| - 1];
    } else if k > 0 {
      ZerosAreNothing(k - 1, s);
      assert (Zeros(k) + s)[..k - 1] == Zeros(k - 1) + s;
    }
  }

  lemma SignedReads(sign: Sign, digits: string)
    requires AllDigits(digits) && |digits| > 0
    ensures Atoi(SignText(sign) + digits) == Within(if sign.Minus? then 0 - Value(digits) as int else Value(digits))
  {
    hide Value;
    var s := SignText(sign) + digits;
    assert IsDigit(digits[0]);
    if sign.NoSign? {
      assert s == digits;
    } else {
      assert s[1..] == digits && s[0] == SignText(sign)[0];
    }
  }

  /** However a number is written, it is read as what it says. */
  lemma AtoiReads(x: Numeral)
    ensures Atoi(Spell(x)) == Within(ValueOf(x))
  {
    hide Print, Value, Zeros;
    var digits := Zeros(x.zeros) + Print(x.digits);
    ZerosAreNothing(x.zeros, Print(x.digits));
    ValueOfPrint(x.digits);
    SignedReads(x.sign, digits);
  }

  /** A text of digits is leading zeros before a printed number. */
  lemma {:induction false} DigitsAreNumeral(s: string) returns (k: nat, n: nat)
    requires AllDigits(s) && |s| > 0
    ensures s == Zeros(k) + Print(n)
  {
    var last := |s| - 1;
    var d := s[last] as int - '0' as int;
    if last == 0 {
      k, n := 0, d;
      assert s == [Digit(d)];
    } else {
      k, n := DigitsAreNumeral(s[..last]);
      assert s == s[..last] + [Digit(d)];
      if n == 0 {
        k, n := k + 1, d;
        ZerosEnd(k - 1);
        assert s == Zeros(k - 1) + ['0'] + Print(d);
      } else {
        n := 10 * n + d;
        assert Print(n) == Print(n / 10) + [Digit(n % 10)];
        assert s == Zeros(k) + Print(n);
      }
    }
  }

  lemma ZerosEnd(k: nat)
    ensures Zeros(k) + ['0'] == Zeros(k + 1)
  {
  }

  /** Nothing else is read: a text is a number exactly when it can be written so. */
  lemma AtoiAccepts(s: string) returns (x: Numeral)
    requires !Atoi(s).NotANumber?
    ensures Spell(x) == s
  {
    var signed := s[0] == '+' || s[0] == '-';
    var digits := if signed then s[1..] else s;
    var k, n := DigitsAreNumeral(digits);
    x := Numeral(if !signed then NoSign else if s[0] == '+' then Plus else Minus, k, n);
    if signed {
      assert s == [s[0]] + digits;
    }
  }

  // --------------------------------------------------------------- white space

  predicate IsSpace(c: char) {
    '\t' <= c <= '\r' || c == ' ' || c == '\U{85}' || c == '\U{A0}' || c == '\U{1680}' || '\U{2000}' <= c <= '\U{200A}'
    || c == '\U{2028}' || c == '\U{2029}' || c == '\U{202F}' || c == '\U{205F}' || c == '\U{3000}'
  }

  /** The position of the first white space, or the length when there is none. */
  function IndexSpace(s: string): (i: nat)
    ensures i <= |s| && (forall j | 0 <= j < i :: !IsSpace(s[j])) && (i < |s| ==> IsSpace(s[i]))
  {
    if |s| == 0 || IsSpace(s[0]) then 0 else 1 + IndexSpace(s[1..])
  }

  /** The pieces between runs of white space. */
  function Fields(s: string): seq<string>
    decreases |s|
  {
    if |s| == 0 then []
    else if IsSpace(s[0]) then Fields(s[1..])
    else
      var i := IndexSpace(s);
      [s[..i]] + Fields(s[i..])
  }

  predicate IsWord(s: string) {
    |s| > 0 && forall i | 0 <= i < |s| :: !IsSpace(s[i])
  }

  predicate IsBlank(s: string) {
    forall i | 0 <= i < |s| :: IsSpace(s[i])
  }

  /** White space around and between words; between two of them there is some. */
  predicate Spaced(gaps: seq<string>) {
    (forall i | 0 <= i < |gaps| :: IsBlank(gaps[i])) && forall i | 0 < i < |gaps| - 1 :: gaps[i] != ""
  }

  /** Words laid out in white space. */
  function Laid(words: seq<string>, gaps: seq<string>): string
    requires |gaps| == |words| + 1
    decreases |words|
  {
    if |words| == 0 then gaps[0] else gaps[0] + (words[0] + Laid(words[1..], gaps[1..]))
  }

  /** However words are laid out in white space, they come apart again. */
  lemma {:induction false} FieldsLaid(words: seq<string>, gaps: seq<string>)
    requires |gaps| == |words| + 1 && Spaced(gaps) && forall i | 0 <= i < |words| :: IsWord(words[i])
    ensures Fields(Laid(words, gaps)) == words
    decreases |words|
  {
    if |words| == 0 {
      BlankFirst(gaps[0], "");
      assert gaps[0] + "" == gaps[0];
    } else {
      var rest := Laid(words[1..], gaps[1..]);
      FieldsLaid(words[1..], gaps[1..]);
      RestIsSpaced(words, gaps);
      WordFirst(words[0], rest);
      BlankFirst(gaps[0], words[0] + rest);
    }
  }

  lemma RestIsSpaced(words: seq<string>, gaps: seq<string>)
    requires 0 < |words| && |gaps| == |words| + 1 && Spaced(gaps)
    ensures var rest := Laid(words[1..], gaps[1..]); |rest| > 0 ==> IsSpace(rest[0])
  {
    if |words| > 1 {
      assert gaps[1] != "" && IsBlank(gaps[1]);
    }
  }

  lemma {:induction false} BlankFirst(blank: string, s: string)
    requires IsBlank(blank)
    ensures Fields(blank + s) == Fields(s)
  {
    if blank == "" {
      assert blank + s == s;
    } else {
      BlankFirst(blank[1..], s);
      assert (blank + s)[1..] == blank[1..] + s;
    }
  }

  lemma WordFirst(w: string, rest: string)
    requires IsWord(w) && (|rest| > 0 ==> IsSpace(rest[0]))
    ensures Fields(w + rest) == [w] + Fields(rest)
  {
    var s := w + rest;
    assert s[0] == w[0];
    assert |rest| > 0 ==> s[|w|] == rest[0];
    assert forall j | 0 <= j < |w| :: s[j] == w[j];
    assert IndexSpace(s) == |w|;
    assert s[..|w|] == w && s[|w|..] == rest;
  }
}
