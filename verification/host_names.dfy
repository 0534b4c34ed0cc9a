/** Host names: what is accepted, that accepting settles normalisation, and that
    generated names are accepted. */
module HostNames {
  import opened Text

  type Byte = x: int | 0 <= x < 256

  const MAX_HOST := 253
  const MAX_LABEL := 63
  const MAX_PREFIX := 40
  const SUFFIX := 4

  // ------------------------------------------------------------- normalisation

  function TrimLeft(s: string): string {
    if |s| > 0 && IsSpace(s[0]) then TrimLeft(s[1..]) else s
  }

  function TrimRight(s: string): string {
    if |s| > 0 && IsSpace(s[|s| - 1]) then TrimRight(s[..|s| - 1]) else s
  }

  function TrimDots(s: string): string {
    if |s| > 0 && s[|s| - 1] == '.' then TrimDots(s[..|s| - 1]) else s
  }

  predicate IsAscii(s: string) {
    forall i | 0 <= i < |s| :: s[i] < 128 as char
  }

  function FoldChar(c: char): char {
    if 'A' <= c <= 'Z' then (c as int - 'A' as int + 'a' as int) as char else c
  }

  function FoldAscii(s: string): (r: string)
    ensures |r| == |s| && forall i | 0 <= i < |s| :: r[i] == FoldChar(s[i])
  {
    seq(|s|, i requires 0 <= i < |s| => FoldChar(s[i]))
  }

  lemma EveryLetterFolds()
    ensures FoldAscii("ABCDEFGHIJKLMNOPQRSTUVWXYZ") == "abcdefghijklmnopqrstuvwxyz"
  {
  }

  /** Case folding lowers ASCII letters and nothing else of an ASCII text; beyond
      that it may be anything. */
  ghost predicate FoldsCase(lower: string -> string) {
    forall s | IsAscii(s) :: lower(s) == FoldAscii(s)
  }

  /** normalizeDomainHost. */
  function Normalize(host: string, lower: string -> string): string {
    TrimDots(lower(TrimRight(TrimLeft(host))))
  }

  // ---------------------------------------------------------------- validation

  predicate IsHostChar(c: char) {
    'a' <= c <= 'z' || '0' <= c <= '9' || c == '-'
  }

  predicate ValidLabel(segment: string) {
    && 1 <= |segment| <= 63
    && segment[0] != '-' && segment[|segment| - 1] != '-'
    && forall i | 0 <= i < |segment| :: IsHostChar(segment[i])
  }

  ghost predicate ValidLabels(labels: seq<string>) {
    forall i | 0 <= i < |labels| :: ValidLabel(labels[i])
  }

  /** RFC 1035 sections 2.3.1 and 2.3.4 with RFC 1123 section 2.1, and two labels unless it is localhost. */
  ghost predicate ValidHost(host: string) {
    && 1 <= |host| <= 253
    && ValidLabels(Split(host, '.'))
    && (|Split(host, '.')| >= 2 || host == "localhost")
  }

  /** One label, character by character. */
  method CheckLabel(segment: string) returns (ok: bool)
    ensures ok <==> ValidLabel(segment)
  {
    if |segment| == 0 || |segment| > MAX_LABEL || segment[0] == '-' || segment[|segment| - 1] == '-' {
      return false;
    }
    for i := 0 to |segment|
      invariant forall j | 0 <= j < i :: IsHostChar(segment[j])
    {
      if !IsHostChar(segment[i]) {
        return false;
      }
    }
    return true;
  }

  /** validateDomainHost. */
  method ValidateDomainHost(host: string) returns (ok: bool)
    ensures ok <==> ValidHost(host)
  {
    hide ValidLabel, Split;
    if |host| == 0 || |host| > MAX_HOST {
      return false;
    }
    var labels := Split(host, '.');
    for i := 0 to |labels|
      invariant forall j | 0 <= j < i :: ValidLabel(labels[j])
    {
      var good := CheckLabel(labels[i]);
      if !good {
        return false;
      }
    }
    return |labels| >= 2 || host == "localhost";
  }

  // ---------------------------------------------------------------- fixed points

  /** Every character of a text is a separator or inside one of its parts. */
  lemma {:induction false} InSomePart(s: string, sep: char, k: nat)
    requires k < |s| && s[k] != sep
    ensures exists i :: 0 <= i < |Split(s, sep)| && s[k] in Split(s, sep)[i]
    decreases |s|
  {
    hide Split;
    var i := Index(s, sep);
    SplitStep(s, sep);
    if k < i {
      assert s[..i][k] == s[k];
      assert s[k] in Split(s, sep)[0];
    } else {
      InSomePart(s[i + 1..], sep, k - i - 1);
      var rest := Split(s[i + 1..], sep);
      var j :| 0 <= j < |rest| && s[i + 1..][k - i - 1] in rest[j];
      assert Split(s, sep)[j + 1] == rest[j] && s[k] == s[i + 1..][k - i - 1];
    }
  }

  /** The last part is the end of the text. */
  lemma {:induction false} LastPart(s: string, sep: char)
    ensures var last := Split(s, sep)[|Split(s, sep)| - 1]; |last| > 0 ==> |s| > 0 && s[|s| - 1] == last[|last| - 1]
    decreases |s|
  {
    var i := Index(s, sep);
    if i < |s| {
      LastPart(s[i + 1..], sep);
    }
  }

  lemma HostChars(host: string)
    requires ValidHost(host)
    ensures forall k | 0 <= k < |host| :: IsHostChar(host[k]) || host[k] == '.'
    ensures |host| > 0 && host[|host| - 1] != '.' && !IsSpace(host[0]) && !IsSpace(host[|host| - 1])
  {
    hide Split;
    forall k | 0 <= k < |host| ensures IsHostChar(host[k]) || host[k] == '.' {
      if host[k] != '.' {
        InSomePart(host, '.', k);
        var i :| 0 <= i < |Split(host, '.')| && host[k] in Split(host, '.')[i];
        assert ValidLabel(Split(host, '.')[i]);
      }
    }
    LastPart(host, '.');
    assert ValidLabel(Split(host, '.')[|Split(host, '.')| - 1]);
  }

  /** An accepted host is its own normal form, whatever host it was normalised from. */
  lemma AcceptedIsNormal(host: string, lower: string -> string)
    requires FoldsCase(lower) && ValidHost(host)
    ensures Normalize(host, lower) == host
  {
    HostChars(host);
    assert FoldAscii(host) == host;
  }

  lemma {:induction false} LeftTrimmed(left: string, t: string)
    requires IsBlank(left) && (t == "" || !IsSpace(t[0]))
    ensures TrimLeft(left + t) == t
  {
    if left == "" {
      assert left + t == t;
    } else {
      LeftTrimmed(left[1..], t);
      assert (left + t)[1..] == left[1..] + t;
    }
  }

  lemma {:induction false} RightTrimmed(t: string, right: string)
    requires IsBlank(right) && (t == "" || !IsSpace(t[|t| - 1]))
    ensures TrimRight(t + right) == t
  {
    if right == "" {
      assert t + right == t;
    } else {
      RightTrimmed(t, right[..|right| - 1]);
      assert (t + right)[..|t + right| - 1] == t + right[..|right| - 1];
    }
  }

  lemma {:induction false} DotsTrimmed(t: string, dots: string)
    requires (forall i | 0 <= i < |dots| :: dots[i] == '.') && (t == "" || t[|t| - 1] != '.')
    ensures TrimDots(t + dots) == t
  {
    if dots == "" {
      assert t + dots == t;
    } else {
      DotsTrimmed(t, dots[..|dots| - 1]);
      assert (t + dots)[..|t + dots| - 1] == t + dots[..|dots| - 1];
    }
  }

  /** What normalisation does to any host, taken apart into the white space around
      it, the rest, and the dots that end the rest once its case is folded. */
  lemma NormalizeMeans(left: string, t: string, right: string, core: string, dots: string, lower: string -> string)
    requires IsBlank(left) && IsBlank(right) && (t == "" || (!IsSpace(t[0]) && !IsSpace(t[|t| - 1])))
    requires lower(t) == core + dots && (core == "" || core[|core| - 1] != '.')
    requires forall i | 0 <= i < |dots| :: dots[i] == '.'
    ensures Normalize(left + (t + right), lower) == core
  {
    if t == "" {
      assert left + (t + right) == (left + right) + "";
      LeftTrimmed(left + right, "");
      assert "" + "" == "";
      RightTrimmed("", "");
    } else {
      assert (t + right)[0] == t[0];
      LeftTrimmed(left, t + right);
      RightTrimmed(t, right);
    }
    DotsTrimmed(core, dots);
  }

  /** An accepted host is what any spelling of it is normalised to: in whatever
      case, with white space around it and with dots behind it. */
  lemma AnySpellingIsAccepted(host: string, spelt: string, dots: string, left: string, right: string,
                              lower: string -> string)
    requires FoldsCase(lower) && ValidHost(host) && IsAscii(spelt) && FoldAscii(spelt) == host
    requires IsBlank(left) && IsBlank(right) && forall i | 0 <= i < |dots| :: dots[i] == '.'
    ensures Normalize(left + ((spelt + dots) + right), lower) == host
  {
    hide ValidHost, Normalize;
    HostChars(host);
    var t := spelt + dots;
    assert t[0] == spelt[0] && host[0] == FoldChar(spelt[0]);
    assert host[|host| - 1] == FoldChar(spelt[|spelt| - 1]);
    assert FoldAscii(t) == host + dots;
    NormalizeMeans(left, t, right, host, dots, lower);
  }

  // ------------------------------------------------------------------ generation

  function SanitizedByte(b: Byte): char {
    if 97 <= b <= 122 || 48 <= b <= 57 then b as char else '-'
  }

  function Sanitized(name: seq<Byte>): (s: string)
    ensures |s| == |name| && forall i | 0 <= i < |s| :: IsHostChar(s[i])
  {
    seq(|name|, i requires 0 <= i < |name| => SanitizedByte(name[i]))
  }

  /** Hyphens taken off both ends. */
  function TrimHyphens(s: string): string
    decreases |s|
  {
    if |s| > 0 && s[0] == '-' then TrimHyphens(s[1..])
    else if |s| > 0 && s[|s| - 1] == '-' then TrimHyphens(s[..|s| - 1])
    else s
  }

  /** The prefix made of a lower-cased application name. */
  function Prefix(name: seq<Byte>): string {
    var s := TrimHyphens(Sanitized(name));
    var s := if |s| == 0 then "app" else s;
    if |s| > MAX_PREFIX then s[..MAX_PREFIX] else s
  }

  function HexDigit(d: nat): char
    requires d < 16
  {
    if d < 10 then ('0' as int + d) as char else ('a' as int + d - 10) as char
  }

  function Hex(bytes: seq<Byte>): (s: string)
    ensures |s| == 2 * |bytes|
  {
    if |bytes| == 0 then "" else [HexDigit(bytes[0] / 16), HexDigit(bytes[0] % 16)] + Hex(bytes[1..])
  }

  /** The first half of the hexadecimal form of as many random bytes. */
  function RandomShort(bytes: seq<Byte>): string {
    Hex(bytes)[..|bytes|]
  }

  function Generated(name: seq<Byte>, random: seq<Byte>, base: string): string {
    Prefix(name) + "-" + RandomShort(random) + "." + base
  }

  lemma {:induction false} HexIsAlphanumeric(bytes: seq<Byte>)
    ensures forall i | 0 <= i < |Hex(bytes)| :: IsHostChar(Hex(bytes)[i]) && Hex(bytes)[i] != '-'
  {
    if |bytes| > 0 {
      HexIsAlphanumeric(bytes[1..]);
    }
  }

  lemma {:induction false} TrimmedHyphens(s: string)
    requires forall i | 0 <= i < |s| :: IsHostChar(s[i])
    ensures var t := TrimHyphens(s);
      (forall i | 0 <= i < |t| :: IsHostChar(t[i])) && (|t| > 0 ==> t[0] != '-' && t[|t| - 1] != '-') && |t| <= |s|
    decreases |s|
  {
    if |s| > 0 && s[0] == '-' {
      TrimmedHyphens(s[1..]);
    } else if |s| > 0 && s[|s| - 1] == '-' {
      TrimmedHyphens(s[..|s| - 1]);
    }
  }

  lemma PrefixShape(name: seq<Byte>)
    ensures 1 <= |Prefix(name)| <= MAX_PREFIX && Prefix(name)[0] != '-'
    ensures forall i | 0 <= i < |Prefix(name)| :: IsHostChar(Prefix(name)[i])
  {
    TrimmedHyphens(Sanitized(name));
  }

  lemma {:induction false} HyphensTrimmed(left: string, core: string, right: string)
    requires (forall i | 0 <= i < |left| :: left[i] == '-') && forall i | 0 <= i < |right| :: right[i] == '-'
    requires core == "" || (core[0] != '-' && core[|core| - 1] != '-')
    ensures TrimHyphens(left + core + right) == core
    decreases |left| + |right|
  {
    var s := left + core + right;
    if left != "" {
      HyphensTrimmed(left[1..], core, right);
      assert s[0] == '-' && s[1..] == left[1..] + core + right;
    } else if right != "" {
      HyphensTrimmed(left, core, right[..|right| - 1]);
      assert s[|s| - 1] == '-' && s[..|s| - 1] == left + core + right[..|right| - 1];
      if core == "" {
        HyphensTrimmed(left, core, right[1..]);
        assert s[1..] == left + core + right[1..];
      }
    } else {
      assert s == core;
    }
  }

  /** The prefix is what the application's name leaves once other characters are
      hyphens and the outer ones are gone: at most forty characters, or "app". */
  lemma PrefixMeans(name: seq<Byte>, left: string, core: string, right: string)
    requires Sanitized(name) == left + core + right
    requires (forall i | 0 <= i < |left| :: left[i] == '-') && forall i | 0 <= i < |right| :: right[i] == '-'
    requires core == "" || (core[0] != '-' && core[|core| - 1] != '-')
    ensures Prefix(name) == if core == "" then "app" else if |core| <= 40 then core else core[..40]
  {
    HyphensTrimmed(left, core, right);
  }

  lemma HexIsInjective(a: Byte, b: Byte)
    requires HexDigit(a / 16) == HexDigit(b / 16) && HexDigit(a % 16) == HexDigit(b % 16)
    ensures a == b
  {
  }

  /** Of the four random bytes only two reach the name: two suffixes are the same
      exactly when the first two bytes are. */
  lemma SuffixesCollide(r: seq<Byte>, q: seq<Byte>)
    requires |r| == |q| == SUFFIX
    ensures RandomShort(r) == RandomShort(q) <==> r[0] == q[0] && r[1] == q[1]
  {
    hide HexDigit;
    FirstFour(r);
    FirstFour(q);
    if RandomShort(r) == RandomShort(q) {
      assert forall i | 0 <= i < 4 :: RandomShort(r)[i] == RandomShort(q)[i];
      HexIsInjective(r[0], q[0]);
      HexIsInjective(r[1], q[1]);
    }
  }

  lemma FirstFour(r: seq<Byte>)
    requires |r| == SUFFIX
    ensures RandomShort(r) == [HexDigit(r[0] / 16), HexDigit(r[0] % 16), HexDigit(r[1] / 16), HexDigit(r[1] % 16)]
  {
    var second := [HexDigit(r[1] / 16), HexDigit(r[1] % 16)];
    assert r[1..][0] == r[1] && Hex(r[1..]) == second + Hex(r[1..][1..]);
    assert Hex(r) == [HexDigit(r[0] / 16), HexDigit(r[0] % 16)] + (second + Hex(r[1..][1..]));
  }

  /** The generated label is valid whatever the application is called. */
  lemma GeneratedLabel(name: seq<Byte>, random: seq<Byte>)
    requires |random| == SUFFIX
    ensures ValidLabel(Prefix(name) + "-" + RandomShort(random))
    ensures '.' !in Prefix(name) + "-" + RandomShort(random)
  {
    hide Prefix;
    PrefixShape(name);
    HexIsAlphanumeric(random);
    var p, r := Prefix(name), RandomShort(random);
    var segment := p + "-" + r;
    forall i | 0 <= i < |segment| ensures IsHostChar(segment[i]) {
      if i > |p| {
        assert segment[i] == r[i - |p| - 1] == Hex(random)[i - |p| - 1];
      }
    }
    assert segment[|segment| - 1] == Hex(random)[SUFFIX - 1];
  }

  /** A generated host is accepted exactly when its base domain's labels are and the whole fits. */
  lemma GeneratedIsValid(name: seq<Byte>, random: seq<Byte>, base: string)
    requires |random| == SUFFIX
    ensures ValidHost(Generated(name, random, base)) <==>
            ValidLabels(Split(base, '.')) && |Prefix(name)| + 1 + SUFFIX + 1 + |base| <= MAX_HOST
  {
    hide Prefix, ValidLabel, Split, RandomShort, ValidLabels;
    var segment := Prefix(name) + "-" + RandomShort(random);
    GeneratedLabel(name, random);
    SplitCons(segment, '.', base);
    assert Generated(name, random, base) == segment + ['.'] + base;
    ValidLabelsCons(segment, Split(base, '.'));
    ShortLength(random);
  }

  lemma ShortLength(random: seq<Byte>)
    ensures |RandomShort(random)| == |random|
  {
  }

  lemma ValidLabelsCons(segment: string, labels: seq<string>)
    requires ValidLabel(segment)
    ensures ValidLabels([segment] + labels) <==> ValidLabels(labels)
  {
    var all := [segment] + labels;
    assert forall i | 0 <= i < |labels| :: all[i + 1] == labels[i];
    if ValidLabels(all) {
      forall i | 0 <= i < |labels| ensures ValidLabel(labels[i]) {
        assert ValidLabel(all[i + 1]);
      }
    }
  }

  /** Every base domain that is itself acceptable and at most 207 long always works. */
  lemma ShortBaseAlwaysWorks(name: seq<Byte>, random: seq<Byte>, base: string)
    requires |random| == SUFFIX && ValidHost(base) && |base| <= MAX_HOST - MAX_PREFIX - SUFFIX - 2
    ensures ValidHost(Generated(name, random, base))
  {
    PrefixShape(name);
    GeneratedIsValid(name, random, base);
  }

  /** The label builder as it runs: a byte at a time into a buffer. */
  method SanitizeName(name: seq<Byte>) returns (s: string)
    ensures s == Sanitized(name)
    ensures forall i | 0 <= i < |s| ::
              s[i] == if 'a' as int <= name[i] <= 'z' as int || '0' as int <= name[i] <= '9' as int
                      then name[i] as char else '-'
  {
    s := "";
    for i := 0 to |name|
      invariant |s| == i && forall k | 0 <= k < i :: s[k] == SanitizedByte(name[k])
    {
      var c := name[i];
      if (97 <= c <= 122) || (48 <= c <= 57) {
        s := s + [c as char];
      } else {
        s := s + ['-'];
      }
    }
  }
}
