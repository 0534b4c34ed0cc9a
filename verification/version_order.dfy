/** When an update is offered: a strict order on version strings. */
module VersionOrder {
  import opened Text

  /** One leading "v" less. */
  function Clean(v: string): string {
    if |v| > 0 && v[0] == 'v' then v[1..] else v
  }

  /** What stands before the first hyphen. */
  function Base(v: string): string {
    Clean(v)[..Index(Clean(v), '-')]
  }

  predicate IsPreRelease(v: string) {
    '-' in Clean(v)
  }

  /** A number as read when the error is ignored: nothing readable is zero, too much is cut. */
  function AtoiIgnoringErrors(s: string): int {
    match Atoi(s)
    case Parsed(n) => n
    case NotANumber => 0
    case OutOfRange(cut) => cut
  }

  /** At most three parts, the last one taking all the rest. */
  function SplitThree(s: string): seq<string> {
    var i := Index(s, '.');
    if i == |s| then [s]
    else
      var rest := s[i + 1..];
      var j := Index(rest, '.');
      if j == |rest| then [s[..i], rest] else [s[..i], rest[..j], rest[j + 1..]]
  }

  datatype Rank = Rank(major: int, minor: int, patch: int)

  function RankOf(v: string): Rank {
    var parts := SplitThree(Base(v));
    Rank(AtoiIgnoringErrors(parts[0]),
         if |parts| > 1 then AtoiIgnoringErrors(parts[1]) else 0,
         if |parts| > 2 then AtoiIgnoringErrors(parts[2]) else 0)
  }

  /** isNewer. */
  predicate IsNewer(latest: string, current: string) {
    var l, c := RankOf(latest), RankOf(current);
    if l.major != c.major then l.major > c.major
    else if l.minor != c.minor then l.minor > c.minor
    else l.patch > c.patch
  }

  /** shouldUpdate, with its cases in the order they are tried. */
  predicate ShouldUpdate(latest: string, current: string) {
    var latestClean, currentClean := Clean(latest), Clean(current);
    if latestClean == currentClean then false
    else if '-' in currentClean
            && currentClean[..Index(currentClean, '-')] ==
                 (if '-' in latestClean then latestClean[..Index(latestClean, '-')] else latestClean)
            && '-' !in latestClean then true
    else IsNewer(latest, current)
  }

  /** The release of what the other is a pre-release of. */
  predicate Releases(latest: string, current: string) {
    Base(latest) == Base(current) && !IsPreRelease(latest) && IsPreRelease(current)
  }

  // ------------------------------------------------------------------- lemmas

  lemma ReleaseIsItsBase(v: string)
    requires !IsPreRelease(v)
    ensures Base(v) == Clean(v)
  {
  }

  /** The two ways an update is offered. */
  lemma UpdateMeans(latest: string, current: string)
    ensures ShouldUpdate(latest, current) <==> IsNewer(latest, current) || Releases(latest, current)
  {
    if !IsPreRelease(latest) {
      ReleaseIsItsBase(latest);
    }
    if Clean(latest) == Clean(current) {
      assert RankOf(latest) == RankOf(current);
    }
  }

  lemma Irreflexive(v: string)
    ensures !ShouldUpdate(v, v)
  {
  }

  lemma Asymmetric(a: string, b: string)
    requires ShouldUpdate(a, b)
    ensures !ShouldUpdate(b, a)
  {
    hide ShouldUpdate, Base;
    UpdateMeans(a, b);
    UpdateMeans(b, a);
  }

  lemma Transitive(a: string, b: string, c: string)
    requires ShouldUpdate(a, b) && ShouldUpdate(b, c)
    ensures ShouldUpdate(a, c)
  {
    hide ShouldUpdate, Base;
    UpdateMeans(a, b);
    UpdateMeans(b, c);
    UpdateMeans(a, c);
  }

  /** Two versions are never offered for each other exactly when their numbers are
      equal and neither is the release of the other. */
  lemma Incomparable(a: string, b: string)
    ensures !ShouldUpdate(a, b) && !ShouldUpdate(b, a) <==>
            RankOf(a) == RankOf(b) && (Base(a) == Base(b) ==> (IsPreRelease(a) <==> IsPreRelease(b)))
  {
    hide ShouldUpdate, Base;
    UpdateMeans(a, b);
    UpdateMeans(b, a);
    if Base(a) == Base(b) {
      SameBaseSameRank(a, b);
    }
  }

  lemma SameBaseSameRank(a: string, b: string)
    requires Base(a) == Base(b)
    ensures RankOf(a) == RankOf(b)
  {
  }

  /** Updates taken one after another. */
  ghost predicate Chain(vs: seq<string>) {
    forall i | 0 < i < |vs| :: ShouldUpdate(vs[i], vs[i - 1])
  }

  /** However many updates are taken, no version comes back. */
  lemma {:induction false} NoCycle(vs: seq<string>, i: nat, j: nat)
    requires Chain(vs) && i < j < |vs|
    ensures ShouldUpdate(vs[j], vs[i]) && vs[i] != vs[j]
    decreases j
  {
    hide ShouldUpdate;
    assert ShouldUpdate(vs[j], vs[j - 1]);
    if i < j - 1 {
      NoCycle(vs, i, j - 1);
      Transitive(vs[j], vs[j - 1], vs[i]);
    }
    Irreflexive(vs[i]);
  }

  // ------------------------------------------------------------- printed versions

  /** The numbers of a version, one to three of them. */
  type Numbers = ns: seq<nat> | 1 <= |ns| <= 3 witness [0]

  function PrintAll(ns: seq<nat>): (r: seq<string>)
    ensures |r| == |ns| && forall i | 0 <= i < |r| :: r[i] == Print(ns[i])
  {
    seq(|ns|, i requires 0 <= i < |ns| => Print(ns[i]))
  }

  function Dotted(ns: Numbers): string {
    Join(PrintAll(ns), '.')
  }

  /** A version as releases print it, with an optional "v" and an optional pre-release tag. */
  function Printed(v: bool, ns: Numbers, tag: string): string {
    (if v then "v" else "") + (Dotted(ns) + (if tag == "" then "" else ['-'] + tag))
  }

  predicate Fits(ns: Numbers) {
    forall i | 0 <= i < |ns| :: ns[i] <= MAX_INT
  }

  /** A number that is not there counts as zero. */
  function Part(ns: Numbers, i: nat): nat {
    if i < |ns| then ns[i] else 0
  }

  /** The first number decides, then the second, then the third. */
  predicate Higher(a: Numbers, b: Numbers) {
    || Part(a, 0) > Part(b, 0)
    || (Part(a, 0) == Part(b, 0) && Part(a, 1) > Part(b, 1))
    || (Part(a, 0) == Part(b, 0) && Part(a, 1) == Part(b, 1) && Part(a, 2) > Part(b, 2))
  }

  lemma DigitsOnly(s: string)
    requires AllDigits(s)
    ensures '.' !in s && '-' !in s && 'v' !in s
  {
  }

  lemma SplitsInThree(a: string, b: string, c: string)
    requires '.' !in a && '.' !in b
    ensures SplitThree(a + ['.'] + (b + ['.'] + c)) == [a, b, c]
  {
    hide Index;
    var rest := b + ['.'] + c;
    var s := a + ['.'] + rest;
    IndexAfter(a, '.', rest);
    IndexAfter(b, '.', c);
    assert s[..|a|] == a && s[|a| + 1..] == rest;
    assert rest[..|b|] == b && rest[|b| + 1..] == c;
  }

  lemma SplitsInTwo(a: string, b: string)
    requires '.' !in a && '.' !in b
    ensures SplitThree(a) == [a] && SplitThree(a + ['.'] + b) == [a, b]
  {
    hide Index;
    var s := a + ['.'] + b;
    IndexAfter(a, '.', b);
    IndexAfter(b, '.', "");
    assert s[..|a|] == a && s[|a| + 1..] == b;
  }

  lemma DottedParts(ns: Numbers)
    ensures SplitThree(Dotted(ns)) == PrintAll(ns)
    ensures '-' !in Dotted(ns) && |Dotted(ns)| > 0 && Dotted(ns)[0] != 'v'
  {
    hide Print, SplitThree;
    var ps := PrintAll(ns);
    forall i | 0 <= i < |ps| ensures '.' !in ps[i] && '-' !in ps[i] && 'v' !in ps[i] { DigitsOnly(ps[i]); }
    assert Dotted(ns)[0] == ps[0][0];
    if |ns| == 1 {
      SplitsInTwo(ps[0], ps[0]);
      assert ps == [ps[0]];
    } else if |ns| == 2 {
      SplitsInTwo(ps[0], ps[1]);
      assert ps == [ps[0], ps[1]] && ps[1..] == [ps[1]];
      assert Join([ps[1]], '.') == ps[1];
      assert Dotted(ns) == ps[0] + ['.'] + ps[1];
    } else {
      SplitsInThree(ps[0], ps[1], ps[2]);
      assert ps == [ps[0], ps[1], ps[2]] && ps[1..] == [ps[1], ps[2]] && ps[1..][1..] == [ps[2]];
      assert Join([ps[2]], '.') == ps[2] && Join([ps[1], ps[2]], '.') == ps[1] + ['.'] + Join([ps[1], ps[2]][1..], '.');
      assert Dotted(ns) == ps[0] + ['.'] + Join(ps[1..], '.');
      assert Dotted(ns) == ps[0] + ['.'] + (ps[1] + ['.'] + ps[2]);
    }
  }

  lemma DottedIsInjective(a: Numbers, b: Numbers)
    ensures Dotted(a) == Dotted(b) <==> a == b
  {
    hide Print, SplitThree, Dotted;
    DottedParts(a);
    DottedParts(b);
    if Dotted(a) == Dotted(b) {
      forall i | 0 <= i < |a| ensures i < |b| && a[i] == b[i] {
        assert PrintAll(a)[i] == PrintAll(b)[i];
        ValueOfPrint(a[i]);
        ValueOfPrint(b[i]);
      }
    }
  }

  lemma CleanPrinted(v: bool, ns: Numbers, tag: string)
    ensures Clean(Printed(v, ns, tag)) == Dotted(ns) + (if tag == "" then "" else ['-'] + tag)
  {
    DottedParts(ns);
    hide Dotted;
    var rest := Dotted(ns) + (if tag == "" then "" else ['-'] + tag);
    assert rest[0] == Dotted(ns)[0];
    assert Printed(v, ns, tag) == (if v then "v" else "") + rest;
  }

  lemma NumbersOf(v: bool, ns: Numbers, tag: string)
    ensures Base(Printed(v, ns, tag)) == Dotted(ns)
    ensures IsPreRelease(Printed(v, ns, tag)) <==> tag != ""
    ensures Fits(ns) ==> RankOf(Printed(v, ns, tag)) == Rank(Part(ns, 0), Part(ns, 1), Part(ns, 2))
  {
    hide Print, Printed, SplitThree, Atoi;
    CleanPrinted(v, ns, tag);
    DottedParts(ns);
    hide Dotted;
    var rest := Dotted(ns) + (if tag == "" then "" else ['-'] + tag);
    if tag != "" {
      assert rest == Dotted(ns) + ['-'] + tag;
      IndexAfter(Dotted(ns), '-', tag);
      assert rest[|Dotted(ns)|] == '-' && rest[..|Dotted(ns)|] == Dotted(ns);
    } else {
      assert rest == Dotted(ns);
    }
    AtoiOfPrint(Part(ns, 0));
    AtoiOfPrint(Part(ns, 1));
    AtoiOfPrint(Part(ns, 2));
  }

  /** Between printed versions an update is offered to the higher number, and to the
      release itself from its pre-releases; never to a pre-release of the same number. */
  lemma PrintedUpdates(v: bool, a: Numbers, tagA: string, w: bool, b: Numbers, tagB: string)
    requires Fits(a) && Fits(b)
    ensures ShouldUpdate(Printed(v, a, tagA), Printed(w, b, tagB)) <==>
              Higher(a, b) || (a == b && tagA == "" && tagB != "")
  {
    hide ShouldUpdate, Base, IsPreRelease, RankOf, Printed, Dotted;
    UpdateMeans(Printed(v, a, tagA), Printed(w, b, tagB));
    NumbersOf(v, a, tagA);
    NumbersOf(w, b, tagB);
    DottedIsInjective(a, b);
  }

  /** A version without numbers, a tag or dots ranks lowest. */
  lemma UnreadableRanksZero(v: string)
    requires '.' !in v && '-' !in v && Atoi(Clean(v)).NotANumber?
    ensures RankOf(v) == Rank(0, 0, 0)
  {
    assert Base(v) == Clean(v);
  }
}
