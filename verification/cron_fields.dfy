/** Cron fields: what the matcher accepts, against what the schedule means. */
module CronFields {
  import opened Text

  // ------------------------------------------------------------------ meaning

  datatype Atom =
    | Star
    | StarStep(step: Numeral)
    | At(n: Numeral)
    | AtStep(n: Numeral, step: Numeral)
    | Range(lo: Numeral, hi: Numeral)
    | RangeStep(lo: Numeral, hi: Numeral, step: Numeral)

  type Field = seq<Atom>

  /** The minute, hour, day, month and weekday a schedule names. */
  datatype Schedule = Schedule(minute: Field, hour: Field, day: Field, month: Field, weekday: Field)

  datatype Moment = Moment(minute: nat, hour: nat, day: nat, month: nat, weekday: nat)

  predicate Fits(x: Numeral) {
    MIN_INT <= ValueOf(x) <= MAX_INT
  }

  predicate IsStep(x: Numeral) {
    0 < ValueOf(x) <= MAX_INT
  }

  /** Its first number carries no minus, which would read as the hyphen of a range. */
  predicate Plain(a: Atom) {
    match a
    case At(n) => !n.sign.Minus?
    case AtStep(n, _) => !n.sign.Minus?
    case Range(lo, _) => !lo.sign.Minus?
    case RangeStep(lo, _, _) => !lo.sign.Minus?
    case _ => true
  }

  ghost predicate AllPlain(f: Field) {
    forall i | 0 <= i < |f| :: Plain(f[i])
  }

  /** The values an atom stands for. A step of one after a single number adds
      nothing to it; a step below one, or a number past 64 bits, stands for nothing. */
  predicate Denotes(a: Atom, v: nat) {
    match a
    case Star => true
    case StarStep(s) => IsStep(s) && v % ValueOf(s) == 0
    case At(n) => Fits(n) && v == ValueOf(n)
    case AtStep(n, s) =>
      Fits(n) && IsStep(s) && (if ValueOf(s) == 1 then v == ValueOf(n) else InSteps(ValueOf(n), ValueOf(s), v))
    case Range(lo, hi) => Fits(lo) && Fits(hi) && ValueOf(lo) <= v <= ValueOf(hi)
    case RangeStep(lo, hi, s) =>
      Fits(lo) && Fits(hi) && IsStep(s) && v <= ValueOf(hi) && InSteps(ValueOf(lo), ValueOf(s), v)
  }

  predicate InSteps(from: int, step: int, v: int)
    requires step > 0
  {
    v >= from && (v - from) % step == 0
  }

  ghost predicate FieldDenotes(f: Field, v: nat) {
    exists i :: 0 <= i < |f| && Denotes(f[i], v)
  }

  /** Sunday is written 0 or 7. */
  ghost predicate WeekdayDenotes(f: Field, weekday: nat) {
    FieldDenotes(f, weekday) || (weekday == 0 && FieldDenotes(f, 7))
  }

  // ----------------------------------------------------------------- printing

  function PrintAtom(a: Atom): string {
    match a
    case Star => "*"
    case StarStep(s) => "*" + "/" + Spell(s)
    case At(n) => Spell(n)
    case AtStep(n, s) => Spell(n) + "/" + Spell(s)
    case Range(lo, hi) => Spell(lo) + "-" + Spell(hi)
    case RangeStep(lo, hi, s) => (Spell(lo) + "-" + Spell(hi)) + "/" + Spell(s)
  }

  function PrintAtoms(f: Field): (r: seq<string>)
    ensures |r| == |f| && forall i | 0 <= i < |f| :: r[i] == PrintAtom(f[i])
  {
    seq(|f|, i requires 0 <= i < |f| => PrintAtom(f[i]))
  }

  function PrintField(f: Field): string {
    Join(PrintAtoms(f), ',')
  }

  // ----------------------------------------------------------------- matching

  function MatchBase(atom: string, step: int, v: nat): bool
    requires step > 0
  {
    if atom == "*" then v % step == 0
    else
      var i := Index(atom, '-');
      if i < |atom| then
        var lo, hi := Atoi(atom[..i]), Atoi(atom[i + 1..]);
        lo.Parsed? && hi.Parsed? && lo.n <= hi.n && v >= lo.n && v <= hi.n && (v - lo.n) % step == 0
      else
        var n := Atoi(atom);
        n.Parsed? && (if step == 1 then n.n == v else v >= n.n && (v - n.n) % step == 0)
  }

  /** matchCronAtom. */
  function MatchAtom(atom: string, v: nat): bool {
    var i := Index(atom, '/');
    if i < |atom| then
      var s := Atoi(atom[i + 1..]);
      s.Parsed? && s.n > 0 && MatchBase(atom[..i], s.n, v)
    else MatchBase(atom, 1, v)
  }

  /** matchField, with its loop over the comma list. */
  method MatchField(pattern: string, v: nat) returns (r: bool)
    ensures r <==> FieldMatches(pattern, v)
  {
    hide MatchAtom, Split;
    var atoms := Split(pattern, ',');
    for i := 0 to |atoms|
      invariant forall j | 0 <= j < i :: !MatchAtom(atoms[j], v)
    {
      if MatchAtom(atoms[i], v) {
        assert MatchAtom(Split(pattern, ',')[i], v);
        return true;
      }
    }
    return false;
  }

  ghost predicate FieldMatches(pattern: string, v: nat) {
    exists i :: 0 <= i < |Split(pattern, ',')| && MatchAtom(Split(pattern, ',')[i], v)
  }

  // ------------------------------------------------------------------- lemmas

  lemma NoHyphen(x: Numeral)
    requires !x.sign.Minus?
    ensures '-' !in Spell(x)
  {
    hide Print, Zeros;
  }

  lemma NumeralIsNoStar(x: Numeral)
    ensures |Spell(x)| > 0 && Spell(x)[0] != '*'
  {
    hide Print;
    var digits := Zeros(x.zeros) + Print(x.digits);
    assert IsDigit(digits[0]);
    assert Spell(x)[0] == if x.sign.NoSign? then digits[0] else SignText(x.sign)[0];
  }

  lemma BareMatches(n: Numeral, step: int, v: nat)
    requires step > 0 && !n.sign.Minus?
    ensures MatchBase(Spell(n), step, v) <==>
            Fits(n) && (if step == 1 then v == ValueOf(n) else InSteps(ValueOf(n), step, v))
  {
    hide Spell, Atoi;
    NoHyphen(n);
    NumeralIsNoStar(n);
    AtoiReads(n);
  }

  lemma RangeMatches(lo: Numeral, hi: Numeral, step: int, v: nat)
    requires step > 0 && !lo.sign.Minus?
    ensures MatchBase(Spell(lo) + "-" + Spell(hi), step, v) <==>
            Fits(lo) && Fits(hi) && v <= ValueOf(hi) && InSteps(ValueOf(lo), step, v)
  {
    hide Spell, Atoi;
    var s := Spell(lo) + "-" + Spell(hi);
    NoHyphen(lo);
    IndexAfter(Spell(lo), '-', Spell(hi));
    assert s[..|Spell(lo)|] == Spell(lo) && s[|Spell(lo)| + 1..] == Spell(hi);
    AtoiReads(lo);
    AtoiReads(hi);
    NumeralIsNoStar(lo);
    assert s[0] == Spell(lo)[0];
  }

  /** An atom with a step written after it. */
  lemma SteppedMatches(base: string, step: Numeral, v: nat)
    requires '/' !in base
    ensures MatchAtom(base + "/" + Spell(step), v) <==> IsStep(step) && MatchBase(base, ValueOf(step), v)
  {
    hide Spell, Atoi, MatchBase;
    IndexAfter(base, '/', Spell(step));
    var s := base + "/" + Spell(step);
    assert s[..|base|] == base && s[|base| + 1..] == Spell(step);
    AtoiReads(step);
  }

  /** The matcher accepts a written atom for exactly the values it stands for. */
  lemma AtomMatches(a: Atom, v: nat)
    requires Plain(a)
    ensures MatchAtom(PrintAtom(a), v) <==> Denotes(a, v)
  {
    hide Spell, MatchBase, Atoi;
    match a
    case Star => StarMatches(1, v);
    case StarStep(s) =>
      StarMatches(if IsStep(s) then ValueOf(s) else 1, v);
      SteppedMatches("*", s, v);
    case At(n) =>
      NoneIn(n);
      BareMatches(n, 1, v);
    case AtStep(n, s) =>
      NoneIn(n);
      SteppedMatches(Spell(n), s, v);
      if IsStep(s) {
        BareMatches(n, ValueOf(s), v);
      }
    case Range(lo, hi) =>
      NoneIn(lo);
      NoneIn(hi);
      RangeMatches(lo, hi, 1, v);
    case RangeStep(lo, hi, s) =>
      NoneIn(lo);
      NoneIn(hi);
      SteppedMatches(Spell(lo) + "-" + Spell(hi), s, v);
      if IsStep(s) {
        RangeMatches(lo, hi, ValueOf(s), v);
      }
  }

  /** Whatever text the matcher accepts for some value is a written atom. */
  lemma OnlyAtomsMatch(text: string, v: nat) returns (a: Atom)
    requires MatchAtom(text, v)
    ensures Plain(a) && PrintAtom(a) == text
  {
    hide Spell, Atoi, MatchBase;
    var i := Index(text, '/');
    if i < |text| {
      var step := AtoiAccepts(text[i + 1..]);
      var base := BaseIsAtom(text[..i], Atoi(text[i + 1..]).n, v);
      assert text == text[..i] + "/" + Spell(step);
      a := match base
        case Star => StarStep(step)
        case At(n) => AtStep(n, step)
        case Range(lo, hi) => RangeStep(lo, hi, step);
    } else {
      a := BaseIsAtom(text, 1, v);
    }
  }

  lemma BaseIsAtom(text: string, step: int, v: nat) returns (a: Atom)
    requires step > 0 && MatchBase(text, step, v)
    ensures Plain(a) && PrintAtom(a) == text && (a.Star? || a.At? || a.Range?)
  {
    hide Spell, Atoi;
    if text == "*" {
      return Star;
    }
    var i := Index(text, '-');
    if i < |text| {
      var lo := AtoiAccepts(text[..i]);
      var hi := AtoiAccepts(text[i + 1..]);
      if lo.sign.Minus? { MinusShows(lo); }
      assert text == text[..i] + "-" + text[i + 1..];
      a := Range(lo, hi);
    } else {
      var n := AtoiAccepts(text);
      if n.sign.Minus? { MinusShows(n); }
      a := At(n);
    }
  }

  lemma MinusShows(x: Numeral)
    requires x.sign.Minus?
    ensures '-' in Spell(x)
  {
    assert Spell(x)[0] == '-';
  }

  /** So a text matches a value exactly when it is a written atom that stands for it. */
  lemma AtomsAreAll(text: string, v: nat)
    ensures MatchAtom(text, v) <==> exists a :: Plain(a) && PrintAtom(a) == text && Denotes(a, v)
  {
    hide MatchAtom, PrintAtom, Denotes;
    if MatchAtom(text, v) {
      var a := OnlyAtomsMatch(text, v);
      AtomMatches(a, v);
    }
    if a :| Plain(a) && PrintAtom(a) == text && Denotes(a, v) {
      AtomMatches(a, v);
    }
  }

  lemma StarMatches(step: int, v: nat)
    requires step > 0
    ensures MatchBase("*", step, v) <==> v % step == 0
    ensures Index("*", '/') == 1
  {
  }

  lemma NoneIn(x: Numeral)
    ensures '/' !in Spell(x) && ',' !in Spell(x)
  {
    hide Print, Zeros;
  }

  lemma NoComma(a: Atom)
    ensures ',' !in PrintAtom(a)
  {
    hide Spell;
    match a
    case Star =>
    case StarStep(s) => NoneIn(s);
    case At(n) => NoneIn(n);
    case AtStep(n, s) =>
      NoneIn(n);
      NoneIn(s);
    case Range(lo, hi) =>
      NoneIn(lo);
      NoneIn(hi);
    case RangeStep(lo, hi, s) =>
      NoneIn(lo);
      NoneIn(hi);
      NoneIn(s);
  }

  // -------------------------------------------------------------- main results

  /** The matcher accepts a printed field for exactly the values it stands for. */
  lemma FieldRefines(f: Field, v: nat)
    requires AllPlain(f)
    ensures FieldMatches(PrintField(f), v) <==> FieldDenotes(f, v)
  {
    hide MatchAtom, PrintAtom, Denotes;
    var parts := PrintAtoms(f);
    forall i | 0 <= i < |f| ensures ',' !in parts[i] && (MatchAtom(parts[i], v) <==> Denotes(f[i], v)) {
      NoComma(f[i]);
      AtomMatches(f[i], v);
    }
    if |f| > 0 {
      SplitJoin(parts, ',');
    } else {
      NothingMatches(v);
    }
  }

  lemma NothingMatches(v: nat)
    ensures Split("", ',') == [""] && !MatchAtom("", v)
  {
  }

  /** matchWeekdayField: seven is tried as well on a Sunday. */
  method MatchWeekdayField(pattern: string, weekday: nat) returns (r: bool)
    ensures r <==> FieldMatches(pattern, weekday) || (weekday == 0 && FieldMatches(pattern, 7))
  {
    r := MatchField(pattern, weekday);
    if !r && weekday == 0 {
      r := MatchField(pattern, 7);
    }
  }

  function Patterns(s: Schedule): seq<string> {
    [PrintField(s.minute), PrintField(s.hour), PrintField(s.day), PrintField(s.month), PrintField(s.weekday)]
  }

  /** The five fields with white space of any kind around and between them. */
  function PrintSchedule(s: Schedule, gaps: seq<string>): string
    requires |gaps| == 6
  {
    Laid(Patterns(s), gaps)
  }

  /** What shouldRunNow decides for an expression at a moment. */
  ghost predicate Matches(expr: string, t: Moment) {
    var parts := Fields(expr);
    && |parts| == 5
    && FieldMatches(parts[0], t.minute) && FieldMatches(parts[1], t.hour) && FieldMatches(parts[2], t.day)
    && FieldMatches(parts[3], t.month)
    && (FieldMatches(parts[4], t.weekday) || (t.weekday == 0 && FieldMatches(parts[4], 7)))
  }

  method ShouldRunNow(expr: string, t: Moment) returns (r: bool)
    ensures r <==> Matches(expr, t)
  {
    hide FieldMatches, Fields;
    var parts := Fields(expr);
    r := false;
    if |parts| != 5 {
      return;
    }
    r := MatchField(parts[0], t.minute);
    if r {
      r := MatchField(parts[1], t.hour);
    }
    if r {
      r := MatchField(parts[2], t.day);
    }
    if r {
      r := MatchField(parts[3], t.month);
    }
    if r {
      r := MatchWeekdayField(parts[4], t.weekday);
    }
  }

  lemma NumeralIsWord(x: Numeral)
    ensures IsWord(Spell(x))
  {
    hide Print, Zeros;
  }

  lemma AtomIsWord(a: Atom)
    ensures IsWord(PrintAtom(a))
  {
    hide Spell;
    match a
    case Star =>
    case StarStep(s) => NumeralIsWord(s);
    case At(n) => NumeralIsWord(n);
    case AtStep(n, s) =>
      NumeralIsWord(n);
      NumeralIsWord(s);
    case Range(lo, hi) =>
      NumeralIsWord(lo);
      NumeralIsWord(hi);
    case RangeStep(lo, hi, s) =>
      NumeralIsWord(lo);
      NumeralIsWord(hi);
      NumeralIsWord(s);
  }

  lemma {:induction false} JoinIsWord(parts: seq<string>)
    requires |parts| > 0 && forall i | 0 <= i < |parts| :: IsWord(parts[i])
    ensures IsWord(Join(parts, ','))
  {
    if |parts| > 1 {
      JoinIsWord(parts[1..]);
    }
  }

  lemma FieldIsWord(f: Field)
    requires |f| > 0
    ensures IsWord(PrintField(f))
  {
    hide PrintAtom, IsWord;
    forall i | 0 <= i < |f| ensures IsWord(PrintAtoms(f)[i]) {
      AtomIsWord(f[i]);
    }
    JoinIsWord(PrintAtoms(f));
  }

  /** A written schedule runs at exactly the moments it names: all five fields
      must name theirs, and weekday seven is Sunday. */
  lemma ScheduleRefines(s: Schedule, gaps: seq<string>, t: Moment)
    requires |gaps| == 6 && Spaced(gaps)
    requires |s.minute| > 0 && |s.hour| > 0 && |s.day| > 0 && |s.month| > 0 && |s.weekday| > 0
    requires AllPlain(s.minute) && AllPlain(s.hour) && AllPlain(s.day) && AllPlain(s.month) && AllPlain(s.weekday)
    ensures Matches(PrintSchedule(s, gaps), t) <==>
            FieldDenotes(s.minute, t.minute) && FieldDenotes(s.hour, t.hour) && FieldDenotes(s.day, t.day)
            && FieldDenotes(s.month, t.month) && WeekdayDenotes(s.weekday, t.weekday)
  {
    hide FieldMatches, PrintField, FieldDenotes, IsWord, Laid, Fields, AllPlain, Spaced;
    FieldIsWord(s.minute);
    FieldIsWord(s.hour);
    FieldIsWord(s.day);
    FieldIsWord(s.month);
    FieldIsWord(s.weekday);
    FieldsLaid(Patterns(s), gaps);
    FieldRefines(s.minute, t.minute);
    FieldRefines(s.hour, t.hour);
    FieldRefines(s.day, t.day);
    FieldRefines(s.month, t.month);
    FieldRefines(s.weekday, t.weekday);
    FieldRefines(s.weekday, 7);
  }
}
