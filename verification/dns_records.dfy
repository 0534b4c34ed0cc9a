/** Records to a DNS provider and back: which records survive the conversion. */
module DnsRecords {
  import opened Options
  import opened TxtValues

  const DOT: Byte := 46
  const DEFAULT_TTL := 300

  datatype Alias = Alias(zone: Bytes, target: Bytes, evaluate: bool)

  datatype Record = Record(name: Bytes, typ: Bytes, ttl: int, values: seq<Bytes>, alias: Option<Alias>)

  /** Route53's form of a record. */
  datatype RecordSet = RecordSet(name: Bytes, typ: Bytes, alias: Option<Alias>, ttl: Option<int>, records: seq<Bytes>)

  /** Cloudflare's form: one value. */
  datatype CfRecord = CfRecord(name: Bytes, typ: Bytes, content: Bytes, ttl: int)

  const TYPE_A: Bytes := [65]
  const TYPE_AAAA: Bytes := [65, 65, 65, 65]
  const TYPE_CNAME: Bytes := [67, 78, 65, 77, 69]
  const TYPE_TXT: Bytes := [84, 88, 84]

  predicate Supported(typ: Bytes) {
    typ in {TYPE_A, TYPE_AAAA, TYPE_CNAME, TYPE_TXT}
  }

  function UpperByte(b: Byte): Byte {
    if 97 <= b <= 122 then b - 32 else b
  }

  function ToUpper(v: Bytes): Bytes {
    seq(|v|, i requires 0 <= i < |v| => UpperByte(v[i]))
  }

  /** One trailing dot less. */
  function TrimDot(v: Bytes): Bytes {
    if |v| > 0 && v[|v| - 1] == DOT then v[..|v| - 1] else v
  }

  /** The absolute form of a name; empty when there is no name. */
  function Fqdn(name: Bytes): Bytes {
    var n := TrimDot(TrimSpace(name));
    if |n| == 0 then [] else n + [DOT]
  }

  function ToValue(typ: Bytes, v: Bytes): Bytes {
    if typ == TYPE_TXT then Quote(TrimSpace(v)) else TrimSpace(v)
  }

  function FromValue(typ: Bytes, v: Bytes): Bytes {
    if typ == TYPE_TXT then Unquote(v) else v
  }

  function Each(f: Bytes -> Bytes, vs: seq<Bytes>): seq<Bytes> {
    seq(|vs|, i requires 0 <= i < |vs| => f(vs[i]))
  }

  function TtlOr300(ttl: int): int {
    if ttl <= 0 then DEFAULT_TTL else ttl
  }

  /** toResourceRecordSet; none is its error. */
  function ToRoute53(rec: Record): Option<RecordSet> {
    var typ := ToUpper(TrimSpace(rec.typ));
    var name := Fqdn(rec.name);
    if |name| == 0 then None
    else if rec.alias.Some? then
      var target := Fqdn(rec.alias.value.target);
      if |target| == 0 then None
      else Some(RecordSet(name, typ, Some(rec.alias.value.(target := target)), None, []))
    else Some(RecordSet(name, typ, None, Some(TtlOr300(rec.ttl)), Each(v => ToValue(typ, v), rec.values)))
  }

  /** fromResourceRecordSet; none is a record that is not shown. */
  function FromRoute53(rr: RecordSet): Option<Record> {
    if !Supported(rr.typ) then None
    else
      var name := TrimDot(rr.name);
      if rr.alias.Some? then
        if rr.typ != TYPE_A && rr.typ != TYPE_AAAA then None
        else Some(Record(name, rr.typ, 0, [], Some(rr.alias.value.(target := TrimDot(rr.alias.value.target)))))
      else if |rr.records| == 0 then None
      else Some(Record(name, rr.typ,
                       if rr.ttl.Some? then rr.ttl.value else DEFAULT_TTL,
                       Each(v => FromValue(rr.typ, v), rr.records), None))
  }

  function ToCloudflare(rec: Record): Option<CfRecord> {
    if |rec.values| != 1 then None
    else Some(CfRecord(TrimSpace(rec.name), ToUpper(TrimSpace(rec.typ)), TrimSpace(rec.values[0]), TtlOr300(rec.ttl)))
  }

  function FromCloudflare(rec: CfRecord): Option<Record> {
    var typ := ToUpper(TrimSpace(rec.typ));
    if !Supported(typ) then None
    else Some(Record(TrimDot(rec.name), typ, TtlOr300(rec.ttl), [rec.content], None))
  }

  // ---------------------------------------------------------- normalised records

  predicate IsTrimmed(v: Bytes) {
    TrimSpace(v) == v
  }

  predicate IsRelative(name: Bytes) {
    IsTrimmed(name) && (|name| > 0 ==> name[|name| - 1] != DOT)
  }

  /** A TXT value that comes back as it was sent. */
  ghost predicate Survives(v: Bytes) {
    if IsWrapped(v) then !IsStrings(v) else BS !in v && NoStraddle(Escape(v), MAX_CHUNK)
  }

  /** An untrimmed TXT value that comes back all the same: one space too long,
      behind a last quote whose escape the chunk's end cuts and which therefore
      reads back with a space. */
  ghost predicate Mends(v: Bytes) {
    var t := TrimSpace(v);
    && v == t + [SP] && |t| > 0 && t[|t| - 1] == DQ && !IsWrapped(t) && BS !in t
    && NoStraddle(Escape(t[..|t| - 1]), MAX_CHUNK) && AtChunkEnd(|Escape(t[..|t| - 1])|, MAX_CHUNK)
  }

  ghost predicate NormalValue(typ: Bytes, v: Bytes) {
    if typ == TYPE_TXT then (if IsTrimmed(v) then Survives(v) else Mends(v)) else IsTrimmed(v)
  }

  /** What a record must be to come back from Route53 unchanged. */
  ghost predicate NormalForRoute53(rec: Record) {
    && |rec.name| > 0 && IsRelative(rec.name) && Supported(rec.typ)
    && (if rec.alias.Some? then
          && rec.typ in {TYPE_A, TYPE_AAAA} && rec.ttl == 0 && rec.values == []
          && |rec.alias.value.target| > 0 && IsRelative(rec.alias.value.target)
        else
          && rec.ttl > 0 && |rec.values| > 0
          && (forall i | 0 <= i < |rec.values| :: NormalValue(rec.typ, rec.values[i])))
  }

  predicate NormalForCloudflare(rec: Record) {
    && IsRelative(rec.name) && Supported(rec.typ) && rec.ttl > 0 && rec.alias.None?
    && |rec.values| == 1 && IsTrimmed(rec.values[0])
  }

  // ------------------------------------------------------------------- lemmas

  lemma {:induction false} TrimLeftShrinks(v: Bytes)
    ensures |TrimLeft(v)| <= |v| && (TrimLeft(v) == v <==> SpaceLength(v) == 0) && SpaceLength(TrimLeft(v)) == 0
    decreases |v|
  {
    if SpaceLength(v) > 0 {
      TrimLeftShrinks(v[SpaceLength(v)..]);
    }
  }

  lemma {:induction false} TrimRightShrinks(v: Bytes)
    ensures |TrimRight(v)| <= |v|
    decreases |v|
  {
    if SpaceLengthAtEnd(v) > 0 {
      TrimRightShrinks(v[..|v| - SpaceLengthAtEnd(v)]);
    }
  }

  lemma TrimShrinks(v: Bytes)
    ensures |TrimSpace(v)| <= |v|
  {
    TrimLeftShrinks(v);
    TrimRightShrinks(TrimLeft(v));
  }

  /** A name is unchanged by trimming space and a dot exactly when it has neither. */
  lemma RelativeIsFixed(name: Bytes)
    ensures TrimDot(TrimSpace(name)) == name <==> IsRelative(name)
  {
    TrimShrinks(name);
  }

  lemma FqdnUndone(name: Bytes)
    ensures |Fqdn(name)| > 0 ==> TrimDot(Fqdn(name)) == TrimDot(TrimSpace(name))
    ensures |Fqdn(name)| > 0 <==> |TrimDot(TrimSpace(name))| > 0
  {
    var n := TrimDot(TrimSpace(name));
    assert (n + [DOT])[..|n|] == n;
  }

  predicate AllCapitals(v: Bytes) {
    |v| > 0 && forall i | 0 <= i < |v| :: 65 <= v[i] <= 90
  }

  /** No white space starts with a letter. */
  lemma PlainStart(v: Bytes)
    requires |v| == 0 || 33 <= v[0] < 128
    ensures SpaceLength(v) == 0
  {
  }

  lemma PlainTail(v: Bytes, n: nat)
    requires AllCapitals(v) && 1 <= n <= |v|
    ensures SpaceLength(v[|v| - n..]) == 0
  {
    hide SpaceLength;
    var t := v[|v| - n..];
    assert t[0] == v[|v| - n];
    PlainStart(t);
  }

  lemma PlainEnd(v: Bytes)
    requires AllCapitals(v)
    ensures SpaceLengthAtEnd(v) == 0
  {
    hide SpaceLength;
    PlainTail(v, 1);
    if |v| >= 2 {
      PlainTail(v, 2);
    }
    if |v| >= 3 {
      PlainTail(v, 3);
    }
  }

  lemma PlainEnds(v: Bytes)
    requires AllCapitals(v)
    ensures TrimSpace(v) == v
  {
    hide SpaceLength, SpaceLengthAtEnd;
    PlainStart(v);
    PlainEnd(v);
  }

  lemma CapitalsAreFixed(v: Bytes)
    requires AllCapitals(v)
    ensures ToUpper(TrimSpace(v)) == v
  {
    hide TrimSpace;
    PlainEnds(v);
  }

  /** A supported type is already trimmed and in upper case. */
  lemma SupportedIsFixed(typ: Bytes)
    ensures Supported(typ) ==> ToUpper(TrimSpace(typ)) == typ
  {
    hide TrimSpace, ToUpper;
    if Supported(typ) {
      assert AllCapitals(typ);
      CapitalsAreFixed(typ);
    }
  }

  lemma {:induction false} TrimLeftDrops(v: Bytes) returns (n: nat)
    ensures n <= |v| && TrimLeft(v) == v[n..] && SpaceLength(TrimLeft(v)) == 0
    decreases |v|
  {
    n := SpaceLength(v);
    if n > 0 {
      var m := TrimLeftDrops(v[n..]);
      assert v[n..][m..] == v[n + m..];
      n := n + m;
    }
  }

  lemma {:induction false} TrimRightDrops(v: Bytes) returns (n: nat)
    ensures n <= |v| && TrimRight(v) == v[..n] && SpaceLengthAtEnd(TrimRight(v)) == 0
    decreases |v|
  {
    hide SpaceLength, SpaceLengthAtEnd;
    var k := SpaceLengthAtEnd(v);
    n := |v| - k;
    if k > 0 {
      var m := TrimRightDrops(v[..n]);
      assert v[..n][..m] == v[..m];
      n := m;
    } else {
      assert v[..n] == v;
    }
  }

  /** What trimming takes off, and that what it leaves has no space at its ends. */
  lemma TrimParts(v: Bytes) returns (pre: Bytes, post: Bytes)
    ensures v == pre + TrimSpace(v) + post
    ensures |TrimSpace(v)| > 0 ==> TrimSpace(v)[0] != SP && TrimSpace(v)[|TrimSpace(v)| - 1] != SP
  {
    hide SpaceLength, SpaceLengthAtEnd;
    var n := TrimLeftDrops(v);
    var u := TrimLeft(v);
    var m := TrimRightDrops(u);
    pre, post := v[..n], u[m..];
    assert v == pre + u && u == u[..m] + post;
    var t := TrimSpace(v);
    assert t == u[..m];
    if |t| > 0 {
      NotSpaceFirst(u);
      NotSpaceLast(t);
      assert t[0] == u[0];
    }
  }

  lemma NotSpaceFirst(v: Bytes)
    requires |v| > 0 && SpaceLength(v) == 0
    ensures v[0] != SP
  {
  }

  lemma NotSpaceLast(v: Bytes)
    requires |v| > 0 && SpaceLengthAtEnd(v) == 0
    ensures v[|v| - 1] != SP
  {
    assert v[|v| - 1..][0] == v[|v| - 1];
  }

  /** What an unwrapped value comes back as, before trimming it is undone. */
  lemma UnquoteOfQuote(t: Bytes)
    requires !IsWrapped(t)
    ensures var p := Reread(t, MAX_CHUNK); Unquote(Quote(t)) == if p.Some? then p.value else Quote(t)
    ensures |Quote(t)| > 0 && Quote(t)[0] == DQ && Quote(t)[|Quote(t)| - 1] == DQ
  {
    hide TrimSpace, Inside, Outside, Body, Escape, Unquote, Reread;
    var b := Body(Escape(t), MAX_CHUNK);
    BodyShape(Escape(t), MAX_CHUNK);
    UnquoteQuoted(b);
    RereadIs(t, MAX_CHUNK);
  }

  /** White space around a value is not made up for by what quoting changes,
      except for one space behind a cut last quote. */
  lemma UntrimmedReread(v: Bytes, p: Bytes)
    requires !IsTrimmed(v) && Reread(TrimSpace(v), MAX_CHUNK) == Some(p)
    ensures p == v <==>
              |TrimSpace(v)| > 0 && BS !in TrimSpace(v) && CutAtEnd(TrimSpace(v), MAX_CHUNK) && v == TrimSpace(v) + [SP]
  {
    hide TrimSpace, Reread, CutAtEnd, Count;
    var t := TrimSpace(v);
    var pre, post := TrimParts(v);
    if BS in t {
      RereadLosesBackslashes(t, MAX_CHUNK);
      CountParts(pre, t, post, BS);
    } else {
      RereadAddsSpaces(t, MAX_CHUNK, BS);
      if |t| == 0 {
        RereadNothing();
      } else {
        if p == v {
          OnlySpaces(pre, t, post, p);
          NothingBefore(pre, t, post);
          assert v == t + post;
          LongerReread(t, MAX_CHUNK, post);
        }
        LongerReread(t, MAX_CHUNK, [SP]);
      }
    }
  }

  lemma NothingBefore(pre: Bytes, t: Bytes, post: Bytes)
    requires |t| > 0 && t[0] != SP && (pre + t + post)[0] == t[0] && forall i | 0 <= i < |pre| :: pre[i] == SP
    ensures pre == [] && pre + t + post == t + post
  {
  }

  lemma RereadNothing()
    ensures Reread([], MAX_CHUNK) == Some([])
  {
  }

  lemma CountParts(pre: Bytes, t: Bytes, post: Bytes, b: Byte)
    ensures Count(pre + t + post, b) == Count(pre, b) + Count(t, b) + Count(post, b)
  {
    CountAppend(pre + t, post, b);
    CountAppend(pre, t, b);
  }

  /** If a text with more around it differs from itself by spaces only, spaces are before it. */
  lemma OnlySpaces(pre: Bytes, t: Bytes, post: Bytes, p: Bytes)
    requires BS !in t && Reread(t, MAX_CHUNK) == Some(p) && p == pre + t + post
    ensures forall i | 0 <= i < |pre| :: pre[i] == SP
  {
    hide Reread, Count;
    forall i | 0 <= i < |pre| ensures pre[i] == SP {
      var b := pre[i];
      assert b in pre;
      RereadAddsSpaces(t, MAX_CHUNK, b);
      CountParts(pre, t, post, b);
      CountZero(pre, b);
    }
  }

  lemma UntrimmedTxt(v: Bytes)
    requires !IsTrimmed(v)
    ensures Unquote(Quote(TrimSpace(v))) == v <==> Mends(v)
  {
    hide TrimSpace, Quote, Unquote, Mends, Reread, CutAtEnd, IsWrapped;
    var t := TrimSpace(v);
    MendsExactly(v);
    NotTheQuoted(v);
    TrimTakes(v);
    if IsWrapped(t) {
      WrappedShrinks(t);
    } else {
      UnquoteOfQuote(t);
      var p := Reread(t, MAX_CHUNK);
      if p.Some? {
        UntrimmedReread(v, p.value);
      } else {
        FailsWithBackslash(t);
      }
    }
  }

  lemma TrimTakes(v: Bytes)
    requires !IsTrimmed(v)
    ensures |TrimSpace(v)| < |v| && TrimSpace(v) != v
  {
    hide TrimSpace;
    var pre, post := TrimParts(v);
    assert pre == [] && post == [] ==> v == TrimSpace(v);
  }

  /** An untrimmed value is not itself a quoted text. */
  lemma NotTheQuoted(v: Bytes)
    requires !IsTrimmed(v)
    ensures !IsWrapped(TrimSpace(v)) ==> Quote(TrimSpace(v)) != v
  {
    hide TrimSpace, Quote, Unquote, Reread;
    if !IsWrapped(TrimSpace(v)) {
      UnquoteOfQuote(TrimSpace(v));
      if Quote(TrimSpace(v)) == v {
        TrimKeepsQuotes(v);
      }
    }
  }

  lemma MendsExactly(v: Bytes)
    ensures var t := TrimSpace(v);
      Mends(v) <==> v == t + [SP] && |t| > 0 && !IsWrapped(t) && BS !in t && CutAtEnd(t, MAX_CHUNK)
  {
    hide TrimSpace, NoStraddle, AtChunkEnd, Escape, Clean, CutAtEnd;
    var t := TrimSpace(v);
    CutAtEndMeans(t, MAX_CHUNK);
    if |t| > 0 {
      var u := t[..|t| - 1];
      CleanMeans(u, MAX_CHUNK);
      assert t == u + [t[|t| - 1]];
    }
  }

  lemma FailsWithBackslash(t: Bytes)
    ensures Reread(t, MAX_CHUNK).None? ==> BS in t
  {
    if BS !in t {
      RereadAddsSpaces(t, MAX_CHUNK, DQ);
    }
  }

  lemma WrappedShrinks(t: Bytes)
    requires IsWrapped(t)
    ensures |Unquote(Quote(t))| < |t| || Unquote(Quote(t)) == t
  {
    hide TrimSpace, Inside, Outside, Unquote;
    TrimKeepsQuotes(t);
    UnquoteTrimmed(t);
    OutsideShrinks(t, false);
  }

  lemma TxtSurvives(v: Bytes)
    ensures Unquote(Quote(v)) == v <==> Survives(v)
  {
    hide Unquote, Quote, IsStrings, Escape;
    TxtRoundTrips(v);
    NoStraddleMeans(Escape(v));
    assert !IsWrapped(v) && Unquote(Quote(v)) == v ==> NoStraddle(Escape(v), MAX_CHUNK);
  }

  /** Which values come back, of any type and with any white space around them. */
  lemma ValueRoundTrips(typ: Bytes, v: Bytes)
    ensures FromValue(typ, ToValue(typ, v)) == v <==> NormalValue(typ, v)
  {
    hide TrimSpace, Quote, Unquote, Mends, Survives;
    if typ == TYPE_TXT {
      if IsTrimmed(v) {
        TxtSurvives(v);
      } else {
        UntrimmedTxt(v);
      }
    }
  }

  lemma ValuesRoundTrip(typ: Bytes, vs: seq<Bytes>)
    ensures Each(v => FromValue(typ, v), Each(v => ToValue(typ, v), vs)) == vs <==>
            forall i | 0 <= i < |vs| :: NormalValue(typ, vs[i])
  {
    hide ToValue, FromValue, NormalValue;
    var there := Each(v => ToValue(typ, v), vs);
    var back := Each(v => FromValue(typ, v), there);
    forall i | 0 <= i < |vs|
      ensures there[i] == ToValue(typ, vs[i]) && back[i] == FromValue(typ, ToValue(typ, vs[i]))
      ensures back[i] == vs[i] <==> NormalValue(typ, vs[i])
    {
      ValueRoundTrips(typ, vs[i]);
    }
  }

  // -------------------------------------------------------------- main results

  /** There and back through Route53 is the identity on exactly the normalised records. */
  lemma Route53RoundTrips(rec: Record)
    ensures ToRoute53(rec).Some? && FromRoute53(ToRoute53(rec).value) == Some(rec) <==> NormalForRoute53(rec)
  {
    hide TrimSpace, Quote, Unquote, NormalValue, ToUpper, TrimDot, Fqdn, Each, Supported, IsRelative;
    RelativeIsFixed(rec.name);
    FqdnUndone(rec.name);
    SupportedIsFixed(rec.typ);
    if rec.alias.Some? {
      RelativeIsFixed(rec.alias.value.target);
      FqdnUndone(rec.alias.value.target);
    } else {
      var typ := ToUpper(TrimSpace(rec.typ));
      ValuesRoundTrip(typ, rec.values);
      EachLength(v => ToValue(typ, v), rec.values);
    }
  }

  lemma EachLength(f: Bytes -> Bytes, vs: seq<Bytes>)
    ensures |Each(f, vs)| == |vs|
  {
  }

  /** What Route53 makes of any record it shows again: the name without white space
      and its dot, the type in capitals, five minutes where no time to live was
      given, and as many values in the same order, trimmed and, as texts, reread. */
  lemma Route53Settles(rec: Record)
    ensures var sent := ToRoute53(rec);
      var typ := ToUpper(TrimSpace(rec.typ));
      && (sent.Some? <==> Fqdn(rec.name) != [] && (rec.alias.Some? ==> Fqdn(rec.alias.value.target) != []))
      && (sent.Some? ==>
            var back := FromRoute53(sent.value);
            && (back.Some? <==>
                  Supported(typ) && if rec.alias.Some? then typ in {TYPE_A, TYPE_AAAA} else rec.values != [])
            && (back.Some? ==>
                  && back.value.name == TrimDot(TrimSpace(rec.name)) && back.value.typ == typ
                  && (back.value.alias.Some? <==> rec.alias.Some?)
                  && (rec.alias.Some? ==>
                        back.value.alias.value ==
                          rec.alias.value.(target := TrimDot(TrimSpace(rec.alias.value.target))))
                  && (rec.alias.None? ==>
                        && back.value.ttl == (if rec.ttl <= 0 then 300 else rec.ttl)
                        && |back.value.values| == |rec.values|
                        && forall i | 0 <= i < |rec.values| ::
                             back.value.values[i] == if typ == TYPE_TXT then Unquote(Quote(TrimSpace(rec.values[i])))
                                                     else TrimSpace(rec.values[i]))))
  {
    hide TrimSpace, Quote, Unquote, ToUpper, TrimDot, Fqdn, Each, Supported;
    FqdnUndone(rec.name);
    if rec.alias.Some? {
      FqdnUndone(rec.alias.value.target);
    } else if |Fqdn(rec.name)| > 0 {
      SentValues(rec);
      if FromRoute53(ToRoute53(rec).value).Some? {
        ShownValues(ToRoute53(rec).value);
      }
    }
  }

  lemma SentValues(rec: Record)
    requires rec.alias.None? && ToRoute53(rec).Some?
    ensures var typ, there := ToUpper(TrimSpace(rec.typ)), ToRoute53(rec).value.records;
      |there| == |rec.values| && forall i | 0 <= i < |there| :: there[i] == ToValue(typ, rec.values[i])
  {
    hide TrimSpace, ToUpper, ToValue, Fqdn;
  }

  lemma ShownValues(rr: RecordSet)
    requires rr.alias.None? && FromRoute53(rr).Some?
    ensures var back := FromRoute53(rr).value.values;
      |back| == |rr.records| && forall i | 0 <= i < |back| :: back[i] == FromValue(rr.typ, rr.records[i])
  {
    hide FromValue;
  }

  /** A record set without a time to live is shown with five minutes. */
  lemma NoTtlShown(rr: RecordSet)
    requires FromRoute53(rr).Some? && rr.alias.None? && rr.ttl.None?
    ensures FromRoute53(rr).value.ttl == 300
  {
  }

  /** Types are supported in either case. */
  lemma TypesInEitherCase()
    ensures ToUpper([97]) == TYPE_A && ToUpper([97, 97, 97, 97]) == TYPE_AAAA
    ensures ToUpper([99, 110, 97, 109, 101]) == TYPE_CNAME && ToUpper([116, 120, 116]) == TYPE_TXT
    ensures Supported(TYPE_A) && Supported(TYPE_AAAA) && Supported(TYPE_CNAME) && Supported(TYPE_TXT)
  {
  }

  /** And through Cloudflare, on exactly the normalised single-valued ones. */
  lemma CloudflareRoundTrips(rec: Record)
    ensures ToCloudflare(rec).Some? && FromCloudflare(ToCloudflare(rec).value) == Some(rec) <==>
              NormalForCloudflare(rec)
  {
    hide TrimSpace, ToUpper, TrimDot, Supported, IsRelative;
    RelativeIsFixed(rec.name);
    SupportedIsFixed(rec.typ);
    SupportedIsFixed(ToUpper(TrimSpace(rec.typ)));
    assert |rec.values| == 1 ==> rec.values == [rec.values[0]];
  }

  // ----------------------------------------- an untrimmed value that comes back

  function Run(n: nat): Bytes {
    if n == 0 then [] else [120] + Run(n - 1)
  }

  lemma {:induction false} ReadRun(n: nat, e: Bytes, room: nat)
    requires room >= n
    ensures Inside(Body(Run(n) + e, room)) == Prepend(Run(n), Inside(Body(e, room - n)))
  {
    hide Inside, Outside, Body;
    if n == 0 {
      assert Run(0) + e == e;
      PrependNothing(Inside(Body(e, room)));
    } else {
      assert Run(n) + e == [120] + (Run(n - 1) + e);
      OpenPlain(120, Run(n - 1) + e, room);
      ReadRun(n - 1, e, room - 1);
      var r := Inside(Body(e, room - n));
      assert r.Some? ==> [120] + (Run(n - 1) + r.value) == Run(n) + r.value;
    }
  }

  lemma {:induction false} EscapeRun(n: nat, v: Bytes)
    ensures Escape(Run(n) + v) == Run(n) + Escape(v)
  {
    if n == 0 {
      assert Run(0) + v == v && Run(0) + Escape(v) == Escape(v);
    } else {
      assert Run(n) + v == [120] + (Run(n - 1) + v);
      EscapeCons(Run(n) + v);
      assert (Run(n) + v)[1..] == Run(n - 1) + v;
      EscapeRun(n - 1, v);
    }
  }

  /** A quote cut at the very end of a value is read back with a space behind it,
      so the value with that space comes back as it was. */
  lemma CutAtEndAddsSpace()
    ensures var t := Run(254) + [DQ]; Unquote(Quote(t)) == t + [SP]
  {
    hide Inside, Outside, Body, Escape, TrimSpace, NoStraddle;
    var t := Run(254) + [DQ];
    RunStarts(254);
    EscapeRun(254, [DQ]);
    EscapeCons([DQ]);
    assert Escape([DQ][1..]) == [] by { EscapeNothing(); assert [DQ][1..] == []; }
    assert Escape([DQ]) == [BS] + [DQ];
    ReadRun(254, [BS] + [DQ], MAX_CHUNK);
    OpenCut([DQ]);
    WriteByte(DQ, [], MAX_CHUNK);
    WriteEnd(254);
    assert [DQ] + [] == [DQ];
    ReadOutside(Body([], 254));
    var b := Body(Escape(t), MAX_CHUNK);
    assert Inside(b) == Some(Run(254) + ([DQ] + ([SP] + [])));
    assert Run(254) + ([DQ] + ([SP] + [])) == t + [SP];
    BodyShape(Escape(t), MAX_CHUNK);
    TrimKeepsQuotes([DQ] + b);
    ReadOutside(b);
  }

  lemma RunStarts(n: nat)
    requires n > 0
    ensures |Run(n)| > 0 && Run(n)[0] == 120
  {
  }

  // ----------------------------------------------------------------- the loops

  method ToValues(typ: Bytes, values: seq<Bytes>) returns (out: seq<Bytes>)
    ensures out == Each(v => ToValue(typ, v), values)
  {
    hide TrimSpace, Quote, Unquote;
    out := [];
    for i := 0 to |values|
      invariant |out| == i && forall k | 0 <= k < i :: out[k] == ToValue(typ, values[k])
    {
      var val := TrimSpace(values[i]);
      if typ == TYPE_TXT {
        val := QuoteTXT(val);
      }
      out := out + [val];
    }
  }

  method FromValues(typ: Bytes, values: seq<Bytes>) returns (out: seq<Bytes>)
    ensures out == Each(v => FromValue(typ, v), values)
  {
    hide TrimSpace, Quote, Unquote;
    out := [];
    for i := 0 to |values|
      invariant |out| == i && forall k | 0 <= k < i :: out[k] == FromValue(typ, values[k])
    {
      var val := values[i];
      if typ == TYPE_TXT {
        val := UnquoteTXT(val);
      }
      out := out + [val];
    }
  }
}
