/** TXT record values over bytes: quoting into chunks of at most 255 bytes, the
    parser that takes the quotes off again, and exactly which values survive. */
module TxtValues {
  import opened Options

  type Byte = x: int | 0 <= x < 256
  type Bytes = seq<Byte>

  const DQ: Byte := 34
  const BS: Byte := 92
  const SP: Byte := 32
  const MAX_CHUNK := 255

  // ------------------------------------------------------------------ trimming

  /** The length of the white-space character `v` starts with, in UTF-8; 0 when it starts with none. */
  function SpaceLength(v: Bytes): (n: nat)
    ensures n <= |v| && n <= 3
    ensures n > 0 ==> v[0] != DQ
  {
    if |v| >= 1 && (9 <= v[0] <= 13 || v[0] == SP) then 1
    else if |v| >= 2 && v[0] == 0xC2 && v[1] in {0x85, 0xA0} then 2
    else if |v| >= 3 && ((v[0] == 0xE1 && v[1] == 0x9A && v[2] == 0x80)
                         || (v[0] == 0xE2 && v[1] == 0x80 && (0x80 <= v[2] <= 0x8A || v[2] in {0xA8, 0xA9, 0xAF}))
                         || (v[0] == 0xE2 && v[1] == 0x81 && v[2] == 0x9F)
                         || (v[0] == 0xE3 && v[1] == 0x80 && v[2] == 0x80)) then 3
    else 0
  }

  function TrimLeft(v: Bytes): Bytes
    decreases |v|
  {
    if SpaceLength(v) == 0 then v else TrimLeft(v[SpaceLength(v)..])
  }

  /** The length of the white-space character `v` ends with; 0 when it ends with none. */
  function SpaceLengthAtEnd(v: Bytes): (n: nat)
    ensures n <= |v| && (n > 0 ==> v[|v| - 1] != DQ)
  {
    if |v| >= 1 && SpaceLength(v[|v| - 1..]) == 1 then 1
    else if |v| >= 2 && SpaceLength(v[|v| - 2..]) == 2 then 2
    else if |v| >= 3 && SpaceLength(v[|v| - 3..]) == 3 then 3
    else 0
  }

  function TrimRight(v: Bytes): Bytes
    decreases |v|
  {
    if SpaceLengthAtEnd(v) == 0 then v else TrimRight(v[..|v| - SpaceLengthAtEnd(v)])
  }

  function TrimSpace(v: Bytes): Bytes {
    TrimRight(TrimLeft(v))
  }

  // ------------------------------------------------------------------- quoting

  predicate IsWrapped(v: Bytes) {
    |v| >= 2 && v[0] == DQ && v[|v| - 1] == DQ
  }

  function Escape(v: Bytes): Bytes {
    if |v| == 0 then [] else (if v[0] == DQ then [BS, DQ] else [v[0]]) + Escape(v[1..])
  }

  /** The rest of a quoted text with room for so many bytes in the open chunk. */
  function Body(e: Bytes, room: nat): Bytes
    decreases |e|, if room == 0 then 1 else 0
  {
    if |e| == 0 then [DQ]
    else if room == 0 then [DQ] + ([SP] + ([DQ] + Body(e, MAX_CHUNK)))
    else [e[0]] + Body(e[1..], room - 1)
  }

  function Quote(v: Bytes): Bytes {
    if IsWrapped(v) then v else [DQ] + Body(Escape(v), MAX_CHUNK)
  }

  // ------------------------------------------------------------------- parsing

  /** Between chunks: spaces, then the end or an opening quote. */
  function Outside(s: Bytes): Option<Bytes>
    decreases |s|
  {
    if |s| == 0 then Some([])
    else if s[0] == SP then Outside(s[1..])
    else if s[0] == DQ then Inside(s[1..])
    else None
  }

  /** Within a chunk: an escaped byte, the closing quote, or a byte as it is. */
  function Inside(s: Bytes): Option<Bytes>
    decreases |s|
  {
    if |s| == 0 then None
    else if s[0] == BS && |s| >= 2 then Emit(s[1], Inside(s[2..]))
    else if s[0] == DQ then Outside(s[1..])
    else Emit(s[0], Inside(s[1..]))
  }

  function Emit(b: Byte, rest: Option<Bytes>): Option<Bytes> {
    if rest.Some? then Some([b] + rest.value) else None
  }

  function Unquote(v: Bytes): Bytes {
    var t := TrimSpace(v);
    if |t| == 0 || t[0] != DQ then t
    else
      var parsed := Outside(t);
      if parsed.Some? then parsed.value else t
  }

  // -------------------------------------------------------- which values survive

  /** Read from a chunk with so much room: no backslash, and no escaped quote cut in two. */
  predicate Clean(v: Bytes, room: nat) {
    |v| > 0 ==>
      var r := if room == 0 then MAX_CHUNK else room;
      && v[0] != BS
      && (if v[0] == DQ then r >= 2 && Clean(v[1..], r - 2) else Clean(v[1..], r - 1))
  }

  /** The same, read off the escaped text: no escape sequence starts on the last byte of a chunk. */
  ghost predicate NoStraddle(e: Bytes, room: int) {
    forall j | 0 <= j < |e| && AtChunkEnd(j, room) :: e[j] != BS
  }

  lemma ShiftOne(e: Bytes, room: int)
    requires |e| > 0
    ensures NoStraddle(e, room) <==> (AtChunkEnd(0, room) ==> e[0] != BS) && NoStraddle(e[1..], room - 1)
  {
    if NoStraddle(e[1..], room - 1) && (AtChunkEnd(0, room) ==> e[0] != BS) {
      forall j | 0 <= j < |e| && AtChunkEnd(j, room) ensures e[j] != BS {
        if j > 0 {
          assert AtChunkEnd(j - 1, room - 1) && e[1..][j - 1] == e[j];
        }
      }
    }
    if NoStraddle(e, room) {
      forall j | 0 <= j < |e[1..]| && AtChunkEnd(j, room - 1) ensures e[1..][j] != BS {
        assert AtChunkEnd(j + 1, room);
      }
    }
  }

  predicate AtChunkEnd(j: int, room: int) {
    (j + 1 - room) % MAX_CHUNK == 0
  }

  lemma WrapRoom(e: Bytes)
    ensures NoStraddle(e, 0) <==> NoStraddle(e, MAX_CHUNK)
  {
    assert forall j: int :: AtChunkEnd(j, 0) <==> AtChunkEnd(j, MAX_CHUNK);
  }

  lemma EscapeCons(v: Bytes)
    requires |v| > 0
    ensures Escape(v) == if v[0] == DQ then [BS] + ([DQ] + Escape(v[1..])) else [v[0]] + Escape(v[1..])
  {
  }

  lemma StraddleCons(x: Byte, rest: Bytes, room: int)
    ensures NoStraddle([x] + rest, room) <==> (AtChunkEnd(0, room) ==> x != BS) && NoStraddle(rest, room - 1)
  {
    ShiftOne([x] + rest, room);
    assert ([x] + rest)[1..] == rest;
  }

  lemma EndOfChunk(room: int)
    requires 1 <= room <= MAX_CHUNK
    ensures AtChunkEnd(0, room) <==> room == 1
  {
  }

  lemma {:induction false} CleanMeans(v: Bytes, room: nat)
    requires room <= MAX_CHUNK
    ensures Clean(v, room) <==> BS !in v && NoStraddle(Escape(v), room)
  {
    hide NoStraddle, AtChunkEnd, Escape;
    if |v| > 0 {
      var r := if room == 0 then MAX_CHUNK else room;
      var rest := Escape(v[1..]);
      WrapRoom(Escape(v));
      EscapeCons(v);
      EndOfChunk(r);
      assert BS in v <==> v[0] == BS || BS in v[1..] by { assert v == [v[0]] + v[1..]; }
      if v[0] == DQ {
        StraddleCons(BS, [DQ] + rest, r);
        StraddleCons(DQ, rest, r - 1);
        if r >= 2 {
          CleanMeans(v[1..], r - 2);
        }
      } else if v[0] != BS {
        StraddleCons(v[0], rest, r);
        CleanMeans(v[1..], r - 1);
      }
    } else {
      NothingStraddles(room);
    }
  }

  lemma NothingStraddles(room: int)
    ensures NoStraddle(Escape([]), room)
  {
  }

  // ------------------------------------------------------- one byte at a time

  lemma ReadPlain(x: Byte, s: Bytes)
    requires x != DQ && x != BS
    ensures Inside([x] + s) == Emit(x, Inside(s))
  {
    assert ([x] + s)[1..] == s;
  }

  lemma ReadEscape(x: Byte, s: Bytes)
    ensures Inside([BS] + ([x] + s)) == Emit(x, Inside(s))
  {
    assert ([BS] + ([x] + s))[2..] == s && ([BS] + ([x] + s))[1] == x;
  }

  lemma ReadClose(s: Bytes)
    ensures Inside([DQ] + s) == Outside(s)
  {
    assert ([DQ] + s)[1..] == s;
  }

  lemma ReadOutside(s: Bytes)
    ensures Outside([SP] + s) == Outside(s) && Outside([DQ] + s) == Inside(s)
  {
    assert ([SP] + s)[1..] == s && ([DQ] + s)[1..] == s;
  }

  lemma WriteByte(x: Byte, rest: Bytes, room: nat)
    requires room >= 1
    ensures Body([x] + rest, room) == [x] + Body(rest, room - 1)
  {
    assert ([x] + rest)[1..] == rest;
  }

  lemma WriteBreak(e: Bytes)
    requires |e| > 0
    ensures Body(e, 0) == [DQ] + ([SP] + ([DQ] + Body(e, MAX_CHUNK)))
  {
  }

  lemma WriteEnd(room: nat)
    ensures Body([], room) == [DQ] + [] && Inside(Body([], room)) == Some([]) && Outside(Body([], room)) == None
  {
    ReadClose([]);
    assert Outside([DQ]) == Inside([]);
  }

  // ------------------------------------------------- the parser over a quoted text

  /** A full chunk closes, and the parser goes on inside the next one. */
  lemma Reopen(e: Bytes)
    requires |e| > 0
    ensures Inside(Body(e, 0)) == Inside(Body(e, MAX_CHUNK))
  {
    hide Inside, Outside, Body;
    var b := Body(e, MAX_CHUNK);
    WriteBreak(e);
    ReadClose([SP] + ([DQ] + b));
    ReadOutside([DQ] + b);
    ReadOutside(b);
  }

  lemma OpenPlain(x: Byte, rest: Bytes, room: nat)
    requires x != DQ && x != BS && room >= 1
    ensures Inside(Body([x] + rest, room)) == Emit(x, Inside(Body(rest, room - 1)))
  {
    hide Inside, Outside, Body;
    WriteByte(x, rest, room);
    ReadPlain(x, Body(rest, room - 1));
  }

  /** A backslash with room left for one more byte hides that byte. */
  lemma OpenEscape(x: Byte, rest: Bytes, room: nat)
    requires room >= 2
    ensures Inside(Body([BS] + ([x] + rest), room)) == Emit(x, Inside(Body(rest, room - 2)))
  {
    hide Inside, Outside, Body;
    WriteByte(BS, [x] + rest, room);
    WriteByte(x, rest, room - 1);
    ReadEscape(x, Body(rest, room - 2));
  }

  /** A backslash on the last byte of a chunk hides the chunk's closing quote:
      the space between the chunks is read as text, and the text as the outside. */
  lemma OpenCut(rest: Bytes)
    requires |rest| > 0
    ensures Inside(Body([BS] + rest, 1)) == Emit(DQ, Emit(SP, Outside(Body(rest, MAX_CHUNK))))
  {
    hide Inside, Outside, Body;
    var b := Body(rest, MAX_CHUNK);
    WriteByte(BS, rest, 1);
    WriteBreak(rest);
    ReadEscape(DQ, [SP] + ([DQ] + b));
    ReadPlain(SP, [DQ] + b);
    ReadClose(b);
  }

  /** A bare quote inside a chunk ends it. */
  lemma OpenQuote(rest: Bytes, room: nat)
    requires room >= 1
    ensures Inside(Body([DQ] + rest, room)) == Outside(Body(rest, room - 1))
  {
    hide Inside, Outside, Body;
    WriteByte(DQ, rest, room);
    ReadClose(Body(rest, room - 1));
  }

  // ------------------------------------------------ what a quoted text reads as

  /** Text read as the outside of a chunk is always refused in the end. */
  lemma {:induction false} AfterClose(w: Bytes, room: nat)
    ensures Outside(Body(Escape(w), room)) == None
    decreases |w|, if room == 0 then 1 else 0
  {
    hide Inside, Body;
    if |w| == 0 {
      WriteEnd(room);
    } else if room == 0 {
      var b := Body(Escape(w), MAX_CHUNK);
      EscapeCons(w);
      WriteBreak(Escape(w));
      ReadOutside([SP] + ([DQ] + b));
      ReadPlain(SP, [DQ] + b);
      ReadClose(b);
      AfterClose(w, MAX_CHUNK);
    } else {
      EscapeCons(w);
      var rest := Escape(w)[1..];
      WriteByte(Escape(w)[0], rest, room);
      assert [Escape(w)[0]] + rest == Escape(w);
      if w[0] == SP {
        ReadOutside(Body(rest, room - 1));
        assert rest == Escape(w[1..]);
        AfterClose(w[1..], room - 1);
      }
    }
  }

  /** And so is text behind a quote that lost its backslash. */
  lemma BareQuote(w: Bytes, room: nat)
    ensures Inside(Body([DQ] + Escape(w), room)) == None
  {
    hide Inside, Outside, Body, Escape;
    if room == 0 {
      Reopen([DQ] + Escape(w));
      OpenQuote(Escape(w), MAX_CHUNK);
      AfterClose(w, MAX_CHUNK - 1);
    } else {
      OpenQuote(Escape(w), room);
      AfterClose(w, room - 1);
    }
  }

  /** What the parser makes of a value quoted from a chunk with so much room: a
      backslash is dropped and hides the byte behind it, or ruins the text; a
      quote whose escape is cut gains a space. */
  function Reread(v: Bytes, room: nat): Option<Bytes> {
    if |v| == 0 then Some([])
    else
      var r := if room == 0 then MAX_CHUNK else room;
      if v[0] == BS then
        if |v| > 1 && r >= 2 && v[1] != DQ then Emit(v[1], Reread(v[2..], r - 2)) else None
      else if v[0] == DQ then
        if r == 1 then Emit(DQ, Emit(SP, Reread(v[1..], MAX_CHUNK - 1))) else Emit(DQ, Reread(v[1..], r - 2))
      else Emit(v[0], Reread(v[1..], r - 1))
  }

  lemma ReadBackslash(v: Bytes, room: nat)
    requires |v| > 0 && v[0] == BS && room >= 1
    ensures Inside(Body(Escape(v), room)) ==
            if |v| > 1 && room >= 2 && v[1] != DQ then Emit(v[1], Inside(Body(Escape(v[2..]), room - 2))) else None
  {
    hide Inside, Outside, Body;
    EscapeCons(v);
    if |v| == 1 {
      WriteByte(BS, [], room);
      WriteEnd(room - 1);
      ReadEscape(DQ, []);
      NothingInside();
      assert Escape(v[1..]) == [];
    } else {
      EscapeCons(v[1..]);
      assert v[1..][1..] == v[2..];
      if room == 1 {
        OpenCut(Escape(v[1..]));
        AfterClose(v[1..], MAX_CHUNK);
      } else if v[1] == DQ {
        OpenEscape(BS, [DQ] + Escape(v[2..]), room);
        BareQuote(v[2..], room - 2);
      } else {
        OpenEscape(v[1], Escape(v[2..]), room);
      }
    }
  }

  lemma NothingInside()
    ensures Inside([]) == None
  {
  }

  lemma EscapeNothing()
    ensures Escape([]) == []
  {
  }

  lemma {:induction false} RereadIs(v: Bytes, room: nat)
    ensures Inside(Body(Escape(v), room)) == Reread(v, room)
    decreases |v|, if room == 0 then 1 else 0
  {
    hide Inside, Outside, Body, Escape;
    if |v| == 0 {
      EscapeNothing();
      WriteEnd(room);
    } else {
      EscapeCons(v);
      if room == 0 {
        Reopen(Escape(v));
        RereadIs(v, MAX_CHUNK);
      } else if v[0] == BS {
        ReadBackslash(v, room);
        if |v| > 1 && room >= 2 && v[1] != DQ {
          RereadIs(v[2..], room - 2);
        }
      } else if v[0] == DQ && room == 1 {
        var e := Escape(v[1..]);
        OpenCut([DQ] + e);
        WriteByte(DQ, e, MAX_CHUNK);
        ReadOutside(Body(e, MAX_CHUNK - 1));
        RereadIs(v[1..], MAX_CHUNK - 1);
      } else if v[0] == DQ {
        OpenEscape(DQ, Escape(v[1..]), room);
        RereadIs(v[1..], room - 2);
      } else {
        OpenPlain(v[0], Escape(v[1..]), room);
        RereadIs(v[1..], room - 1);
      }
    }
  }

  // ------------------------------------------------------------ counting bytes

  function Count(s: Bytes, b: Byte): nat {
    if |s| == 0 then 0 else (if s[0] == b then 1 else 0) + Count(s[1..], b)
  }

  lemma {:induction false} CountAppend(s: Bytes, t: Bytes, b: Byte)
    ensures Count(s + t, b) == Count(s, b) + Count(t, b)
  {
    if |s| == 0 {
      assert s + t == t;
    } else {
      assert (s + t)[1..] == s[1..] + t;
      CountAppend(s[1..], t, b);
    }
  }

  lemma {:induction false} CountZero(s: Bytes, b: Byte)
    ensures Count(s, b) == 0 <==> b !in s
  {
    if |s| > 0 {
      CountZero(s[1..], b);
      assert s == [s[0]] + s[1..];
    }
  }

  /** Every backslash of a value costs one. */
  lemma {:induction false} RereadLosesBackslashes(v: Bytes, room: nat)
    ensures Reread(v, room).Some? ==>
              Count(Reread(v, room).value, BS) <= Count(v, BS)
              && (BS in v ==> Count(Reread(v, room).value, BS) < Count(v, BS))
  {
    if |v| > 0 && Reread(v, room).Some? {
      var r := if room == 0 then MAX_CHUNK else room;
      var p := Reread(v, room).value;
      assert v == [v[0]] + v[1..];
      if v[0] == BS {
        RereadLosesBackslashes(v[2..], r - 2);
        assert v[1..][1..] == v[2..] && p[1..] == Reread(v[2..], r - 2).value;
      } else if v[0] == DQ && r == 1 {
        RereadLosesBackslashes(v[1..], MAX_CHUNK - 1);
        assert p[1..][1..] == Reread(v[1..], MAX_CHUNK - 1).value;
      } else {
        var n := if v[0] == DQ then r - 2 else r - 1;
        RereadLosesBackslashes(v[1..], n);
        assert p[1..] == Reread(v[1..], n).value;
      }
    }
  }

  /** Without one, only spaces are added, and the first byte stays first. */
  lemma {:induction false} RereadAddsSpaces(v: Bytes, room: nat, b: Byte)
    requires BS !in v
    ensures Reread(v, room).Some?
    ensures b != SP ==> Count(Reread(v, room).value, b) == Count(v, b)
    ensures |v| > 0 ==> |Reread(v, room).value| > 0 && Reread(v, room).value[0] == v[0]
    ensures |Reread(v, room).value| >= |v| && (|Reread(v, room).value| == |v| <==> Clean(v, room))
  {
    if |v| > 0 {
      var r := if room == 0 then MAX_CHUNK else room;
      if v[0] == DQ && r == 1 {
        RereadAddsSpaces(v[1..], MAX_CHUNK - 1, b);
        assert Reread(v, room).value[1..][1..] == Reread(v[1..], MAX_CHUNK - 1).value;
      } else {
        var n := if v[0] == DQ then r - 2 else r - 1;
        RereadAddsSpaces(v[1..], n, b);
        assert Reread(v, room).value[1..] == Reread(v[1..], n).value;
      }
    }
  }

  // --------------------------------------------------- survivors and the others

  lemma {:induction false} CleanRereads(v: Bytes, room: nat)
    requires Clean(v, room)
    ensures Reread(v, room) == Some(v)
  {
    if |v| > 0 {
      var r := if room == 0 then MAX_CHUNK else room;
      CleanRereads(v[1..], if v[0] == DQ then r - 2 else r - 1);
      assert v == [v[0]] + v[1..];
    }
  }

  lemma CleanSurvives(v: Bytes, room: nat)
    requires Clean(v, room)
    ensures Inside(Body(Escape(v), room)) == Some(v)
  {
    RereadIs(v, room);
    CleanRereads(v, room);
  }

  lemma OthersDiffer(v: Bytes, room: nat)
    requires !Clean(v, room)
    ensures Inside(Body(Escape(v), room)) != Some(v)
  {
    hide Inside, Body, Escape, Reread, Clean, Count;
    RereadIs(v, room);
    RereadLosesBackslashes(v, room);
    if BS !in v {
      RereadAddsSpaces(v, room, DQ);
    }
  }

  /** A text never reads back as itself without a leading space, whatever follows. */
  lemma {:induction false} NoLead(w: Bytes, room: nat, post: Bytes)
    requires BS !in w && |w| > 0 && w[|w| - 1] != SP
    ensures Reread(w, room).Some? ==> w + post != [SP] + Reread(w, room).value
  {
    var p := Reread(w, room);
    if p.Some? && w + post == [SP] + p.value {
      var r := if room == 0 then MAX_CHUNK else room;
      assert (w + post)[0] == w[0] == SP;
      assert w == [w[0]] + w[1..];
      assert (w + post)[1..] == w[1..] + post && ([SP] + p.value)[1..] == p.value;
      NoLead(w[1..], r - 1, post);
    }
  }

  /** The one escape that is cut belongs to the last byte. */
  predicate CutAtEnd(v: Bytes, room: nat) {
    && |v| > 0
    && var r := if room == 0 then MAX_CHUNK else room;
    && v[0] != BS
    && if v[0] == DQ then (if r == 1 then |v| == 1 else CutAtEnd(v[1..], r - 2)) else CutAtEnd(v[1..], r - 1)
  }

  /** A value that does not end in a space reads back with more behind it only
      when its last quote is cut, and then with one space. */
  lemma {:induction false} LongerReread(v: Bytes, room: nat, post: Bytes)
    requires BS !in v && (|v| > 0 ==> v[|v| - 1] != SP) && |post| > 0
    ensures Reread(v, room) == Some(v + post) <==> CutAtEnd(v, room) && post == [SP]
  {
    if |v| > 0 {
      var r := if room == 0 then MAX_CHUNK else room;
      var n := if v[0] == DQ then (if r == 1 then MAX_CHUNK - 1 else r - 2) else r - 1;
      assert v == [v[0]] + v[1..] && (v + post)[1..] == v[1..] + post;
      RereadAddsSpaces(v[1..], n, BS);
      var rest := Reread(v[1..], n).value;
      if v[0] == DQ && r == 1 {
        assert Reread(v, room).value[1..] == [SP] + rest;
        if |v| > 1 {
          NoLead(v[1..], n, post);
        } else {
          assert v == [DQ] && v[1..] == [] && rest == [];
          assert ([DQ] + ([SP] + rest))[1..] == [SP];
          assert ([DQ] + post)[1..] == post;
        }
      } else {
        LongerReread(v[1..], n, post);
        assert Reread(v, room) == Some([v[0]] + rest) && v + post == [v[0]] + (v[1..] + post);
        assert ([v[0]] + rest)[1..] == rest && ([v[0]] + (v[1..] + post))[1..] == v[1..] + post;
      }
    }
  }

  /** The same, read off the escaped text. */
  lemma {:induction false} CutAtEndMeans(v: Bytes, room: nat)
    requires room <= MAX_CHUNK
    ensures CutAtEnd(v, room) <==>
            && |v| > 0 && v[|v| - 1] == DQ && Clean(v[..|v| - 1], room)
            && AtChunkEnd(|Escape(v[..|v| - 1])|, room)
  {
    hide AtChunkEnd;
    if |v| > 0 {
      var r := if room == 0 then MAX_CHUNK else room;
      var u := v[..|v| - 1];
      EndOfChunk(r);
      RoomWraps(|Escape(u)|, room);
      if |v| == 1 {
        EscapeNothing();
      } else {
        EscapeCons(u);
        assert u[1..] == v[1..][..|v[1..]| - 1] && u[0] == v[0];
        var n: int := if v[0] == DQ then r - 2 else r - 1;
        ChunkEndShifts(|Escape(u)|, |Escape(u[1..])|, r, n);
        if n >= 0 {
          CutAtEndMeans(v[1..], n);
        }
      }
    }
  }

  lemma RoomWraps(j: int, room: nat)
    ensures AtChunkEnd(j, 0) <==> AtChunkEnd(j, MAX_CHUNK)
  {
  }

  lemma ChunkEndShifts(j: int, k: int, room: int, room': int)
    requires j - room == k - room'
    ensures AtChunkEnd(j, room) <==> AtChunkEnd(k, room')
  {
  }

  // -------------------------------------------------------------- main results

  /** What a chunked text weighs, and how it begins and ends. */
  lemma {:induction false} BodyShape(e: Bytes, room: nat)
    ensures |Body(e, room)| > |e| && Body(e, room)[|Body(e, room)| - 1] == DQ
    decreases |e|, if room == 0 then 1 else 0
  {
    if |e| > 0 {
      if room == 0 {
        BodyShape(e, MAX_CHUNK);
      } else {
        BodyShape(e[1..], room - 1);
      }
    }
  }

  lemma {:induction false} EscapeGrows(v: Bytes)
    ensures |Escape(v)| >= |v|
  {
    if |v| > 0 {
      EscapeGrows(v[1..]);
    }
  }

  lemma TrimKeepsQuotes(v: Bytes)
    requires |v| > 0 && v[0] == DQ && v[|v| - 1] == DQ
    ensures TrimSpace(v) == v
  {
    hide SpaceLength, SpaceLengthAtEnd;
    assert SpaceLength(v) == 0 && SpaceLengthAtEnd(v) == 0;
  }

  /** Reading takes at least the opening and closing quote off. */
  lemma {:induction false} OutsideShrinks(s: Bytes, inside: bool)
    ensures var p := if inside then Inside(s) else Outside(s);
      p.Some? ==> |p.value| <= |s| && (|s| > 0 && (inside || s[0] == DQ) ==> |p.value| < |s|)
    decreases |s|
  {
    if |s| > 0 {
      if !inside {
        OutsideShrinks(s[1..], s[0] == DQ);
      } else if s[0] == BS && |s| >= 2 {
        OutsideShrinks(s[2..], true);
      } else {
        OutsideShrinks(s[1..], s[0] != DQ);
      }
    }
  }

  /** Unquoting a text in quotes is parsing what is behind its first quote. */
  lemma UnquoteQuoted(b: Bytes)
    requires |b| > 0 && b[|b| - 1] == DQ
    ensures var p := Inside(b); Unquote([DQ] + b) == if p.Some? then p.value else [DQ] + b
  {
    hide *;
    var v := [DQ] + b;
    assert v[0] == DQ && v[|v| - 1] == b[|b| - 1];
    TrimKeepsQuotes(v);
    ReadOutside(b);
    UnquoteTrimmed(v);
  }

  lemma UnquoteTrimmed(v: Bytes)
    requires |v| > 0 && v[0] == DQ && TrimSpace(v) == v
    ensures Unquote(v) == if Outside(v).Some? then Outside(v).value else v
  {
    hide TrimSpace, Outside;
  }

  // ------------------------------------------------- texts that are all strings

  /** What can stand between an opening quote and the quote that closes it: any
      byte but a quote or a backslash, or a backslash and the byte it hides. */
  predicate IsInner(s: Bytes) {
    |s| > 0 ==>
      if s[0] == BS then |s| >= 2 && IsInner(s[2..]) else s[0] != DQ && IsInner(s[1..])
  }

  /** A blank, or a closed string. */
  datatype Piece = Blank | Quoted(inner: Bytes)

  function Written(p: Piece): Bytes {
    match p
    case Blank => [SP]
    case Quoted(inner) => [DQ] + (inner + [DQ])
  }

  function AllWritten(ps: seq<Piece>): Bytes {
    if |ps| == 0 then [] else Written(ps[0]) + AllWritten(ps[1..])
  }

  predicate AllClosed(ps: seq<Piece>) {
    forall i | 0 <= i < |ps| && ps[i].Quoted? :: IsInner(ps[i].inner)
  }

  /** A run of closed strings with only blanks between them. */
  ghost predicate IsStrings(v: Bytes) {
    exists ps: seq<Piece> :: AllClosed(ps) && AllWritten(ps) == v
  }

  /** The parser takes a closed string off, whatever follows it. */
  lemma {:induction false} InnerIsRead(inner: Bytes, rest: Bytes)
    requires IsInner(inner)
    ensures Inside(inner + ([DQ] + rest)).Some? <==> Outside(rest).Some?
    decreases |inner|
  {
    hide Inside, Outside;
    if |inner| == 0 {
      assert inner + ([DQ] + rest) == [DQ] + rest;
      ReadClose(rest);
    } else if inner[0] == BS {
      var s := inner[2..] + ([DQ] + rest);
      assert inner + ([DQ] + rest) == [BS] + ([inner[1]] + s);
      ReadEscape(inner[1], s);
      InnerIsRead(inner[2..], rest);
    } else {
      var s := inner[1..] + ([DQ] + rest);
      assert inner + ([DQ] + rest) == [inner[0]] + s;
      ReadPlain(inner[0], s);
      InnerIsRead(inner[1..], rest);
    }
  }

  lemma {:induction false} StringsAreRead(ps: seq<Piece>)
    requires AllClosed(ps)
    ensures Outside(AllWritten(ps)).Some?
  {
    hide Inside, Outside;
    if |ps| == 0 {
      NothingOutside();
    } else {
      var rest := AllWritten(ps[1..]);
      StringsAreRead(ps[1..]);
      match ps[0]
      case Blank => ReadOutside(rest);
      case Quoted(inner) =>
        assert ([DQ] + (inner + [DQ])) + rest == [DQ] + (inner + ([DQ] + rest));
        ReadOutside(inner + ([DQ] + rest));
        InnerIsRead(inner, rest);
    }
  }

  lemma NothingOutside()
    ensures Outside([]).Some?
  {
  }

  /** A text the parser reads from inside a string closes it and goes on as strings. */
  lemma {:induction false} InsideCloses(s: Bytes) returns (inner: Bytes, ps: seq<Piece>)
    requires Inside(s).Some?
    ensures IsInner(inner) && AllClosed(ps) && s == inner + ([DQ] + AllWritten(ps))
    decreases |s|
  {
    hide AllWritten, AllClosed, IsInner;
    if s[0] == BS && |s| >= 2 {
      inner, ps := InsideCloses(s[2..]);
      InnerInFront([s[0], s[1]], inner);
      Regroup([s[0], s[1]], inner, [DQ] + AllWritten(ps));
      assert s == [s[0], s[1]] + s[2..];
      inner := [s[0], s[1]] + inner;
    } else if s[0] == DQ {
      ps := OutsideIsStrings(s[1..]);
      inner := [];
      NothingInner();
      assert s == [] + ([DQ] + AllWritten(ps));
    } else {
      LoneBackslash(s);
      inner, ps := InsideCloses(s[1..]);
      InnerInFront([s[0]], inner);
      Regroup([s[0]], inner, [DQ] + AllWritten(ps));
      assert s == [s[0]] + s[1..];
      inner := [s[0]] + inner;
    }
  }

  lemma NothingInner()
    ensures IsInner([])
  {
  }

  lemma InnerInFront(pre: Bytes, inner: Bytes)
    requires IsInner(inner)
    requires if |pre| == 1 then pre[0] != BS && pre[0] != DQ else |pre| == 2 && pre[0] == BS
    ensures IsInner(pre + inner)
  {
    assert (pre + inner)[|pre|..] == inner;
  }

  lemma LoneBackslash(s: Bytes)
    requires |s| > 0 && Inside(s).Some? && (s[0] == BS ==> |s| == 1)
    ensures s[0] != BS
  {
  }

  lemma {:induction false} OutsideIsStrings(s: Bytes) returns (ps: seq<Piece>)
    requires Outside(s).Some?
    ensures AllClosed(ps) && AllWritten(ps) == s
    decreases |s|
  {
    if |s| == 0 {
      ps := [];
    } else if s[0] == SP {
      ps := OutsideIsStrings(s[1..]);
      ps := PieceInFront(Blank, ps);
    } else {
      var inner, after := InsideCloses(s[1..]);
      assert s == [DQ] + (inner + [DQ]) + AllWritten(after);
      ps := PieceInFront(Quoted(inner), after);
    }
  }

  lemma PieceInFront(p: Piece, ps: seq<Piece>) returns (r: seq<Piece>)
    requires AllClosed(ps) && (p.Quoted? ==> IsInner(p.inner))
    ensures AllClosed(r) && AllWritten(r) == Written(p) + AllWritten(ps)
  {
    r := [p] + ps;
    assert r[1..] == ps;
  }

  /** The parser reads exactly the texts that are such runs. */
  lemma ReadsStringsExactly(v: Bytes)
    ensures Outside(v).Some? <==> IsStrings(v)
  {
    hide Outside, AllWritten, AllClosed;
    if Outside(v).Some? {
      var ps := OutsideIsStrings(v);
    }
    if IsStrings(v) {
      var ps: seq<Piece> :| AllClosed(ps) && AllWritten(ps) == v;
      StringsAreRead(ps);
    }
  }

  lemma WrappedRoundTrips(v: Bytes)
    requires IsWrapped(v)
    ensures Unquote(Quote(v)) == v <==> !IsStrings(v)
  {
    hide TrimSpace, Inside, Outside, Unquote, IsStrings;
    ReadsStringsExactly(v);
    TrimKeepsQuotes(v);
    UnquoteTrimmed(v);
    OutsideShrinks(v, false);
  }

  lemma UnwrappedRoundTrips(v: Bytes)
    requires !IsWrapped(v)
    ensures Unquote(Quote(v)) == v <==> BS !in v && NoStraddle(Escape(v), MAX_CHUNK)
  {
    hide TrimSpace, Inside, Outside, Body, Escape, NoStraddle, Unquote, Clean;
    var b := Body(Escape(v), MAX_CHUNK);
    BodyShape(Escape(v), MAX_CHUNK);
    EscapeGrows(v);
    UnquoteQuoted(b);
    CleanMeans(v, MAX_CHUNK);
    if Clean(v, MAX_CHUNK) {
      CleanSurvives(v, MAX_CHUNK);
    } else {
      OthersDiffer(v, MAX_CHUNK);
    }
  }

  /** The values that come back from the provider as they were sent: among those
      not already wrapped in quotes, exactly the ones without a backslash whose
      escaped quotes are not cut by a chunk's end; among the wrapped ones,
      exactly those that are not a run of closed strings with blanks between. */
  lemma TxtRoundTrips(v: Bytes)
    ensures |v| >= 2 && v[0] == 34 && v[|v| - 1] == 34 ==> (Unquote(Quote(v)) == v <==> !IsStrings(v))
    ensures !(|v| >= 2 && v[0] == 34 && v[|v| - 1] == 34) ==>
              (Unquote(Quote(v)) == v <==>
                 92 !in v && forall j | 0 <= j < |Escape(v)| && (j + 1) % 255 == 0 :: Escape(v)[j] != 92)
  {
    hide Unquote, Quote, IsStrings, Escape;
    if IsWrapped(v) {
      WrappedRoundTrips(v);
    } else {
      UnwrappedRoundTrips(v);
      NoStraddleMeans(Escape(v));
    }
  }

  lemma NoStraddleMeans(e: Bytes)
    ensures NoStraddle(e, MAX_CHUNK) <==> forall j | 0 <= j < |e| && (j + 1) % 255 == 0 :: e[j] != 92
  {
    assert forall j: int :: AtChunkEnd(j, MAX_CHUNK) <==> (j + 1) % 255 == 0;
  }

  // ---------------------------------------------------------------- the chunks

  /** A quoted text as the chunks between its quotes. */
  function Joined(chunks: seq<Bytes>): Bytes
    requires |chunks| > 0
  {
    if |chunks| == 1 then [DQ] + (chunks[0] + [DQ])
    else [DQ] + (chunks[0] + ([DQ] + ([SP] + Joined(chunks[1..]))))
  }

  function Flatten(chunks: seq<Bytes>): Bytes {
    if |chunks| == 0 then [] else chunks[0] + Flatten(chunks[1..])
  }

  function Cut(e: Bytes): (chunks: seq<Bytes>)
    ensures |chunks| > 0
  {
    if |e| <= MAX_CHUNK then [e] else [e[..MAX_CHUNK]] + Cut(e[MAX_CHUNK..])
  }

  lemma Regroup(a: Bytes, b: Bytes, c: Bytes)
    ensures (a + b) + c == a + (b + c)
  {
  }

  lemma {:induction false} WriteRun(e: Bytes, n: nat, room: nat)
    requires n <= |e| && n <= room
    ensures Body(e, room) == e[..n] + Body(e[n..], room - n)
  {
    hide Body;
    if n == 0 {
      assert e[..0] == [] && e[0..] == e;
    } else {
      var rest := e[1..];
      assert e == [e[0]] + rest;
      WriteByte(e[0], rest, room);
      WriteRun(rest, n - 1, room - 1);
      assert rest[n - 1..] == e[n..];
      var b := Body(e[n..], room - n);
      Regroup([e[0]], rest[..n - 1], b);
      assert [e[0]] + rest[..n - 1] == e[..n];
    }
  }

  /** A chunk that is not the last one, and the break behind it. */
  lemma WriteChunk(e: Bytes, n: nat)
    requires n < |e|
    ensures Body(e, n) == e[..n] + ([DQ] + ([SP] + ([DQ] + Body(e[n..], MAX_CHUNK))))
  {
    hide *;
    WriteRun(e, n, n);
    var rest := e[n..];
    assert |rest| > 0;
    WriteBreak(rest);
  }

  lemma WriteLastChunk(e: Bytes)
    requires |e| <= MAX_CHUNK
    ensures Body(e, MAX_CHUNK) == e + [DQ]
  {
    hide Body;
    WriteRun(e, |e|, MAX_CHUNK);
    assert e[..|e|] == e && e[|e|..] == [];
    WriteNothing(MAX_CHUNK - |e|);
  }

  lemma WriteNothing(room: nat)
    ensures Body([], room) == [DQ]
  {
  }

  lemma JoinedCons(chunk: Bytes, chunks: seq<Bytes>)
    requires |chunks| > 0
    ensures Joined([chunk] + chunks) == [DQ] + (chunk + ([DQ] + ([SP] + Joined(chunks))))
    ensures Flatten([chunk] + chunks) == chunk + Flatten(chunks)
  {
    var all := [chunk] + chunks;
    assert all[1..] == chunks && all[0] == chunk;
  }

  lemma JoinedOne(chunk: Bytes)
    ensures Joined([chunk]) == [DQ] + (chunk + [DQ]) && Flatten([chunk]) == chunk
  {
    assert [chunk][1..] == [];
    assert Flatten([]) == [];
    assert chunk + [] == chunk;
  }

  /** Quoting cuts the escaped value into chunks of at most 255 bytes that
      concatenate to it, and separates them by single spaces. */
  lemma {:induction false} QuoteIsChunked(e: Bytes)
    ensures [DQ] + Body(e, MAX_CHUNK) == Joined(Cut(e))
    ensures Flatten(Cut(e)) == e
    ensures forall i | 0 <= i < |Cut(e)| :: |Cut(e)[i]| <= 255
    decreases |e|
  {
    hide Body, Joined, Flatten;
    if |e| <= MAX_CHUNK {
      WriteLastChunk(e);
      JoinedOne(e);
    } else {
      QuoteIsChunked(e[MAX_CHUNK..]);
      WriteChunk(e, MAX_CHUNK);
      JoinedCons(e[..MAX_CHUNK], Cut(e[MAX_CHUNK..]));
      assert e[..MAX_CHUNK] + e[MAX_CHUNK..] == e;
    }
  }

  // ----------------------------------------------------------------- the loops

  method EscapeQuotes(v: Bytes) returns (e: Bytes)
    ensures e == Escape(v)
  {
    e := [];
    var n := |v|;
    assert v[n..] == [];
    while n > 0
      invariant 0 <= n <= |v| && e == Escape(v[n..])
    {
      n := n - 1;
      assert v[n..][1..] == v[n + 1..] && v[n..][0] == v[n];
      e := (if v[n] == DQ then [BS, DQ] else [v[n]]) + e;
    }
    assert v[0..] == v;
  }

  /** One chunk written in front of the rest. */
  lemma ChunkWritten(lead: Bytes, chunk: Bytes, rest: Bytes)
    ensures lead + ([DQ] + (chunk + ([DQ] + ([SP] + rest)))) == ((lead + ([DQ] + (chunk + [DQ]))) + [SP]) + rest
  {
    var a, b, c: Bytes, d: Bytes := [DQ] + (chunk + [DQ]), [SP] + rest, [DQ], chunk + [DQ];
    Regroup(chunk, [DQ], b);
    Regroup([DQ], d, b);
    Regroup(lead, a, b);
    Regroup(lead + a, [SP], rest);
  }

  lemma CutStep(e: Bytes)
    ensures |e| <= MAX_CHUNK ==> Joined(Cut(e)) == [DQ] + (e + [DQ])
    ensures |e| > MAX_CHUNK ==>
              Joined(Cut(e)) == [DQ] + (e[..MAX_CHUNK] + ([DQ] + ([SP] + Joined(Cut(e[MAX_CHUNK..])))))
  {
    hide Joined, Flatten;
    if |e| <= MAX_CHUNK {
      JoinedOne(e);
    } else {
      JoinedCons(e[..MAX_CHUNK], Cut(e[MAX_CHUNK..]));
    }
  }

  /** What is still to be written behind `q`, a space first unless nothing is there yet. */
  function Ahead(q: Bytes): Bytes {
    if |q| == 0 then q else q + [SP]
  }

  /** The chunking loop, and its short cut for values that fit one chunk. */
  method QuoteTXT(v: Bytes) returns (q: Bytes)
    ensures q == Quote(v)
  {
    hide Joined, Cut, Body, Escape;
    if IsWrapped(v) {
      return v;
    }
    var e := EscapeQuotes(v);
    QuoteIsChunked(e);
    CutStep(e);
    if |e| <= MAX_CHUNK {
      return [DQ] + (e + [DQ]);
    }
    q := [];
    var rest := e;
    assert Ahead([]) + Joined(Cut(e)) == Joined(Cut(e));
    while |rest| > 0
      invariant if |rest| > 0 then Ahead(q) + Joined(Cut(rest)) == Joined(Cut(e)) else q == Joined(Cut(e))
      decreases |rest|
    {
      var chunk := if |rest| > MAX_CHUNK then rest[..MAX_CHUNK] else rest;
      CutStep(rest);
      ChunkWritten(Ahead(q), chunk, if |rest| > MAX_CHUNK then Joined(Cut(rest[MAX_CHUNK..])) else []);
      rest := rest[|chunk|..];
      if |q| > 0 {
        q := q + [SP];
      }
      q := q + ([DQ] + (chunk + [DQ]));
    }
  }

  /** One quoted segment: what is inside it, and where the parser goes on. */
  method ParseTXTQuotedSegment(s: Bytes, start: nat) returns (inner: Bytes, next: nat, ok: bool)
    requires start < |s| && s[start] == DQ
    ensures ok ==> start + 1 < next <= |s| && |inner| <= next - start - 2
    ensures ok ==> Inside(s[start + 1..]) == Prepend(inner, Outside(s[next..]))
    ensures !ok ==> Inside(s[start + 1..]) == None
  {
    inner := [];
    var i := start + 1;
    PrependNothing(Inside(s[i..]));
    while i < |s|
      invariant start + 1 <= i <= |s| && |inner| <= i - start - 1
      invariant Inside(s[start + 1..]) == Prepend(inner, Inside(s[i..]))
    {
      assert s[i..][0] == s[i] && s[i..][1..] == s[i + 1..];
      if s[i] == BS && i + 1 < |s| {
        assert s[i..][1] == s[i + 1] && s[i..][2..] == s[i + 2..];
        PrependOne(inner, s[i + 1], Inside(s[i + 2..]));
        inner := inner + [s[i + 1]];
        i := i + 2;
      } else if s[i] == DQ {
        return inner, i + 1, true;
      } else {
        PrependOne(inner, s[i], Inside(s[i + 1..]));
        inner := inner + [s[i]];
        i := i + 1;
      }
    }
    return [], start, false;
  }

  function Prepend(a: Bytes, r: Option<Bytes>): Option<Bytes> {
    if r.Some? then Some(a + r.value) else None
  }

  lemma PrependNothing(r: Option<Bytes>)
    ensures Prepend([], r) == r
  {
    if r.Some? {
      assert [] + r.value == r.value;
    }
  }

  lemma PrependOne(a: Bytes, b: Byte, r: Option<Bytes>)
    ensures Prepend(a, Emit(b, r)) == Prepend(a + [b], r)
  {
    if r.Some? {
      assert a + ([b] + r.value) == a + [b] + r.value;
    }
  }

  method UnquoteTXT(v: Bytes) returns (r: Bytes)
    ensures r == Unquote(v)
  {
    var t := TrimSpace(v);
    if |t| == 0 || t[0] != DQ {
      return t;
    }
    r := [];
    var i := 0;
    assert t[0..] == t;
    PrependNothing(Outside(t));
    while i < |t|
      invariant 0 <= i <= |t| && Outside(t) == Prepend(r, Outside(t[i..]))
    {
      ghost var at := i;
      while i < |t| && t[i] == SP
        invariant at <= i <= |t| && Outside(t[i..]) == Outside(t[at..])
      {
        assert t[i..][0] == SP && t[i..][1..] == t[i + 1..];
        i := i + 1;
      }
      if i >= |t| {
        break;
      }
      assert t[i..][0] == t[i] && t[i..][1..] == t[i + 1..];
      if t[i] != DQ {
        return t;
      }
      var part, next, ok := ParseTXTQuotedSegment(t, i);
      if !ok {
        return t;
      }
      PrependTwice(r, part, Outside(t[next..]));
      r := r + part;
      i := next;
    }
    assert t[|t|..] == [];
    assert r + [] == r;
  }

  lemma PrependTwice(a: Bytes, b: Bytes, r: Option<Bytes>)
    ensures Prepend(a, Prepend(b, r)) == Prepend(a + b, r)
  {
    if r.Some? {
      assert a + (b + r.value) == a + b + r.value;
    }
  }
}
