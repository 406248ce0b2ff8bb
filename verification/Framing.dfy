/**
 Length-prefixed framing of the data plane: a 4-byte big-endian length followed by that many
 payload bytes, where a zero length is a keep-alive that readers swallow.

 The reading side is described twice.  `Records` and `Leftover` cut a byte stream into the frames
 it completes (keep-alives included) and the bytes that are left over; `ReadFrameSpec` and
 `ReadAll` say what successive calls of `ReadFrame` return.  The lemmas connect the two with each
 other and with the writer.
 */
module Framing {
  import opened Prelude

  newtype byte = x: int | 0 <= x < 256

  const MAX_FRAME_SIZE: nat := 4 * 1024 * 1024

  /** A payload the writer accepts.  The empty record is also what WriteKeepAlive puts on the wire. */
  type Record = r: seq<byte> | |r| <= MAX_FRAME_SIZE

  /** What a byte stream or a frame operation can fail with. */
  datatype IOError = EOF | UnexpectedEOF | Reset | FrameTooLarge

  // ----- the 4-byte prefix

  function PutUint32(n: nat): (b: seq<byte>)
    requires n < 0x1_0000_0000
    ensures |b| == 4 && Uint32(b) == n
  {
    var high24 := n / 0x100;
    var high16 := high24 / 0x100;
    [(high16 / 0x100) as byte, (high16 % 0x100) as byte, (high24 % 0x100) as byte, (n % 0x100) as byte]
  }

  function Uint32(b: seq<byte>): (n: nat)
    requires |b| == 4
  {
    b[0] as nat * 0x100_0000 + b[1] as nat * 0x1_0000 + b[2] as nat * 0x100 + b[3] as nat
  }

  /** The prefix coding is a bijection between 32-bit numbers and 4-byte strings. */
  lemma PutUint32Inverts(b: seq<byte>)
    requires |b| == 4
    ensures Uint32(b) < 0x1_0000_0000 && PutUint32(Uint32(b)) == b
  {
    var n := Uint32(b);
    assert n / 0x100 == b[0] as nat * 0x1_0000 + b[1] as nat * 0x100 + b[2] as nat;
    assert n / 0x100 / 0x100 == b[0] as nat * 0x100 + b[1] as nat;
    assert n / 0x100 / 0x100 / 0x100 == b[0] as nat;
  }

  /** The order of byte strings of one length by their first difference. */
  predicate Before(a: seq<byte>, b: seq<byte>)
    requires |a| == |b|
  {
    a != [] && (a[0] < b[0] || (a[0] == b[0] && Before(a[1..], b[1..])))
  }

  lemma BeforeFour(a: seq<byte>, b: seq<byte>)
    requires |a| == |b| == 4
    ensures Before(a, b) <==>
            || a[0] < b[0]
            || (a[0] == b[0] && a[1] < b[1])
            || (a[0] == b[0] && a[1] == b[1] && a[2] < b[2])
            || (a[0] == b[0] && a[1] == b[1] && a[2] == b[2] && a[3] < b[3])
  {
    assert a[1..][1..] == a[2..] && b[1..][1..] == b[2..] && a[2..][1..] == a[3..] && b[2..][1..] == b[3..];
    assert Before(a[3..], b[3..]) <==> a[3] < b[3];
    assert Before(a[2..], b[2..]) <==> a[2] < b[2] || (a[2] == b[2] && a[3] < b[3]);
  }

  /** The most significant byte comes first: the smaller number has the earlier prefix.  There is only
      one bijection with this property. */
  lemma BigEndian(m: nat, n: nat)
    requires m < 0x1_0000_0000 && n < 0x1_0000_0000
    ensures m < n <==> Before(PutUint32(m), PutUint32(n))
  {
    BeforeFour(PutUint32(m), PutUint32(n));
  }

  /** A short frame has three zero bytes and its length in front. */
  lemma ShortPrefix(r: Record)
    requires |r| < 256
    ensures Encode(r) == [0, 0, 0, |r| as byte] + r
  {
  }

  // ----- writing

  function Encode(r: Record): (s: seq<byte>)
  {
    PutUint32(|r|) + r
  }

  function EncodeAll(rs: seq<Record>): (s: seq<byte>)
  {
    if rs == [] then [] else Encode(rs[0]) + EncodeAll(rs[1..])
  }

  lemma {:induction false} EncodeAllAppend(rs: seq<Record>, ts: seq<Record>)
    ensures EncodeAll(rs + ts) == EncodeAll(rs) + EncodeAll(ts)
  {
    if rs == [] {
      assert rs + ts == ts;
    } else {
      assert (rs + ts)[1..] == rs[1..] + ts;
      EncodeAllAppend(rs[1..], ts);
    }
  }

  // ----- cutting a byte stream into frames

  /** The stream starts with a complete frame of an admissible size. */
  predicate HasFrame(s: seq<byte>)
  {
    |s| >= 4 && Uint32(s[..4]) <= MAX_FRAME_SIZE && |s| >= 4 + Uint32(s[..4])
  }

  function HeadFrame(s: seq<byte>): Record
    requires HasFrame(s)
  {
    s[4..4 + Uint32(s[..4])]
  }

  function AfterFrame(s: seq<byte>): seq<byte>
    requires HasFrame(s)
  {
    s[4 + Uint32(s[..4])..]
  }

  function Records(s: seq<byte>): seq<Record>
    decreases |s|
  {
    if HasFrame(s) then [HeadFrame(s)] + Records(AfterFrame(s)) else []
  }

  function Leftover(s: seq<byte>): seq<byte>
    decreases |s|
  {
    if HasFrame(s) then Leftover(AfterFrame(s)) else s
  }

  function NonEmpty(rs: seq<Record>): seq<Record>
  {
    if rs == [] then []
    else if rs[0] == [] then NonEmpty(rs[1..])
    else [rs[0]] + NonEmpty(rs[1..])
  }

  /** The application data carried by the complete frames of a stream. */
  function Payloads(s: seq<byte>): seq<Record>
  {
    NonEmpty(Records(s))
  }

  lemma {:induction false} NonEmptyAppend(rs: seq<Record>, ts: seq<Record>)
    ensures NonEmpty(rs + ts) == NonEmpty(rs) + NonEmpty(ts)
  {
    if rs == [] {
      assert rs + ts == ts;
    } else {
      assert (rs + ts)[1..] == rs[1..] + ts;
      NonEmptyAppend(rs[1..], ts);
    }
  }

  lemma {:induction false} NonEmptyPrefix(rs: seq<Record>, ts: seq<Record>)
    requires rs <= ts
    ensures NonEmpty(rs) <= NonEmpty(ts)
  {
    assert ts == rs + ts[|rs|..];
    NonEmptyAppend(rs, ts[|rs|..]);
  }

  /** One encoded record in front of a stream is its first frame. */
  lemma EncodeIsHeadFrame(r: Record, t: seq<byte>)
    ensures HasFrame(Encode(r) + t) && HeadFrame(Encode(r) + t) == r && AfterFrame(Encode(r) + t) == t
  {
    var s := Encode(r) + t;
    assert s[..4] == PutUint32(|r|);
  }

  /** Parsing is a left inverse of printing: whatever the records and whatever incomplete bytes
      follow, cutting the stream gives back exactly those records and those bytes. */
  lemma {:induction false} PrintThenParse(rs: seq<Record>, t: seq<byte>)
    requires !HasFrame(t)
    ensures Records(EncodeAll(rs) + t) == rs && Leftover(EncodeAll(rs) + t) == t
    decreases |rs|
  {
    if rs == [] {
      assert EncodeAll(rs) + t == t;
    } else {
      var rest := EncodeAll(rs[1..]) + t;
      assert EncodeAll(rs) + t == Encode(rs[0]) + rest;
      EncodeIsHeadFrame(rs[0], rest);
      PrintThenParse(rs[1..], t);
    }
  }

  lemma HeadAndRest(s: seq<byte>)
    requires HasFrame(s)
    ensures s == Encode(HeadFrame(s)) + AfterFrame(s)
  {
    PutUint32Inverts(s[..4]);
  }

  lemma HeadStays(s: seq<byte>, t: seq<byte>)
    requires HasFrame(s)
    ensures HasFrame(s + t) && HeadFrame(s + t) == HeadFrame(s) && AfterFrame(s + t) == AfterFrame(s) + t
  {
    assert (s + t)[..4] == s[..4];
  }

  /** Parsing is a right inverse too: every byte stream whatever is the printed form of its frames
      followed by a leftover that starts no complete frame.  With PrintThenParse, byte streams
      correspond one to one to pairs of a record list and a stuck leftover. */
  lemma {:induction false} ParseThenPrint(s: seq<byte>)
    ensures EncodeAll(Records(s)) + Leftover(s) == s
    ensures !HasFrame(Leftover(s))
    decreases |s|
  {
    if HasFrame(s) {
      var rest := AfterFrame(s);
      ParseThenPrint(rest);
      HeadAndRest(s);
      assert Records(s)[1..] == Records(rest);
      assert EncodeAll(Records(s)) + Leftover(s) == Encode(HeadFrame(s)) + (EncodeAll(Records(rest)) + Leftover(rest));
    }
  }

  /** Parsing is incremental: bytes that arrive later only extend the frames, and the reader
      needs to remember nothing but the leftover. */
  lemma {:induction false} ParseAppend(s: seq<byte>, t: seq<byte>)
    ensures Records(s + t) == Records(s) + Records(Leftover(s) + t)
    ensures Leftover(s + t) == Leftover(Leftover(s) + t)
    decreases |s|
  {
    if HasFrame(s) {
      var rest := AfterFrame(s);
      ParseAppend(rest, t);
      HeadStays(s, t);
      assert Records(s) == [HeadFrame(s)] + Records(rest);
    }
  }

  /** A truncated stream yields a prefix of the payloads and never a partial one. */
  lemma TruncationYieldsPrefix(s: seq<byte>, k: nat)
    requires k <= |s|
    ensures Records(s[..k]) <= Records(s)
    ensures Payloads(s[..k]) <= Payloads(s)
  {
    assert s == s[..k] + s[k..];
    ParseAppend(s[..k], s[k..]);
    NonEmptyPrefix(Records(s[..k]), Records(s));
  }

  /** What was printed is what is parsed, without a tail. */
  lemma PayloadsOfEncodeAll(rs: seq<Record>)
    ensures Records(EncodeAll(rs)) == rs && Leftover(EncodeAll(rs)) == []
    ensures Payloads(EncodeAll(rs)) == NonEmpty(rs)
  {
    PrintThenParse(rs, []);
    assert EncodeAll(rs) + [] == EncodeAll(rs);
  }

  // ----- reading

  /** The error of io.ReadFull after `got` bytes of an incomplete read on a stream that ends with `fault`. */
  function ShortRead(got: nat, fault: IOError): IOError
  {
    if fault != EOF then fault else if got == 0 then EOF else UnexpectedEOF
  }

  datatype ReadResult = Got(frame: Record, rest: seq<byte>) | Failed(err: IOError, rest: seq<byte>)

  /** The result of one ReadFrame on a stream holding `s` and then ending with `fault`. */
  function ReadFrameSpec(s: seq<byte>, fault: IOError): (r: ReadResult)
    ensures |r.rest| <= |s|
    ensures r.Got? ==> r.frame != [] && |r.rest| + 4 < |s|
    decreases |s|
  {
    if |s| < 4 then Failed(ShortRead(|s|, fault), [])
    else
      var n := Uint32(s[..4]);
      if n == 0 then ReadFrameSpec(s[4..], fault)
      else if n > MAX_FRAME_SIZE then Failed(FrameTooLarge, s[4..])
      else if |s| - 4 < n then Failed(ShortRead(|s| - 4, fault), [])
      else Got(s[4..4 + n], s[4 + n..])
  }

  /** The frames that repeated ReadFrame calls return, and the error that ends them. */
  function ReadAll(s: seq<byte>, fault: IOError): (seq<Record>, IOError)
    decreases |s|
  {
    match ReadFrameSpec(s, fault)
    case Failed(err, _) => ([], err)
    case Got(frame, rest) => var more := ReadAll(rest, fault); ([frame] + more.0, more.1)
  }

  /** The error a reader reports for bytes that do not start a complete frame. */
  function StuckError(left: seq<byte>, fault: IOError): IOError
    requires !HasFrame(left)
  {
    if |left| < 4 then ShortRead(|left|, fault)
    else if Uint32(left[..4]) > MAX_FRAME_SIZE then FrameTooLarge
    else ShortRead(|left| - 4, fault)
  }

  /** One call skips keep-alives and then returns the first non-empty frame, or the error of the leftover. */
  lemma {:induction false} ReadFrameMeaning(s: seq<byte>, fault: IOError)
    ensures !HasFrame(Leftover(s))
    ensures match ReadFrameSpec(s, fault)
            case Got(frame, rest) => Payloads(s) == [frame] + Payloads(rest) && Leftover(s) == Leftover(rest)
            case Failed(err, _) => Payloads(s) == [] && err == StuckError(Leftover(s), fault)
    decreases |s|
  {
    ParseThenPrint(s);
    if HasFrame(s) && Uint32(s[..4]) == 0 {
      assert AfterFrame(s) == s[4..];
      assert HeadFrame(s) == [];
      ReadFrameMeaning(s[4..], fault);
    }
  }

  /** Over any byte stream, the reader returns exactly the non-empty payloads of the complete
      frames, in order, and ends with the error of the bytes left over. */
  lemma {:induction false} ReadAllMeaning(s: seq<byte>, fault: IOError)
    ensures !HasFrame(Leftover(s))
    ensures ReadAll(s, fault) == (Payloads(s), StuckError(Leftover(s), fault))
    decreases |s|
  {
    ReadFrameMeaning(s, fault);
    match ReadFrameSpec(s, fault)
    case Failed(_, _) =>
    case Got(_, rest) => ReadAllMeaning(rest, fault);
  }

  /** Any mix of WriteFrame and WriteKeepAlive reads back as the non-empty payloads, then EOF. */
  lemma WrittenFramesReadBack(rs: seq<Record>)
    ensures ReadAll(EncodeAll(rs), EOF) == (NonEmpty(rs), EOF)
  {
    ReadAllMeaning(EncodeAll(rs), EOF);
    PayloadsOfEncodeAll(rs);
  }

  /** Re-encoding what was read, from any byte stream at all, gives the completed part of the
      stream with the keep-alive prefixes deleted. */
  lemma ReencodeDropsKeepAlives(s: seq<byte>, fault: IOError)
    ensures s == EncodeAll(Records(s)) + Leftover(s)
    ensures EncodeAll(ReadAll(s, fault).0) == DropKeepAlives(EncodeAll(Records(s)))
  {
    ParseThenPrint(s);
    ReadAllMeaning(s, fault);
    DropKeepAlivesOfFrames(Records(s));
  }

  /** Deletes the zero-length prefixes of a stream of complete frames, byte by byte, without building records. */
  function DropKeepAlives(s: seq<byte>): seq<byte>
    decreases |s|
  {
    if !HasFrame(s) then s
    else if s[..4] == [0, 0, 0, 0] then DropKeepAlives(s[4..])
    else
      var n := 4 + Uint32(s[..4]);
      s[..n] + DropKeepAlives(s[n..])
  }

  lemma DropsKeepAlive(rest: seq<byte>)
    ensures DropKeepAlives(Encode([]) + rest) == DropKeepAlives(rest)
  {
    var s := Encode([]) + rest;
    EncodeIsHeadFrame([], rest);
    assert s[..4] == PutUint32(0) == [0, 0, 0, 0];
    assert s[4..] == rest;
  }

  lemma KeepsFrame(r: Record, rest: seq<byte>)
    requires r != []
    ensures DropKeepAlives(Encode(r) + rest) == Encode(r) + DropKeepAlives(rest)
  {
    var s := Encode(r) + rest;
    EncodeIsHeadFrame(r, rest);
    assert s[..4] == PutUint32(|r|);
    assert Uint32([0, 0, 0, 0]) == 0;
    assert s[..4 + |r|] == Encode(r);
    assert s[4 + |r|..] == rest;
  }

  lemma {:induction false} DropKeepAlivesOfFrames(rs: seq<Record>)
    ensures DropKeepAlives(EncodeAll(rs)) == EncodeAll(NonEmpty(rs))
  {
    if rs != [] {
      DropKeepAlivesOfFrames(rs[1..]);
      if rs[0] == [] {
        DropsKeepAlive(EncodeAll(rs[1..]));
      } else {
        KeepsFrame(rs[0], EncodeAll(rs[1..]));
        assert ([rs[0]] + NonEmpty(rs[1..]))[1..] == NonEmpty(rs[1..]);
      }
    }
  }

  /** A lone prefix announcing a payload of admissible size. */
  predicate LoneHeader(left: seq<byte>)
  {
    |left| == 4 && 0 < Uint32(left) <= MAX_FRAME_SIZE
  }

  /** io.EOF is documented as "reader exhausted".  It is returned exactly when the stream ends
      normally and the leftover is empty or a lone header: io.ReadFull reports a payload of
      which no byte arrived as a clean end. */
  lemma EofIffCleanOrLoneHeader(s: seq<byte>, fault: IOError)
    ensures ReadAll(s, fault).1 == EOF <==> fault == EOF && (Leftover(s) == [] || LoneHeader(Leftover(s)))
  {
    ReadAllMeaning(s, fault);
    var left := Leftover(s);
    if |left| == 4 {
      assert left[..4] == left;
    }
  }

  /** Reading ends with FrameTooLarge at a prefix above the limit, with a fault of the stream itself
      otherwise, and at a normal end within a frame, apart from a lone header, with UnexpectedEOF. */
  lemma EndErrors(s: seq<byte>, fault: IOError)
    ensures var left := Leftover(s);
            ReadAll(s, fault).1 ==
            if |left| >= 4 && Uint32(left[..4]) > 4_194_304 then FrameTooLarge
            else if fault != EOF then fault
            else if left == [] || LoneHeader(left) then EOF
            else UnexpectedEOF
  {
    ReadAllMeaning(s, fault);
    var left := Leftover(s);
    if |left| == 4 {
      assert left[..4] == left;
    }
  }

  /** A stream cut right after a header reads as if it had ended cleanly, although a record was lost. */
  lemma CutAfterHeaderLooksClean(r: Record)
    requires r != []
    ensures ReadAll(Encode(r)[..4], EOF) == ([], EOF)
    ensures ReadAll(Encode(r), EOF) == ([r], EOF)
  {
    var s := Encode(r)[..4];
    assert s == PutUint32(|r|);
    assert s[..4] == s;
    var rs: seq<Record> := [r];
    assert rs[1..] == [];
    assert EncodeAll(rs) == Encode(r);
    assert NonEmpty(rs) == rs;
    WrittenFramesReadBack(rs);
  }

  // ----- the mutable writer and reader

  /** An io.Writer over a transport that accepts `room` more bytes before it breaks. */
  class ByteSink {
    var written: seq<byte>
    var room: Option<nat>

    constructor (room: Option<nat>)
      ensures written == [] && this.room == room
    {
      this.written := [];
      this.room := room;
    }

    /** How much of a write of n bytes gets through. */
    function Accepts(n: nat): (k: nat)
      reads this
      ensures k <= n
    {
      if room.None? || room.value >= n then n else room.value
    }

    method Write(data: seq<byte>) returns (ok: bool)
      modifies this
      ensures ok == (old(Accepts(|data|)) == |data|)
      ensures written == old(written) + data[..old(Accepts(|data|))]
      ensures room == if old(room).None? then None else Some(old(room).value - old(Accepts(|data|)))
    {
      var k := Accepts(|data|);
      ok := k == |data|;
      written := written + data[..k];
      if room.Some? {
        room := Some(room.value - k);
      }
    }
  }

  class FrameWriter {
    const w: ByteSink

    constructor (w: ByteSink)
      ensures this.w == w
    {
      this.w := w;
    }

    /** On an unbroken transport a frame is appended whole; on one that breaks, a prefix of it and
        an error; an oversized payload is refused before any byte is written. */
    method WriteFrame(data: seq<byte>) returns (err: Option<IOError>)
      modifies w
      ensures err == Some(FrameTooLarge) <==> |data| > 4_194_304
      ensures |data| > MAX_FRAME_SIZE ==> err == Some(FrameTooLarge) && w.written == old(w.written) && w.room == old(w.room)
      ensures |data| <= MAX_FRAME_SIZE ==>
                var k := old(w.Accepts(|Encode(data)|));
                && w.written == old(w.written) + Encode(data)[..k]
                && err == (if k == |Encode(data)| then None else Some(Reset))
                && w.room == if old(w.room).None? then None else Some(old(w.room).value - k)
      ensures err == None && |data| < 256 ==> w.written == old(w.written) + ([0, 0, 0, |data| as byte] + data)
    {
      if |data| > MAX_FRAME_SIZE {
        return Some(FrameTooLarge);
      }
      ghost var enc := Encode(data);
      var ok := w.Write(PutUint32(|data|));
      if !ok {
        assert PutUint32(|data|) == enc[..4];
        return Some(Reset);
      }
      if |data| > 0 {
        ok := w.Write(data);
        if !ok {
          return Some(Reset);
        }
      }
      assert PutUint32(|data|) + data == enc;
      if |data| < 256 {
        ShortPrefix(data);
      }
      return None;
    }

    method WriteKeepAlive() returns (err: Option<IOError>)
      modifies w
      ensures var k := old(w.Accepts(4));
              && w.written == old(w.written) + Encode([])[..k]
              && err == (if k == 4 then None else Some(Reset))
    {
      var ok := w.Write([0, 0, 0, 0]);
      assert Encode([]) == [0, 0, 0, 0];
      err := if ok then None else Some(Reset);
    }
  }

  /** An io.Reader holding the bytes still to come and the error that follows them. */
  class ByteSource {
    var rest: seq<byte>
    const fault: IOError

    constructor (bytes: seq<byte>, fault: IOError)
      ensures rest == bytes && this.fault == fault
    {
      this.rest := bytes;
      this.fault := fault;
    }

    /** io.ReadFull. */
    method ReadFull(n: nat) returns (data: seq<byte>, err: Option<IOError>)
      modifies this
      ensures n <= |old(rest)| ==> err == None && data == old(rest)[..n] && rest == old(rest)[n..]
      ensures n > |old(rest)| ==> err == Some(ShortRead(|old(rest)|, fault)) && data == [] && rest == []
    {
      if n <= |rest| {
        data, err := rest[..n], None;
        rest := rest[n..];
      } else {
        data, err := [], Some(ShortRead(|rest|, fault));
        rest := [];
      }
    }
  }

  class FrameReader {
    const r: ByteSource

    constructor (r: ByteSource)
      ensures this.r == r
    {
      this.r := r;
    }

    /** Every pass of the loop consumes at least four bytes, so reading terminates on every stream. */
    method ReadFrame() returns (frame: Record, err: Option<IOError>)
      modifies r
      ensures match ReadFrameSpec(old(r.rest), r.fault)
              case Got(f, rest) => err == None && frame == f && r.rest == rest
              case Failed(e, rest) => err == Some(e) && frame == [] && r.rest == rest
      ensures |r.rest| <= |old(r.rest)| && (err == None ==> |r.rest| < |old(r.rest)|)
    {
      while true
        invariant ReadFrameSpec(r.rest, r.fault) == ReadFrameSpec(old(r.rest), r.fault)
        decreases |r.rest|
      {
        var header, e := r.ReadFull(4);
        if e.Some? {
          return [], e;
        }
        var n := Uint32(header);
        if n == 0 {
          continue;
        }
        if n > MAX_FRAME_SIZE {
          return [], Some(FrameTooLarge);
        }
        frame, e := r.ReadFull(n);
        if e.Some? {
          return [], e;
        }
        return frame, None;
      }
    }
  }
}
