/**
 File transfer on top of framing: one metadata frame, then the content in chunks of at most one
 frame.  SendFile and SendAsset write the same shape; ReceiveFile reassembles until the declared
 size is reached, cuts off what is too much, and compares digests.

 JSON coding of the metadata and SHA-256 are parameters: nothing is assumed about the digest, and
 about the coding only that it inverts on the metadata at hand and fits into a frame.
 */
module FileTransfer {
  import opened Prelude
  import opened Framing

  type Digest = seq<byte>

  /** Size is a signed 64-bit field: a sender may declare anything. */
  datatype Metadata = Metadata(filename: string, size: int, contentType: string, digest: Digest)

  datatype Coding = Coding(
    marshal: Metadata -> seq<byte>,
    unmarshal: seq<byte> -> Option<Metadata>,
    sha256: seq<byte> -> Digest)
  {
    /** The metadata survives its coding and its frame is a non-empty record. */
    predicate Carries(m: Metadata) {
      unmarshal(marshal(m)) == Some(m) && 0 < |marshal(m)| <= MAX_FRAME_SIZE
    }

    predicate Describes(m: Metadata, content: seq<byte>) {
      m.size == |content| && m.digest == sha256(content)
    }
  }

  function Concat(rs: seq<Record>): seq<byte>
  {
    if rs == [] then [] else rs[0] + Concat(rs[1..])
  }

  predicate AllNonEmpty(rs: seq<Record>)
  {
    rs == [] || (rs[0] != [] && AllNonEmpty(rs[1..]))
  }

  // ----- sending

  /** The data frames for a content: full frames, then the remainder. */
  function Chunks(data: seq<byte>): seq<Record>
    decreases |data|
  {
    if data == [] then []
    else if |data| <= MAX_FRAME_SIZE then [data]
    else [data[..MAX_FRAME_SIZE]] + Chunks(data[MAX_FRAME_SIZE..])
  }

  /** The frame count of a content of n bytes: the least number of full frames that holds it. */
  function FrameCount(n: nat): (k: nat)
    ensures k * 4_194_304 >= n && (k > 0 ==> (k - 1) * 4_194_304 < n)
  {
    (n + MAX_FRAME_SIZE - 1) / MAX_FRAME_SIZE
  }

  /** The chunks are a partition of the content into non-empty frames, as few as possible. */
  lemma {:induction false} ChunksPartition(data: seq<byte>)
    ensures Concat(Chunks(data)) == data
    ensures AllNonEmpty(Chunks(data))
    ensures |Chunks(data)| == FrameCount(|data|)
    decreases |data|
  {
    if |data| > MAX_FRAME_SIZE {
      ChunksPartition(data[MAX_FRAME_SIZE..]);
      assert Chunks(data)[1..] == Chunks(data[MAX_FRAME_SIZE..]);
    } else if data != [] {
      var one: seq<Record> := [data];
      assert one[1..] == [];
    }
  }

  function From(data: seq<byte>, offset: nat): seq<byte>
  {
    if offset <= |data| then data[offset..] else []
  }

  /** The chunking loop both senders run after their metadata frame. */
  method SendChunks(fw: FrameWriter, data: seq<byte>) returns (frameCount: nat, err: Option<IOError>)
    modifies fw.w
    ensures old(fw.w.room) == None ==> err == None
    ensures err == None ==> fw.w.written == old(fw.w.written) + EncodeAll(Chunks(data))
    ensures err == None ==> frameCount == |Chunks(data)|
  {
    frameCount := 0;
    var offset := 0;
    ghost var goal := fw.w.written + EncodeAll(Chunks(data));
    while offset < |data|
      invariant old(fw.w.room) == None ==> fw.w.room == None
      invariant fw.w.written + EncodeAll(Chunks(From(data, offset))) == goal
      invariant frameCount + |Chunks(From(data, offset))| == |Chunks(data)|
      decreases |data| - offset
    {
      var end := if offset + MAX_FRAME_SIZE > |data| then |data| else offset + MAX_FRAME_SIZE;
      FirstChunk(data, offset);
      err := WriteChunk(fw, data[offset..end], EncodeAll(Chunks(From(data, end))));
      if err.Some? {
        return frameCount, err;
      }
      frameCount := frameCount + 1;
      offset := offset + MAX_FRAME_SIZE;
    }
    return frameCount, None;
  }

  /** Writing a chunk moves it from what is to come to what is written. */
  method WriteChunk(fw: FrameWriter, chunk: Record, ghost coming: seq<byte>) returns (err: Option<IOError>)
    modifies fw.w
    ensures old(fw.w.room) == None ==> err == None && fw.w.room == None
    ensures err == None ==> fw.w.written + coming == old(fw.w.written) + (Encode(chunk) + coming)
  {
    err := fw.WriteFrame(chunk);
  }

  lemma FirstChunk(data: seq<byte>, offset: nat)
    requires offset < |data|
    ensures var end := if offset + MAX_FRAME_SIZE > |data| then |data| else offset + MAX_FRAME_SIZE;
            && Chunks(From(data, offset)) == [data[offset..end]] + Chunks(From(data, end))
            && From(data, offset + MAX_FRAME_SIZE) == From(data, end)
            && EncodeAll(Chunks(From(data, offset))) == Encode(data[offset..end]) + EncodeAll(Chunks(From(data, end)))
  {
    var d := data[offset..];
    var end := if offset + MAX_FRAME_SIZE > |data| then |data| else offset + MAX_FRAME_SIZE;
    assert data[|data|..] == [];
    if offset + MAX_FRAME_SIZE >= |data| {
      assert d == data[offset..end];
    }
    assert d[..end - offset] == data[offset..end];
    assert d[end - offset..] == data[end..];
    assert Chunks(From(data, offset))[1..] == Chunks(From(data, end));
  }

  datatype TransferResult = TransferResult(filename: string, size: int, digest: Digest, frameCount: nat)

  datatype TransferError = SendFailed | ReadFailed | BadMetadata | DigestMismatch

  /** SendFile on the bytes read from disk. */
  method SendFile(fw: FrameWriter, c: Coding, filename: string, contentType: string, data: seq<byte>)
    returns (r: Result<TransferResult, TransferError>)
    modifies fw.w
    ensures var m := Metadata(filename, |data|, contentType, c.sha256(data));
            && (r.Ok? ==> |c.marshal(m)| <= MAX_FRAME_SIZE
                          && fw.w.written == old(fw.w.written) + EncodeAll(Frames(c, m, Chunks(data))))
            && (r.Ok? ==> r.value == TransferResult(filename, |data|, c.sha256(data), FrameCount(|data|)))
            && (old(fw.w.room) == None ==> (r.Ok? <==> |c.marshal(m)| <= MAX_FRAME_SIZE))
  {
    var m := Metadata(filename, |data|, contentType, c.sha256(data));
    var err := fw.WriteFrame(c.marshal(m));
    if err.Some? {
      return Err(SendFailed);
    }
    ghost var before := fw.w.written;
    var frameCount;
    frameCount, err := SendChunks(fw, data);
    if err.Some? {
      return Err(SendFailed);
    }
    ChunksPartition(data);
    EncodeFrames(c, m, Chunks(data));
    return Ok(TransferResult(filename, |data|, m.digest, frameCount));
  }

  /** The frames of a transfer, for any partition of the content. */
  function Frames(c: Coding, m: Metadata, data: seq<Record>): seq<Record>
    requires |c.marshal(m)| <= MAX_FRAME_SIZE
  {
    [c.marshal(m)] + data
  }

  lemma EncodeFrames(c: Coding, m: Metadata, data: seq<Record>)
    requires |c.marshal(m)| <= MAX_FRAME_SIZE
    ensures EncodeAll(Frames(c, m, data)) == Encode(c.marshal(m)) + EncodeAll(data)
  {
    assert Frames(c, m, data)[1..] == data;
  }

  /** SendAsset writes the same wire format from an asset in memory, and the lengths of its data
      frames sum to the declared size. */
  method SendAsset(w: ByteSink, c: Coding, m: Metadata, bytes: seq<byte>) returns (err: Option<IOError>)
    modifies w
    ensures err == None ==> |c.marshal(m)| <= MAX_FRAME_SIZE
                            && w.written == old(w.written) + EncodeAll(Frames(c, m, Chunks(bytes)))
    ensures old(w.room) == None ==> (err == None <==> |c.marshal(m)| <= MAX_FRAME_SIZE)
  {
    var fw := new FrameWriter(w);
    err := fw.WriteFrame(c.marshal(m));
    if err.None? {
      var n;
      n, err := SendChunks(fw, bytes);
      EncodeFrames(c, m, Chunks(bytes));
    }
  }

  lemma {:induction false} ChunkLengthsSum(frames: seq<Record>)
    ensures SumOfLengths(frames) == |Concat(frames)|
  {
    if frames != [] {
      ChunkLengthsSum(frames[1..]);
    }
  }

  function SumOfLengths(frames: seq<Record>): nat
  {
    if frames == [] then 0 else |frames[0]| + SumOfLengths(frames[1..])
  }

  // ----- receiving

  datatype Outcome =
    | Received(result: TransferResult, content: seq<byte>)
    | Refused(error: TransferError)
    | Panic   // slice bounds out of range

  /** The data loop over the payloads to come: frames are appended until `size` bytes are there.
      The result is what was gathered, from how many frames, and the payloads left unread; None
      when the stream fails first. */
  function Collect(ps: seq<Record>, size: int, got: seq<byte>, n: nat): (r: Option<(seq<byte>, nat, seq<Record>)>)
    ensures r.Some? ==> |r.value.0| >= size
  {
    if |got| >= size then Some((got, n, ps))
    else if ps == [] then None
    else Collect(ps[1..], size, got + ps[0], n + 1)
  }

  /** What ReceiveFile makes of the payloads to come, and those it leaves unread. */
  function ReceiveSpec(c: Coding, ps: seq<Record>): (Outcome, seq<Record>)
  {
    if ps == [] then (Refused(ReadFailed), [])
    else
      match c.unmarshal(ps[0])
      case None => (Refused(BadMetadata), ps[1..])
      case Some(m) =>
        match Collect(ps[1..], m.size, [], 0)
        case None => (Refused(ReadFailed), [])
        case Some(got) =>
          if m.size < 0 then (Panic, got.2)
          else
            var content := got.0[..m.size];
            if c.sha256(content) != m.digest then (Refused(DigestMismatch), got.2)
            else (Received(TransferResult(m.filename, m.size, m.digest, got.1), content), got.2)
  }

  /** adapter.Receive on a registered channel: the next payload, or an error when none is left. */
  method Receive(fr: FrameReader) returns (frame: Record, ok: bool)
    modifies fr.r
    ensures ok <==> Payloads(old(fr.r.rest)) != []
    ensures ok ==> [frame] + Payloads(fr.r.rest) == Payloads(old(fr.r.rest)) && |fr.r.rest| < |old(fr.r.rest)|
  {
    ReadFrameMeaning(fr.r.rest, fr.r.fault);
    var err;
    frame, err := fr.ReadFrame();
    ok := err.None?;
  }

  method ReceiveFile(fr: FrameReader, c: Coding) returns (o: Outcome)
    modifies fr.r
    ensures o == ReceiveSpec(c, Payloads(old(fr.r.rest))).0
    ensures o != Refused(ReadFailed) ==> Payloads(fr.r.rest) == ReceiveSpec(c, Payloads(old(fr.r.rest))).1
  {
    ghost var ps := Payloads(fr.r.rest);
    var frame, ok := Receive(fr);
    if !ok {
      return Refused(ReadFailed);
    }
    assert ps[0] == frame && ps[1..] == Payloads(fr.r.rest);
    var meta := c.unmarshal(frame);
    if meta == None {
      return Refused(BadMetadata);
    }
    var m := meta.value;
    var received: seq<byte> := [];
    var frameCount := 0;
    while |received| < m.size
      invariant Collect(Payloads(fr.r.rest), m.size, received, frameCount) == Collect(ps[1..], m.size, [], 0)
      decreases |fr.r.rest|
    {
      ghost var before := Payloads(fr.r.rest);
      frame, ok := Receive(fr);
      if !ok {
        return Refused(ReadFailed);
      }
      assert before[0] == frame && before[1..] == Payloads(fr.r.rest);
      received := received + frame;
      frameCount := frameCount + 1;
    }
    ghost var full := received;
    if |received| > m.size {
      if m.size < 0 {
        return Panic;
      }
      received := received[..m.size];
    }
    assert received == full[..m.size];
    if c.sha256(received) != m.digest {
      return Refused(DigestMismatch);
    }
    return Received(TransferResult(m.filename, m.size, m.digest, frameCount), received);
  }

  // ----- round trips

  lemma {:induction false} CollectFrames(frames: seq<Record>, more: seq<Record>, size: int, got: seq<byte>, n: nat)
    requires AllNonEmpty(frames)
    requires size == |got| + |Concat(frames)|
    ensures Collect(frames + more, size, got, n) == Some((got + Concat(frames), n + |frames|, more))
  {
    if frames == [] {
      assert frames + more == more;
      assert got + Concat(frames) == got;
    } else {
      assert (frames + more)[0] == frames[0] && (frames + more)[1..] == frames[1..] + more;
      assert |Concat(frames)| == |frames[0]| + |Concat(frames[1..])|;
      CollectFrames(frames[1..], more, size, got + frames[0], n + 1);
      assert got + Concat(frames) == (got + frames[0]) + Concat(frames[1..]);
    }
  }

  /** Reassembly does not depend on how the content was cut: any partition into non-empty frames
      gives the content back, and reads exactly the frames of the transfer. */
  lemma AnyPartitionReassembles(c: Coding, m: Metadata, content: seq<byte>, frames: seq<Record>, more: seq<Record>)
    requires c.Carries(m) && c.Describes(m, content)
    requires AllNonEmpty(frames) && Concat(frames) == content
    ensures ReceiveSpec(c, Frames(c, m, frames) + more)
            == (Received(TransferResult(m.filename, |content|, m.digest, |frames|), content), more)
  {
    var ps := Frames(c, m, frames) + more;
    MetadataFirst(c, m, frames, more);
    var rest := frames + more;
    assert Collect(rest, m.size, [], 0) == Some((content, |frames|, more)) by {
      CollectFrames(frames, more, m.size, [], 0);
      assert [] + Concat(frames) == content;
    }
    assert ps[1..] == rest;
    CollectedIsReceived(c, ps, m, content, |frames|, more);
  }

  lemma MetadataFirst(c: Coding, m: Metadata, frames: seq<Record>, more: seq<Record>)
    requires |c.marshal(m)| <= MAX_FRAME_SIZE
    ensures var ps := Frames(c, m, frames) + more; ps[0] == c.marshal(m) && ps[1..] == frames + more
  {
  }

  lemma CollectedIsReceived(c: Coding, ps: seq<Record>, m: Metadata, content: seq<byte>, n: nat, more: seq<Record>)
    requires ps != [] && c.unmarshal(ps[0]) == Some(m) && Collect(ps[1..], m.size, [], 0) == Some((content, n, more))
    requires m.size == |content| && c.sha256(content) == m.digest
    ensures ReceiveSpec(c, ps) == (Received(TransferResult(m.filename, |content|, m.digest, n), content), more)
  {
    assert content[..m.size] == content;
  }

  /** The bytes of non-empty frames in front of anything carry these frames first. */
  lemma WireCarries(frames: seq<Record>, t: seq<byte>)
    requires AllNonEmpty(frames)
    ensures Payloads(EncodeAll(frames) + t) == frames + Payloads(t)
  {
    PayloadsOfEncodeAll(frames);
    ParseAppend(EncodeAll(frames), t);
    assert [] + t == t;
    NonEmptyAppend(frames, Records(t));
    AllNonEmptyKept(frames);
  }

  lemma {:induction false} AllNonEmptyKept(frames: seq<Record>)
    requires AllNonEmpty(frames)
    ensures NonEmpty(frames) == frames
  {
    if frames != [] {
      AllNonEmptyKept(frames[1..]);
    }
  }

  /** ReceiveFile undoes SendFile: for every content, the empty one included, and whatever bytes
      follow on the channel, receiving what SendFile wrote gives the content back with the frame
      count rounded up, and leaves the bytes that follow to be read. */
  lemma TransferRoundTrip(c: Coding, filename: string, contentType: string, content: seq<byte>, t: seq<byte>)
    requires c.Carries(Metadata(filename, |content|, contentType, c.sha256(content)))
    ensures var m := Metadata(filename, |content|, contentType, c.sha256(content));
            ReceiveSpec(c, Payloads(EncodeAll(Frames(c, m, Chunks(content))) + t))
            == (Received(TransferResult(filename, |content|, c.sha256(content), FrameCount(|content|)), content), Payloads(t))
  {
    var m := Metadata(filename, |content|, contentType, c.sha256(content));
    ChunksPartition(content);
    assert Frames(c, m, Chunks(content))[1..] == Chunks(content);
    WireCarries(Frames(c, m, Chunks(content)), t);
    AnyPartitionReassembles(c, m, content, Chunks(content), Payloads(t));
  }

  datatype File = File(m: Metadata, content: seq<byte>)

  predicate Sendable(c: Coding, files: seq<File>)
  {
    files == [] || (c.Carries(files[0].m) && c.Describes(files[0].m, files[0].content) && Sendable(c, files[1..]))
  }

  function SendAll(c: Coding, files: seq<File>): seq<Record>
    requires Sendable(c, files)
    decreases |files|
  {
    if files == [] then [] else Frames(c, files[0].m, Chunks(files[0].content)) + SendAll(c, files[1..])
  }

  /** n calls of ReceiveFile in a row, up to the first that does not succeed. */
  function ReceiveMany(c: Coding, ps: seq<Record>, n: nat): (seq<seq<byte>>, seq<Record>)
    decreases n
  {
    if n == 0 then ([], ps)
    else
      var (o, rest) := ReceiveSpec(c, ps);
      if !o.Received? then ([], ps)
      else var (more, left) := ReceiveMany(c, rest, n - 1); ([o.content] + more, left)
  }

  function Contents(files: seq<File>): seq<seq<byte>>
  {
    if files == [] then [] else [files[0].content] + Contents(files[1..])
  }

  /** Transfers on one channel compose: what is sent back to back is received back to back. */
  lemma {:induction false} BackToBack(c: Coding, files: seq<File>, more: seq<Record>)
    requires Sendable(c, files)
    ensures ReceiveMany(c, SendAll(c, files) + more, |files|) == (Contents(files), more)
    decreases |files|
  {
    if files == [] {
      assert SendAll(c, files) + more == more;
    } else {
      var f := files[0];
      var rest := SendAll(c, files[1..]) + more;
      assert SendAll(c, files) + more == Frames(c, f.m, Chunks(f.content)) + rest;
      ChunksPartition(f.content);
      AnyPartitionReassembles(c, f.m, f.content, Chunks(f.content), rest);
      BackToBack(c, files[1..], more);
    }
  }

  // ----- what a success or a panic means, on any byte stream

  lemma {:induction false} CollectMeaning(ps: seq<Record>, size: int, got: seq<byte>, n: nat)
    ensures match Collect(ps, size, got, n)
            case None => |got + Concat(ps)| < size
            case Some(r) =>
              && n <= r.1 <= n + |ps|
              && r.0 == got + Concat(ps[..r.1 - n])
              && r.2 == ps[r.1 - n..]
              && (r.1 > n ==> |got + Concat(ps[..r.1 - n - 1])| < size)
  {
    if |got| < size && ps != [] {
      CollectMeaning(ps[1..], size, got + ps[0], n + 1);
      assert got + Concat(ps) == (got + ps[0]) + Concat(ps[1..]);
      match Collect(ps[1..], size, got + ps[0], n + 1)
      case None =>
      case Some(r) =>
        var k := r.1 - n;
        assert ps[..k][1..] == ps[1..][..k - 1];
        assert got + Concat(ps[..k]) == (got + ps[0]) + Concat(ps[1..][..k - 1]);
        if k > 1 {
          assert ps[..k - 1][1..] == ps[1..][..k - 2];
          assert got + Concat(ps[..k - 1]) == (got + ps[0]) + Concat(ps[1..][..k - 2]);
        } else {
          assert ps[..k - 1] == [];
        }
    } else {
      assert ps[..0] == [];
    }
  }

  /** Whatever arrives: a success has exactly the declared length and digest, is the beginning of
      the data frames that follow the metadata, and no frame too many was read for it. */
  lemma SuccessIsDeclared(c: Coding, ps: seq<Record>)
    requires ReceiveSpec(c, ps).0.Received?
    ensures ps != [] && c.unmarshal(ps[0]).Some?
    ensures var (o, rest) := ReceiveSpec(c, ps);
            var m, data, n := c.unmarshal(ps[0]).value, ps[1..], o.result.frameCount;
            && 0 <= m.size == |o.content| && c.sha256(o.content) == m.digest
            && o.result == TransferResult(m.filename, m.size, m.digest, n)
            && n <= |data| && o.content <= Concat(data[..n]) && rest == data[n..]
            && (n > 0 ==> |Concat(data[..n - 1])| < m.size)
  {
    var m := c.unmarshal(ps[0]).value;
    CollectMeaning(ps[1..], m.size, [], 0);
    var data, n := ps[1..], ReceiveSpec(c, ps).0.result.frameCount;
    assert [] + Concat(data[..n]) == Concat(data[..n]);
    if n > 0 {
      assert [] + Concat(data[..n - 1]) == Concat(data[..n - 1]);
    }
  }

  /** ReceiveFile panics exactly when a readable metadata frame declares a negative size: the data
      loop is skipped and the truncation slices to that size.  It succeeds exactly when the size
      is not negative, enough data follows, and the digest fits. */
  lemma PanicAndSuccess(c: Coding, ps: seq<Record>)
    ensures ReceiveSpec(c, ps).0 == Panic <==>
            ps != [] && c.unmarshal(ps[0]).Some? && c.unmarshal(ps[0]).value.size < 0
    ensures ReceiveSpec(c, ps).0.Received? <==>
            && ps != [] && c.unmarshal(ps[0]).Some?
            && var m, data := c.unmarshal(ps[0]).value, Concat(ps[1..]);
            0 <= m.size <= |data| && c.sha256(data[..m.size]) == m.digest
  {
    if ps != [] && c.unmarshal(ps[0]).Some? {
      var m, data := c.unmarshal(ps[0]).value, Concat(ps[1..]);
      CollectMeaning(ps[1..], m.size, [], 0);
      assert [] + data == data;
      match Collect(ps[1..], m.size, [], 0)
      case None =>
      case Some(r) =>
        ConcatPrefix(ps[1..], r.1);
        assert [] + Concat(ps[1..][..r.1]) == Concat(ps[1..][..r.1]);
        if m.size >= 0 {
          assert data[..m.size] == r.0[..m.size];
        }
    }
  }

  /** And each refusal has its reason: unreadable metadata, too little data, or another digest. */
  lemma RefusalReasons(c: Coding, ps: seq<Record>)
    ensures ReceiveSpec(c, ps).0 == Refused(BadMetadata) <==> ps != [] && c.unmarshal(ps[0]) == None
    ensures ReceiveSpec(c, ps).0 == Refused(ReadFailed) <==>
            ps == [] || (c.unmarshal(ps[0]).Some? && c.unmarshal(ps[0]).value.size > |Concat(ps[1..])|)
    ensures ReceiveSpec(c, ps).0 == Refused(DigestMismatch) <==>
            && ps != [] && c.unmarshal(ps[0]).Some?
            && var m, data := c.unmarshal(ps[0]).value, Concat(ps[1..]);
            0 <= m.size <= |data| && c.sha256(data[..m.size]) != m.digest
    ensures ReceiveSpec(c, ps).0 != Refused(SendFailed)
  {
    PanicAndSuccess(c, ps);
    if ps != [] && c.unmarshal(ps[0]).Some? {
      var m, data := c.unmarshal(ps[0]).value, Concat(ps[1..]);
      CollectMeaning(ps[1..], m.size, [], 0);
      assert [] + data == data;
      match Collect(ps[1..], m.size, [], 0)
      case None =>
      case Some(r) =>
        ConcatPrefix(ps[1..], r.1);
        assert [] + Concat(ps[1..][..r.1]) == Concat(ps[1..][..r.1]);
        if m.size >= 0 {
          assert data[..m.size] == r.0[..m.size];
        }
    }
  }

  lemma {:induction false} ConcatPrefix(rs: seq<Record>, k: nat)
    requires k <= |rs|
    ensures Concat(rs[..k]) <= Concat(rs)
  {
    if k > 0 {
      ConcatPrefix(rs[1..], k - 1);
      assert rs[..k][1..] == rs[1..][..k - 1];
    }
  }
}
