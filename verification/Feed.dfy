/**
 The display's track state and its event feed: producers apply frames (write the track, then
 broadcast it), clients subscribe first and take a snapshot second.

 The class is the state behind its two mutexes.  Apply releases the first before it takes the
 second, and a client subscribes and takes its snapshot in two critical sections, so the step
 system in the second half interleaves exactly these.
 */
module Feed {
  import opened Prelude

  const SUBSCRIBER_BUFFER: nat := 32

  datatype Track = Track(nodeId: string, uid: string, body: string, source: string, sellerPeer: string, lastSeen: int, frameCount: nat)

  /** Track identity is scoped by the source node. */
  function TrackKey(t: Track): string
  {
    if t.nodeId != "" then t.nodeId + "|" + t.uid else t.uid
  }

  /** The same object as seen by the same node. */
  predicate SameObject(s: Track, t: Track)
  {
    s.nodeId == t.nodeId && s.uid == t.uid
  }

  /** The separator can be part of an id: s hides behind the longer node id of t. */
  predicate Shadows(s: Track, t: Track)
  {
    t.nodeId != "" &&
    if s.nodeId == "" then s.uid == t.nodeId + "|" + t.uid
    else
      && |s.nodeId| < |t.nodeId| && t.nodeId[..|s.nodeId|] == s.nodeId && t.nodeId[|s.nodeId|] == '|'
      && s.uid == t.nodeId[|s.nodeId| + 1..] + "|" + t.uid
  }

  lemma ShadowedHasKey(s: Track, t: Track)
    requires Shadows(s, t)
    ensures TrackKey(s) == TrackKey(t) && !SameObject(s, t)
  {
    if s.nodeId != "" {
      var x := t.nodeId[|s.nodeId| + 1..];
      assert t.nodeId == s.nodeId + "|" + x;
      assert s.nodeId + "|" + (x + "|" + t.uid) == s.nodeId + "|" + x + "|" + t.uid;
    }
  }

  lemma KeyIsShadowed(s: Track, t: Track)
    requires TrackKey(s) == TrackKey(t) && |s.nodeId| < |t.nodeId|
    ensures Shadows(s, t)
  {
    var key := TrackKey(t);
    var n := |s.nodeId|;
    if n > 0 {
      assert key == s.nodeId + "|" + s.uid == t.nodeId + "|" + t.uid;
      assert key[..n] == s.nodeId && key[n] == '|' && key[n + 1..] == s.uid;
      assert key[..|t.nodeId|] == t.nodeId;
      assert key[n + 1..] == t.nodeId[n + 1..] + "|" + t.uid;
    }
  }

  /** Two different objects have one key exactly when one of them is shadowed by the other. */
  lemma KeyCollisionIff(s: Track, t: Track)
    ensures TrackKey(s) == TrackKey(t) && !SameObject(s, t) <==> Shadows(s, t) || Shadows(t, s)
    ensures SameObject(s, t) ==> TrackKey(s) == TrackKey(t)
  {
    if Shadows(s, t) {
      ShadowedHasKey(s, t);
    } else if Shadows(t, s) {
      ShadowedHasKey(t, s);
    } else if TrackKey(s) == TrackKey(t) {
      if |s.nodeId| < |t.nodeId| {
        KeyIsShadowed(s, t);
      } else if |t.nodeId| < |s.nodeId| {
        KeyIsShadowed(t, s);
      } else {
        var key, n := TrackKey(s), |s.nodeId|;
        assert n > 0 ==> key[..n] == s.nodeId == t.nodeId && key[n + 1..] == s.uid == t.uid;
      }
    }
  }

  /** Two sellers that mint one uid never share a key, whatever their ids. */
  lemma NodesAreApart(s: Track, t: Track)
    requires s.uid == t.uid
    ensures TrackKey(s) == TrackKey(t) <==> s.nodeId == t.nodeId
  {
    KeyCollisionIff(s, t);
    if TrackKey(s) == TrackKey(t) {
      assert |TrackKey(s)| == |TrackKey(t)|;
    }
  }

  type Tracks = m: map<string, Track> | forall k | k in m :: TrackKey(m[k]) == k

  /** A tagged frame; `inner` is the decoded track frame, None when it does not decode. */
  datatype Frame = Frame(source: string, kind: string, inner: Option<Track>, sellerPeer: string, receivedAt: int)

  datatype ApplyError = UnknownSource | UnknownType | BadInner | MissingUid

  function Decode(tf: Frame): Result<Track, ApplyError>
  {
    if tf.source != "sapient" then Err(UnknownSource)
    else if tf.kind != "track" then Err(UnknownType)
    else if tf.inner == None then Err(BadInner)
    else if tf.inner.value.uid == "" then Err(MissingUid)
    else Ok(tf.inner.value.(source := tf.source, sellerPeer := tf.sellerPeer, lastSeen := tf.receivedAt, frameCount := 1))
  }

  /** What is accepted, and as what: the decoded object with who delivered it and when. */
  lemma DecodeMeaning(tf: Frame)
    ensures Decode(tf).Ok? <==> tf.source == "sapient" && tf.kind == "track" && tf.inner.Some? && tf.inner.value.uid != ""
    ensures Decode(tf).Ok? ==>
              && SameObject(Decode(tf).value, tf.inner.value) && Decode(tf).value.body == tf.inner.value.body
              && Decode(tf).value.source == "sapient" && Decode(tf).value.sellerPeer == tf.sellerPeer
              && Decode(tf).value.lastSeen == tf.receivedAt
    ensures Decode(tf) == Err(UnknownSource) <==> tf.source != "sapient"
    ensures tf.source == "sapient" ==> (Decode(tf) == Err(UnknownType) <==> tf.kind != "track")
    ensures tf.source == "sapient" && tf.kind == "track" ==> (Decode(tf) == Err(BadInner) <==> tf.inner == None)
  {
  }

  /** The track that is stored: it continues the frame count of the one it replaces. */
  function Counted(tracks: Tracks, t: Track): Track
  {
    if TrackKey(t) in tracks then t.(frameCount := tracks[TrackKey(t)].frameCount + 1) else t.(frameCount := 1)
  }

  function Stored(tracks: Tracks, t: Track): Tracks
  {
    tracks[TrackKey(t) := Counted(tracks, t)]
  }

  /** A non-blocking send into a subscriber's buffer. */
  function Offered(queue: seq<Track>, t: Track): seq<Track>
  {
    if |queue| < SUBSCRIBER_BUFFER then queue + [t] else queue
  }

  function Broadcasted(subs: map<nat, seq<Track>>, t: Track): map<nat, seq<Track>>
  {
    map ch | ch in subs :: Offered(subs[ch], t)
  }

  class State {
    var tracks: Tracks
    var subs: map<nat, seq<Track>>   // subscriber channels and their buffers

    constructor ()
      ensures tracks == map[] && subs == map[]
    {
      tracks, subs := map[], map[];
    }

    /** A frame that is refused changes nothing; one that is accepted is stored under its key with
        the next frame count, and the very track that is stored is offered to every subscriber. */
    method Apply(tf: Frame) returns (r: Result<Track, ApplyError>)
      modifies this
      ensures Decode(tf).Err? ==> r == Err(Decode(tf).error) && tracks == old(tracks) && subs == old(subs)
      ensures Decode(tf).Ok? ==>
                var t := Counted(old(tracks), Decode(tf).value);
                && t.uid == tf.inner.value.uid && t.nodeId == tf.inner.value.nodeId && t.sellerPeer == tf.sellerPeer && t.lastSeen == tf.receivedAt
                && r == Ok(t) && tracks == Stored(old(tracks), Decode(tf).value) && subs == Broadcasted(old(subs), t)
    {
      if tf.source != "sapient" {
        return Err(UnknownSource);
      }
      if tf.kind != "track" {
        return Err(UnknownType);
      }
      if tf.inner == None {
        return Err(BadInner);
      }
      var snap := tf.inner.value;
      if snap.uid == "" {
        return Err(MissingUid);
      }
      snap := snap.(source := tf.source, sellerPeer := tf.sellerPeer, lastSeen := tf.receivedAt, frameCount := 1);
      var key := TrackKey(snap);
      if key in tracks {
        snap := snap.(frameCount := tracks[key].frameCount + 1);
      }
      tracks := tracks[key := snap];
      Broadcast(snap);
      return Ok(snap);
    }

    method Broadcast(t: Track)
      modifies this`subs
      ensures subs == Broadcasted(old(subs), t)
      ensures subs.Keys == old(subs).Keys
      ensures forall ch | ch in subs :: subs[ch] == if |old(subs)[ch]| < 32 then old(subs)[ch] + [t] else old(subs)[ch]
    {
      var todo := subs.Keys;
      ghost var before := subs;
      while todo != {}
        invariant todo <= subs.Keys == before.Keys
        invariant forall ch | ch in before :: subs[ch] == if ch in todo then before[ch] else Offered(before[ch], t)
        decreases |todo|
      {
        var ch :| ch in todo;
        if |subs[ch]| < SUBSCRIBER_BUFFER {
          subs := subs[ch := subs[ch] + [t]];
        }
        todo := todo - {ch};
      }
    }

    /** A copy of every track, each once, in no particular order. */
    method Snapshot() returns (out: seq<Track>)
      ensures |out| == |tracks|
      ensures forall t :: t in out <==> t in tracks.Values
    {
      var todo := tracks.Keys;
      out := [];
      while todo != {}
        invariant todo <= tracks.Keys
        invariant |out| + |todo| == |tracks.Keys|
        invariant forall t :: t in out <==> exists k :: k in tracks && k !in todo && tracks[k] == t
        decreases |todo|
      {
        var k :| k in todo;
        ghost var before := out;
        out := out + [tracks[k]];
        todo := todo - {k};
        forall t
          ensures t in out <==> exists j :: j in tracks && j !in todo && tracks[j] == t
        {
          assert t in out <==> t in before || t == tracks[k];
        }
      }
    }

    /** Drops exactly the tracks last seen before the cutoff; a non-positive age is a no-op. */
    method Evict(now: int, maxAge: int) returns (n: nat)
      modifies this`tracks
      ensures tracks == if maxAge <= 0 then old(tracks) else map k | k in old(tracks) && old(tracks)[k].lastSeen >= now - maxAge :: old(tracks)[k]
      ensures n == |old(tracks)| - |tracks|
    {
      n := 0;
      if maxAge <= 0 {
        return;
      }
      var cutoff := now - maxAge;
      var todo := tracks.Keys;
      ghost var before := tracks;
      while todo != {}
        invariant todo <= tracks.Keys <= before.Keys
        invariant n + |tracks| == |before|
        invariant forall k | k in tracks :: tracks[k] == before[k]
        invariant forall k | k in before :: k in tracks <==> k in todo || before[k].lastSeen >= cutoff
        decreases |todo|
      {
        var k :| k in todo;
        if tracks[k].lastSeen < cutoff {
          assert |tracks - {k}| == |tracks| - 1 by {
            assert (tracks - {k}).Keys == tracks.Keys - {k};
          }
          tracks := tracks - {k};
          n := n + 1;
        }
        todo := todo - {k};
      }
    }

    method Subscribe(ch: nat)
      requires ch !in subs
      modifies this`subs
      ensures subs == old(subs)[ch := []]
    {
      subs := subs[ch := []];
    }

    method Unsubscribe(ch: nat)
      modifies this`subs
      ensures subs == old(subs) - {ch}
    {
      subs := subs - {ch};
    }
  }

  // ----- interleavings

  /** A connected client: what is buffered for it and what it has shown so far. */
  datatype Client = Client(
    queue: seq<Track>,
    snapped: bool,          // has taken its snapshot
    view: map<string, Track>,
    missed: bool,           // an event was dropped on its full buffer
    evicted: set<string>)   // keys evicted while it was connected

  /** `writing` holds, for each producer between its two critical sections, the track it stored. */
  datatype Display = Display(tracks: Tracks, writing: map<nat, Track>, clients: map<nat, Client>)

  datatype Step =
    | Store(producer: nat, t: Track)
    | Announce(producer: nat)
    | Connect(id: nat)
    | TakeSnapshot(id: nat)
    | Show(id: nat)
    | EvictKeys(keys: set<string>)

  predicate Enabled(d: Display, step: Step)
  {
    match step
    case Store(p, _) => p !in d.writing
    case Announce(p) => p in d.writing
    case Connect(id) => id !in d.clients
    case TakeSnapshot(id) => id in d.clients && !d.clients[id].snapped
    case Show(id) => id in d.clients && d.clients[id].snapped && d.clients[id].queue != []
    case EvictKeys(_) => true
  }

  function Apply(d: Display, step: Step): Display
    requires Enabled(d, step)
  {
    match step
    case Store(p, t) => d.(tracks := Stored(d.tracks, t), writing := d.writing[p := Counted(d.tracks, t)])
    case Announce(p) =>
      d.(writing := d.writing - {p}, clients := map id | id in d.clients :: Notified(d.clients[id], d.writing[p]))
    case Connect(id) => d.(clients := d.clients[id := Client([], false, map[], false, Gone(d))])
    case TakeSnapshot(id) => d.(clients := d.clients[id := d.clients[id].(snapped := true, view := d.tracks)])
    case Show(id) =>
      var c := d.clients[id];
      var e := c.queue[0];
      d.(clients := d.clients[id := c.(queue := c.queue[1..], view := c.view[TrackKey(e) := e])])
    case EvictKeys(keys) =>
      d.(tracks := d.tracks - keys,
         clients := map id | id in d.clients :: d.clients[id].(evicted := d.clients[id].evicted + keys))
  }

  function Notified(c: Client, t: Track): Client
  {
    if |c.queue| < SUBSCRIBER_BUFFER then c.(queue := c.queue + [t]) else c.(missed := true)
  }

  /** Keys stored but evicted again before they were announced. */
  function Gone(d: Display): set<string>
  {
    set p | p in d.writing && TrackKey(d.writing[p]) !in d.tracks :: TrackKey(d.writing[p])
  }

  ghost predicate IsRun(d: Display, steps: seq<Step>)
    decreases |steps|
  {
    steps == [] || (Enabled(d, steps[0]) && IsRun(Apply(d, steps[0]), steps[1..]))
  }

  ghost function End(d: Display, steps: seq<Step>): Display
    requires IsRun(d, steps)
    decreases |steps|
  {
    if steps == [] then d else End(Apply(d, steps[0]), steps[1..])
  }

  const EMPTY: Display := Display(map[], map[], map[])

  /** Every stored track of a run comes from the producer that owns its key. */
  predicate OwnedBy(steps: seq<Step>, owner: string -> nat)
  {
    steps == [] || ((steps[0].Store? ==> owner(TrackKey(steps[0].t)) == steps[0].producer) && OwnedBy(steps[1..], owner))
  }

  /** Every buffer holds 32 events at most; one more is dropped, and the client has missed something. */
  ghost predicate Bounded(d: Display)
  {
    forall id | id in d.clients :: |d.clients[id].queue| <= 32
  }

  lemma {:induction false} BuffersAreBounded(d: Display, steps: seq<Step>)
    requires Bounded(d) && IsRun(d, steps)
    ensures Bounded(End(d, steps))
    decreases |steps|
  {
    if steps != [] {
      BuffersAreBounded(Apply(d, steps[0]), steps[1..]);
    }
  }

  lemma MissedIffFull(d: Display, p: nat, id: nat)
    requires Bounded(d) && Enabled(d, Announce(p)) && id in d.clients && !d.clients[id].missed
    ensures var c := Apply(d, Announce(p)).clients[id];
            && (c.missed <==> |d.clients[id].queue| == 32)
            && c.queue == if c.missed then d.clients[id].queue else d.clients[id].queue + [d.writing[p]]
  {
  }

  // ----- what the tracks are

  /** Stores of this object in a run since its key was last evicted, and the last of them. */
  function StoresOf(steps: seq<Step>, t: Track): nat
  {
    if steps == [] then 0
    else
      var init, last := steps[..|steps| - 1], steps[|steps| - 1];
      if last.Store? && SameObject(last.t, t) then StoresOf(init, t) + 1
      else if last.EvictKeys? && TrackKey(t) in last.keys then 0
      else StoresOf(init, t)
  }

  function LastOf(steps: seq<Step>, t: Track): Option<Track>
  {
    if steps == [] then None
    else
      var init, last := steps[..|steps| - 1], steps[|steps| - 1];
      if last.Store? && SameObject(last.t, t) then Some(last.t)
      else if last.EvictKeys? && TrackKey(t) in last.keys then None
      else LastOf(init, t)
  }

  /** No other object stored in the run has the key of this one. */
  predicate Unshadowed(steps: seq<Step>, t: Track)
  {
    forall i | 0 <= i < |steps| && steps[i].Store? :: !Shadows(steps[i].t, t) && !Shadows(t, steps[i].t)
  }

  lemma {:induction false} SplitLast(d: Display, steps: seq<Step>)
    requires IsRun(d, steps) && steps != []
    ensures var init, last := steps[..|steps| - 1], steps[|steps| - 1];
            IsRun(d, init) && Enabled(End(d, init), last) && End(d, steps) == Apply(End(d, init), last)
    decreases |steps|
  {
    if |steps| > 1 {
      SplitLast(Apply(d, steps[0]), steps[1..]);
      assert steps[1..][..|steps| - 2] == steps[..|steps| - 1][1..];
    } else {
      assert steps[..0] == [] && steps[1..] == [];
    }
  }

  /** In every run, for every object: its track is the frame stored last, and its frame count the
      number of frames stored for it since it was last evicted. */
  lemma {:induction false} TracksAreLatest(steps: seq<Step>, t: Track)
    requires IsRun(EMPTY, steps) && Unshadowed(steps, t)
    ensures var tracks := End(EMPTY, steps).tracks;
            && (TrackKey(t) in tracks <==> StoresOf(steps, t) > 0) && (LastOf(steps, t).Some? <==> StoresOf(steps, t) > 0)
            && (StoresOf(steps, t) > 0 ==> tracks[TrackKey(t)] == LastOf(steps, t).value.(frameCount := StoresOf(steps, t)))
    decreases |steps|
  {
    if steps != [] {
      var init, last := steps[..|steps| - 1], steps[|steps| - 1];
      SplitLast(EMPTY, steps);
      TracksAreLatest(init, t);
      if last.Store? {
        KeyCollisionIff(last.t, t);
      }
    }
  }

  // ----- what a client will end up showing for a key

  function LastFor(q: seq<Track>, k: string): Option<Track>
  {
    if q == [] then None
    else
      match LastFor(q[1..], k)
      case Some(t) => Some(t)
      case None => if TrackKey(q[0]) == k then Some(q[0]) else None
  }

  lemma {:induction false} LastForAppend(q: seq<Track>, t: Track, k: string)
    ensures LastFor(q + [t], k) == if TrackKey(t) == k then Some(t) else LastFor(q, k)
  {
    if q == [] {
      assert q + [t] == [t];
      assert [t][1..] == [];
    } else {
      assert (q + [t])[1..] == q[1..] + [t];
      LastForAppend(q[1..], t, k);
    }
  }

  function Get(m: map<string, Track>, k: string): Option<Track>
  {
    if k in m then Some(m[k]) else None
  }

  /** Events still to come for key k: the buffer, then what its owner has yet to announce. */
  function Coming(d: Display, c: Client, p: nat): seq<Track>
  {
    c.queue + if p in d.writing then [d.writing[p]] else []
  }

  /** What client c shows for key k once these have arrived; before its snapshot it starts from the tracks. */
  function Eventually(d: Display, c: Client, k: string, p: nat): Option<Track>
  {
    match LastFor(Coming(d, c, p), k)
    case Some(t) => Some(t)
    case None => Get(if c.snapped then c.view else d.tracks, k)
  }

  /** It is the current track, or an evicted one. */
  predicate Right(d: Display, c: Client, k: string, p: nat)
  {
    || Eventually(d, c, k, p) == Get(d.tracks, k)
    || (k !in d.tracks && k in c.evicted)
  }

  ghost predicate Inv(d: Display, owner: string -> nat)
  {
    && (forall p | p in d.writing :: owner(TrackKey(d.writing[p])) == p)
    && (forall p | p in d.writing && TrackKey(d.writing[p]) in d.tracks :: d.tracks[TrackKey(d.writing[p])] == d.writing[p])
    && (forall id, k | id in d.clients && !d.clients[id].missed :: Right(d, d.clients[id], k, owner(k)))
  }

  lemma StoreKeepsRight(d: Display, n: Display, p: nat, t: Track, c: Client, k: string, o: nat)
    requires Right(d, c, k, o) && p !in d.writing && (TrackKey(t) == k ==> o == p)
    requires n.tracks == d.tracks[TrackKey(t) := t] && n.writing == d.writing[p := t]
    ensures Right(n, c, k, o)
  {
    assert c.queue + [] == c.queue;
    LastForAppend(c.queue, t, k);
  }

  lemma StoreKeeps(d: Display, p: nat, t: Track, owner: string -> nat)
    requires Inv(d, owner) && Enabled(d, Store(p, t)) && owner(TrackKey(t)) == p
    ensures Inv(Apply(d, Store(p, t)), owner)
  {
    var n := Apply(d, Store(p, t));
    var stored := Counted(d.tracks, t);
    forall id, k | id in n.clients && !n.clients[id].missed
      ensures Right(n, n.clients[id], k, owner(k))
    {
      assert Right(d, d.clients[id], k, owner(k));
      StoreKeepsRight(d, n, p, stored, d.clients[id], k, owner(k));
    }
  }

  lemma AnnounceKeeps(d: Display, p: nat, owner: string -> nat)
    requires Inv(d, owner) && Enabled(d, Announce(p))
    ensures Inv(Apply(d, Announce(p)), owner)
  {
    var n := Apply(d, Announce(p));
    forall id, k | id in n.clients && !n.clients[id].missed
      ensures Right(n, n.clients[id], k, owner(k))
    {
      var c := d.clients[id];
      assert Right(d, c, k, owner(k));
      var t := d.writing[p];
      LastForAppend(c.queue, t, k);
      if owner(k) == p {
        assert Coming(n, n.clients[id], p) == Coming(d, c, p);
      } else if owner(k) in d.writing {
        LastForAppend(c.queue, d.writing[owner(k)], k);
        LastForAppend(c.queue + [t], d.writing[owner(k)], k);
      } else {
        assert c.queue + [] == c.queue && (c.queue + [t]) + [] == c.queue + [t];
      }
    }
  }

  lemma ConnectKeeps(d: Display, id: nat, owner: string -> nat)
    requires Inv(d, owner) && Enabled(d, Connect(id))
    ensures Inv(Apply(d, Connect(id)), owner)
  {
    var n := Apply(d, Connect(id));
    forall i, k | i in n.clients && !n.clients[i].missed
      ensures Right(n, n.clients[i], k, owner(k))
    {
      if i == id {
        if owner(k) in d.writing {
          var t := d.writing[owner(k)];
          LastForAppend([], t, k);
          assert [] + [t] == [t];
          if TrackKey(t) == k && k !in d.tracks {
            assert k in Gone(d);
          }
        }
      } else {
        assert Right(d, d.clients[i], k, owner(k));
      }
    }
  }

  lemma ShowKeeps(d: Display, id: nat, owner: string -> nat)
    requires Inv(d, owner) && Enabled(d, Show(id))
    ensures Inv(Apply(d, Show(id)), owner)
  {
    var n := Apply(d, Show(id));
    forall i, k | i in n.clients && !n.clients[i].missed
      ensures Right(n, n.clients[i], k, owner(k))
    {
      var c := d.clients[i];
      assert Right(d, c, k, owner(k));
      if i == id {
        assert Coming(d, c, owner(k))[1..] == Coming(n, n.clients[i], owner(k));
      }
    }
  }

  lemma EvictKeeps(d: Display, keys: set<string>, owner: string -> nat)
    requires Inv(d, owner)
    ensures Inv(Apply(d, EvictKeys(keys)), owner)
  {
    var n := Apply(d, EvictKeys(keys));
    forall i, k | i in n.clients && !n.clients[i].missed
      ensures Right(n, n.clients[i], k, owner(k))
    {
      assert Right(d, d.clients[i], k, owner(k));
      assert Coming(n, n.clients[i], owner(k)) == Coming(d, d.clients[i], owner(k));
    }
  }

  lemma StepKeeps(d: Display, step: Step, owner: string -> nat)
    requires Inv(d, owner) && Enabled(d, step) && (step.Store? ==> owner(TrackKey(step.t)) == step.producer)
    ensures Inv(Apply(d, step), owner)
  {
    match step
    case Store(p, t) => StoreKeeps(d, p, t, owner);
    case Announce(p) => AnnounceKeeps(d, p, owner);
    case Connect(id) => ConnectKeeps(d, id, owner);
    case TakeSnapshot(id) =>
      forall i, k | i in d.clients && !d.clients[i].missed
        ensures Right(Apply(d, step), Apply(d, step).clients[i], k, owner(k))
      {
        assert Right(d, d.clients[i], k, owner(k));
      }
    case Show(id) => ShowKeeps(d, id, owner);
    case EvictKeys(keys) => EvictKeeps(d, keys, owner);
  }

  lemma {:induction false} RunKeeps(d: Display, steps: seq<Step>, owner: string -> nat)
    requires Inv(d, owner) && IsRun(d, steps) && OwnedBy(steps, owner)
    ensures Inv(End(d, steps), owner)
    decreases |steps|
  {
    if steps != [] {
      StepKeeps(d, steps[0], owner);
      RunKeeps(Apply(d, steps[0]), steps[1..], owner);
    }
  }

  /** A client that has taken its snapshot, has shown everything sent to it and missed nothing, at
      a moment when no producer is between its two steps. */
  predicate Drained(d: Display, id: nat)
  {
    id in d.clients && d.clients[id].snapped && !d.clients[id].missed && d.clients[id].queue == [] && d.writing == map[]
  }

  /** Subscribe-then-snapshot converges: however many producers and clients interleave, as long as
      no key is written by two producers, a drained client shows every track of the server as it
      is, and beyond those only tracks that were evicted while it was connected. */
  lemma Convergence(steps: seq<Step>, owner: string -> nat, id: nat)
    requires IsRun(EMPTY, steps) && OwnedBy(steps, owner) && Drained(End(EMPTY, steps), id)
    ensures var d := End(EMPTY, steps);
            var c := d.clients[id];
            && (forall k | k in d.tracks :: k in c.view && c.view[k] == d.tracks[k])
            && c.view.Keys <= d.tracks.Keys + c.evicted
            && (c.evicted == {} ==> c.view == d.tracks)
  {
    RunKeeps(EMPTY, steps, owner);
    var d := End(EMPTY, steps);
    var c := d.clients[id];
    forall k
      ensures Get(c.view, k) == Get(d.tracks, k) || (k !in d.tracks && k in c.evicted)
    {
      assert Right(d, c, k, owner(k));
      assert Coming(d, c, owner(k)) == [];
    }
    forall k | k in d.tracks
      ensures k in c.view && c.view[k] == d.tracks[k]
    {
      assert Get(c.view, k) == Get(d.tracks, k);
    }
    forall k | k in c.view
      ensures k in d.tracks.Keys + c.evicted
    {
      assert Get(c.view, k) == Get(d.tracks, k) || (k !in d.tracks && k in c.evicted);
    }
  }

  lemma RunCons(d: Display, step: Step, rest: seq<Step>)
    requires Enabled(d, step) && IsRun(Apply(d, step), rest)
    ensures IsRun(d, [step] + rest) && End(d, [step] + rest) == End(Apply(d, step), rest)
  {
    ConsTail(step, rest);
  }

  lemma {:induction false} RunConcat(d: Display, first: seq<Step>, second: seq<Step>)
    requires IsRun(d, first) && IsRun(End(d, first), second)
    ensures IsRun(d, first + second) && End(d, first + second) == End(End(d, first), second)
    decreases |first|
  {
    SumOfSeqs(first, second);
    if first != [] {
      RunConcat(Apply(d, first[0]), first[1..], second);
    }
  }

  /** A client is connected, and p and q have stored s and then t under one key. */
  predicate BothStored(d: Display, p: nat, q: nat, s: Track, t: Track)
  {
    && d.clients == map[0 := Client([], true, map[], false, {})]
    && d.writing == map[p := s, q := t] && d.tracks == map[TrackKey(t) := t]
    && TrackKey(s) == TrackKey(t) && s != t
  }

  lemma StoreBoth(p: nat, q: nat, s: Track, t: Track) returns (steps: seq<Step>)
    requires p != q && TrackKey(s) == TrackKey(t)
    ensures steps == [Connect(0), TakeSnapshot(0), Store(p, s), Store(q, t)]
    ensures IsRun(EMPTY, steps)
    ensures BothStored(End(EMPTY, steps), p, q, s.(frameCount := 1), t.(frameCount := 2))
  {
    var d1 := Apply(EMPTY, Connect(0));
    var d2 := Apply(d1, TakeSnapshot(0));
    var d3 := Apply(d2, Store(p, s));
    var d4 := Apply(d3, Store(q, t));
    assert Gone(EMPTY) == {};
    assert d4.clients == map[0 := Client([], true, map[], false, {})];
    assert d4.tracks == map[TrackKey(t) := t.(frameCount := 2)];
    assert d4.writing == map[p := s.(frameCount := 1), q := t.(frameCount := 2)];
    RunCons(d3, Store(q, t), []);
    RunCons(d2, Store(p, s), [Store(q, t)] + []);
    RunCons(d1, TakeSnapshot(0), [Store(p, s)] + ([Store(q, t)] + []));
    RunCons(EMPTY, Connect(0), [TakeSnapshot(0)] + ([Store(p, s)] + ([Store(q, t)] + [])));
    steps := [Connect(0)] + ([TakeSnapshot(0)] + ([Store(p, s)] + ([Store(q, t)] + [])));
  }

  lemma AnnounceInOtherOrder(d: Display, p: nat, q: nat, s: Track, t: Track) returns (steps: seq<Step>)
    requires p != q && BothStored(d, p, q, s, t)
    ensures steps == [Announce(q), Announce(p), Show(0), Show(0)]
    ensures IsRun(d, steps) && Drained(End(d, steps), 0)
    ensures End(d, steps).clients[0] == Client([], true, map[TrackKey(t) := s], false, {})
    ensures End(d, steps).tracks == d.tracks
  {
    var d1 := Apply(d, Announce(q));
    var d2 := Apply(d1, Announce(p));
    assert d2.clients[0].queue == [t, s];
    var d3 := Apply(d2, Show(0));
    var d4 := Apply(d3, Show(0));
    assert d2.writing == map[];
    RunCons(d3, Show(0), []);
    RunCons(d2, Show(0), [Show(0)] + []);
    RunCons(d1, Announce(p), [Show(0)] + ([Show(0)] + []));
    RunCons(d, Announce(q), [Announce(p)] + ([Show(0)] + ([Show(0)] + [])));
    steps := [Announce(q)] + ([Announce(p)] + ([Show(0)] + ([Show(0)] + [])));
  }

  /** Two producers, two ingest connections say, store one track each under one key, q after p, and
      announce in the other order. */
  function CrossedStores(p: nat, q: nat, s: Track, t: Track): seq<Step>
  {
    [Connect(0), TakeSnapshot(0), Store(p, s), Store(q, t), Announce(q), Announce(p), Show(0), Show(0)]
  }

  /** Whoever the producers and whatever the tracks, the server then has the newer track and the
      client, with nothing missed and nothing evicted, shows the older one. */
  lemma SharedKeyDiverges(p: nat, q: nat, s: Track, t: Track)
    requires p != q && TrackKey(s) == TrackKey(t)
    ensures IsRun(EMPTY, CrossedStores(p, q, s, t))
    ensures var d := End(EMPTY, CrossedStores(p, q, s, t));
            && Drained(d, 0) && d.clients[0].evicted == {}
            && d.tracks == map[TrackKey(t) := t.(frameCount := 2)]
            && d.clients[0].view == map[TrackKey(t) := s.(frameCount := 1)]
  {
    var first := StoreBoth(p, q, s, t);
    var d := End(EMPTY, first);
    var second := AnnounceInOtherOrder(d, p, q, s.(frameCount := 1), t.(frameCount := 2));
    RunConcat(EMPTY, first, second);
    assert CrossedStores(p, q, s, t) == first + second;
  }

  // ----- exactly when it converges

  /** Every producer stores only what it may. */
  ghost predicate AllowedBy(steps: seq<Step>, may: (nat, string) -> bool)
  {
    forall i | 0 <= i < |steps| && steps[i].Store? :: may(steps[i].producer, TrackKey(steps[i].t))
  }

  /** Whatever the interleaving, a drained client from which nothing was evicted shows the server's tracks. */
  ghost predicate Converges(may: (nat, string) -> bool)
  {
    forall steps: seq<Step>, id: nat ::
      IsRun(EMPTY, steps) && AllowedBy(steps, may) && Drained(End(EMPTY, steps), id) && End(EMPTY, steps).clients[id].evicted == {} ==>
        End(EMPTY, steps).clients[id].view == End(EMPTY, steps).tracks
  }

  /** No key may be written by two producers. */
  ghost predicate OneProducer(may: (nat, string) -> bool)
  {
    forall p, q, t :: may(p, TrackKey(t)) && may(q, TrackKey(t)) ==> p == q
  }

  ghost function Owner(may: (nat, string) -> bool, k: string): nat
  {
    if p: nat :| may(p, k) then p else 0
  }

  lemma {:induction false} AllowedIsOwned(steps: seq<Step>, may: (nat, string) -> bool)
    requires AllowedBy(steps, may) && OneProducer(may)
    ensures OwnedBy(steps, k => Owner(may, k))
  {
    if steps != [] {
      assert forall i | 0 <= i < |steps[1..]| :: steps[1..][i] == steps[i + 1];
      AllowedIsOwned(steps[1..], may);
    }
  }

  /** For every rule of who may write what: displays converge exactly when no key may be written by
      two producers. */
  lemma ConvergesIff(may: (nat, string) -> bool)
    ensures Converges(may) <==> OneProducer(may)
  {
    if OneProducer(may) {
      forall steps: seq<Step>, id: nat | IsRun(EMPTY, steps) && AllowedBy(steps, may) && Drained(End(EMPTY, steps), id)
        && End(EMPTY, steps).clients[id].evicted == {}
        ensures End(EMPTY, steps).clients[id].view == End(EMPTY, steps).tracks
      {
        AllowedIsOwned(steps, may);
        Convergence(steps, k => Owner(may, k), id);
      }
    } else {
      var p, q, t :| may(p, TrackKey(t)) && may(q, TrackKey(t)) && p != q;
      SharedKeyDiverges(p, q, t, t);
      var older, newer := map[TrackKey(t) := t.(frameCount := 1)], map[TrackKey(t) := t.(frameCount := 2)];
      assert older[TrackKey(t)] != newer[TrackKey(t)];
    }
  }
}
