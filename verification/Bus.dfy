/**
 MemoryBus: topics with replaying subscriptions.

 The class holds the maps that the mutex protects and the channels; each of its methods but Publish
 and FanOut is one critical section.  Publish leaves its critical section before it fans out,
 Subscribe before its replay goroutine starts, so what a subscriber sees is decided by
 interleavings.  Those are the subject of the step system for one topic in the second half.
 */
module Bus {
  import opened Prelude

  /** Locators CreateTopic makes up from a counter, and any others a caller may name. */
  datatype Locator = MemTopic(n: nat) | Foreign(name: string)

  const CHANNEL_CAPACITY: nat := 64

  /** The sequence numbers Subscribe replays from a log of length n. */
  function Replays(n: nat, from: nat): seq<int>
  {
    if n == 0 then [] else Replays(n - 1, from) + if n >= from then [n] else []
  }

  function Without(ids: seq<nat>, id: nat): seq<nat>
  {
    if ids == [] then [] else if ids[0] == id then ids[1..] else [ids[0]] + Without(ids[1..], id)
  }

  /** It leaves out the first occurrence, the one at i. */
  lemma {:induction false} WithoutFirst(ids: seq<nat>, i: nat, id: nat)
    requires i <= |ids| && (i < |ids| ==> ids[i] == id)
    requires forall j | 0 <= j < i :: ids[j] != id
    ensures Without(ids, id) == if i < |ids| then ids[..i] + ids[i + 1..] else ids
  {
    if i > 0 {
      WithoutFirst(ids[1..], i - 1, id);
      assert ids == [ids[0]] + ids[1..];
      if i < |ids| {
        assert ids[..i] + ids[i + 1..] == [ids[0]] + (ids[1..][..i - 1] + ids[1..][i..]);
      }
    }
  }

  predicate AllOpen(chans: map<nat, seq<int>>, ids: seq<nat>)
  {
    forall i | 0 <= i < |ids| :: ids[i] in chans
  }

  predicate NoneTwice(ids: seq<nat>)
  {
    forall i, j | 0 <= i < j < |ids| :: ids[i] != ids[j]
  }

  predicate Listings(chans: map<nat, seq<int>>, subs: map<Locator, seq<nat>>)
  {
    && (forall loc | loc in subs :: AllOpen(chans, subs[loc]) && NoneTwice(subs[loc]))
    && (forall a, b, id | a in subs && b in subs && a != b && id in subs[a] :: id !in subs[b])
  }

  lemma ListingsWithout(chans: map<nat, seq<int>>, subs: map<Locator, seq<nat>>, loc: Locator, out: nat)
    requires Listings(chans, subs) && loc in subs && out in subs[loc]
    ensures Listings(chans - {out}, subs[loc := Without(subs[loc], out)])
  {
    WithoutRemoves(subs[loc], out);
    var rest := subs[loc := Without(subs[loc], out)];
    forall a | a in rest
      ensures AllOpen(chans - {out}, rest[a]) && NoneTwice(rest[a])
    {
      assert AllOpen(chans, subs[a]) && NoneTwice(subs[a]);
      assert a == loc || out !in subs[a];
      assert forall i | 0 <= i < |rest[a]| :: rest[a][i] in rest[a];
      assert forall i | 0 <= i < |subs[a]| :: subs[a][i] in chans;
    }
  }

  lemma {:induction false} WithoutRemoves(ids: seq<nat>, id: nat)
    requires NoneTwice(ids)
    ensures NoneTwice(Without(ids, id)) && id !in Without(ids, id)
    ensures forall other :: other in Without(ids, id) <==> other in ids && other != id
  {
    if ids != [] {
      WithoutRemoves(ids[1..], id);
      assert ids == [ids[0]] + ids[1..];
      assert ids[0] !in ids[1..];
    }
  }

  /** One non-blocking send. */
  function Offered(chans: map<nat, seq<int>>, ch: nat, q: int): map<nat, seq<int>>
    requires ch in chans
  {
    if |chans[ch]| < CHANNEL_CAPACITY then chans[ch := chans[ch] + [q]] else chans
  }

  function OfferedAll(chans: map<nat, seq<int>>, targets: seq<nat>, q: int): (r: map<nat, seq<int>>)
    requires AllOpen(chans, targets)
    ensures r.Keys == chans.Keys
  {
    if targets == [] then chans else Offered(OfferedAll(chans, targets[..|targets| - 1], q), targets[|targets| - 1], q)
  }

  /** Every listed channel that has room gets the number once, at its end; no other changes. */
  lemma {:induction false} FanOutReachesEach(chans: map<nat, seq<int>>, targets: seq<nat>, q: int)
    requires AllOpen(chans, targets) && NoneTwice(targets)
    ensures forall ch | ch in chans ::
              OfferedAll(chans, targets, q)[ch] ==
              if ch in targets && |chans[ch]| < CHANNEL_CAPACITY then chans[ch] + [q] else chans[ch]
  {
    if targets != [] {
      FanOutReachesEach(chans, targets[..|targets| - 1], q);
    }
  }

  class MemoryBus<M(0)> {
    var topics: map<Locator, seq<M>>
    var nextSeq: map<Locator, nat>
    var subs: map<Locator, seq<nat>>   // subscriber channels, identified by a number
    var chans: map<nat, seq<int>>      // what is buffered in each open channel

    /** nextSeq always equals the log length, and a channel that is listed is open and listed once. */
    ghost predicate Valid()
      reads this
    {
      && nextSeq.Keys == topics.Keys
      && (forall loc | loc in topics :: nextSeq[loc] == |topics[loc]|)
      && Listings(chans, subs)
    }

    constructor ()
      ensures Valid() && topics == map[] && subs == map[] && chans == map[]
    {
      topics, nextSeq, subs, chans := map[], map[], map[], map[];
    }

    function Log(loc: Locator): seq<M>
      reads this
    {
      if loc in topics then topics[loc] else []
    }

    function Listed(loc: Locator): seq<nat>
      reads this
    {
      if loc in subs then subs[loc] else []
    }

    method CreateTopic() returns (loc: Locator)
      requires Valid()
      modifies this
      ensures Valid() && loc == MemTopic(|old(topics)| + 1)
      ensures topics == old(topics)[loc := []] && subs == old(subs) && chans == old(chans)
    {
      loc := MemTopic(|topics| + 1);
      topics := topics[loc := []];
      nextSeq := nextSeq[loc := 0];
    }

    /** The locked part of Publish: the message gets the next sequence number and the subscribers
        it is to be sent to are those listed now. */
    method PublishLocked(loc: Locator, msg: M) returns (seqNo: nat, targets: seq<nat>)
      requires Valid()
      modifies this
      ensures Valid() && topics == old(topics)[loc := old(Log(loc)) + [msg]] && subs == old(subs) && chans == old(chans)
      ensures seqNo == |topics[loc]| && topics[loc][seqNo - 1] == msg
      ensures targets == old(Listed(loc))
    {
      topics := topics[loc := Log(loc) + [msg]];
      nextSeq := nextSeq[loc := (if loc in nextSeq then nextSeq[loc] else 0) + 1];
      seqNo := nextSeq[loc];
      targets := Listed(loc);
    }

    /** The loop after it: every target that has room gets the number, a full one loses it. */
    method FanOut(targets: seq<nat>, seqNo: nat)
      requires Valid() && AllOpen(chans, targets)
      modifies this`chans
      ensures Valid() && chans == OfferedAll(old(chans), targets, seqNo)
    {
      for i := 0 to |targets|
        invariant Valid() && chans == OfferedAll(old(chans), targets[..i], seqNo) && AllOpen(chans, targets)
      {
        assert targets[..i + 1][..i] == targets[..i];
        var ch := targets[i];
        if |chans[ch]| < CHANNEL_CAPACITY {
          chans := chans[ch := chans[ch] + [seqNo]];
        }
      }
      assert targets[..|targets|] == targets;
    }

    /** With nobody in between, publishing reaches the subscribers listed at its start, all open. */
    method Publish(loc: Locator, msg: M) returns (seqNo: nat)
      requires Valid()
      modifies this
      ensures Valid() && topics == old(topics)[loc := old(Log(loc)) + [msg]] && subs == old(subs)
      ensures seqNo == |topics[loc]| && chans == OfferedAll(old(chans), old(Listed(loc)), seqNo)
    {
      var targets;
      seqNo, targets := PublishLocked(loc, msg);
      FanOut(targets, seqNo);
    }

    /** The locked part of Subscribe: it decides what is replayed and lists the channel. */
    method SubscribeLocked(loc: Locator, fromSequence: Option<nat>, out: nat) returns (replays: seq<int>)
      requires Valid() && out !in chans
      modifies this
      ensures Valid() && topics == old(topics) && subs == old(subs)[loc := old(Listed(loc)) + [out]]
      ensures chans == old(chans)[out := []]
      ensures replays == Replays(|old(Log(loc))|, if fromSequence.Some? then fromSequence.value else 0)
    {
      chans := chans[out := []];
      var fromSeq := if fromSequence.Some? then fromSequence.value else 0;
      replays := [];
      var log := Log(loc);
      for i := 0 to |log|
        invariant replays == Replays(i, fromSeq)
      {
        var seqNo := i + 1;
        if seqNo < fromSeq {
          continue;
        }
        replays := replays + [seqNo];
      }
      subs := subs[loc := Listed(loc) + [out]];
    }

    /** The cleanup after cancellation takes the channel off the list and closes it. */
    method Cleanup(loc: Locator, out: nat)
      requires Valid() && out in Listed(loc)
      modifies this
      ensures Valid() && topics == old(topics) && chans == old(chans) - {out}
      ensures subs == old(subs)[loc := Without(old(Listed(loc)), out)]
    {
      var ids := Listed(loc);
      var i := 0;
      while i < |ids| && ids[i] != out
        invariant i <= |ids|
        invariant forall j | 0 <= j < i :: ids[j] != out
      {
        i := i + 1;
      }
      ghost var kept := Without(ids, out);
      WithoutFirst(ids, i, out);
      ListingsWithout(chans, subs, loc, out);
      if i < |ids| {
        ids := ids[..i] + ids[i + 1..];
      }
      assert ids == kept;
      subs := subs[loc := ids];
      chans := chans - {out};
    }

    /** GetMessages: the whole log, in publication order. */
    method GetMessages(loc: Locator) returns (msgs: seq<M>)
      ensures msgs == Log(loc)
    {
      msgs := Log(loc);
    }
  }

  // ----- are the locators of created topics distinct?

  datatype TopicOp = Create | PublishTo(loc: Locator)

  /** The keys of `topics` and the locators handed out so far. */
  datatype Names = Names(known: set<Locator>, created: seq<Locator>)

  function NamesAfter(s: Names, op: TopicOp): Names
  {
    match op
    case Create => var loc := MemTopic(|s.known| + 1); Names(s.known + {loc}, s.created + [loc])
    case PublishTo(loc) => s.(known := s.known + {loc})
  }

  function AllNames(s: Names, ops: seq<TopicOp>): Names
    decreases |ops|
  {
    if ops == [] then s else AllNames(NamesAfter(s, ops[0]), ops[1..])
  }

  /** Publications go only to topics that were created before. */
  predicate OnlyCreated(s: Names, ops: seq<TopicOp>)
    decreases |ops|
  {
    ops == [] || ((ops[0].PublishTo? ==> ops[0].loc in s.created) && OnlyCreated(NamesAfter(s, ops[0]), ops[1..]))
  }

  ghost predicate Numbered(s: Names)
  {
    && |s.known| == |s.created|
    && (forall i | 0 <= i < |s.created| :: s.created[i] == MemTopic(i + 1) && s.created[i] in s.known)
    && (forall loc | loc in s.known :: loc.MemTopic? && 1 <= loc.n <= |s.created|)
  }

  /** Under that rule the i-th created topic is mem-topic-i, so locators are never reused. */
  lemma {:induction false} CreatedLocatorsDistinct(s: Names, ops: seq<TopicOp>)
    requires Numbered(s) && OnlyCreated(s, ops)
    ensures Numbered(AllNames(s, ops))
    decreases |ops|
  {
    if ops != [] {
      if ops[0].PublishTo? {
        assert s.known + {ops[0].loc} == s.known;
      }
      CreatedLocatorsDistinct(NamesAfter(s, ops[0]), ops[1..]);
    }
  }

  /** A publication out of reach: to an unknown topic with a number that the counter has yet to pass. */
  predicate OutOfReach(s: Names, op: TopicOp)
  {
    op.PublishTo? && op.loc.MemTopic? && op.loc !in s.known && op.loc.n > |s.known| + 1
  }

  predicate WithinReach(s: Names, ops: seq<TopicOp>)
    decreases |ops|
  {
    ops == [] || (!OutOfReach(s, ops[0]) && WithinReach(NamesAfter(s, ops[0]), ops[1..]))
  }

  predicate AllDistinct(locs: seq<Locator>)
  {
    forall i, j | 0 <= i < j < |locs| :: locs[i] != locs[j]
  }

  function Creates(n: nat): seq<TopicOp>
  {
    if n == 0 then [] else [Create] + Creates(n - 1)
  }

  /** From here creations alone can hand out one locator twice. */
  ghost predicate CanCollide(s: Names)
  {
    exists n: nat :: !AllDistinct(AllNames(s, Creates(n)).created)
  }

  /** At no point of the run. */
  ghost predicate NeverCanCollide(s: Names, ops: seq<TopicOp>)
    decreases |ops|
  {
    !CanCollide(s) && (ops == [] || NeverCanCollide(NamesAfter(s, ops[0]), ops[1..]))
  }

  ghost predicate Counted(s: Names)
  {
    && AllDistinct(s.created)
    && (forall i | 0 <= i < |s.created| :: s.created[i] in s.known)
    && (forall loc | loc in s.known && loc.MemTopic? :: loc.n <= |s.known|)
  }

  lemma CountedStays(s: Names, op: TopicOp)
    requires Counted(s) && !OutOfReach(s, op)
    ensures Counted(NamesAfter(s, op))
  {
    var loc := if op.Create? then MemTopic(|s.known| + 1) else op.loc;
    if loc in s.known {
      assert s.known + {loc} == s.known;
    } else {
      assert |s.known + {loc}| == |s.known| + 1;
    }
  }

  lemma {:induction false} CountedCannotCollide(s: Names, n: nat)
    requires Counted(s)
    ensures AllDistinct(AllNames(s, Creates(n)).created)
    decreases n
  {
    if n > 0 {
      CountedStays(s, Create);
      assert Creates(n)[1..] == Creates(n - 1);
      CountedCannotCollide(NamesAfter(s, Create), n - 1);
    }
  }

  /** A known topic with a number beyond the counter: creations reach it and then repeat it. */
  lemma {:induction false} BeyondCollides(s: Names, k: nat) returns (n: nat)
    requires MemTopic(k) in s.known && k > |s.known|
    ensures !AllDistinct(AllNames(s, Creates(n)).created)
    decreases k - |s.known|
  {
    var loc := MemTopic(|s.known| + 1);
    var t := NamesAfter(s, Create);
    if loc in s.known {
      assert s.known + {loc} == s.known;
      n := 2;
      assert Creates(2)[1..] == Creates(1) && Creates(1)[1..] == Creates(0);
      var last := AllNames(s, Creates(2)).created;
      assert AllNames(t, Creates(1)) == NamesAfter(t, Create);
      assert last[|s.created|] == last[|s.created| + 1] == loc;
    } else {
      assert |t.known| == |s.known| + 1;
      n := BeyondCollides(t, k);
      n := n + 1;
      assert Creates(n)[1..] == Creates(n - 1);
    }
  }

  /** Over every run of creations and publications: two creations can come to return one locator
      exactly when a publication goes out of reach.  Publications to other names never do harm. */
  lemma {:induction false} CollisionIff(s: Names, ops: seq<TopicOp>)
    requires Counted(s)
    ensures WithinReach(s, ops) <==> NeverCanCollide(s, ops)
    decreases |ops|
  {
    forall n: nat
      ensures AllDistinct(AllNames(s, Creates(n)).created)
    {
      CountedCannotCollide(s, n);
    }
    if ops != [] {
      var t := NamesAfter(s, ops[0]);
      if OutOfReach(s, ops[0]) {
        assert |t.known| == |s.known| + 1;
        var n := BeyondCollides(t, ops[0].loc.n);
        assert CanCollide(t);
      } else {
        CountedStays(s, ops[0]);
        CollisionIff(t, ops[1..]);
      }
    }
  }

  /** For instance: publishing to an unknown topic makes two creations collide. */
  lemma CreatedLocatorsCollide()
    ensures AllNames(Names({}, []), [Create, PublishTo(MemTopic(3)), Create, Create]).created
            == [MemTopic(1), MemTopic(3), MemTopic(3)]
  {
    var s1 := NamesAfter(Names({}, []), Create);
    var s2 := NamesAfter(s1, PublishTo(MemTopic(3)));
    var s3 := NamesAfter(s2, Create);
    assert |s1.known| == 1 && |s2.known| == 2 && s3.known == s2.known;
    assert AllNames(s3, [Create]) == NamesAfter(s3, Create);
    assert AllNames(s2, [Create, Create]) == AllNames(s3, [Create]);
  }

  // ----- one topic under interleaved publishers and subscribers

  /** A subscription and where each sequence number meant for it currently is. */
  datatype Sub = Sub(
    from: nat,            // FromSequence, 0 for nil
    base: nat,            // log length when it subscribed
    upto: nat,            // log length up to which it was listed
    replay: seq<int>,     // not yet replayed
    inflight: set<int>,   // published, its send not yet attempted
    chan: seq<int>,       // in the channel buffer
    received: seq<int>,   // taken by the subscriber
    dropped: seq<int>,    // refused because the buffer was full
    cancelled: bool,
    closed: bool)         // cleanup done: no longer listed, channel closed

  datatype Topic = Topic(log: nat, subs: map<nat, Sub>, panicked: bool)

  datatype Step =
    | Publish                         // critical section of Publish
    | FanOut(id: nat, seqNo: int)     // one non-blocking send after it
    | Subscribe(id: nat, from: nat)   // critical section of Subscribe
    | Replay(id: nat)                 // one send of the replay goroutine
    | Receive(id: nat)                // the subscriber takes a delivery
    | Cancel(id: nat)                 // its context is cancelled
    | Clean(id: nat)                  // critical section of the cleanup

  predicate Enabled(t: Topic, step: Step)
  {
    !t.panicked &&
    match step
    case Publish => true
    case FanOut(id, q) => id in t.subs && q in t.subs[id].inflight
    case Subscribe(id, _) => id !in t.subs
    case Replay(id) => id in t.subs && !t.subs[id].closed && t.subs[id].replay != [] && |t.subs[id].chan| < CHANNEL_CAPACITY
    case Receive(id) => id in t.subs && t.subs[id].chan != []
    case Cancel(id) => id in t.subs
    case Clean(id) => id in t.subs && t.subs[id].cancelled && !t.subs[id].closed
  }

  function Apply(t: Topic, step: Step): Topic
    requires Enabled(t, step)
  {
    match step
    case Publish =>
      t.(log := t.log + 1, subs := map id | id in t.subs :: Addressed(t.subs[id], t.log + 1))
    case Subscribe(id, from) => t.(subs := t.subs[id := NewSub(t.log, from)])
    case FanOut(id, q) =>
      if t.subs[id].closed then t.(panicked := true)   // send on closed channel
      else t.(subs := t.subs[id := Sent(t.subs[id], q)])
    case Replay(id) =>
      var s := t.subs[id];
      t.(subs := t.subs[id := s.(replay := s.replay[1..], chan := s.chan + [s.replay[0]])])
    case Receive(id) =>
      var s := t.subs[id];
      t.(subs := t.subs[id := s.(chan := s.chan[1..], received := s.received + [s.chan[0]])])
    case Cancel(id) => t.(subs := t.subs[id := t.subs[id].(cancelled := true)])
    case Clean(id) => t.(subs := t.subs[id := t.subs[id].(closed := true)])
  }

  function Addressed(s: Sub, q: nat): Sub
  {
    if s.closed then s else s.(inflight := s.inflight + {q}, upto := q)
  }

  function NewSub(log: nat, from: nat): Sub
  {
    Sub(from, log, log, Replays(log, from), {}, [], [], [], false, false)
  }

  function Sent(s: Sub, q: int): Sub
  {
    var t := s.(inflight := s.inflight - {q});
    if |s.chan| < CHANNEL_CAPACITY then t.(chan := s.chan + [q]) else t.(dropped := s.dropped + [q])
  }

  // ----- conservation: every expected number is in exactly one place

  predicate Wanted(from: nat, base: nat, q: int)
  {
    q > base || q >= from
  }

  function Numbers(from: nat, base: nat, upto: nat): set<int>
  {
    set q: int | 1 <= q <= upto && Wanted(from, base, q)
  }

  /** Everything logged while it was listed, and what it asked to be replayed. */
  function Expected(s: Sub): set<int>
  {
    Numbers(s.from, s.base, s.upto)
  }

  function Places(s: Sub): multiset<int>
  {
    multiset(s.received) + multiset(s.chan) + multiset(s.replay) + multiset(s.inflight) + multiset(s.dropped)
  }

  ghost predicate SubInv(s: Sub, log: nat)
  {
    && s.base <= s.upto <= log
    && (!s.closed ==> s.upto == log)
    && Places(s) == multiset(Expected(s))
  }

  ghost predicate Inv(t: Topic)
  {
    forall id | id in t.subs :: SubInv(t.subs[id], t.log)
  }

  lemma NumbersNext(from: nat, base: nat, n: nat)
    ensures n + 1 !in Numbers(from, base, n)
    ensures Wanted(from, base, n + 1) ==> Numbers(from, base, n + 1) == Numbers(from, base, n) + {n + 1}
    ensures !Wanted(from, base, n + 1) ==> Numbers(from, base, n + 1) == Numbers(from, base, n)
  {
  }

  lemma MultisetPlus(s: set<int>, x: int)
    requires x !in s
    ensures multiset(s + {x}) == multiset(s) + multiset{x}
  {
  }

  lemma MultisetMinus(s: set<int>, x: int)
    requires x in s
    ensures multiset(s) == multiset(s - {x}) + multiset{x}
  {
  }

  /** Places does not change when x goes from the numbers in flight to the buffer or to those dropped. */
  lemma MoveOne(received: multiset<int>, chan: multiset<int>, replay: multiset<int>, inflight: multiset<int>,
                rest: multiset<int>, dropped: multiset<int>, x: int)
    requires inflight == rest + multiset{x}
    ensures received + (chan + multiset{x}) + replay + rest + dropped == received + chan + replay + inflight + dropped
    ensures received + chan + replay + rest + (dropped + multiset{x}) == received + chan + replay + inflight + dropped
  {
  }

  lemma NoNumbers(from: nat, base: nat)
    ensures Numbers(from, base, 0) == {} && multiset(Numbers(from, base, 0)) == multiset{}
  {
  }

  lemma MultisetAppend(s: seq<int>, x: int)
    ensures multiset(s + [x]) == multiset(s) + multiset{x}
  {
  }

  lemma AddToBoth(r: seq<int>, s: set<int>, x: int)
    requires multiset(r) == multiset(s) && x !in s
    ensures multiset(r + [x]) == multiset(s + {x})
  {
    MultisetPlus(s, x);
    MultisetAppend(r, x);
  }

  lemma ReplaysNext(n: nat, from: nat)
    ensures Replays(n + 1, from) == if n + 1 >= from then Replays(n, from) + [n + 1] else Replays(n, from)
  {
  }

  lemma {:induction false} ReplaysMeaning(n: nat, from: nat, base: nat)
    requires n <= base
    ensures multiset(Replays(n, from)) == multiset(Numbers(from, base, n))
  {
    if n == 0 {
      NoNumbers(from, base);
    } else {
      ReplaysMeaning(n - 1, from, base);
      NumbersNext(from, base, n - 1);
      ReplaysNext(n - 1, from);
      if n >= from {
        AddToBoth(Replays(n - 1, from), Numbers(from, base, n - 1), n);
      }
    }
  }

  lemma NewSubInv(log: nat, from: nat)
    ensures SubInv(NewSub(log, from), log)
  {
    ReplaysMeaning(log, from, log);
  }

  lemma AddressedInv(s: Sub, log: nat)
    requires SubInv(s, log)
    ensures SubInv(Addressed(s, log + 1), log + 1)
  {
    if !s.closed {
      NumbersNext(s.from, s.base, log);
      InflightExpected(s, log);
      MultisetPlus(s.inflight, log + 1);
      MultisetPlus(Expected(s), log + 1);
      assert Places(Addressed(s, log + 1)) == Places(s) + multiset{log + 1};
    }
  }

  lemma InflightExpected(s: Sub, log: nat)
    requires SubInv(s, log)
    ensures s.inflight <= Expected(s)
  {
    forall q | q in s.inflight
      ensures q in Expected(s)
    {
      assert multiset(s.inflight)[q] == 1;
      assert Places(s)[q] >= 1;
    }
  }

  lemma SentInv(s: Sub, q: int, log: nat)
    requires SubInv(s, log) && q in s.inflight
    ensures SubInv(Sent(s, q), log)
  {
    MultisetMinus(s.inflight, q);
    MultisetAppend(s.chan, q);
    MultisetAppend(s.dropped, q);
    MoveOne(multiset(s.received), multiset(s.chan), multiset(s.replay), multiset(s.inflight), multiset(s.inflight - {q}), multiset(s.dropped), q);
    assert Expected(Sent(s, q)) == Expected(s);
  }

  lemma ReplayedInv(s: Sub, log: nat)
    requires SubInv(s, log) && s.replay != []
    ensures SubInv(s.(replay := s.replay[1..], chan := s.chan + [s.replay[0]]), log)
  {
    assert s.replay == [s.replay[0]] + s.replay[1..];
    assert multiset(s.replay) == multiset([s.replay[0]]) + multiset(s.replay[1..]);
    assert multiset(s.chan + [s.replay[0]]) == multiset(s.chan) + multiset([s.replay[0]]);
  }

  lemma ReceivedInv(s: Sub, log: nat)
    requires SubInv(s, log) && s.chan != []
    ensures SubInv(s.(chan := s.chan[1..], received := s.received + [s.chan[0]]), log)
  {
    assert s.chan == [s.chan[0]] + s.chan[1..];
    assert multiset(s.chan) == multiset([s.chan[0]]) + multiset(s.chan[1..]);
    assert multiset(s.received + [s.chan[0]]) == multiset(s.received) + multiset([s.chan[0]]);
  }

  lemma PublishKeeps(t: Topic)
    requires Inv(t) && Enabled(t, Publish)
    ensures Inv(Apply(t, Publish))
  {
    var n := Apply(t, Publish);
    forall id | id in n.subs
      ensures SubInv(n.subs[id], n.log)
    {
      PublishedTo(t, id);
    }
  }

  lemma PublishedTo(t: Topic, id: nat)
    requires Enabled(t, Publish) && id in t.subs && SubInv(t.subs[id], t.log)
    ensures id in Apply(t, Publish).subs && SubInv(Apply(t, Publish).subs[id], t.log + 1)
  {
    AddressedInv(t.subs[id], t.log);
  }

  lemma UpdateKeeps(t: Topic, id: nat, s: Sub)
    requires Inv(t) && SubInv(s, t.log)
    ensures Inv(t.(subs := t.subs[id := s]))
  {
  }

  lemma StepKeeps(t: Topic, step: Step)
    requires Inv(t) && Enabled(t, step)
    ensures Inv(Apply(t, step))
  {
    if step == Publish {
      PublishKeeps(t);
    } else if step.Subscribe? {
      NewSubInv(t.log, step.from);
      UpdateKeeps(t, step.id, NewSub(t.log, step.from));
    } else {
      var s := t.subs[step.id];
      assert SubInv(s, t.log);
      match step
      case FanOut(id, q) => SentInv(s, q, t.log); UpdateKeeps(t, id, Sent(s, q));
      case Replay(id) => ReplayedInv(s, t.log);
      case Receive(id) => ReceivedInv(s, t.log);
      case Cancel(id) => assert SubInv(s.(cancelled := true), t.log);
      case Clean(id) => assert SubInv(s.(closed := true), t.log);
    }
  }

  ghost predicate IsRun(t: Topic, steps: seq<Step>)
    decreases |steps|
  {
    steps == [] || (Enabled(t, steps[0]) && IsRun(Apply(t, steps[0]), steps[1..]))
  }

  ghost function End(t: Topic, steps: seq<Step>): Topic
    requires IsRun(t, steps)
    decreases |steps|
  {
    if steps == [] then t else End(Apply(t, steps[0]), steps[1..])
  }

  const EMPTY: Topic := Topic(0, map[], false)

  lemma {:induction false} RunKeeps(t: Topic, steps: seq<Step>)
    requires Inv(t) && IsRun(t, steps)
    ensures Inv(End(t, steps))
    decreases |steps|
  {
    if steps != [] {
      StepKeeps(t, steps[0]);
      RunKeeps(Apply(t, steps[0]), steps[1..]);
    }
  }

  /** In every reachable state a subscriber has received each sequence number at most once, and
      only numbers that were logged while it was listed or that it asked to be replayed. */
  lemma AtMostOnce(steps: seq<Step>, id: nat, q: int)
    requires IsRun(EMPTY, steps) && id in End(EMPTY, steps).subs
    ensures var s := End(EMPTY, steps).subs[id];
            multiset(s.received)[q] <= 1 && (q in s.received ==> q in Expected(s))
  {
    RunKeeps(EMPTY, steps);
    var s := End(EMPTY, steps).subs[id];
    assert SubInv(s, End(EMPTY, steps).log);
    assert multiset(s.received)[q] <= Places(s)[q] == multiset(Expected(s))[q];
    if q in s.received {
      assert multiset(s.received)[q] >= 1;
    }
  }

  /** A live subscriber whose buffer was never full and that has drained everything has received
      every expected number exactly once; from the start of the log that is 1 .. log length. */
  lemma ExactlyOnce(steps: seq<Step>, id: nat)
    requires IsRun(EMPTY, steps) && id in End(EMPTY, steps).subs
    requires var s := End(EMPTY, steps).subs[id];
             !s.closed && s.dropped == [] && s.chan == [] && s.replay == [] && s.inflight == {}
    ensures var t := End(EMPTY, steps);
            var s := t.subs[id];
            && multiset(s.received) == multiset(Expected(s))
            && (s.from <= 1 ==> multiset(s.received) == multiset(Numbers(0, 0, t.log)))
  {
    RunKeeps(EMPTY, steps);
    var t := End(EMPTY, steps);
    var s := t.subs[id];
    assert SubInv(s, t.log);
    if s.from <= 1 {
      assert Expected(s) == Numbers(0, 0, t.log);
    }
  }

  // ----- short logs

  lemma {:induction false} NumbersSize(from: nat, base: nat, n: nat)
    ensures |Numbers(from, base, n)| <= n
  {
    if n == 0 {
      NoNumbers(from, base);
    } else {
      NumbersSize(from, base, n - 1);
      NumbersNext(from, base, n - 1);
    }
  }

  /** A channel has no more to do with than was logged. */
  lemma PlacesSize(s: Sub, log: nat)
    requires SubInv(s, log)
    ensures |s.received| + |s.chan| + |s.replay| + |s.inflight| + |s.dropped| <= log
  {
    NumbersSize(s.from, s.base, s.upto);
    assert |Places(s)| == |s.received| + |s.chan| + |s.replay| + |s.inflight| + |s.dropped|;
    assert |multiset(Expected(s))| == |Expected(s)|;
  }

  /** A log no longer than a channel's buffer cannot fill it: no send ever finds it full. */
  lemma ShortLogLeavesRoom(s: Sub, q: int, log: nat)
    requires SubInv(s, log) && q in s.inflight && log <= CHANNEL_CAPACITY
    ensures HasRoom(s)
  {
    PlacesSize(s, log);
    assert |s.inflight| >= 1 by {
      assert s.inflight == (s.inflight - {q}) + {q};
    }
  }

  /** A number that a subscriber expects and has not received is still on its way, and a next step
      towards it is possible. */
  lemma OnItsWay(t: Topic, id: nat, q: int) returns (step: Step)
    requires !t.panicked && id in t.subs && SubInv(t.subs[id], t.log) && !t.subs[id].closed && t.subs[id].dropped == []
    requires q in Expected(t.subs[id]) && q !in t.subs[id].received
    ensures Enabled(t, step) && (step == Receive(id) || step == Replay(id) || (step.FanOut? && step.id == id))
  {
    var s := t.subs[id];
    if s.chan != [] {
      step := Receive(id);
    } else if s.replay != [] {
      step := Replay(id);
    } else {
      assert multiset(s.received)[q] == 0;
      assert Places(s)[q] == 1;
      assert q in s.inflight;
      step := FanOut(id, q);
    }
  }

  // ----- channels

  /** No channel ever holds more than 64 deliveries. */
  ghost predicate Bounded(t: Topic)
  {
    forall id | id in t.subs :: |t.subs[id].chan| <= 64
  }

  lemma {:induction false} ChannelsAreBounded(t: Topic, steps: seq<Step>)
    requires Bounded(t) && IsRun(t, steps)
    ensures Bounded(End(t, steps))
    decreases |steps|
  {
    if steps != [] {
      ChannelsAreBounded(Apply(t, steps[0]), steps[1..]);
    }
  }

  /** Nobody but its subscriber cancels a subscription, and only then is its channel closed. */
  lemma {:induction false} ClosedWasCancelled(t: Topic, steps: seq<Step>, id: nat)
    requires IsRun(t, steps) && (id in t.subs ==> !t.subs[id].cancelled && !t.subs[id].closed)
    requires id in End(t, steps).subs && (End(t, steps).subs[id].cancelled || End(t, steps).subs[id].closed)
    ensures Cancel(id) in steps
    decreases |steps|
  {
    if steps != [] && steps[0] != Cancel(id) {
      ClosedWasCancelled(Apply(t, steps[0]), steps[1..], id);
    }
  }

  // ----- "none below FromSequence"

  lemma TermsStay(t: Topic, step: Step, id: nat)
    requires Enabled(t, step) && id in t.subs
    ensures id in Apply(t, step).subs
    ensures Apply(t, step).subs[id].from == t.subs[id].from && Apply(t, step).subs[id].base == t.subs[id].base
  {
  }

  lemma {:induction false} TermsStayForever(t: Topic, steps: seq<Step>, id: nat)
    requires IsRun(t, steps) && id in t.subs
    ensures id in End(t, steps).subs
    ensures End(t, steps).subs[id].from == t.subs[id].from && End(t, steps).subs[id].base == t.subs[id].base
    decreases |steps|
  {
    if steps != [] {
      TermsStay(t, steps[0], id);
      TermsStayForever(Apply(t, steps[0]), steps[1..], id);
    }
  }

  predicate AllFrom(qs: seq<int>, from: nat)
  {
    forall i | 0 <= i < |qs| :: qs[i] >= from
  }

  /** A subscriber that starts now never receives a number below its FromSequence. */
  ghost predicate NeverBelow(t: Topic, id: nat, from: nat)
    requires Enabled(t, Subscribe(id, from))
  {
    forall steps: seq<Step> | IsRun(Apply(t, Subscribe(id, from)), steps) ::
      id in End(Apply(t, Subscribe(id, from)), steps).subs && AllFrom(End(Apply(t, Subscribe(id, from)), steps).subs[id].received, from)
  }

  lemma ReceivedIsFrom(t: Topic, id: nat, from: nat, steps: seq<Step>)
    requires Inv(t) && Enabled(t, Subscribe(id, from)) && from <= t.log + 1 && IsRun(Apply(t, Subscribe(id, from)), steps)
    ensures id in End(Apply(t, Subscribe(id, from)), steps).subs
    ensures AllFrom(End(Apply(t, Subscribe(id, from)), steps).subs[id].received, from)
  {
    var t1 := Apply(t, Subscribe(id, from));
    StepKeeps(t, Subscribe(id, from));
    RunKeeps(t1, steps);
    TermsStayForever(t1, steps, id);
    var s := End(t1, steps).subs[id];
    forall i | 0 <= i < |s.received|
      ensures s.received[i] >= from
    {
      ReceivedIsExpected(s, End(t1, steps).log, s.received[i]);
    }
  }

  lemma ReceivedIsExpected(s: Sub, log: nat, q: int)
    requires SubInv(s, log) && q in s.received
    ensures q in Expected(s)
  {
    assert multiset(s.received)[q] >= 1;
    assert Places(s)[q] >= 1;
  }

  lemma NextArrivesAnyway(t: Topic, id: nat, from: nat) returns (steps: seq<Step>)
    requires Enabled(t, Subscribe(id, from)) && from > t.log + 1
    ensures IsRun(Apply(t, Subscribe(id, from)), steps)
    ensures id in End(Apply(t, Subscribe(id, from)), steps).subs
    ensures End(Apply(t, Subscribe(id, from)), steps).subs[id].received == [t.log + 1]
  {
    var q := t.log + 1;
    var t1 := Apply(t, Subscribe(id, from));
    var t2 := Apply(t1, Publish);
    NothingReplayed(t.log, from);
    var t3 := Apply(t2, FanOut(id, q));
    assert t3.subs[id].chan == [q];
    RunCons(t3, Receive(id), []);
    RunCons(t2, FanOut(id, q), [Receive(id)] + []);
    RunCons(t1, Publish, [FanOut(id, q)] + ([Receive(id)] + []));
    steps := [Publish] + ([FanOut(id, q)] + ([Receive(id)] + []));
  }

  /** Live messages are sent whatever their number, so this holds exactly for a subscriber that asks
      for numbers no later than the next one. */
  lemma NoneBelowFromIff(t: Topic, id: nat, from: nat)
    requires Inv(t) && Enabled(t, Subscribe(id, from))
    ensures NeverBelow(t, id, from) <==> from <= t.log + 1
  {
    if from <= t.log + 1 {
      forall steps: seq<Step> | IsRun(Apply(t, Subscribe(id, from)), steps)
        ensures id in End(Apply(t, Subscribe(id, from)), steps).subs && AllFrom(End(Apply(t, Subscribe(id, from)), steps).subs[id].received, from)
      {
        ReceivedIsFrom(t, id, from, steps);
      }
    } else {
      var steps := NextArrivesAnyway(t, id, from);
      assert !AllFrom([t.log + 1], from) by {
        assert [t.log + 1][0] < from;
      }
    }
  }

  lemma {:induction false} NothingReplayed(n: nat, from: nat)
    requires from > n
    ensures Replays(n, from) == []
  {
    if n > 0 {
      NothingReplayed(n - 1, from);
    }
  }

  // ----- the unlocked fan-out

  /** Publish can send on a closed channel.  A run is safe from that exactly as long as no cleanup
      closes a channel that a publication in progress still has to send to. */
  ghost predicate TimelyCleanups(t: Topic, steps: seq<Step>)
    requires IsRun(t, steps)
    decreases |steps|
  {
    steps == [] ||
    ((steps[0].Clean? ==> NothingInFlight(t.subs[steps[0].id])) && TimelyCleanups(Apply(t, steps[0]), steps[1..]))
  }

  ghost predicate NoLateSends(t: Topic)
  {
    !t.panicked && forall id | id in t.subs && t.subs[id].closed :: NothingInFlight(t.subs[id])
  }

  ghost predicate NothingInFlight(s: Sub)
  {
    forall q :: q !in s.inflight
  }

  lemma {:induction false} TimelyRunsDoNotPanic(t: Topic, steps: seq<Step>)
    requires NoLateSends(t) && IsRun(t, steps) && TimelyCleanups(t, steps)
    ensures NoLateSends(End(t, steps))
    decreases |steps|
  {
    if steps != [] {
      TimelyRunsDoNotPanic(Apply(t, steps[0]), steps[1..]);
    }
  }

  /** Conversely, after any cleanup that comes too early for a send in progress, that send panics. */
  lemma EarlyCleanupPanics(t: Topic, id: nat, q: int) returns (steps: seq<Step>)
    requires Enabled(t, Clean(id)) && q in t.subs[id].inflight
    ensures steps == [Clean(id)] + ([FanOut(id, q)] + [])
    ensures IsRun(t, steps) && End(t, steps).panicked
  {
    var t1 := Apply(t, Clean(id));
    RunCons(t1, FanOut(id, q), []);
    RunCons(t, Clean(id), [FanOut(id, q)] + []);
    steps := [Clean(id)] + ([FanOut(id, q)] + []);
  }

  /** The topic has panicked, or a send in progress would now. */
  ghost predicate AboutToPanic(t: Topic)
  {
    t.panicked || exists id, q :: Enabled(t, FanOut(id, q)) && Apply(t, FanOut(id, q)).panicked
  }

  ghost predicate NeverAboutToPanic(t: Topic, steps: seq<Step>)
    requires IsRun(t, steps)
    decreases |steps|
  {
    !AboutToPanic(t) && (steps == [] || NeverAboutToPanic(Apply(t, steps[0]), steps[1..]))
  }

  /** Over every run: no send can panic at any point exactly when every cleanup waits. */
  lemma {:induction false} PanicIff(t: Topic, steps: seq<Step>)
    requires NoLateSends(t) && IsRun(t, steps)
    ensures TimelyCleanups(t, steps) <==> NeverAboutToPanic(t, steps)
    decreases |steps|
  {
    if steps != [] {
      var step := steps[0];
      if step.Clean? && !NothingInFlight(t.subs[step.id]) {
        var q :| q in t.subs[step.id].inflight;
        var t1 := Apply(t, step);
        assert Enabled(t1, FanOut(step.id, q)) && Apply(t1, FanOut(step.id, q)).panicked;
      } else {
        PanicIff(Apply(t, step), steps[1..]);
      }
    }
  }

  /** Such a run exists from the empty topic: subscribe, publish, cancel, clean up, send. */
  lemma PanicReachable() returns (steps: seq<Step>)
    ensures IsRun(EMPTY, steps) && End(EMPTY, steps).panicked
  {
    var t1 := Apply(EMPTY, Subscribe(0, 0));
    var t2 := Apply(t1, Publish);
    var rest := EarlyCleanupPanics(Apply(t2, Cancel(0)), 0, 1);
    RunCons(t2, Cancel(0), rest);
    RunCons(t1, Publish, [Cancel(0)] + rest);
    RunCons(EMPTY, Subscribe(0, 0), [Publish] + ([Cancel(0)] + rest));
    steps := [Subscribe(0, 0)] + ([Publish] + ([Cancel(0)] + rest));
  }

  // ----- order

  predicate Increasing(qs: seq<int>)
  {
    forall i, j | 0 <= i < j < |qs| :: qs[i] < qs[j]
  }

  /** A step that does not let a live message overtake: one that gets into the buffer waits for the
      replay and for older sends. */
  predicate Orderly(t: Topic, step: Step)
    requires Enabled(t, step)
  {
    step.FanOut? && !t.subs[step.id].closed && HasRoom(t.subs[step.id]) ==> OldestFirst(t.subs[step.id], step.seqNo)
  }

  predicate HasRoom(s: Sub)
  {
    |s.chan| < CHANNEL_CAPACITY
  }

  predicate OldestFirst(s: Sub, q: int)
  {
    s.replay == [] && forall r | r in s.inflight :: q <= r
  }

  ghost predicate InOrder(s: Sub)
  {
    && Increasing(s.received + s.chan + s.replay)
    && (forall i, q | 0 <= i < |s.received + s.chan + s.replay| && q in s.inflight :: (s.received + s.chan + s.replay)[i] < q)
    && (forall i | 0 <= i < |s.received + s.chan + s.replay| :: (s.received + s.chan + s.replay)[i] <= s.upto)
    && (forall q | q in s.inflight :: q <= s.upto)
  }

  lemma {:induction false} ReplaysIncreasing(n: nat, from: nat)
    ensures Increasing(Replays(n, from))
    ensures forall i | 0 <= i < |Replays(n, from)| :: Replays(n, from)[i] <= n
  {
    if n > 0 {
      ReplaysIncreasing(n - 1, from);
    }
  }

  lemma SentInOrder(s: Sub, q: int)
    requires InOrder(s) && q in s.inflight && (HasRoom(s) ==> OldestFirst(s, q))
    ensures InOrder(Sent(s, q))
  {
    var line, t := s.received + s.chan + s.replay, Sent(s, q);
    if HasRoom(s) {
      assert t.received + t.chan + t.replay == line + [q];
    } else {
      assert t.received + t.chan + t.replay == line;
    }
  }

  lemma OrderlyStepKeeps(t: Topic, step: Step)
    requires Inv(t) && Enabled(t, step) && Orderly(t, step)
    requires forall id | id in t.subs :: InOrder(t.subs[id])
    ensures forall id | id in Apply(t, step).subs :: InOrder(Apply(t, step).subs[id])
  {
    match step
    case Publish =>
    case Subscribe(id, from) =>
      ReplaysIncreasing(t.log, from);
      var s := NewSub(t.log, from);
      assert s.received + s.chan + s.replay == s.replay;
    case FanOut(id, q) =>
      if !t.subs[id].closed {
        SentInOrder(t.subs[id], q);
      }
    case Replay(id) =>
      var s := t.subs[id];
      assert s.received + (s.chan + [s.replay[0]]) + s.replay[1..] == s.received + s.chan + s.replay;
    case Receive(id) =>
      var s := t.subs[id];
      assert (s.received + [s.chan[0]]) + s.chan[1..] + s.replay == s.received + s.chan + s.replay;
    case Cancel(_) =>
    case Clean(_) =>
  }

  ghost predicate OrderlyRun(t: Topic, steps: seq<Step>)
    requires IsRun(t, steps)
    decreases |steps|
  {
    steps == [] || (Orderly(t, steps[0]) && OrderlyRun(Apply(t, steps[0]), steps[1..]))
  }

  ghost predicate AllInOrder(t: Topic)
  {
    forall id | id in t.subs :: InOrder(t.subs[id])
  }

  lemma InOrderIsIncreasing(s: Sub)
    requires InOrder(s)
    ensures Increasing(s.received)
  {
    assert forall i | 0 <= i < |s.received| :: s.received[i] == (s.received + s.chan + s.replay)[i];
  }

  /** In orderly runs every subscriber receives strictly increasing sequence numbers. */
  lemma {:induction false} OrderlyRunsDeliverInOrder(t: Topic, steps: seq<Step>)
    requires Inv(t) && IsRun(t, steps) && OrderlyRun(t, steps) && AllInOrder(t)
    ensures AllInOrder(End(t, steps))
    ensures forall id | id in End(t, steps).subs :: Increasing(End(t, steps).subs[id].received)
    decreases |steps|
  {
    if steps != [] {
      StepKeeps(t, steps[0]);
      OrderlyStepKeeps(t, steps[0]);
      OrderlyRunsDeliverInOrder(Apply(t, steps[0]), steps[1..]);
    } else {
      forall id | id in t.subs
        ensures Increasing(t.subs[id].received)
      {
        InOrderIsIncreasing(t.subs[id]);
      }
    }
  }

  /** From here an orderly continuation delivers to this subscriber out of order. */
  ghost predicate ShowsDisorder(t: Topic, id: nat)
  {
    exists steps: seq<Step> ::
      IsRun(t, steps) && OrderlyRun(t, steps) && id in End(t, steps).subs && !Increasing(End(t, steps).subs[id].received)
  }

  /** The subscriber takes everything that is buffered. */
  lemma {:induction false} Drain(t: Topic, id: nat) returns (steps: seq<Step>)
    requires !t.panicked && id in t.subs
    ensures IsRun(t, steps) && OrderlyRun(t, steps)
    ensures End(t, steps) == t.(subs := t.subs[id := t.subs[id].(received := t.subs[id].received + t.subs[id].chan, chan := [])])
    decreases |t.subs[id].chan|
  {
    var s := t.subs[id];
    if s.chan == [] {
      steps := [];
      assert s.received + s.chan == s.received;
      assert t.subs[id := s] == t.subs;
    } else {
      var t1 := Apply(t, Receive(id));
      var rest := Drain(t1, id);
      assert (s.received + [s.chan[0]]) + s.chan[1..] == s.received + s.chan;
      OrderlyCons(t, Receive(id), rest);
      steps := [Receive(id)] + rest;
    }
  }

  lemma OrderlyCons(t: Topic, step: Step, rest: seq<Step>)
    requires Enabled(t, step) && Orderly(t, step) && IsRun(Apply(t, step), rest) && OrderlyRun(Apply(t, step), rest)
    ensures IsRun(t, [step] + rest) && OrderlyRun(t, [step] + rest) && End(t, [step] + rest) == End(Apply(t, step), rest)
  {
    ConsTail(step, rest);
  }

  lemma {:induction false} OrderlyConcat(t: Topic, first: seq<Step>, second: seq<Step>)
    requires IsRun(t, first) && OrderlyRun(t, first) && IsRun(End(t, first), second) && OrderlyRun(End(t, first), second)
    ensures IsRun(t, first + second) && OrderlyRun(t, first + second) && End(t, first + second) == End(End(t, first), second)
    decreases |first|
  {
    SumOfSeqs(first, second);
    if first != [] {
      OrderlyConcat(Apply(t, first[0]), first[1..], second);
    }
  }

  /** A drained subscriber whose last number was q receives next the oldest number outstanding. */
  lemma OldestComesNext(t: Topic, id: nat, q: int) returns (steps: seq<Step>)
    requires !t.panicked && id in t.subs && !t.subs[id].closed && t.subs[id].chan == []
    requires t.subs[id].received != [] && t.subs[id].received[|t.subs[id].received| - 1] == q
    requires (t.subs[id].replay != [] && t.subs[id].replay[0] < q) || (t.subs[id].replay == [] && exists r :: r in t.subs[id].inflight && r < q)
    ensures IsRun(t, steps) && OrderlyRun(t, steps)
    ensures id in End(t, steps).subs && !Increasing(End(t, steps).subs[id].received)
  {
    var s := t.subs[id];
    var step := Replay(id);
    var x := q;
    if s.replay != [] {
      x := s.replay[0];
    } else {
      var r :| r in s.inflight && r < q;
      x := Oldest(s.inflight, r);
      step := FanOut(id, x);
    }
    var t1 := Apply(t, step);
    assert t1.subs[id].chan == [x];
    OrderlyCons(t1, Receive(id), []);
    OrderlyCons(t, step, [Receive(id)] + []);
    steps := [step] + ([Receive(id)] + []);
    var got := End(t, steps).subs[id].received;
    assert got == s.received + [x];
    assert got[|s.received| - 1] == q && got[|s.received|] == x;
  }

  lemma {:induction false} Oldest(qs: set<int>, x: int) returns (r: int)
    requires x in qs
    ensures r in qs && r <= x && forall q | q in qs :: r <= q
    decreases |qs|
  {
    r := x;
    if y :| y in qs && y < x {
      assert qs == (qs - {x}) + {x};
      r := Oldest(qs - {x}, y);
    }
  }

  /** A live message that enters the buffer of a subscriber before its replay or before an older
      one, and only such a message, leads to delivery out of order. */
  lemma DisorderIff(t: Topic, id: nat, q: int)
    requires Inv(t) && AllInOrder(t) && Enabled(t, FanOut(id, q)) && !t.subs[id].closed && HasRoom(t.subs[id])
    ensures ShowsDisorder(Apply(t, FanOut(id, q)), id) <==> !OldestFirst(t.subs[id], q)
  {
    var t1 := Apply(t, FanOut(id, q));
    if OldestFirst(t.subs[id], q) {
      StepKeeps(t, FanOut(id, q));
      OrderlyStepKeeps(t, FanOut(id, q));
      InOrderShowsNone(t1, id);
    } else {
      var steps := OvertakenArrivesLater(t, id, q);
      assert ShowsDisorder(t1, id);
    }
  }

  lemma InOrderShowsNone(t: Topic, id: nat)
    requires Inv(t) && AllInOrder(t)
    ensures !ShowsDisorder(t, id)
  {
    forall steps: seq<Step> | IsRun(t, steps) && OrderlyRun(t, steps) && id in End(t, steps).subs
      ensures Increasing(End(t, steps).subs[id].received)
    {
      OrderlyRunsDeliverInOrder(t, steps);
    }
  }

  lemma OvertakenArrivesLater(t: Topic, id: nat, q: int) returns (steps: seq<Step>)
    requires id in t.subs && InOrder(t.subs[id]) && Enabled(t, FanOut(id, q)) && !t.subs[id].closed && HasRoom(t.subs[id])
    requires !OldestFirst(t.subs[id], q)
    ensures var t1 := Apply(t, FanOut(id, q));
            && IsRun(t1, steps) && OrderlyRun(t1, steps)
            && id in End(t1, steps).subs && !Increasing(End(t1, steps).subs[id].received)
  {
    var s := t.subs[id];
    var t1 := Apply(t, FanOut(id, q));
    var first := Drain(t1, id);
    var t2 := End(t1, first);
    if s.replay != [] {
      assert s.replay[0] == (s.received + s.chan + s.replay)[|s.received| + |s.chan|];
    } else {
      var r :| r in s.inflight && r < q;
      assert r in t2.subs[id].inflight;
    }
    var second := OldestComesNext(t2, id, q);
    OrderlyConcat(t1, first, second);
    steps := first + second;
  }

  ghost predicate NeverShowsDisorder(t: Topic, steps: seq<Step>)
    requires IsRun(t, steps)
    decreases |steps|
  {
    (forall id :: !ShowsDisorder(t, id)) && (steps == [] || NeverShowsDisorder(Apply(t, steps[0]), steps[1..]))
  }

  /** Over every run: delivery stays in order, now and in whatever orderly way the run goes on,
      exactly when every message that entered a buffer came after the replay and oldest first. */
  lemma {:induction false} OrderIff(t: Topic, steps: seq<Step>)
    requires Inv(t) && AllInOrder(t) && IsRun(t, steps)
    ensures OrderlyRun(t, steps) <==> NeverShowsDisorder(t, steps)
    decreases |steps|
  {
    forall id
      ensures !ShowsDisorder(t, id)
    {
      InOrderShowsNone(t, id);
    }
    if steps != [] {
      var step := steps[0];
      if Orderly(t, step) {
        StepKeeps(t, step);
        OrderlyStepKeeps(t, step);
        OrderIff(Apply(t, step), steps[1..]);
      } else {
        DisorderIff(t, step.id, step.seqNo);
      }
    }
  }

  lemma RunCons(t: Topic, step: Step, rest: seq<Step>)
    requires Enabled(t, step) && IsRun(Apply(t, step), rest)
    ensures IsRun(t, [step] + rest) && End(t, [step] + rest) == End(Apply(t, step), rest)
  {
    ConsTail(step, rest);
  }

  /** In general they do not: a live message can overtake the replay it is said to come after. */
  lemma LiveCanOvertakeReplay() returns (steps: seq<Step>)
    ensures IsRun(EMPTY, steps) && 0 in End(EMPTY, steps).subs && End(EMPTY, steps).subs[0].received == [2, 1]
  {
    var t1 := Apply(EMPTY, Publish);
    var t2 := Apply(t1, Subscribe(0, 0));
    assert Replays(1, 0) == Replays(0, 0) + [1] == [1];
    var t3 := Apply(t2, Publish);
    var t4 := Apply(t3, FanOut(0, 2));
    var t5 := Apply(t4, Replay(0));
    assert t5.subs[0].chan == [2, 1];
    var t6 := Apply(t5, Receive(0));
    var last := [Receive(0)];
    RunCons(t6, Receive(0), []);
    assert [Receive(0)] + [] == last;
    RunCons(t5, Receive(0), last);
    RunCons(t4, Replay(0), [Receive(0)] + last);
    RunCons(t3, FanOut(0, 2), [Replay(0)] + ([Receive(0)] + last));
    RunCons(t2, Publish, [FanOut(0, 2)] + ([Replay(0)] + ([Receive(0)] + last)));
    RunCons(t1, Subscribe(0, 0), [Publish] + ([FanOut(0, 2)] + ([Replay(0)] + ([Receive(0)] + last))));
    RunCons(EMPTY, Publish, [Subscribe(0, 0)] + ([Publish] + ([FanOut(0, 2)] + ([Replay(0)] + ([Receive(0)] + last)))));
    steps := [Publish] + ([Subscribe(0, 0)] + ([Publish] + ([FanOut(0, 2)] + ([Replay(0)] + ([Receive(0)] + last)))));
  }
}
