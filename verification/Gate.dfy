/**
 Payment-gated forwarding: inbound streams are held until the session is funded, only the funded
 seller's are admitted, and all admitted streams share one frame counter and one limit.

 The class and the method are what one goroutine does.  The step system interleaves any number of
 streams with the opening of the gate; publishing a frame and counting it are two steps.
 */
module Gate {
  import opened Prelude

  /** What ends the wait of a held stream. */
  datatype Wake = GateOpened | Cancelled | TimedOut

  class AdmissionGate {
    var ready: bool
    var expected: string

    constructor ()
      ensures !ready && expected == ""
    {
      ready, expected := false, "";
    }

    /** Opening twice would close a closed channel. */
    method Open(expectedPeerId: string)
      requires !ready
      modifies this
      ensures ready && expected == expectedPeerId
    {
      expected := expectedPeerId;
      ready := true;
    }

    /** Only an open gate admits, and only the expected peer. */
    method Admit(wake: Wake, remote: string) returns (ok: bool, who: string)
      requires wake == GateOpened ==> ready
      ensures ok <==> wake == GateOpened && remote == expected
      ensures ok ==> ready && who == remote
    {
      match wake
      case GateOpened => return remote == expected, expected;
      case Cancelled => return false, "";
      case TimedOut => return false, "";
    }
  }

  /** A frame of a stream, by what becomes of it. */
  datatype Item = Published | Undecodable | Refused

  class Counter {
    var frames: nat
  }

  /** How many of these frames one stream forwards when it starts at this count. */
  function Forwards(items: seq<Item>, count: nat, limit: nat): nat
    decreases |items|
  {
    if items == [] then 0
    else if items[0] != Published then Forwards(items[1..], count, limit)
    else if limit > 0 && count + 1 >= limit then 1
    else 1 + Forwards(items[1..], count + 1, limit)
  }

  function Publishable(items: seq<Item>): nat
  {
    if items == [] then 0 else Publishable(items[1..]) + if items[0] == Published then 1 else 0
  }

  /** A stream on its own forwards all it can publish up to what is left of the limit, but at
      least one when it can publish any. */
  lemma {:induction false} ForwardsUpToLimit(items: seq<Item>, count: nat, limit: nat)
    ensures Forwards(items, count, limit) ==
            if limit == 0 || Publishable(items) == 0 then Publishable(items)
            else if limit <= count then 1
            else if Publishable(items) < limit - count then Publishable(items) else limit - count
    decreases |items|
  {
    if items != [] {
      ForwardsUpToLimit(items[1..], if items[0] == Published then count + 1 else count, limit);
    }
  }

  /** The stream ends by its limit or because there is nothing left to read; either way it signals. */
  method ForwardStreamLimited(items: seq<Item>, counter: Counter, limit: nat) returns (forwarded: nat, signalled: bool)
    modifies counter
    ensures forwarded == Forwards(items, old(counter.frames), limit)
    ensures counter.frames == old(counter.frames) + forwarded
    ensures signalled
  {
    forwarded := 0;
    var i := 0;
    while i < |items|
      invariant 0 <= i <= |items|
      invariant counter.frames == old(counter.frames) + forwarded
      invariant forwarded + Forwards(items[i..], counter.frames, limit) == Forwards(items, old(counter.frames), limit)
    {
      var item := items[i];
      assert items[i..][1..] == items[i + 1..];
      i := i + 1;
      if item == Undecodable || item == Refused {
        continue;
      }
      counter.frames := counter.frames + 1;
      forwarded := forwarded + 1;
      if limit > 0 && counter.frames >= limit {
        return forwarded, true;
      }
    }
    return forwarded, true;
  }

  // ----- interleavings

  /** Streams by where they are: held at the gate, turned away, reading, between publishing a frame
      and counting it, about to signal, or finished.  The last two remember in `limited` which of
      them the limit stopped. */
  datatype System = System(
    limit: nat,
    expected: Option<string>,
    open: bool,
    peers: map<nat, string>,
    held: set<nat>,
    rejected: set<nat>,
    reading: set<nat>,
    counting: set<nat>,
    signalling: set<nat>,
    finished: set<nat>,
    limited: set<nat>,
    frames: nat,
    published: seq<nat>,   // the stream of each frame put on the feed
    closes: nat)           // how often the done channel was closed

  datatype Step =
    | SetExpected(peer: string)
    | OpenGate
    | Arrive(id: nat, peer: string)
    | GiveUp(id: nat)
    | Admit(id: nat)
    | Publish(id: nat)
    | Count(id: nat)
    | StreamEnds(id: nat)
    | Signal(id: nat)

  predicate Enabled(s: System, step: Step)
  {
    match step
    case SetExpected(_) => s.expected == None
    case OpenGate => s.expected.Some? && !s.open
    case Arrive(id, _) => id !in s.peers
    case GiveUp(id) => id in s.held
    case Admit(id) => id in s.held && s.open && s.expected.Some? && id in s.peers
    case Publish(id) => id in s.reading
    case Count(id) => id in s.counting
    case StreamEnds(id) => id in s.reading
    case Signal(id) => id in s.signalling
  }

  predicate ReachesLimit(s: System)
  {
    s.limit > 0 && s.frames + 1 >= s.limit
  }

  function Apply(s: System, step: Step): System
    requires Enabled(s, step)
  {
    match step
    case SetExpected(peer) => s.(expected := Some(peer))
    case OpenGate => s.(open := true)
    case Arrive(id, peer) => s.(peers := s.peers[id := peer], held := s.held + {id})
    case GiveUp(id) => s.(held := s.held - {id}, rejected := s.rejected + {id})
    case Admit(id) =>
      if s.peers[id] == s.expected.value then s.(held := s.held - {id}, reading := s.reading + {id})
      else s.(held := s.held - {id}, rejected := s.rejected + {id})
    case Publish(id) => s.(reading := s.reading - {id}, counting := s.counting + {id}, published := s.published + [id])
    case Count(id) =>
      var n := s.(frames := s.frames + 1, counting := s.counting - {id});
      if ReachesLimit(s) then n.(signalling := s.signalling + {id}, limited := s.limited + {id})
      else n.(reading := s.reading + {id})
    case StreamEnds(id) => s.(reading := s.reading - {id}, signalling := s.signalling + {id})
    case Signal(id) =>
      s.(signalling := s.signalling - {id}, finished := s.finished + {id},
         closes := if s.closes == 0 then 1 else s.closes)
  }

  function Start(limit: nat): System
  {
    System(limit, None, false, map[], {}, {}, {}, {}, {}, {}, {}, 0, [], 0)
  }

  ghost predicate IsRun(s: System, steps: seq<Step>)
    decreases |steps|
  {
    steps == [] || (Enabled(s, steps[0]) && IsRun(Apply(s, steps[0]), steps[1..]))
  }

  ghost function End(s: System, steps: seq<Step>): System
    requires IsRun(s, steps)
    decreases |steps|
  {
    if steps == [] then s else End(Apply(s, steps[0]), steps[1..])
  }

  /** Every stream that was ever admitted. */
  function Admitted(s: System): set<nat>
  {
    s.reading + s.counting + s.signalling + s.finished
  }

  predicate FromSeller(s: System, id: nat)
  {
    id in s.peers && s.expected == Some(s.peers[id])
  }

  /** Nothing gets past a closed gate or from anybody but the seller. */
  predicate Guarded(s: System)
  {
    && (s.open ==> s.expected.Some?)
    && (!s.open ==> Admitted(s) == {})
    && (forall id | id in Admitted(s) :: FromSeller(s, id))
    && (forall i | 0 <= i < |s.published| :: s.published[i] in Admitted(s))
    && s.peers.Keys == s.held + s.rejected + Admitted(s)
    && s.held !! Admitted(s) && s.held !! s.rejected && s.rejected !! Admitted(s)
  }

  /** A stream is in one place at a time. */
  predicate Apart(s: System)
  {
    && s.reading !! s.counting && s.reading !! s.signalling && s.reading !! s.finished
    && s.counting !! s.signalling && s.counting !! s.finished && s.signalling !! s.finished
    && s.limited <= s.signalling + s.finished
  }

  /** Every frame that is published has been counted or is about to be, and every frame counted
      past the limit stopped a stream. */
  predicate Tallied(s: System)
  {
    && |s.published| == s.frames + |s.counting|
    && (s.limit > 0 ==> s.frames <= s.limit - 1 + |s.limited|)
    && (s.limit == 0 ==> s.limited == {})
    && (s.limited != {} ==> s.frames >= s.limit)
  }

  predicate SignalledOnce(s: System)
  {
    s.closes == if s.finished == {} then 0 else 1
  }

  ghost predicate Inv(s: System)
  {
    Guarded(s) && Apart(s) && Tallied(s) && SignalledOnce(s)
  }

  lemma StepKeepsGuarded(s: System, step: Step)
    requires Guarded(s) && Enabled(s, step)
    ensures Guarded(Apply(s, step))
  {
    var n := Apply(s, step);
    match step
    case Publish(id) => assert Admitted(n) == Admitted(s);
    case Count(id) => assert Admitted(n) == Admitted(s);
    case StreamEnds(id) => assert Admitted(n) == Admitted(s);
    case Signal(id) => assert Admitted(n) == Admitted(s);
    case Admit(id) =>
      if FromSeller(s, id) {
        assert Admitted(n) == Admitted(s) + {id};
      }
    case _ => assert Admitted(n) == Admitted(s);
  }

  lemma StepKeepsApart(s: System, step: Step)
    requires Guarded(s) && Apart(s) && SignalledOnce(s) && Enabled(s, step)
    ensures Apart(Apply(s, step)) && SignalledOnce(Apply(s, step))
  {
  }

  lemma StepKeepsTallied(s: System, step: Step)
    requires Apart(s) && Tallied(s) && Enabled(s, step)
    ensures Tallied(Apply(s, step))
  {
    match step
    case Publish(id) => OneMore(s.counting, id);
    case Count(id) => CountKeepsTallied(s, id);
    case _ =>
  }

  lemma OneMore(ids: set<nat>, id: nat)
    ensures id !in ids ==> |ids + {id}| == |ids| + 1
    ensures id in ids ==> |ids - {id}| == |ids| - 1
  {
  }

  lemma CountKeepsTallied(s: System, id: nat)
    requires Apart(s) && Tallied(s) && Enabled(s, Count(id))
    ensures Tallied(Apply(s, Count(id)))
  {
    OneMore(s.counting, id);
    OneMore(s.limited, id);
  }

  lemma StepKeeps(s: System, step: Step)
    requires Inv(s) && Enabled(s, step)
    ensures Inv(Apply(s, step))
  {
    StepKeepsGuarded(s, step);
    StepKeepsApart(s, step);
    StepKeepsTallied(s, step);
  }

  lemma LimitStays(s: System, step: Step)
    requires Enabled(s, step)
    ensures Apply(s, step).limit == s.limit
  {
  }

  lemma {:induction false} RunKeeps(s: System, steps: seq<Step>)
    requires Inv(s) && IsRun(s, steps)
    ensures Inv(End(s, steps)) && End(s, steps).limit == s.limit
    decreases |steps|
  {
    if steps != [] {
      var n := Apply(s, steps[0]);
      StepKeeps(s, steps[0]);
      LimitStays(s, steps[0]);
      RunKeeps(n, steps[1..]);
    }
  }

  /** No frame is forwarded before the gate opens, and none ever from another peer. */
  lemma OnlyTheFundedSeller(limit: nat, steps: seq<Step>)
    requires IsRun(Start(limit), steps)
    ensures var s := End(Start(limit), steps);
            && (s.published != [] ==> s.open)
            && (forall i | 0 <= i < |s.published| :: FromSeller(s, s.published[i]))
  {
    RunKeeps(Start(limit), steps);
    var s := End(Start(limit), steps);
    if s.published != [] {
      assert s.published[0] in Admitted(s);
    }
  }

  lemma AtMostAll(part: set<nat>, other: set<nat>, whole: set<nat>)
    requires part <= whole && other <= whole && part !! other
    ensures |part| + |other| <= |whole|
  {
    Subset(part + other, whole);
  }

  lemma Subset(part: set<nat>, whole: set<nat>)
    requires part <= whole
    ensures |part| <= |whole|
  {
    assert |whole - part| == |whole| - |part|;
  }

  /** Every stream that ever arrived waits, was turned away or was admitted, one of the three; and who was
      admitted is the expected peer. */
  lemma EveryStreamIsSomewhere(limit: nat, steps: seq<Step>, id: nat)
    requires IsRun(Start(limit), steps)
    ensures var s := End(Start(limit), steps);
            && (id in s.peers <==> id in s.held || id in s.rejected || id in Admitted(s))
            && !(id in s.held && id in s.rejected) && !(id in s.held && id in Admitted(s)) && !(id in s.rejected && id in Admitted(s))
  {
    RunKeeps(Start(limit), steps);
  }

  /** With a limit and S admitted streams at most limit - 1 + S frames are forwarded: exactly up to
      the limit for one stream. */
  lemma ForwardedIsBounded(limit: nat, steps: seq<Step>)
    requires limit > 0 && IsRun(Start(limit), steps)
    ensures var s := End(Start(limit), steps);
            && |s.published| <= limit - 1 + |Admitted(s)|
            && (|Admitted(s)| == 1 ==> |s.published| <= limit)
            && (s.published != [] ==> |Admitted(s)| >= 1)
  {
    RunKeeps(Start(limit), steps);
    var s := End(Start(limit), steps);
    AtMostAll(s.counting, s.limited, Admitted(s));
    if s.published != [] {
      assert s.published[0] in Admitted(s);
    }
  }

  /** The done channel is closed at most once: with the first stream, of those admitted, that ends. */
  lemma DoneFiresOnce(limit: nat, steps: seq<Step>)
    requires IsRun(Start(limit), steps)
    ensures var s := End(Start(limit), steps);
            s.closes <= 1 && (s.closes == 1 <==> s.finished != {}) && (s.closes == 1 ==> s.open)
  {
    RunKeeps(Start(limit), steps);
  }

  /** A stream is only stopped by a limit once that many frames were forwarded; without one, never. */
  lemma LimitIsReachedFirst(limit: nat, steps: seq<Step>)
    requires IsRun(Start(limit), steps)
    ensures var s := End(Start(limit), steps);
            s.limited != {} ==> limit > 0 && |s.published| >= limit
  {
    RunKeeps(Start(limit), steps);
  }

  // ----- the bound is reached

  lemma {:induction false} RunConcat(s: System, first: seq<Step>, second: seq<Step>)
    requires IsRun(s, first) && IsRun(End(s, first), second)
    ensures IsRun(s, first + second) && End(s, first + second) == End(End(s, first), second)
    decreases |first|
  {
    SumOfSeqs(first, second);
    if first != [] {
      RunConcat(Apply(s, first[0]), first[1..], second);
    }
  }

  lemma RunOne(s: System, step: Step)
    requires Enabled(s, step)
    ensures IsRun(s, [step]) && End(s, [step]) == Apply(s, step)
  {
    assert [step][1..] == [];
  }

  function Upto(n: nat): (ids: set<nat>)
    ensures forall id: nat :: id in ids <==> id < n
    ensures |ids| == n
  {
    if n == 0 then {} else Upto(n - 1) + {n - 1}
  }

  /** An open gate with n streams admitted and nothing forwarded. */
  predicate Ready(s: System, limit: nat, n: nat)
  {
    && s.limit == limit && s.expected == Some("seller") && s.open
    && s.peers.Keys == Upto(n) && s.reading == Upto(n)
    && s.held == s.counting == s.signalling == s.finished == {} && s.frames == 0 && s.published == []
  }

  lemma {:induction false} AdmitMany(limit: nat, n: nat) returns (steps: seq<Step>)
    ensures IsRun(Start(limit), steps) && Ready(End(Start(limit), steps), limit, n)
  {
    if n == 0 {
      var s := Apply(Start(limit), SetExpected("seller"));
      RunOne(Start(limit), SetExpected("seller"));
      RunOne(s, OpenGate);
      RunConcat(Start(limit), [SetExpected("seller")], [OpenGate]);
      return [SetExpected("seller")] + [OpenGate];
    }
    var before := AdmitMany(limit, n - 1);
    var s := End(Start(limit), before);
    var t := Apply(s, Arrive(n - 1, "seller"));
    RunOne(s, Arrive(n - 1, "seller"));
    RunOne(t, Admit(n - 1));
    RunConcat(s, [Arrive(n - 1, "seller")], [Admit(n - 1)]);
    RunConcat(Start(limit), before, [Arrive(n - 1, "seller")] + [Admit(n - 1)]);
    steps := before + ([Arrive(n - 1, "seller")] + [Admit(n - 1)]);
  }

  /** Stream 0 forwards k frames below the limit. */
  lemma {:induction false} ForwardBelow(s: System, k: nat) returns (steps: seq<Step>)
    requires 0 in s.reading && s.counting == {} && s.frames + k < s.limit
    ensures IsRun(s, steps)
    ensures var t := End(s, steps);
            t == s.(frames := s.frames + k, published := t.published) && |t.published| == |s.published| + k
    decreases k
  {
    if k == 0 {
      return [];
    }
    var t := Apply(s, Publish(0));
    var u := Apply(t, Count(0));
    assert u.reading == s.reading && u.counting == s.counting;
    var rest := ForwardBelow(u, k - 1);
    RunOne(s, Publish(0));
    RunOne(t, Count(0));
    RunConcat(s, [Publish(0)], [Count(0)]);
    RunConcat(s, [Publish(0)] + [Count(0)], rest);
    steps := [Publish(0)] + [Count(0)] + rest;
  }

  /** All of n streams publish a frame before any of them counts it. */
  lemma {:induction false} PublishAll(s: System, n: nat) returns (steps: seq<Step>)
    requires Upto(n) <= s.reading && s.counting !! Upto(n)
    ensures IsRun(s, steps)
    ensures var t := End(s, steps);
            |t.published| == |s.published| + n && Admitted(t) == Admitted(s)
    decreases n
  {
    if n == 0 {
      return [];
    }
    var t := Apply(s, Publish(n - 1));
    assert Admitted(t) == Admitted(s);
    var rest := PublishAll(t, n - 1);
    RunOne(s, Publish(n - 1));
    RunConcat(s, [Publish(n - 1)], rest);
    steps := [Publish(n - 1)] + rest;
  }

  /** For every limit and every number of streams some interleaving forwards limit - 1 + S frames. */
  lemma BoundIsReached(limit: nat, n: nat) returns (steps: seq<Step>)
    requires limit > 0 && n > 0
    ensures IsRun(Start(limit), steps)
    ensures |Admitted(End(Start(limit), steps))| == n
    ensures |End(Start(limit), steps).published| == limit - 1 + n
  {
    var first := AdmitMany(limit, n);
    var s := End(Start(limit), first);
    var second := ForwardBelow(s, limit - 1);
    var t := End(s, second);
    var third := PublishAll(t, n);
    RunConcat(s, second, third);
    RunConcat(Start(limit), first, second + third);
    steps := first + (second + third);
    assert Admitted(t) == Upto(n);
  }

  /** No run with at most so many admitted streams forwards more than `most` frames. */
  ghost predicate ForwardsAtMost(limit: nat, streams: nat, most: nat)
  {
    forall steps: seq<Step> ::
      IsRun(Start(limit), steps) && |Admitted(End(Start(limit), steps))| <= streams ==> |End(Start(limit), steps).published| <= most
  }

  /** limit - 1 + S is the exact bound, for every limit and number of streams. */
  lemma ForwardsAtMostIff(limit: nat, streams: nat, most: nat)
    requires limit > 0
    ensures ForwardsAtMost(limit, streams, most) <==> streams == 0 || limit - 1 + streams <= most
  {
    if streams == 0 || limit - 1 + streams <= most {
      forall steps: seq<Step> | IsRun(Start(limit), steps) && |Admitted(End(Start(limit), steps))| <= streams
        ensures |End(Start(limit), steps).published| <= most
      {
        ForwardedIsBounded(limit, steps);
      }
    } else {
      var steps := BoundIsReached(limit, streams);
    }
  }

  /** So the limit that is documented holds exactly for a single stream. */
  lemma LimitHoldsIff(limit: nat, streams: nat)
    requires limit > 0
    ensures ForwardsAtMost(limit, streams, limit) <==> streams <= 1
  {
    ForwardsAtMostIff(limit, streams, limit);
  }
}
