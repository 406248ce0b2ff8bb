/**
 The limits of Wired: one message more than a channel holds, and a clean-up that does not wait for
 a publication in progress.  Both are reached by explicit runs, for every configuration that can
 settle.
 */
module Limits {
  import opened Prelude
  import opened Wired
  import C = Commerce
  import B = Bus
  import E = Escrow
  import A = Agreement

  // ----- a channel too small

  /** Nobody takes part but the two parties and the bus. */
  predicate PlainStep(step: Step)
  {
    step.Act? ==> C.PartyStep(step.step)
  }

  predicate Plain(steps: seq<Step>)
  {
    forall i | 0 <= i < |steps| :: PlainStep(steps[i])
  }

  /** Some run free of faults leads here, and if not `foreign`, one without anybody else. */
  ghost predicate Reaches(cfg: C.Config, ledger: E.Ledger, n: Net, foreign: bool)
  {
    exists steps :: LeadsTo(cfg, ledger, steps, n) && (foreign || Plain(steps))
  }

  ghost predicate LeadsTo(cfg: C.Config, ledger: E.Ledger, steps: seq<Step>, n: Net)
  {
    IsRun(Start(cfg, ledger), steps) && FaultlessRun(Start(cfg, ledger), steps) && End(Start(cfg, ledger), steps) == n
  }

  lemma {:induction false} RunSnoc(n: Net, steps: seq<Step>, step: Step)
    requires IsRun(n, steps) && FaultlessRun(n, steps) && Enabled(End(n, steps), step) && Faultless(End(n, steps), step)
    ensures IsRun(n, steps + [step]) && FaultlessRun(n, steps + [step])
    ensures End(n, steps + [step]) == Apply(End(n, steps), step)
    decreases |steps|
  {
    SumOfSeqs(steps, [step]);
    if steps == [] {
      assert IsRun(Apply(n, step), []);
      assert [step][1..] == [];
    } else {
      RunSnoc(Apply(n, steps[0]), steps[1..], step);
    }
  }

  lemma ReachesNext(cfg: C.Config, ledger: E.Ledger, n: Net, step: Step, foreign: bool)
    requires Reaches(cfg, ledger, n, foreign) && Enabled(n, step) && Faultless(n, step) && (foreign || PlainStep(step))
    ensures Reaches(cfg, ledger, Apply(n, step), foreign)
  {
    var steps :| LeadsTo(cfg, ledger, steps, n) && (foreign || Plain(steps));
    RunSnoc(Start(cfg, ledger), steps, step);
    assert LeadsTo(cfg, ledger, steps + [step], Apply(n, step));
  }

  lemma ReachesStart(cfg: C.Config, ledger: E.Ledger)
    ensures Reaches(cfg, ledger, Start(cfg, ledger), false)
  {
    assert LeadsTo(cfg, ledger, [], Start(cfg, ledger)) && Plain([]);
  }

  /** A channel that has nothing more to come. */
  predicate Drained(t: B.Topic, id: nat)
  {
    t.subs.Keys == {id} && !t.subs[id].closed && t.subs[id].chan == [] && t.subs[id].replay == [] && t.subs[id].inflight == {}
  }

  predicate AllGarbage(log: seq<C.Msg>, k: nat)
  {
    k <= |log| && forall i | 0 <= i < k :: log[i] == C.Garbage
  }

  /** k messages of no interest in the channel, and nothing else to come. */
  predicate Holds(t: B.Topic, id: nat, k: nat, upto: nat)
  {
    && t.subs.Keys == {id} && !t.subs[id].closed && t.subs[id].replay == [] && t.subs[id].inflight == {}
    && |t.subs[id].chan| == k && forall i | 0 <= i < k :: 1 <= t.subs[id].chan[i] <= upto
  }

  /** Both wait or are about to; the buyer's channel holds k foreign messages. */
  ghost predicate Filling(n: Net, k: nat)
  {
    && !n.toBuyer.panicked && !n.toSeller.panicked && n.buyerSub == 0 && n.sellerSub == 1
    && n.w.buyer.pc == C.BAwaitResponse && n.w.seller.pc == C.SRespond && n.w.seller.state == A.Requested
    && C.NobodyFailed(n.w) && n.w.seller.seen == {0}
    && |n.w.toBuyer| == n.toBuyer.log == k && AllGarbage(n.w.toBuyer, k) && |n.w.toSeller| == 1
    && Holds(n.toBuyer, 0, k, k) && Drained(n.toSeller, 1)
  }

  /** The response has found the channel full and is lost. */
  ghost predicate Draining(n: Net, k: nat)
  {
    && !n.toBuyer.panicked && !n.toSeller.panicked && n.buyerSub == 0 && n.sellerSub == 1
    && n.w.buyer.pc == C.BAwaitResponse && n.w.seller.pc == C.SAwaitCreated && C.NobodyFailed(n.w)
    && |n.w.toBuyer| == B.CHANNEL_CAPACITY + 1 && AllGarbage(n.w.toBuyer, B.CHANNEL_CAPACITY) && |n.w.toSeller| == 1
    && Holds(n.toBuyer, 0, k, B.CHANNEL_CAPACITY) && Drained(n.toSeller, 1)
  }

  lemma BuyerRequests(cfg: C.Config, ledger: E.Ledger) returns (n: Net)
    requires C.CanSettle(cfg)
    ensures Reaches(cfg, ledger, n, false)
    ensures n.w.buyer.pc == C.BSubscribe && n.w.seller == C.Init(cfg, ledger).seller && C.NobodyFailed(n.w)
    ensures n.w.toBuyer == [] && n.w.toSeller == [C.Request(cfg.rid, cfg.price, cfg.currency)] && n.w.cfg == cfg
    ensures n.toBuyer == B.EMPTY && n.toSeller == B.Topic(1, map[], false) && n.nextSub == 0
  {
    n := Start(cfg, ledger);
    ReachesStart(cfg, ledger);
    C.FireOne(A.Idle, A.ServiceRequest);
    ReachesNext(cfg, ledger, n, Act(C.BuyerStep), false);
    n := Apply(n, Act(C.BuyerStep));
  }

  lemma BuyerBegins(cfg: C.Config, ledger: E.Ledger) returns (n: Net)
    requires C.CanSettle(cfg)
    ensures Reaches(cfg, ledger, n, false)
    ensures n.w.buyer.pc == C.BAwaitResponse && n.w.seller == C.Init(cfg, ledger).seller && C.NobodyFailed(n.w)
    ensures n.w.toBuyer == [] && n.w.toSeller == [C.Request(cfg.rid, cfg.price, cfg.currency)] && n.w.cfg == cfg
    ensures n.toBuyer == B.Topic(0, map[0 := B.NewSub(0, 0)], false) && n.toSeller == B.Topic(1, map[], false)
    ensures n.buyerSub == 0 && n.nextSub == 1
  {
    n := BuyerRequests(cfg, ledger);
    ReachesNext(cfg, ledger, n, Act(C.BuyerStep), false);
    n := Apply(n, Act(C.BuyerStep));
  }

  /** The buyer waits, and the seller is to be given the request. */
  ghost predicate Opening(n: Net, cfg: C.Config, ledger: E.Ledger, s: B.Sub)
  {
    && !n.toBuyer.panicked && !n.toSeller.panicked && n.buyerSub == 0 && n.sellerSub == 1
    && n.w.buyer.pc == C.BAwaitResponse && n.w.seller == C.Init(cfg, ledger).seller.(pc := C.SAwaitRequest)
    && C.NobodyFailed(n.w)
    && n.w.toBuyer == [] && n.toBuyer.log == 0 && n.w.toSeller == [C.Request(cfg.rid, cfg.price, cfg.currency)]
    && n.toBuyer.subs == map[0 := B.NewSub(0, 0)] && n.toSeller.subs == map[1 := s] && n.toSeller.log == 1
  }

  lemma SellerSubscribes(cfg: C.Config, ledger: E.Ledger) returns (n: Net)
    requires C.CanSettle(cfg)
    ensures Reaches(cfg, ledger, n, false) && Opening(n, cfg, ledger, B.NewSub(1, 0))
  {
    n := BuyerBegins(cfg, ledger);
    ReachesNext(cfg, ledger, n, Act(C.SellerStep), false);
    n := Apply(n, Act(C.SellerStep));
  }

  lemma RequestReplayed(cfg: C.Config, ledger: E.Ledger) returns (n: Net)
    requires C.CanSettle(cfg)
    ensures Reaches(cfg, ledger, n, false) && Opening(n, cfg, ledger, B.NewSub(1, 0).(replay := [], chan := [1]))
  {
    n := SellerSubscribes(cfg, ledger);
    var s := n.toSeller.subs[1];
    assert B.Replays(0, 0) == [] && B.Replays(1, 0) == [1] && s.replay[1..] == [] && s.chan + [1] == [1];
    ReachesNext(cfg, ledger, n, ToSeller(B.Replay(1)), false);
    n := Apply(n, ToSeller(B.Replay(1)));
    assert n.toSeller.subs == map[1 := s.(replay := [], chan := [1])];
  }

  lemma RequestIsTaken(s: C.Seller, cfg: C.Config, ledger: E.Ledger, m: C.Msg)
    requires s == C.Init(cfg, ledger).seller.(pc := C.SAwaitRequest) && m.Request?
    ensures var t := SellerHears(s, [m], 1); t.pc == C.SRespond && t.state == A.Requested && !t.failed && t.seen == {0}
  {
    C.FireOne(A.Idle, A.ServiceRequest);
  }

  lemma SellerBegins(cfg: C.Config, ledger: E.Ledger) returns (n: Net)
    requires C.CanSettle(cfg)
    ensures Reaches(cfg, ledger, n, false) && Filling(n, 0)
    ensures At(n, 2, 2, 0, 1) && Holding(n.toBuyer, 0, {}, []) && Holding(n.toSeller, 1, {}, [])
  {
    n := RequestReplayed(cfg, ledger);
    ReachesNext(cfg, ledger, n, SellerGets, false);
    RequestIsTaken(n.w.seller, cfg, ledger, n.w.toSeller[0]);
    n := SellerGot(n);
  }

  lemma NoiseLands(n: Net, k: nat) returns (m: Net)
    requires Filling(n, k)
    ensures Enabled(n, Act(C.Noise(true, C.Garbage))) && m == Apply(n, Act(C.Noise(true, C.Garbage)))
    ensures m.w == n.w.(toBuyer := n.w.toBuyer + [C.Garbage]) && m.toSeller == n.toSeller && m.buyerSub == 0 && m.sellerSub == 1
    ensures m.toBuyer == B.Topic(k + 1, map[0 := n.toBuyer.subs[0].(inflight := {k + 1}, upto := k + 1)], false)
  {
    m := Apply(n, Act(C.Noise(true, C.Garbage)));
    assert m.toBuyer.subs[0] == n.toBuyer.subs[0].(inflight := {k + 1}, upto := k + 1);
  }

  lemma Fill(cfg: C.Config, ledger: E.Ledger, n: Net, k: nat) returns (m: Net)
    requires Reaches(cfg, ledger, n, true) && Filling(n, k) && k < B.CHANNEL_CAPACITY
    ensures Reaches(cfg, ledger, m, true) && Filling(m, k + 1)
  {
    var l := NoiseLands(n, k);
    ReachesNext(cfg, ledger, n, Act(C.Noise(true, C.Garbage)), true);
    ReachesNext(cfg, ledger, l, ToBuyer(B.FanOut(0, k + 1)), true);
    m := Apply(l, ToBuyer(B.FanOut(0, k + 1)));
  }

  lemma {:induction false} FillUp(cfg: C.Config, ledger: E.Ledger, n: Net, k: nat) returns (m: Net)
    requires Reaches(cfg, ledger, n, true) && Filling(n, k) && k <= B.CHANNEL_CAPACITY
    ensures Reaches(cfg, ledger, m, true) && Filling(m, B.CHANNEL_CAPACITY)
    decreases B.CHANNEL_CAPACITY - k
  {
    if k == B.CHANNEL_CAPACITY {
      m := n;
    } else {
      m := Fill(cfg, ledger, n, k);
      m := FillUp(cfg, ledger, m, k + 1);
    }
  }

  /** The seller responds, and the response is on its way to the full channel. */
  lemma ResponseSent(n: Net) returns (m: Net)
    requires Filling(n, B.CHANNEL_CAPACITY)
    ensures Enabled(n, Act(C.SellerStep)) && m == Apply(n, Act(C.SellerStep))
    ensures m.w.buyer == n.w.buyer && m.w.seller.pc == C.SAwaitCreated && C.NobodyFailed(m.w) && m.w.toSeller == n.w.toSeller
    ensures n.w.toBuyer <= m.w.toBuyer && |m.w.toBuyer| == |n.w.toBuyer| + 1
    ensures m.toSeller == n.toSeller && m.buyerSub == 0 && m.sellerSub == 1
    ensures var last := B.CHANNEL_CAPACITY + 1;
            m.toBuyer == B.Topic(last, map[0 := n.toBuyer.subs[0].(inflight := {last}, upto := last)], false)
  {
    C.FireOne(A.Requested, A.Accept);
    var last := B.CHANNEL_CAPACITY + 1;
    m := Apply(n, Act(C.SellerStep));
    assert m.toBuyer.subs[0] == n.toBuyer.subs[0].(inflight := {last}, upto := last);
  }

  lemma LoseResponse(cfg: C.Config, ledger: E.Ledger, n: Net) returns (m: Net)
    requires Reaches(cfg, ledger, n, true) && Filling(n, B.CHANNEL_CAPACITY)
    ensures Reaches(cfg, ledger, m, true) && Draining(m, B.CHANNEL_CAPACITY)
  {
    var l := ResponseSent(n);
    ReachesNext(cfg, ledger, n, Act(C.SellerStep), true);
    ReachesNext(cfg, ledger, l, ToBuyer(B.FanOut(0, B.CHANNEL_CAPACITY + 1)), true);
    m := Apply(l, ToBuyer(B.FanOut(0, B.CHANNEL_CAPACITY + 1)));
  }

  lemma {:induction false} DrainAll(cfg: C.Config, ledger: E.Ledger, n: Net, k: nat) returns (m: Net)
    requires Reaches(cfg, ledger, n, true) && Draining(n, k)
    ensures Reaches(cfg, ledger, m, true) && Draining(m, 0)
    decreases k
  {
    if k == 0 {
      m := n;
    } else {
      ReachesNext(cfg, ledger, n, BuyerGets, true);
      m := Apply(n, BuyerGets);
      m := DrainAll(cfg, ledger, m, k - 1);
    }
  }

  lemma NothingLeftToDo(n: Net)
    requires Draining(n, 0)
    ensures Stuck(n)
  {
  }

  /** The capacity of a channel is the exact limit: with one message more than that, on one topic,
      and nothing at fault, the response can be lost and both sides wait for ever. */
  lemma OneMoreMessageCanBlock(cfg: C.Config, ledger: E.Ledger) returns (n: Net)
    requires C.CanSettle(cfg)
    ensures Reaches(cfg, ledger, n, true)
    ensures |n.w.toBuyer| == 65 && |n.w.toSeller| == 1
    ensures C.NobodyFailed(n.w) && !C.BothSettled(n.w) && Stuck(n)
  {
    n := SellerBegins(cfg, ledger);
    assert Reaches(cfg, ledger, n, true);
    n := FillUp(cfg, ledger, n, 0);
    n := LoseResponse(cfg, ledger, n);
    n := DrainAll(cfg, ledger, n, B.CHANNEL_CAPACITY);
    NothingLeftToDo(n);
  }

  /** Nobody can go on, and not because all is done. */
  ghost predicate Blocked(n: Net)
  {
    Stuck(n) && !C.BothSettled(n.w)
  }

  /** No run free of faults with at most so many messages on either topic blocks. */
  ghost predicate NeverBlocks(cfg: C.Config, ledger: E.Ledger, most: nat)
  {
    forall n :: Reaches(cfg, ledger, n, true) && |n.w.toBuyer| <= most && |n.w.toSeller| <= most ==> !Blocked(n)
  }

  lemma WithinCapacity(cfg: C.Config, ledger: E.Ledger, n: Net)
    requires C.ValidBuyerConfig(cfg) && E.Sound(ledger) && C.CanSettle(cfg) && Reaches(cfg, ledger, n, true)
    requires |n.w.toBuyer| <= B.CHANNEL_CAPACITY && |n.w.toSeller| <= B.CHANNEL_CAPACITY
    ensures !Blocked(n)
  {
    var steps :| LeadsTo(cfg, ledger, steps, n);
    StartCoupled(cfg, ledger);
    RunKeeps(Start(cfg, ledger), steps);
    NoDeadlockOverTheBus(cfg, ledger, steps);
  }

  /** In every configuration that can settle the capacity of a channel is the exact limit. */
  lemma NeverBlocksIff(cfg: C.Config, ledger: E.Ledger, most: nat)
    requires C.ValidBuyerConfig(cfg) && E.Sound(ledger) && C.CanSettle(cfg)
    ensures NeverBlocks(cfg, ledger, most) <==> most <= 64
  {
    if most <= B.CHANNEL_CAPACITY {
      forall n | Reaches(cfg, ledger, n, true) && |n.w.toBuyer| <= most && |n.w.toSeller| <= most
        ensures !Blocked(n)
      {
        WithinCapacity(cfg, ledger, n);
      }
    } else {
      var n := OneMoreMessageCanBlock(cfg, ledger);
    }
  }

  // ----- an early clean-up in a plain session

  ghost predicate CanSettle(cfg: C.Config, ledger: E.Ledger)
  {
    C.ValidBuyerConfig(cfg) && E.Sound(ledger) && C.CanSettle(cfg)
  }

  /** Where the parties are, how much is on the topics, one subscription on each. */
  predicate At(n: Net, b: nat, s: nat, toBuyer: nat, toSeller: nat)
  {
    && n.buyerSub == 0 && n.sellerSub == 1 && !n.toBuyer.panicked && !n.toSeller.panicked
    && C.BRank(n.w.buyer.pc) == b && C.SRank(n.w.seller.pc) == s && !n.w.buyer.failed && !n.w.seller.failed
    && |n.w.toBuyer| == n.toBuyer.log == toBuyer <= 2 && |n.w.toSeller| == n.toSeller.log == toSeller <= 2
    && n.toBuyer.subs.Keys == {0} && n.toSeller.subs.Keys == {1}
  }

  /** What a channel still has to give: in flight, or in the buffer. */
  predicate Holding(t: B.Topic, id: nat, inflight: set<int>, chan: seq<int>)
  {
    && id in t.subs && Open(t.subs[id])
    && t.subs[id].replay == [] && t.subs[id].inflight == inflight && t.subs[id].chan == chan
  }

  lemma OnCourseAt(cfg: C.Config, ledger: E.Ledger, n: Net)
    requires CanSettle(cfg, ledger) && Reaches(cfg, ledger, n, false) && |n.w.toBuyer| <= 2 && |n.w.toSeller| <= 2
    ensures OnCourse(n)
  {
    var steps :| LeadsTo(cfg, ledger, steps, n);
    FaultlessRunsStayOnCourse(cfg, ledger, steps);
  }

  // How the parties go on.

  lemma SellerGoesOn(cfg: C.Config, ledger: E.Ledger, n: Net)
    requires CanSettle(cfg, ledger) && Reaches(cfg, ledger, n, false) && |n.w.toBuyer| <= 2 && |n.w.toSeller| <= 2
    requires C.Enabled(n.w, C.SellerStep)
    ensures var v := C.Apply(n.w, C.SellerStep);
            && !v.seller.failed && C.SRank(v.seller.pc) == C.SRank(n.w.seller.pc) + 1
            && v.buyer == n.w.buyer && v.toSeller == n.w.toSeller
            && |v.toBuyer| == |n.w.toBuyer| + if n.w.seller.pc in {C.SRespond, C.SPublishInvoice} then 1 else 0
  {
    OnCourseAt(cfg, ledger, n);
    C.SellerActSucceeds(n.w);
    SellerSends(n.w);
  }

  lemma SellerSends(w: C.World)
    requires C.Enabled(w, C.SellerStep) && !C.Apply(w, C.SellerStep).seller.failed
    ensures var v := C.Apply(w, C.SellerStep);
            && v.buyer == w.buyer && v.toSeller == w.toSeller
            && |v.toBuyer| == |w.toBuyer| + if w.seller.pc in {C.SRespond, C.SPublishInvoice} then 1 else 0
  {
  }

  lemma BuyerGoesOn(cfg: C.Config, ledger: E.Ledger, n: Net)
    requires CanSettle(cfg, ledger) && Reaches(cfg, ledger, n, false) && |n.w.toBuyer| <= 2 && |n.w.toSeller| <= 2
    requires C.Enabled(n.w, C.BuyerStep)
    ensures var v := C.Apply(n.w, C.BuyerStep);
            && !v.buyer.failed && C.BRank(v.buyer.pc) == C.BRank(n.w.buyer.pc) + 1
            && v.seller == n.w.seller && v.toBuyer == n.w.toBuyer
            && |v.toSeller| == |n.w.toSeller| + if n.w.buyer.pc in {C.BStart, C.BPublishCreated, C.BAck} then 1 else 0
  {
    OnCourseAt(cfg, ledger, n);
    C.BuyerActSucceeds(n.w);
    BuyerSends(n.w);
  }

  lemma BuyerSends(w: C.World)
    requires C.Enabled(w, C.BuyerStep) && !C.Apply(w, C.BuyerStep).buyer.failed
    ensures var v := C.Apply(w, C.BuyerStep);
            && v.seller == w.seller && v.toBuyer == w.toBuyer
            && |v.toSeller| == |w.toSeller| + if w.buyer.pc in {C.BStart, C.BPublishCreated, C.BAck} then 1 else 0
  {
  }

  /** What is on a topic when something may have been published to a channel that has given all. */
  lemma PublishedTo(t: B.Topic, id: nat, before: seq<C.Msg>, after: seq<C.Msg>)
    requires !t.panicked && t.subs.Keys == {id} && Holding(t, id, {}, []) && t.log == |before| && |before| <= |after| <= |before| + 1
    ensures var u := Logged(t, before, after);
            && !u.panicked && u.log == |after| && u.subs.Keys == {id}
            && Holding(u, id, if |after| > |before| then {|after|} else {}, [])
  {
  }

  lemma SellerMayAct(n: Net, b: nat, s: nat, toBuyer: nat, toSeller: nat)
    requires At(n, b, s, toBuyer, toSeller) && s in {2, 4, 5, 6}
    ensures Enabled(n, Act(C.SellerStep)) && C.Enabled(n.w, C.SellerStep) && !SellerOpens(n.w, C.SellerStep)
    ensures n.w.seller.pc in {C.SRespond, C.SPublishInvoice} <==> s in {2, 6}
    ensures C.Apply(n.w, C.SellerStep).seller.seen == n.w.seller.seen
  {
  }

  lemma SellerActed(n: Net)
    requires Enabled(n, Act(C.SellerStep)) && !SellerOpens(n.w, C.SellerStep) && C.Apply(n.w, C.SellerStep).toSeller == n.w.toSeller
    ensures var v := C.Apply(n.w, C.SellerStep);
            Apply(n, Act(C.SellerStep)) == n.(w := v, toBuyer := Logged(n.toBuyer, n.w.toBuyer, v.toBuyer))
  {
  }

  lemma SellerNowAt(n: Net, v: C.World, b: nat, s: nat, toBuyer: nat, toSeller: nat)
    requires At(n, b, s, toBuyer, toSeller) && Holding(n.toBuyer, 0, {}, []) && toBuyer <= 1
    requires v.buyer == n.w.buyer && v.toSeller == n.w.toSeller && toBuyer <= |v.toBuyer| <= toBuyer + 1
    requires !v.seller.failed && C.SRank(v.seller.pc) == s + 1
    ensures var m := n.(w := v, toBuyer := Logged(n.toBuyer, n.w.toBuyer, v.toBuyer));
            && At(m, b, s + 1, |v.toBuyer|, toSeller)
            && Holding(m.toBuyer, 0, if |v.toBuyer| > toBuyer then {toBuyer + 1} else {}, [])
  {
    PublishedTo(n.toBuyer, 0, n.w.toBuyer, v.toBuyer);
  }

  lemma SellerActs(cfg: C.Config, ledger: E.Ledger, n: Net, b: nat, s: nat, toBuyer: nat, toSeller: nat) returns (m: Net)
    requires CanSettle(cfg, ledger) && Reaches(cfg, ledger, n, false) && At(n, b, s, toBuyer, toSeller) && s in {2, 4, 5, 6}
    requires Holding(n.toBuyer, 0, {}, []) && toBuyer <= 1
    ensures var sent := if s in {2, 6} then 1 else 0;
            && Reaches(cfg, ledger, m, false) && At(m, b, s + 1, toBuyer + sent, toSeller)
            && m.toSeller == n.toSeller && m.w.seller.seen == n.w.seller.seen
            && Holding(m.toBuyer, 0, if sent == 1 then {toBuyer + 1} else {}, [])
  {
    SellerMayAct(n, b, s, toBuyer, toSeller);
    SellerGoesOn(cfg, ledger, n);
    SellerActed(n);
    SellerNowAt(n, C.Apply(n.w, C.SellerStep), b, s, toBuyer, toSeller);
    ReachesNext(cfg, ledger, n, Act(C.SellerStep), false);
    m := Apply(n, Act(C.SellerStep));
  }

  lemma BuyerMayAct(n: Net, b: nat, s: nat, toBuyer: nat, toSeller: nat)
    requires At(n, b, s, toBuyer, toSeller) && b in {3, 4, 5}
    ensures Enabled(n, Act(C.BuyerStep)) && C.Enabled(n.w, C.BuyerStep) && !BuyerOpens(n.w, C.BuyerStep)
    ensures n.w.buyer.pc in {C.BStart, C.BPublishCreated, C.BAck} <==> b == 5
  {
  }

  lemma BuyerActed(n: Net)
    requires Enabled(n, Act(C.BuyerStep)) && !BuyerOpens(n.w, C.BuyerStep) && C.Apply(n.w, C.BuyerStep).toBuyer == n.w.toBuyer
    ensures var v := C.Apply(n.w, C.BuyerStep);
            Apply(n, Act(C.BuyerStep)) == n.(w := v, toSeller := Logged(n.toSeller, n.w.toSeller, v.toSeller))
  {
  }

  lemma BuyerNowAt(n: Net, v: C.World, b: nat, s: nat, toBuyer: nat, toSeller: nat)
    requires At(n, b, s, toBuyer, toSeller) && Holding(n.toSeller, 1, {}, []) && toSeller <= 1
    requires v.seller == n.w.seller && v.toBuyer == n.w.toBuyer && toSeller <= |v.toSeller| <= toSeller + 1
    requires !v.buyer.failed && C.BRank(v.buyer.pc) == b + 1
    ensures var m := n.(w := v, toSeller := Logged(n.toSeller, n.w.toSeller, v.toSeller));
            && At(m, b + 1, s, toBuyer, |v.toSeller|)
            && Holding(m.toSeller, 1, if |v.toSeller| > toSeller then {toSeller + 1} else {}, [])
  {
    PublishedTo(n.toSeller, 1, n.w.toSeller, v.toSeller);
  }

  lemma BuyerActs(cfg: C.Config, ledger: E.Ledger, n: Net, b: nat, toBuyer: nat, toSeller: nat) returns (m: Net)
    requires CanSettle(cfg, ledger) && Reaches(cfg, ledger, n, false) && At(n, b, 3, toBuyer, toSeller) && b in {3, 4, 5}
    requires Holding(n.toSeller, 1, {}, []) && toSeller <= 1
    ensures var sent := if b == 5 then 1 else 0;
            && Reaches(cfg, ledger, m, false) && At(m, b + 1, 3, toBuyer, toSeller + sent)
            && m.toBuyer == n.toBuyer && m.w.seller == n.w.seller
            && Holding(m.toSeller, 1, if sent == 1 then {toSeller + 1} else {}, [])
  {
    BuyerMayAct(n, b, 3, toBuyer, toSeller);
    BuyerGoesOn(cfg, ledger, n);
    BuyerActed(n);
    BuyerNowAt(n, C.Apply(n.w, C.BuyerStep), b, 3, toBuyer, toSeller);
    ReachesNext(cfg, ledger, n, Act(C.BuyerStep), false);
    m := Apply(n, Act(C.BuyerStep));
  }

  // What the bus brings them.

  lemma Sends(t: B.Topic, id: nat, q: nat)
    requires !t.panicked && t.subs.Keys == {id} && Holding(t, id, {q}, [])
    ensures B.Enabled(t, B.FanOut(id, q))
    ensures var u := B.Apply(t, B.FanOut(id, q));
            !u.panicked && u.log == t.log && u.subs.Keys == {id} && Holding(u, id, {}, [q])
  {
    assert [] + [q] == [q];
  }

  lemma Gives(t: B.Topic, id: nat, q: nat)
    requires !t.panicked && t.subs.Keys == {id} && Holding(t, id, {}, [q])
    ensures B.Enabled(t, B.Receive(id))
    ensures var u := B.Apply(t, B.Receive(id));
            !u.panicked && u.log == t.log && u.subs.Keys == {id} && Holding(u, id, {}, [])
  {
    assert [q][1..] == [];
  }

  /** The response is what the buyer waits for. */
  lemma ResponseIsTaken(cfg: C.Config, ledger: E.Ledger, n: Net)
    requires CanSettle(cfg, ledger) && Reaches(cfg, ledger, n, false) && At(n, 2, 3, 1, 1) && Enabled(n, BuyerGets)
    requires n.toBuyer.subs[0].chan == [1]
    ensures var b := BuyerHears(n.w.buyer, n.w.cfg, n.w.toBuyer, 1); !b.failed && C.BRank(b.pc) == 3
  {
    OnCourseAt(cfg, ledger, n);
    BuyerGetsNext(n);
    ResponseIsNeeded(n.w);
    C.BuyerTakesWhatItNeeds(n.w, 0);
    BuyerHearsIsReceive(n.w, 1);
  }

  lemma ResponseIsNeeded(w: C.World)
    requires C.Posted(w) && C.SRank(w.seller.pc) == 3 && C.BRank(w.buyer.pc) == 2 && |w.toBuyer| == 1
    ensures C.BuyerNeeds(w, w.toBuyer[0])
  {
    var r :| r in w.toBuyer && r.Response? && C.IsFor(r, w.cfg.rid);
    assert w.toBuyer[0] == r;
  }

  /** The seller has thrown away the first message, so the second one is what it needs. */
  lemma AnnouncementIsNeeded(w: C.World)
    requires C.Posted(w) && C.NothingLost(w) && C.SRank(w.seller.pc) == 3 && C.BRank(w.buyer.pc) == 6
    requires |w.toSeller| == 2 && 0 in w.seller.seen
    ensures C.SellerNeeds(w, w.toSeller[1])
  {
    var r :| r in w.toSeller && r.Created? && C.IsFor(r, w.cfg.rid);
    assert C.SellerNeeds(w, r) && !C.SellerNeeds(w, w.toSeller[0]);
    assert r == w.toSeller[0] || r == w.toSeller[1];
  }

  lemma ResponseArrives(cfg: C.Config, ledger: E.Ledger, n: Net) returns (m: Net)
    requires CanSettle(cfg, ledger) && Reaches(cfg, ledger, n, false) && At(n, 2, 3, 1, 1) && Holding(n.toBuyer, 0, {1}, [])
    ensures Reaches(cfg, ledger, m, false) && At(m, 3, 3, 1, 1) && m.toSeller == n.toSeller && m.w.seller == n.w.seller
    ensures Holding(m.toBuyer, 0, {}, [])
  {
    Sends(n.toBuyer, 0, 1);
    ReachesNext(cfg, ledger, n, ToBuyer(B.FanOut(0, 1)), false);
    var l := n.(toBuyer := B.Apply(n.toBuyer, B.FanOut(0, 1)));
    assert l == Apply(n, ToBuyer(B.FanOut(0, 1)));
    Gives(l.toBuyer, 0, 1);
    ReachesNext(cfg, ledger, l, BuyerGets, false);
    ResponseIsTaken(cfg, ledger, l);
    m := BuyerGot(l);
  }

  /** The announcement of the escrow is what the seller waits for. */
  lemma AnnouncementIsTaken(cfg: C.Config, ledger: E.Ledger, n: Net)
    requires CanSettle(cfg, ledger) && Reaches(cfg, ledger, n, false) && At(n, 6, 3, 1, 2) && Enabled(n, SellerGets)
    requires n.toSeller.subs[1].chan == [2] && 0 in n.w.seller.seen
    ensures var s := SellerHears(n.w.seller, n.w.toSeller, 2); !s.failed && C.SRank(s.pc) == 4
  {
    OnCourseAt(cfg, ledger, n);
    SellerGetsNext(n);
    AnnouncementIsNeeded(n.w);
    C.SellerTakesWhatItNeeds(n.w, 1);
    SellerHearsIsReceive(n.w, 2);
  }

  lemma AnnouncementArrives(cfg: C.Config, ledger: E.Ledger, n: Net) returns (m: Net)
    requires CanSettle(cfg, ledger) && Reaches(cfg, ledger, n, false) && At(n, 6, 3, 1, 2) && Holding(n.toSeller, 1, {2}, [])
    requires 0 in n.w.seller.seen
    ensures Reaches(cfg, ledger, m, false) && At(m, 6, 4, 1, 2) && m.toBuyer == n.toBuyer
  {
    Sends(n.toSeller, 1, 2);
    ReachesNext(cfg, ledger, n, ToSeller(B.FanOut(1, 2)), false);
    var l := n.(toSeller := B.Apply(n.toSeller, B.FanOut(1, 2)));
    assert l == Apply(n, ToSeller(B.FanOut(1, 2)));
    Gives(l.toSeller, 1, 2);
    ReachesNext(cfg, ledger, l, SellerGets, false);
    AnnouncementIsTaken(cfg, ledger, l);
    m := SellerGot(l);
  }

  /** The invoice is in flight to the channel that the buyer has finished with. */
  lemma InvoiceInFlight(cfg: C.Config, ledger: E.Ledger) returns (n: Net)
    requires CanSettle(cfg, ledger)
    ensures Reaches(cfg, ledger, n, false) && At(n, 6, 7, 2, 2) && Holding(n.toBuyer, 0, {2}, [])
  {
    n := SellerBegins(cfg, ledger);
    n := SellerActs(cfg, ledger, n, 2, 2, 0, 1);
    n := ResponseArrives(cfg, ledger, n);
    n := BuyerActs(cfg, ledger, n, 3, 1, 1);
    n := BuyerActs(cfg, ledger, n, 4, 1, 1);
    n := BuyerActs(cfg, ledger, n, 5, 1, 1);
    n := AnnouncementArrives(cfg, ledger, n);
    n := SellerActs(cfg, ledger, n, 6, 4, 1, 2);
    n := SellerActs(cfg, ledger, n, 6, 5, 1, 2);
    n := SellerActs(cfg, ledger, n, 6, 6, 1, 2);
  }

  /** The buyer's call returns and cancels its subscription; the clean-up does not wait. */
  lemma CleanedUpEarly(cfg: C.Config, ledger: E.Ledger) returns (n: Net)
    requires CanSettle(cfg, ledger)
    ensures Reaches(cfg, ledger, n, false) && Enabled(n, ToBuyer(B.Clean(0))) && 2 in n.toBuyer.subs[0].inflight
  {
    n := InvoiceInFlight(cfg, ledger);
    ReachesNext(cfg, ledger, n, ToBuyer(B.Cancel(0)), false);
    n := Apply(n, ToBuyer(B.Cancel(0)));
  }

  lemma TwoMore(n: Net, a: Step, b: Step)
    requires Enabled(n, a) && Enabled(Apply(n, a), b)
    ensures IsRun(n, [a, b]) && End(n, [a, b]) == Apply(Apply(n, a), b)
  {
    ConsTail(a, [b]);
    RunCons(Apply(n, a), b, []);
    RunCons(n, a, [b]);
    assert [b] + [] == [b] && [a] + [b] == [a, b];
  }

  lemma {:induction false} NetRunConcat(n: Net, first: seq<Step>, second: seq<Step>)
    requires IsRun(n, first) && IsRun(End(n, first), second)
    ensures IsRun(n, first + second) && End(n, first + second) == End(End(n, first), second)
    decreases |first|
  {
    SumOfSeqs(first, second);
    if first != [] {
      NetRunConcat(Apply(n, first[0]), first[1..], second);
    }
  }

  /** In every configuration that can settle a session on its own, without a time-out or anybody else,
      can panic: the invoice is sent to the channel that BuyerNegotiateAndFund cancelled when it
      returned, after the clean-up has closed it. */
  lemma PlainSessionCanPanic(cfg: C.Config, ledger: E.Ledger) returns (steps: seq<Step>)
    requires CanSettle(cfg, ledger)
    ensures IsRun(Start(cfg, ledger), steps) && Plain(steps) && End(Start(cfg, ledger), steps).toBuyer.panicked
  {
    var n := CleanedUpEarly(cfg, ledger);
    var first :| LeadsTo(cfg, ledger, first, n) && Plain(first);
    var last := [ToBuyer(B.Clean(0)), ToBuyer(B.FanOut(0, 2))];
    TwoMore(n, last[0], last[1]);
    NetRunConcat(Start(cfg, ledger), first, last);
    steps := first + last;
  }
}
