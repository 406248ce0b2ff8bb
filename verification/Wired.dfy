/**
 The two parties of Commerce on the topics of Bus: what a party hears is what the channel of its
 current subscription gives it, after replay, fan-out, and with the bounded buffers in between.

 Every run of the wired system is a run of Commerce, so its safety theorems hold here too.  Its
 progress theorem holds as long as no topic carries more messages than a channel holds; then the
 parties and the bus alone always reach settlement, and cannot miss it.  Limits shows what happens
 beyond that.
 */
module Wired {
  import opened Prelude
  import C = Commerce
  import B = Bus
  import E = Escrow

  datatype Net = Net(w: C.World, toSeller: B.Topic, toBuyer: B.Topic, buyerSub: nat, sellerSub: nat, nextSub: nat)

  /** A step of a party or of others that is not a delivery; a send or a replay of the bus; a
      delivery to a party. */
  datatype Step = Act(step: C.Step) | ToBuyer(wire: B.Step) | ToSeller(wire: B.Step) | BuyerGets | SellerGets

  /** What the bus does on its own; a subscription is cancelled only when its party has done with it. */
  predicate IsWire(step: B.Step, inUse: Option<nat>)
  {
    match step
    case FanOut(_, _) => true
    case Replay(_) => true
    case Clean(_) => true
    case Cancel(id) => inUse != Some(id)
    case _ => false
  }

  function BuyersSub(n: Net): Option<nat>
  {
    if C.BuyerWaits(n.w.buyer.pc) then Some(n.buyerSub) else None
  }

  function SellersSub(n: Net): Option<nat>
  {
    if SellerListens(n.w.seller.pc) then Some(n.sellerSub) else None
  }

  /** The seller's subscription outlives the request it waited for. */
  predicate SellerListens(pc: C.SellerPc)
  {
    C.SellerWaits(pc) || pc == C.SRespond
  }

  predicate Enabled(n: Net, step: Step)
  {
    !n.toBuyer.panicked && !n.toSeller.panicked &&
    match step
    case Act(s) => C.Enabled(n.w, s) && !s.BuyerReceive? && !s.SellerReceive?
    case ToBuyer(s) => IsWire(s, BuyersSub(n)) && B.Enabled(n.toBuyer, s)
    case ToSeller(s) => IsWire(s, SellersSub(n)) && B.Enabled(n.toSeller, s)
    case BuyerGets => !n.w.buyer.failed && C.BuyerWaits(n.w.buyer.pc) && B.Enabled(n.toBuyer, B.Receive(n.buyerSub))
    case SellerGets => !n.w.seller.failed && C.SellerWaits(n.w.seller.pc) && B.Enabled(n.toSeller, B.Receive(n.sellerSub))
  }

  /** The topic after a step that may have published to it. */
  function Logged(t: B.Topic, before: seq<C.Msg>, after: seq<C.Msg>): B.Topic
    requires !t.panicked
  {
    if |after| > |before| then B.Apply(t, B.Publish) else t
  }

  /** The topic with a new subscription, from the start of the log. */
  function Subscribed(t: B.Topic, id: nat): B.Topic
  {
    t.(subs := t.subs[id := B.NewSub(t.log, 0)])
  }

  predicate BuyerOpens(w: C.World, step: C.Step)
  {
    step.BuyerStep? && w.buyer.pc in {C.BSubscribe, C.BFunded}
  }

  predicate SellerOpens(w: C.World, step: C.Step)
  {
    step.SellerStep? && w.seller.pc in {C.SStart, C.SSubscribe}
  }

  ghost function Acted(n: Net, s: C.Step): Net
    requires Enabled(n, Act(s))
  {
    var v := C.Apply(n.w, s);
    if BuyerOpens(n.w, s) then
      n.(w := v, toBuyer := Subscribed(n.toBuyer, n.nextSub), buyerSub := n.nextSub, nextSub := n.nextSub + 1)
    else if SellerOpens(n.w, s) then
      n.(w := v, toSeller := Subscribed(n.toSeller, n.nextSub), sellerSub := n.nextSub, nextSub := n.nextSub + 1)
    else
      n.(w := v, toSeller := Logged(n.toSeller, n.w.toSeller, v.toSeller), toBuyer := Logged(n.toBuyer, n.w.toBuyer, v.toBuyer))
  }

  /** The message with a sequence number. */
  function Numbered(log: seq<C.Msg>, q: int): Option<C.Msg>
  {
    if 1 <= q <= |log| then Some(log[q - 1]) else None
  }

  function BuyerHears(b: C.Buyer, cfg: C.Config, log: seq<C.Msg>, q: int): C.Buyer
  {
    match Numbered(log, q)
    case None => b
    case Some(m) => C.BuyerTakes(b.(seen := b.seen + {q - 1}), cfg, m)
  }

  function SellerHears(s: C.Seller, log: seq<C.Msg>, q: int): C.Seller
  {
    match Numbered(log, q)
    case None => s
    case Some(m) => C.SellerTakes(s.(seen := s.seen + {q - 1}), m)
  }

  function BuyerGot(n: Net): Net
    requires B.Enabled(n.toBuyer, B.Receive(n.buyerSub))
  {
    var b := BuyerHears(n.w.buyer, n.w.cfg, n.w.toBuyer, n.toBuyer.subs[n.buyerSub].chan[0]);
    n.(toBuyer := B.Apply(n.toBuyer, B.Receive(n.buyerSub)), w := n.w.(buyer := b))
  }

  function SellerGot(n: Net): Net
    requires B.Enabled(n.toSeller, B.Receive(n.sellerSub))
  {
    var s := SellerHears(n.w.seller, n.w.toSeller, n.toSeller.subs[n.sellerSub].chan[0]);
    n.(toSeller := B.Apply(n.toSeller, B.Receive(n.sellerSub)), w := n.w.(seller := s))
  }

  ghost function Apply(n: Net, step: Step): Net
    requires Enabled(n, step)
  {
    match step
    case Act(s) => Acted(n, s)
    case ToBuyer(s) => n.(toBuyer := B.Apply(n.toBuyer, s))
    case ToSeller(s) => n.(toSeller := B.Apply(n.toSeller, s))
    case BuyerGets => BuyerGot(n)
    case SellerGets => SellerGot(n)
  }

  /** The step of Commerce it amounts to. */
  function InCommerce(n: Net, step: Step): seq<C.Step>
    requires Enabled(n, step)
  {
    match step
    case Act(s) => [s]
    case ToBuyer(_) => []
    case ToSeller(_) => []
    case BuyerGets =>
      var q := n.toBuyer.subs[n.buyerSub].chan[0];
      if q >= 1 then [C.BuyerReceive(q - 1)] else []
    case SellerGets =>
      var q := n.toSeller.subs[n.sellerSub].chan[0];
      if q >= 1 then [C.SellerReceive(q - 1)] else []
  }

  ghost predicate IsRun(n: Net, steps: seq<Step>)
    decreases |steps|
  {
    steps == [] || (Enabled(n, steps[0]) && IsRun(Apply(n, steps[0]), steps[1..]))
  }

  ghost function End(n: Net, steps: seq<Step>): Net
    requires IsRun(n, steps)
    decreases |steps|
  {
    if steps == [] then n else End(Apply(n, steps[0]), steps[1..])
  }

  ghost function AllInCommerce(n: Net, steps: seq<Step>): seq<C.Step>
    requires IsRun(n, steps)
    decreases |steps|
  {
    if steps == [] then [] else InCommerce(n, steps[0]) + AllInCommerce(Apply(n, steps[0]), steps[1..])
  }

  function Start(cfg: C.Config, ledger: E.Ledger): Net
  {
    Net(C.Init(cfg, ledger), B.EMPTY, B.EMPTY, 0, 0, 0)
  }

  // ----- what couples the two

  /** Exactly the messages a subscription has given are those the party has seen. */
  ghost predicate HasSeen(seen: set<nat>, s: B.Sub)
  {
    forall i: nat :: i in seen <==> i + 1 in s.received
  }

  /** The bus carries exactly the log, to channels that want it from its start, and drops nothing as
      long as the log is short. */
  ghost predicate Carries(t: B.Topic, log: seq<C.Msg>, nextSub: nat)
  {
    && t.log == |log| && B.Inv(t)
    && (forall id | id in t.subs :: id < nextSub && t.subs[id].from == 0)
    && NothingDropped(t)
  }

  predicate Open(s: B.Sub)
  {
    !s.closed && !s.cancelled
  }

  ghost predicate Listening(t: B.Topic, id: nat, seen: set<nat>)
  {
    id in t.subs && Open(t.subs[id]) && HasSeen(seen, t.subs[id])
  }

  ghost predicate Coupled(n: Net)
  {
    && Carries(n.toBuyer, n.w.toBuyer, n.nextSub) && Carries(n.toSeller, n.w.toSeller, n.nextSub)
    && (C.BuyerWaits(n.w.buyer.pc) ==> Listening(n.toBuyer, n.buyerSub, n.w.buyer.seen))
    && (SellerListens(n.w.seller.pc) ==> Listening(n.toSeller, n.sellerSub, n.w.seller.seen))
  }

  /** The channel stays open and has given the same. */
  ghost predicate Stays(t: B.Topic, u: B.Topic, id: nat)
  {
    id in t.subs && Open(t.subs[id]) ==> id in u.subs && Open(u.subs[id]) && u.subs[id].received == t.subs[id].received
  }

  ghost predicate NothingDropped(t: B.Topic)
  {
    t.log <= B.CHANNEL_CAPACITY ==> forall id | id in t.subs :: t.subs[id].dropped == []
  }

  lemma SendFindsRoom(t: B.Topic, id: nat, q: int)
    requires B.Inv(t) && B.Enabled(t, B.FanOut(id, q)) && t.log <= B.CHANNEL_CAPACITY
    ensures B.HasRoom(t.subs[id])
  {
    B.ShortLogLeavesRoom(t.subs[id], q, t.log);
  }

  /** Sends, replays, cancellations and clean-ups take nothing away from a channel in use. */
  lemma WireFrame(t: B.Topic, wire: B.Step, inUse: Option<nat>)
    requires IsWire(wire, inUse) && B.Enabled(t, wire)
    ensures var u := B.Apply(t, wire);
            && u.log == t.log && u.subs.Keys == t.subs.Keys && (forall id | id in t.subs :: u.subs[id].from == t.subs[id].from)
            && (inUse.Some? ==> Stays(t, u, inUse.value))
  {
  }

  lemma WireDropsNothing(t: B.Topic, wire: B.Step, inUse: Option<nat>)
    requires B.Inv(t) && NothingDropped(t) && IsWire(wire, inUse) && B.Enabled(t, wire)
    ensures NothingDropped(B.Apply(t, wire))
  {
    if t.log <= B.CHANNEL_CAPACITY {
      match wire {
        case FanOut(id, q) => SendFindsRoom(t, id, q);
        case _ =>
      }
    }
  }

  lemma WireKeeps(t: B.Topic, log: seq<C.Msg>, nextSub: nat, wire: B.Step, inUse: Option<nat>)
    requires Carries(t, log, nextSub) && IsWire(wire, inUse) && B.Enabled(t, wire)
    ensures Carries(B.Apply(t, wire), log, nextSub)
    ensures inUse.Some? ==> Stays(t, B.Apply(t, wire), inUse.value)
  {
    B.StepKeeps(t, wire);
    WireFrame(t, wire, inUse);
    WireDropsNothing(t, wire, inUse);
  }

  lemma LoggedKeeps(t: B.Topic, before: seq<C.Msg>, after: seq<C.Msg>, nextSub: nat, id: nat)
    requires !t.panicked && Carries(t, before, nextSub) && |before| <= |after| <= |before| + 1
    ensures Carries(Logged(t, before, after), after, nextSub)
    ensures Stays(t, Logged(t, before, after), id)
  {
    if |after| > |before| {
      B.StepKeeps(t, B.Publish);
    }
  }

  lemma OpenedKeeps(t: B.Topic, log: seq<C.Msg>, nextSub: nat)
    requires !t.panicked && Carries(t, log, nextSub)
    ensures var u := Subscribed(t, nextSub);
            Carries(u, log, nextSub + 1) && Listening(u, nextSub, {})
  {
    assert nextSub !in t.subs;
    B.StepKeeps(t, B.Subscribe(nextSub, 0));
  }

  /** A delivery is a message of the log that this subscription has not given before. */
  lemma DeliveryIsNew(s: B.Sub, log: nat)
    requires B.SubInv(s, log) && s.chan != []
    ensures 1 <= s.chan[0] <= log && s.chan[0] !in s.received
  {
    var q := s.chan[0];
    assert s.chan == [q] + s.chan[1..];
    assert multiset(s.chan)[q] >= 1;
    assert B.Places(s)[q] <= 1;
    assert q in B.Expected(s) by {
      assert B.Places(s)[q] >= 1;
    }
  }

  lemma ReceiveCarries(t: B.Topic, log: seq<C.Msg>, nextSub: nat, id: nat)
    requires Carries(t, log, nextSub) && B.Enabled(t, B.Receive(id))
    ensures Carries(B.Apply(t, B.Receive(id)), log, nextSub)
  {
    B.StepKeeps(t, B.Receive(id));
  }

  lemma ReceiveGives(t: B.Topic, id: nat, seen: set<nat>, after: set<nat>)
    requires Listening(t, id, seen) && B.Enabled(t, B.Receive(id)) && t.subs[id].chan[0] >= 1
    requires after == seen + {t.subs[id].chan[0] - 1}
    ensures Listening(B.Apply(t, B.Receive(id)), id, after)
  {
    SeenGrows(seen, t.subs[id], B.Apply(t, B.Receive(id)).subs[id], t.subs[id].chan[0]);
  }

  lemma SeenGrows(seen: set<nat>, s: B.Sub, u: B.Sub, q: int)
    requires HasSeen(seen, s) && q >= 1 && u.received == s.received + [q]
    ensures HasSeen(seen + {q - 1}, u)
  {
  }

  // ----- what the steps of the parties do to the topics

  lemma BuyerStepFrame(w: C.World)
    requires C.Enabled(w, C.BuyerStep)
    ensures var v := C.Apply(w, C.BuyerStep);
            v.seller == w.seller && v.toBuyer == w.toBuyer && |w.toSeller| <= |v.toSeller| <= |w.toSeller| + 1
  {
  }

  lemma BuyerWaitsOnce(w: C.World)
    requires C.Enabled(w, C.BuyerStep)
    ensures var v := C.Apply(w, C.BuyerStep);
            && (BuyerOpens(w, C.BuyerStep) ==> v.toSeller == w.toSeller && v.buyer.seen == {})
            && (C.BuyerWaits(v.buyer.pc) ==> BuyerOpens(w, C.BuyerStep))
  {
  }

  lemma SellerLeavesBuyer(w: C.World)
    requires C.Enabled(w, C.SellerStep)
    ensures C.Apply(w, C.SellerStep).buyer == w.buyer && C.Apply(w, C.SellerStep).toSeller == w.toSeller
  {
  }

  lemma SellerStepFrame(w: C.World)
    requires C.Enabled(w, C.SellerStep)
    ensures |w.toBuyer| <= |C.Apply(w, C.SellerStep).toBuyer| <= |w.toBuyer| + 1
  {
  }

  lemma SellerOpensOne(w: C.World)
    requires C.Enabled(w, C.SellerStep) && SellerOpens(w, C.SellerStep)
    ensures C.Apply(w, C.SellerStep).toBuyer == w.toBuyer && C.Apply(w, C.SellerStep).seller.seen == {}
  {
  }

  lemma SellerKeepsListening(w: C.World)
    requires C.Enabled(w, C.SellerStep) && !SellerOpens(w, C.SellerStep)
    ensures var s, t := w.seller, C.Apply(w, C.SellerStep).seller;
            SellerListens(t.pc) ==> SellerListens(s.pc) && t.seen == s.seen
  {
  }

  lemma OtherStepFrame(w: C.World, s: C.Step)
    requires C.Enabled(w, s) && !s.BuyerStep? && !s.SellerStep? && !s.BuyerReceive? && !s.SellerReceive?
    ensures var v := C.Apply(w, s);
            && |w.toBuyer| <= |v.toBuyer| <= |w.toBuyer| + 1 && |w.toSeller| <= |v.toSeller| <= |w.toSeller| + 1
            && v.buyer.pc == w.buyer.pc && v.buyer.seen == w.buyer.seen
            && v.seller.pc == w.seller.pc && v.seller.seen == w.seller.seen
  {
  }

  lemma BuyerStepKeeps(n: Net)
    requires Coupled(n) && Enabled(n, Act(C.BuyerStep))
    ensures Coupled(Acted(n, C.BuyerStep))
  {
    BuyerStepFrame(n.w);
    BuyerWaitsOnce(n.w);
    var v := C.Apply(n.w, C.BuyerStep);
    if BuyerOpens(n.w, C.BuyerStep) {
      OpenedKeeps(n.toBuyer, n.w.toBuyer, n.nextSub);
    } else {
      LoggedKeeps(n.toSeller, n.w.toSeller, v.toSeller, n.nextSub, n.sellerSub);
    }
  }

  lemma SellerStepKeeps(n: Net)
    requires Coupled(n) && Enabled(n, Act(C.SellerStep))
    ensures Coupled(Acted(n, C.SellerStep))
  {
    SellerStepFrame(n.w);
    SellerLeavesBuyer(n.w);
    var v := C.Apply(n.w, C.SellerStep);
    if SellerOpens(n.w, C.SellerStep) {
      SellerOpensOne(n.w);
      OpenedKeeps(n.toSeller, n.w.toSeller, n.nextSub);
    } else {
      SellerKeepsListening(n.w);
      LoggedKeeps(n.toBuyer, n.w.toBuyer, v.toBuyer, n.nextSub, n.buyerSub);
    }
  }

  lemma OtherStepKeeps(n: Net, s: C.Step)
    requires Coupled(n) && Enabled(n, Act(s)) && !s.BuyerStep? && !s.SellerStep?
    ensures Coupled(Acted(n, s))
  {
    OtherStepFrame(n.w, s);
    var v := C.Apply(n.w, s);
    LoggedKeeps(n.toBuyer, n.w.toBuyer, v.toBuyer, n.nextSub, n.buyerSub);
    LoggedKeeps(n.toSeller, n.w.toSeller, v.toSeller, n.nextSub, n.sellerSub);
  }

  lemma BuyerHearsOne(p: C.Buyer, cfg: C.Config, log: seq<C.Msg>, q: int)
    requires C.BuyerWaits(p.pc) && 1 <= q <= |log|
    ensures BuyerHears(p, cfg, log, q).seen == p.seen + {q - 1}
  {
  }

  /** A delivery to the buyer is a delivery step of Commerce. */
  lemma BuyerHearsIsReceive(w: C.World, q: int)
    requires q >= 1 && C.Enabled(w, C.BuyerReceive(q - 1))
    ensures C.Apply(w, C.BuyerReceive(q - 1)) == w.(buyer := BuyerHears(w.buyer, w.cfg, w.toBuyer, q))
  {
  }

  lemma BuyerGetsNext(n: Net)
    requires Coupled(n) && Enabled(n, BuyerGets)
    ensures var q := n.toBuyer.subs[n.buyerSub].chan[0];
            q >= 1 && C.Enabled(n.w, C.BuyerReceive(q - 1))
  {
    var s := n.toBuyer.subs[n.buyerSub];
    assert B.SubInv(s, n.toBuyer.log);
    DeliveryIsNew(s, n.toBuyer.log);
  }

  lemma BuyerRecoupled(n: Net, u: B.Topic, p: C.Buyer)
    requires Coupled(n) && Carries(u, n.w.toBuyer, n.nextSub)
    requires Listening(u, n.buyerSub, p.seen)
    ensures Coupled(n.(toBuyer := u, w := n.w.(buyer := p)))
  {
  }

  lemma BuyerGetsKeeps(n: Net)
    requires Coupled(n) && C.BuyerWaits(n.w.buyer.pc) && B.Enabled(n.toBuyer, B.Receive(n.buyerSub))
    requires 1 <= n.toBuyer.subs[n.buyerSub].chan[0] <= |n.w.toBuyer|
    ensures Coupled(BuyerGot(n))
  {
    var q, u := n.toBuyer.subs[n.buyerSub].chan[0], B.Apply(n.toBuyer, B.Receive(n.buyerSub));
    var p := BuyerHears(n.w.buyer, n.w.cfg, n.w.toBuyer, q);
    assert Carries(u, n.w.toBuyer, n.nextSub) by {
      ReceiveCarries(n.toBuyer, n.w.toBuyer, n.nextSub, n.buyerSub);
    }
    assert Listening(u, n.buyerSub, p.seen) by {
      BuyerHearsOne(n.w.buyer, n.w.cfg, n.w.toBuyer, q);
      ReceiveGives(n.toBuyer, n.buyerSub, n.w.buyer.seen, p.seen);
    }
    BuyerRecoupled(n, u, p);
    assert BuyerGot(n) == n.(toBuyer := u, w := n.w.(buyer := p));
  }

  lemma SellerHearsOne(p: C.Seller, log: seq<C.Msg>, q: int)
    requires C.SellerWaits(p.pc) && 1 <= q <= |log|
    ensures SellerHears(p, log, q).seen == p.seen + {q - 1}
  {
  }

  /** A delivery to the seller is a delivery step of Commerce. */
  lemma SellerHearsIsReceive(w: C.World, q: int)
    requires q >= 1 && C.Enabled(w, C.SellerReceive(q - 1))
    ensures C.Apply(w, C.SellerReceive(q - 1)) == w.(seller := SellerHears(w.seller, w.toSeller, q))
  {
  }

  lemma SellerGetsNext(n: Net)
    requires Coupled(n) && Enabled(n, SellerGets)
    ensures var q := n.toSeller.subs[n.sellerSub].chan[0];
            q >= 1 && C.Enabled(n.w, C.SellerReceive(q - 1))
  {
    var s := n.toSeller.subs[n.sellerSub];
    assert B.SubInv(s, n.toSeller.log);
    DeliveryIsNew(s, n.toSeller.log);
  }

  lemma SellerRecoupled(n: Net, u: B.Topic, p: C.Seller)
    requires Coupled(n) && Carries(u, n.w.toSeller, n.nextSub)
    requires Listening(u, n.sellerSub, p.seen)
    ensures Coupled(n.(toSeller := u, w := n.w.(seller := p)))
  {
  }

  lemma SellerGetsKeeps(n: Net)
    requires Coupled(n) && C.SellerWaits(n.w.seller.pc) && B.Enabled(n.toSeller, B.Receive(n.sellerSub))
    requires 1 <= n.toSeller.subs[n.sellerSub].chan[0] <= |n.w.toSeller|
    ensures Coupled(SellerGot(n))
  {
    var q, u := n.toSeller.subs[n.sellerSub].chan[0], B.Apply(n.toSeller, B.Receive(n.sellerSub));
    var p := SellerHears(n.w.seller, n.w.toSeller, q);
    assert Carries(u, n.w.toSeller, n.nextSub) by {
      ReceiveCarries(n.toSeller, n.w.toSeller, n.nextSub, n.sellerSub);
    }
    assert Listening(u, n.sellerSub, p.seen) by {
      SellerHearsOne(n.w.seller, n.w.toSeller, q);
      ReceiveGives(n.toSeller, n.sellerSub, n.w.seller.seen, p.seen);
    }
    SellerRecoupled(n, u, p);
    assert SellerGot(n) == n.(toSeller := u, w := n.w.(seller := p));
  }

  lemma ActKeeps(n: Net, s: C.Step)
    requires Coupled(n) && Enabled(n, Act(s))
    ensures Coupled(Acted(n, s))
  {
    match s
    case BuyerStep => BuyerStepKeeps(n);
    case SellerStep => SellerStepKeeps(n);
    case _ => OtherStepKeeps(n, s);
  }

  lemma StepKeeps(n: Net, step: Step)
    requires Coupled(n) && Enabled(n, step)
    ensures Coupled(Apply(n, step))
    ensures C.IsRun(n.w, InCommerce(n, step)) && C.End(n.w, InCommerce(n, step)) == Apply(n, step).w
  {
    match step
    case Act(s) =>
      ActKeeps(n, s);
      OneStep(n.w, s);
    case ToBuyer(s) => WireKeeps(n.toBuyer, n.w.toBuyer, n.nextSub, s, BuyersSub(n));
    case ToSeller(s) => WireKeeps(n.toSeller, n.w.toSeller, n.nextSub, s, SellersSub(n));
    case BuyerGets =>
      BuyerGetsNext(n);
      BuyerHearsIsReceive(n.w, n.toBuyer.subs[n.buyerSub].chan[0]);
      BuyerGetsKeeps(n);
      OneStep(n.w, C.BuyerReceive(n.toBuyer.subs[n.buyerSub].chan[0] - 1));
    case SellerGets =>
      SellerGetsNext(n);
      SellerHearsIsReceive(n.w, n.toSeller.subs[n.sellerSub].chan[0]);
      SellerGetsKeeps(n);
      OneStep(n.w, C.SellerReceive(n.toSeller.subs[n.sellerSub].chan[0] - 1));
  }

  lemma OneStep(w: C.World, s: C.Step)
    requires C.Enabled(w, s)
    ensures C.IsRun(w, [s]) && C.End(w, [s]) == C.Apply(w, s)
  {
    var v := C.Apply(w, s);
    assert [s][1..] == [];
    assert C.IsRun(v, []) && C.End(v, []) == v;
  }

  lemma {:induction false} RunConcat(w: C.World, first: seq<C.Step>, second: seq<C.Step>)
    requires C.IsRun(w, first) && C.IsRun(C.End(w, first), second)
    ensures C.IsRun(w, first + second) && C.End(w, first + second) == C.End(C.End(w, first), second)
    decreases |first|
  {
    SumOfSeqs(first, second);
    if first != [] {
      RunConcat(C.Apply(w, first[0]), first[1..], second);
    }
  }

  lemma {:induction false} RunKeeps(n: Net, steps: seq<Step>)
    requires Coupled(n) && IsRun(n, steps)
    ensures Coupled(End(n, steps))
    ensures C.IsRun(n.w, AllInCommerce(n, steps)) && C.End(n.w, AllInCommerce(n, steps)) == End(n, steps).w
    decreases |steps|
  {
    if steps != [] {
      StepKeeps(n, steps[0]);
      RunKeeps(Apply(n, steps[0]), steps[1..]);
      RunConcat(n.w, InCommerce(n, steps[0]), AllInCommerce(Apply(n, steps[0]), steps[1..]));
    }
  }

  lemma StartCoupled(cfg: C.Config, ledger: E.Ledger)
    ensures Coupled(Start(cfg, ledger))
  {
  }

  /** Every run over the bus, whatever is sent, replayed and delivered when, is a run of Commerce: its
      safety theorems hold over the bus. */
  lemma BusRunsAreRuns(cfg: C.Config, ledger: E.Ledger, steps: seq<Step>)
    requires IsRun(Start(cfg, ledger), steps)
    ensures var all := AllInCommerce(Start(cfg, ledger), steps);
            C.IsRun(C.Init(cfg, ledger), all) && C.End(C.Init(cfg, ledger), all) == End(Start(cfg, ledger), steps).w
  {
    StartCoupled(cfg, ledger);
    RunKeeps(Start(cfg, ledger), steps);
  }

  // ----- no deadlock over the bus

  ghost predicate Faultless(n: Net, step: Step)
    requires Enabled(n, step)
  {
    match step
    case Act(s) => C.Faultless(s)
    case ToBuyer(wire) => wire.Clean? ==> B.NothingInFlight(n.toBuyer.subs[wire.id])
    case ToSeller(wire) => wire.Clean? ==> B.NothingInFlight(n.toSeller.subs[wire.id])
    case _ => true
  }

  /** A step of a party, or of the bus on the subscription a party is using. */
  predicate OfTheSession(n: Net, step: Step)
  {
    match step
    case Act(s) => C.PartyStep(s)
    case ToBuyer(wire) => (wire.FanOut? || wire.Replay?) && BuyersSub(n) == Some(wire.id)
    case ToSeller(wire) => (wire.FanOut? || wire.Replay?) && SellersSub(n) == Some(wire.id)
    case _ => true
  }

  /** No time-outs, and no clean-up closes a channel to which a publication in progress still has to
      send. */
  ghost predicate FaultlessRun(n: Net, steps: seq<Step>)
    requires IsRun(n, steps)
    decreases |steps|
  {
    steps == [] || (Faultless(n, steps[0]) && FaultlessRun(Apply(n, steps[0]), steps[1..]))
  }

  ghost predicate Calm(n: Net)
  {
    B.NoLateSends(n.toBuyer) && B.NoLateSends(n.toSeller)
  }

  lemma CalmTopic(t: B.Topic, wire: B.Step)
    requires B.NoLateSends(t) && B.Enabled(t, wire)
    requires wire.Clean? ==> B.NothingInFlight(t.subs[wire.id])
    ensures B.NoLateSends(B.Apply(t, wire))
  {
  }

  lemma FaultlessStepKeeps(n: Net, step: Step)
    requires Calm(n) && Enabled(n, step) && Faultless(n, step)
    ensures Calm(Apply(n, step))
    ensures forall s | s in InCommerce(n, step) :: C.Faultless(s)
  {
    match step
    case Act(s) =>
      CalmTopic(n.toBuyer, B.Publish);
      CalmTopic(n.toSeller, B.Publish);
    case ToBuyer(s) => CalmTopic(n.toBuyer, s);
    case ToSeller(s) => CalmTopic(n.toSeller, s);
    case BuyerGets => CalmTopic(n.toBuyer, B.Receive(n.buyerSub));
    case SellerGets => CalmTopic(n.toSeller, B.Receive(n.sellerSub));
  }

  lemma {:induction false} FaultlessRunKeeps(n: Net, steps: seq<Step>)
    requires Calm(n) && IsRun(n, steps) && FaultlessRun(n, steps)
    ensures Calm(End(n, steps))
    ensures forall s | s in AllInCommerce(n, steps) :: C.Faultless(s)
    decreases |steps|
  {
    if steps != [] {
      FaultlessStepKeeps(n, steps[0]);
      FaultlessRunKeeps(Apply(n, steps[0]), steps[1..]);
    }
  }

  /** A party step of Commerce can be made, or brought nearer by the bus. */
  lemma PartyStepIsPossible(n: Net, s: C.Step) returns (step: Step)
    requires Coupled(n) && C.Enabled(n.w, s) && C.PartyStep(s) && !n.toBuyer.panicked && !n.toSeller.panicked
    requires n.toBuyer.log <= B.CHANNEL_CAPACITY && n.toSeller.log <= B.CHANNEL_CAPACITY
    ensures Enabled(n, step) && OfTheSession(n, step)
  {
    match s
    case BuyerReceive(i) =>
      var sub := n.toBuyer.subs[n.buyerSub];
      assert B.SubInv(sub, n.toBuyer.log) && Open(sub);
      assert i + 1 in B.Expected(sub);
      var wire := B.OnItsWay(n.toBuyer, n.buyerSub, i + 1);
      step := if wire == B.Receive(n.buyerSub) then BuyerGets else ToBuyer(wire);
    case SellerReceive(i) =>
      var sub := n.toSeller.subs[n.sellerSub];
      assert B.SubInv(sub, n.toSeller.log) && Open(sub);
      assert i + 1 in B.Expected(sub);
      var wire := B.OnItsWay(n.toSeller, n.sellerSub, i + 1);
      step := if wire == B.Receive(n.sellerSub) then SellerGets else ToSeller(wire);
    case _ => step := Act(s);
  }

  /** Over the bus too: in a configuration that can settle, without time-outs or early clean-ups, and
      as long as neither topic carries more messages than a channel holds, nobody fails, and after
      any run a party or the bus can go on until both parties have settled. */
  lemma NoDeadlockOverTheBus(cfg: C.Config, ledger: E.Ledger, steps: seq<Step>)
    requires C.ValidBuyerConfig(cfg) && E.Sound(ledger) && C.CanSettle(cfg)
    requires IsRun(Start(cfg, ledger), steps) && FaultlessRun(Start(cfg, ledger), steps)
    requires var n := End(Start(cfg, ledger), steps);
             n.toBuyer.log <= B.CHANNEL_CAPACITY && n.toSeller.log <= B.CHANNEL_CAPACITY
    ensures var n := End(Start(cfg, ledger), steps);
            && !n.w.buyer.failed && !n.w.seller.failed && !n.toBuyer.panicked && !n.toSeller.panicked
            && (C.BothSettled(n.w) || exists step :: Enabled(n, step) && OfTheSession(n, step))
  {
    var n := End(Start(cfg, ledger), steps);
    StartCoupled(cfg, ledger);
    RunKeeps(Start(cfg, ledger), steps);
    FaultlessRunKeeps(Start(cfg, ledger), steps);
    C.NoDeadlock(cfg, ledger, AllInCommerce(Start(cfg, ledger), steps));
    if !C.BothSettled(n.w) {
      var s :| C.Enabled(n.w, s) && C.PartyStep(s);
      var step := PartyStepIsPossible(n, s);
    }
  }

  // ----- and settlement is always in reach

  /** What the parties still have to publish. */
  function DueToSeller(pc: C.BuyerPc): nat
  {
    if C.BRank(pc) < 1 then 3 else if C.BRank(pc) < 6 then 2 else if C.BRank(pc) < 10 then 1 else 0
  }

  function DueToBuyer(pc: C.SellerPc): nat
  {
    if C.SRank(pc) < 3 then 2 else if C.SRank(pc) < 7 then 1 else 0
  }

  /** Each topic, with what is still due on it, fits into a channel. */
  predicate Fits(w: C.World)
  {
    && |w.toBuyer| + DueToBuyer(w.seller.pc) <= B.CHANNEL_CAPACITY
    && |w.toSeller| + DueToSeller(w.buyer.pc) <= B.CHANNEL_CAPACITY
  }

  lemma BuyerStepFits(w: C.World)
    requires Fits(w) && C.Enabled(w, C.BuyerStep) && !C.Apply(w, C.BuyerStep).buyer.failed
    ensures Fits(C.Apply(w, C.BuyerStep))
  {
    BuyerStepFrame(w);
  }

  lemma SellerStepFits(w: C.World)
    requires Fits(w) && C.Enabled(w, C.SellerStep) && !C.Apply(w, C.SellerStep).seller.failed
    ensures Fits(C.Apply(w, C.SellerStep))
  {
    SellerLeavesBuyer(w);
  }

  lemma PartyStepFits(w: C.World, s: C.Step)
    requires Fits(w) && C.Enabled(w, s) && C.PartyStep(s) && C.NobodyFailed(C.Apply(w, s))
    ensures Fits(C.Apply(w, s))
  {
    match s
    case BuyerStep => BuyerStepFits(w);
    case SellerStep => SellerStepFits(w);
    case BuyerReceive(i) => C.BuyerTakesOneStep(w.buyer.(seen := w.buyer.seen + {i}), w.cfg, w.toBuyer[i]);
    case SellerReceive(i) => C.SellerTakesOneStep(w.seller.(seen := w.seller.seen + {i}), w.toSeller[i]);
  }

  /** A step of the session is a party step of Commerce or leaves the parties alone. */
  lemma SessionStepInCommerce(n: Net, step: Step) returns (s: Option<C.Step>)
    requires Coupled(n) && Enabled(n, step) && OfTheSession(n, step)
    ensures step.ToBuyer? || step.ToSeller? ==> s.None?
    ensures s.None? ==> Apply(n, step).w == n.w && (step.ToBuyer? || step.ToSeller?)
    ensures s.Some? ==> C.Enabled(n.w, s.value) && C.PartyStep(s.value) && Apply(n, step).w == C.Apply(n.w, s.value)
  {
    match step
    case Act(c) => s := Some(c);
    case ToBuyer(_) => s := None;
    case ToSeller(_) => s := None;
    case BuyerGets =>
      BuyerGetsNext(n);
      var q := n.toBuyer.subs[n.buyerSub].chan[0];
      BuyerHearsIsReceive(n.w, q);
      s := Some(C.BuyerReceive(q - 1));
    case SellerGets =>
      SellerGetsNext(n);
      var q := n.toSeller.subs[n.sellerSub].chan[0];
      SellerHearsIsReceive(n.w, q);
      s := Some(C.SellerReceive(q - 1));
  }

  /** What the bus still has to put into the channels in use. */
  function Underway(t: B.Topic, sub: Option<nat>): nat
  {
    if sub.Some? && sub.value in t.subs then |t.subs[sub.value].replay| + |t.subs[sub.value].inflight| else 0
  }

  function Work(n: Net): nat
  {
    Underway(n.toBuyer, BuyersSub(n)) + Underway(n.toSeller, SellersSub(n))
  }

  lemma WireWorks(t: B.Topic, id: nat, wire: B.Step)
    requires B.Enabled(t, wire) && (wire.FanOut? || wire.Replay?) && wire.id == id && !t.subs[id].closed
    ensures Underway(B.Apply(t, wire), Some(id)) < Underway(t, Some(id))
  {
  }

  lemma SessionWireWorks(n: Net, step: Step)
    requires Coupled(n) && Enabled(n, step) && OfTheSession(n, step) && (step.ToBuyer? || step.ToSeller?)
    ensures Work(Apply(n, step)) < Work(n)
  {
    if step.ToBuyer? {
      WireWorks(n.toBuyer, n.buyerSub, step.wire);
    } else {
      WireWorks(n.toSeller, n.sellerSub, step.wire);
    }
  }

  /** Nothing has gone wrong, and there is room for what is still to be said. */
  ghost predicate OnCourse(n: Net)
  {
    Coupled(n) && Calm(n) && C.OnCourse(n.w) && Fits(n.w)
  }

  lemma PartyStepOnCourse(w: C.World, s: C.Step)
    requires C.OnCourse(w) && Fits(w) && C.Enabled(w, s) && C.PartyStep(s)
    ensures C.OnCourse(C.Apply(w, s)) && Fits(C.Apply(w, s)) && C.Potential(C.Apply(w, s)) < C.Potential(w)
  {
    C.StepKeeps(w, s);
    C.StepKeepsLive(w, s);
    C.PartyStepCosts(w, s);
    assert C.NobodyFailed(C.Apply(w, s));
    PartyStepFits(w, s);
  }

  /** Every step of the session keeps the course and costs something of a bounded supply. */
  lemma SessionStepKeepsCourse(n: Net, step: Step)
    requires OnCourse(n) && Enabled(n, step) && OfTheSession(n, step)
    ensures OnCourse(Apply(n, step))
    ensures C.Potential(Apply(n, step).w) < C.Potential(n.w)
            || (C.Potential(Apply(n, step).w) == C.Potential(n.w) && Work(Apply(n, step)) < Work(n))
  {
    StepKeeps(n, step);
    FaultlessStepKeeps(n, step);
    var s := SessionStepInCommerce(n, step);
    if s.Some? {
      PartyStepOnCourse(n.w, s.value);
    } else {
      SessionWireWorks(n, step);
    }
  }

  lemma CanGoOn(n: Net) returns (step: Step)
    requires OnCourse(n) && !C.BothSettled(n.w)
    ensures Enabled(n, step) && OfTheSession(n, step)
  {
    var s := C.Progress(n.w);
    step := PartyStepIsPossible(n, s);
  }

  ghost predicate SessionRun(n: Net, steps: seq<Step>)
    requires IsRun(n, steps)
    decreases |steps|
  {
    steps == [] || (OfTheSession(n, steps[0]) && SessionRun(Apply(n, steps[0]), steps[1..]))
  }

  lemma RunCons(n: Net, step: Step, rest: seq<Step>)
    requires Enabled(n, step) && IsRun(Apply(n, step), rest)
    ensures IsRun(n, [step] + rest) && End(n, [step] + rest) == End(Apply(n, step), rest)
    ensures OfTheSession(n, step) && SessionRun(Apply(n, step), rest) ==> SessionRun(n, [step] + rest)
  {
    ConsTail(step, rest);
  }

  lemma {:induction false} Finish(n: Net) returns (steps: seq<Step>)
    requires OnCourse(n)
    ensures IsRun(n, steps) && SessionRun(n, steps) && C.BothSettled(End(n, steps).w)
    decreases C.Potential(n.w), Work(n)
  {
    C.OnCoursePotential(n.w);
    if C.BothSettled(n.w) {
      steps := [];
    } else {
      var step := CanGoOn(n);
      SessionStepKeepsCourse(n, step);
      var rest := Finish(Apply(n, step));
      RunCons(n, step, rest);
      steps := [step] + rest;
    }
  }

  lemma FaultlessRunsStayOnCourse(cfg: C.Config, ledger: E.Ledger, steps: seq<Step>)
    requires C.ValidBuyerConfig(cfg) && E.Sound(ledger) && C.CanSettle(cfg)
    requires IsRun(Start(cfg, ledger), steps) && FaultlessRun(Start(cfg, ledger), steps)
    requires Fits(End(Start(cfg, ledger), steps).w)
    ensures OnCourse(End(Start(cfg, ledger), steps))
  {
    StartCoupled(cfg, ledger);
    RunKeeps(Start(cfg, ledger), steps);
    FaultlessRunKeeps(Start(cfg, ledger), steps);
    C.StartOnCourse(cfg, ledger);
    C.FaultlessRunsStayOnCourse(C.Init(cfg, ledger), AllInCommerce(Start(cfg, ledger), steps));
  }

  /** After any run free of faults, with room left on the topics for what is still due, the parties
      and the bus alone can bring both sides to settlement. */
  lemma SettlementStaysInReach(cfg: C.Config, ledger: E.Ledger, steps: seq<Step>) returns (rest: seq<Step>)
    requires C.ValidBuyerConfig(cfg) && E.Sound(ledger) && C.CanSettle(cfg)
    requires IsRun(Start(cfg, ledger), steps) && FaultlessRun(Start(cfg, ledger), steps)
    requires Fits(End(Start(cfg, ledger), steps).w)
    ensures var n := End(Start(cfg, ledger), steps);
            IsRun(n, rest) && SessionRun(n, rest) && C.BothSettled(End(n, rest).w)
  {
    FaultlessRunsStayOnCourse(cfg, ledger, steps);
    rest := Finish(End(Start(cfg, ledger), steps));
  }

  lemma UnderwayIsBounded(t: B.Topic, sub: Option<nat>)
    requires B.Inv(t)
    ensures Underway(t, sub) <= t.log
  {
    if sub.Some? && sub.value in t.subs {
      var s := t.subs[sub.value];
      assert B.SubInv(s, t.log);
      B.PlacesSize(s, t.log);
    }
  }

  lemma {:induction false} SessionRunsAreBounded(n: Net, rest: seq<Step>)
    requires OnCourse(n) && IsRun(n, rest) && SessionRun(n, rest)
    ensures OnCourse(End(n, rest))
    ensures |rest| <= (2 * B.CHANNEL_CAPACITY + 1) * C.Potential(n.w) + Work(n)
    decreases |rest|
  {
    C.OnCoursePotential(n.w);
    if rest != [] {
      var m := Apply(n, rest[0]);
      SessionStepKeepsCourse(n, rest[0]);
      SessionRunsAreBounded(m, rest[1..]);
      UnderwayIsBounded(m.toBuyer, BuyersSub(m));
      UnderwayIsBounded(m.toSeller, SellersSub(m));
    }
  }

  ghost predicate Stuck(n: Net)
  {
    forall step :: Enabled(n, step) ==> !OfTheSession(n, step)
  }

  lemma SettledIsStuck(n: Net)
    requires C.BothSettled(n.w)
    ensures Stuck(n)
  {
  }

  lemma UnsettledIsNotStuck(n: Net)
    requires OnCourse(n) && !C.BothSettled(n.w)
    ensures !Stuck(n)
  {
    var step := CanGoOn(n);
  }

  /** Nor can they miss it: the parties and the bus alone can go on for a bounded number of steps
      only, and when they cannot go on, both sides have settled. */
  lemma SettlementCannotBeMissed(cfg: C.Config, ledger: E.Ledger, steps: seq<Step>, rest: seq<Step>)
    requires C.ValidBuyerConfig(cfg) && E.Sound(ledger) && C.CanSettle(cfg)
    requires IsRun(Start(cfg, ledger), steps) && FaultlessRun(Start(cfg, ledger), steps)
    requires var n := End(Start(cfg, ledger), steps);
             Fits(n.w) && IsRun(n, rest) && SessionRun(n, rest)
    ensures var n := End(Start(cfg, ledger), steps);
            && |rest| <= (2 * B.CHANNEL_CAPACITY + 1) * C.Potential(n.w) + Work(n)
            && (Stuck(End(n, rest)) <==> C.BothSettled(End(n, rest).w))
  {
    FaultlessRunsStayOnCourse(cfg, ledger, steps);
    var n := End(Start(cfg, ledger), steps);
    SessionRunsAreBounded(n, rest);
    var m := End(n, rest);
    if C.BothSettled(m.w) {
      SettledIsStuck(m);
    } else {
      UnsettledIsNotStuck(m);
    }
  }
}
