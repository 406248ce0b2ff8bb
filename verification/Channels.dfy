/**
 The registry of delivery channels: connecting or accepting, looking up, disconnecting and
 reconnecting.

 The class holds the operations as each goroutine performs them.  The step system after it
 interleaves their critical sections: an id is allocated in one and registered in another, and a
 disconnect looks the channel up, moves its machine and removes it in three.
 */
module Channels {
  import opened Prelude
  import opened Connection

  datatype DeliveryError = DialFailed | InvalidMultiaddr | PeerIdMismatch | ChannelClosed

  /** How an attempt to connect goes, as far as the network decides it. */
  datatype Dial = BadPeerId | BadMultiaddr | Unreachable | WrongPeer | Dialled

  function DialError(dial: Dial): DeliveryError
    requires dial != Dialled
  {
    match dial
    case BadMultiaddr => InvalidMultiaddr
    case WrongPeer => PeerIdMismatch
    case _ => DialFailed
  }

  class ActiveChannel {
    const id: nat
    const machine: ConnectionStateMachine
    var streamOpen: bool

    constructor (id: nat, machine: ConnectionStateMachine)
      ensures this.id == id && this.machine == machine && streamOpen
    {
      this.id, this.machine, streamOpen := id, machine, true;
    }
  }

  class Libp2pAdapter {
    var channels: map<nat, ActiveChannel>
    var nextId: nat

    /** Channels are filed under their ids, which have been handed out, and share no machine. */
    ghost predicate Valid()
      reads this
    {
      && (forall id | id in channels :: channels[id].id == id && 1 <= id <= nextId && channels[id].machine.Valid())
      && (forall i, j | i in channels && j in channels && i != j :: channels[i] != channels[j] && channels[i].machine != channels[j].machine)
    }

    constructor ()
      ensures Valid() && channels == map[] && nextId == 0
    {
      channels, nextId := map[], 0;
    }

    /** Only a dial that reaches the expected peer registers a channel: a connected one, under an
        id that was never used before. */
    method Connect(dial: Dial) returns (r: Result<ActiveChannel, DeliveryError>)
      requires Valid()
      modifies this
      ensures Valid()
      ensures dial != Dialled ==> r == Err(DialError(dial)) && channels == old(channels) && nextId == old(nextId)
      ensures r == Err(InvalidMultiaddr) <==> dial == BadMultiaddr
      ensures r == Err(PeerIdMismatch) <==> dial == WrongPeer
      ensures r == Err(DialFailed) <==> dial == BadPeerId || dial == Unreachable
      ensures dial == Dialled ==>
                && r.Ok? && fresh(r.value) && fresh(r.value.machine)
                && r.value.id == nextId == old(nextId) + 1 && nextId !in old(channels)
                && channels == old(channels)[nextId := r.value]
                && r.value.machine.state == Connected && r.value.streamOpen
    {
      if dial == BadPeerId {
        return Err(DialFailed);
      }
      if dial == BadMultiaddr {
        return Err(InvalidMultiaddr);
      }
      var machine := new ConnectionStateMachine(false);
      var moved := machine.Transition(Event.Connect);
      if dial == Unreachable {
        moved := machine.Transition(DialFailAll);
        return Err(DialFailed);
      }
      if dial == WrongPeer {
        moved := machine.Transition(DialFailAll);
        return Err(PeerIdMismatch);
      }
      moved := machine.Transition(DialSuccess);
      var ch := RegisterChannel(machine);
      return Ok(ch);
    }

    /** An accepted stream is registered like a dialled one. */
    method HandleIncoming() returns (ch: ActiveChannel)
      requires Valid()
      modifies this
      ensures Valid() && fresh(ch) && fresh(ch.machine)
      ensures ch.id == nextId == old(nextId) + 1 && nextId !in old(channels)
      ensures channels == old(channels)[nextId := ch]
      ensures ch.machine.state == Connected && ch.streamOpen
    {
      var machine := new ConnectionStateMachine(false);
      var moved := machine.Transition(Event.Connect);
      moved := machine.Transition(DialSuccess);
      ch := RegisterChannel(machine);
    }

    method RegisterChannel(machine: ConnectionStateMachine) returns (ch: ActiveChannel)
      requires Valid() && machine.Valid() && forall id | id in channels :: channels[id].machine != machine
      modifies this
      ensures Valid() && fresh(ch)
      ensures ch.id == nextId == old(nextId) + 1 && nextId !in old(channels)
      ensures channels == old(channels)[nextId := ch] && ch.machine == machine && ch.streamOpen
    {
      nextId := nextId + 1;
      ch := new ActiveChannel(nextId, machine);
      channels := channels[nextId := ch];
    }

    method GetChannel(id: nat) returns (r: Result<ActiveChannel, DeliveryError>)
      ensures r == if id in channels then Ok(channels[id]) else Err(ChannelClosed)
    {
      if id in channels {
        return Ok(channels[id]);
      }
      return Err(ChannelClosed);
    }

    method GetStatus(id: nat) returns (s: State)
      ensures s == if id in channels then channels[id].machine.state else Disconnected
    {
      var ac := GetChannel(id);
      match ac
      case Ok(ch) => return ch.machine.state;
      case Err(_) => return Disconnected;
    }

    /** The channel is gone afterwards, whatever its machine made of the event. */
    method Disconnect(id: nat) returns (r: Result<bool, DeliveryError>)
      requires Valid()
      modifies this`channels, channels.Values, set ch | ch in channels.Values :: ch.machine
      ensures Valid() && channels == old(channels) - {id}
      ensures r == if id in old(channels) then Ok(true) else Err(ChannelClosed)
      ensures id in old(channels) ==>
                var ch := old(channels)[id];
                !ch.streamOpen && ch.machine.state == Moved(old(ch.machine.state), Event.Disconnect)
      ensures forall i | i in channels :: channels[i].streamOpen == old(channels[i].streamOpen) && channels[i].machine.state == old(channels[i].machine.state)
    {
      if id !in channels {
        assert channels - {id} == channels;
        return Err(ChannelClosed);
      }
      var ch := channels[id];
      ch.streamOpen := false;
      var moved := ch.machine.Transition(Event.Disconnect);
      channels := channels - {id};
      return Ok(true);
    }

    /** A reconnection loop is launched exactly for a registered channel that was connected. */
    method StartReconnection(id: nat) returns (launched: bool)
      requires Valid()
      modifies channels.Values, set ch | ch in channels.Values :: ch.machine
      ensures Valid()
      ensures launched <==> id in channels && old(channels[id].machine.state) in {Connected, Relaying}
      ensures launched ==> channels[id].machine.state == Reconnecting && !channels[id].streamOpen
      ensures forall i | i in channels && (i != id || !launched) ::
                channels[i].streamOpen == old(channels[i].streamOpen) && channels[i].machine.state == old(channels[i].machine.state)
    {
      if id !in channels {
        return false;
      }
      var ch := channels[id];
      var current := ch.machine.state;
      if current != Connected && current != Relaying {
        return false;
      }
      var moved := ch.machine.Transition(DropEvent(current));
      ch.streamOpen := false;
      return true;
    }
  }

  function DropEvent(s: State): Event
  {
    if s == Connected then TransportDrop else RelayDrop
  }

  // ----- interleavings

  datatype Phase = Opening | Registered | Removed

  /** A channel that got an id: the events its machine was offered and the loops running for it. */
  datatype Chan = Chan(offered: seq<Event>, loops: nat, phase: Phase)

  datatype Closer = Closer(id: nat, moved: bool)

  datatype Starter = Starter(id: nat, seen: State)

  /** `looked` are the channels that calls of StartReconnection have looked up, `starting` those whose
      state they have checked. */
  datatype Registry = Registry(
    nextId: nat, chans: map<nat, Chan>, closing: map<nat, Closer>, looked: map<nat, nat>, starting: map<nat, Starter>)

  /** StartReconnection looks the channel up, which may be removed meanwhile, checks its state, and
      launches.  Reconnect is the check and the launch at once; CheckReconnect and FireReconnect are
      these two taken apart, as goroutines that detect the same broken stream can interleave them. */
  datatype Step =
    | Allocate
    | Register(id: nat)
    | CloseLookup(op: nat, id: nat)
    | CloseMove(op: nat)
    | CloseRemove(op: nat)
    | LookupStart(op: nat, id: nat)
    | AbandonStart(op: nat)
    | Reconnect(op: nat)
    | CheckReconnect(op: nat)
    | FireReconnect(op: nat)
    | Redialled(id: nat)
    | GaveUp(id: nat)

  function StateOf(c: Chan): State
  {
    After(Idle, c.offered)
  }

  predicate IsRegistered(d: Registry, id: nat)
  {
    id in d.chans && d.chans[id].phase == Registered
  }

  function Lookup(d: Registry, id: nat): Result<Chan, DeliveryError>
  {
    if IsRegistered(d, id) then Ok(d.chans[id]) else Err(ChannelClosed)
  }

  function Status(d: Registry, id: nat): State
  {
    if IsRegistered(d, id) then StateOf(d.chans[id]) else Disconnected
  }

  predicate Enabled(d: Registry, step: Step)
  {
    match step
    case Allocate => true
    case Register(id) => id in d.chans && d.chans[id].phase == Opening
    case CloseLookup(op, id) => op !in d.closing && IsRegistered(d, id)
    case CloseMove(op) => op in d.closing && !d.closing[op].moved && d.closing[op].id in d.chans
    case CloseRemove(op) => op in d.closing && d.closing[op].moved && d.closing[op].id in d.chans
    case LookupStart(op, id) => op !in d.looked && op !in d.starting && IsRegistered(d, id)
    case AbandonStart(op) => op in d.looked && d.looked[op] in d.chans && !CanDrop(StateOf(d.chans[d.looked[op]]))
    case Reconnect(op) => op in d.looked && d.looked[op] in d.chans && CanDrop(StateOf(d.chans[d.looked[op]]))
    case CheckReconnect(op) => op in d.looked && d.looked[op] in d.chans && CanDrop(StateOf(d.chans[d.looked[op]]))
    case FireReconnect(op) => op in d.starting && d.starting[op].id in d.chans
    case Redialled(id) => id in d.chans && d.chans[id].loops > 0
    case GaveUp(id) => id in d.chans && d.chans[id].loops > 0
  }

  predicate CanDrop(s: State)
  {
    s == Connected || s == Relaying
  }

  /** A transport can drop exactly where the machine knows a way to RECONNECTING. */
  lemma DropsLeadToReconnecting(s: State)
    ensures CanDrop(s) <==> Next(s, TransportDrop) == Some(Reconnecting) || Next(s, RelayDrop) == Some(Reconnecting)
    ensures CanDrop(s) ==> Next(s, DropEvent(s)) == Some(Reconnecting)
  {
  }

  function Offered(c: Chan, e: Event): Chan
  {
    c.(offered := c.offered + [e])
  }

  /** The channel a step touches, and what becomes of it. */
  function Target(d: Registry, step: Step): nat
    requires Enabled(d, step)
  {
    match step
    case Allocate => d.nextId + 1
    case Register(id) => id
    case CloseLookup(_, id) => id
    case CloseMove(op) => d.closing[op].id
    case CloseRemove(op) => d.closing[op].id
    case LookupStart(_, id) => id
    case AbandonStart(op) => d.looked[op]
    case Reconnect(op) => d.looked[op]
    case CheckReconnect(op) => d.looked[op]
    case FireReconnect(op) => d.starting[op].id
    case Redialled(id) => id
    case GaveUp(id) => id
  }

  function Changed(d: Registry, step: Step): Chan
    requires Enabled(d, step)
  {
    if step.Allocate? then Chan([Event.Connect, DialSuccess], 0, Opening)
    else
      var c := d.chans[Target(d, step)];
      match step
      case Allocate => c
      case Register(_) => c.(phase := Registered)
      case CloseLookup(_, _) => c
      case CloseMove(_) => Offered(c, Event.Disconnect)
      case CloseRemove(_) => c.(phase := Removed)
      case Reconnect(_) => Offered(c, DropEvent(StateOf(c))).(loops := c.loops + 1)
      case LookupStart(_, _) => c
      case AbandonStart(_) => c
      case CheckReconnect(_) => c
      case FireReconnect(op) => Offered(c, DropEvent(d.starting[op].seen)).(loops := c.loops + 1)
      case Redialled(_) => Offered(c, ReconnectDirect).(loops := c.loops - 1)
      case GaveUp(_) => Offered(c, BackoffExhausted).(loops := c.loops - 1)
  }

  function Apply(d: Registry, step: Step): Registry
    requires Enabled(d, step)
  {
    var n := d.(chans := d.chans[Target(d, step) := Changed(d, step)]);
    match step
    case Allocate => n.(nextId := d.nextId + 1)
    case CloseLookup(op, id) => n.(closing := d.closing[op := Closer(id, false)])
    case CloseMove(op) => n.(closing := d.closing[op := d.closing[op].(moved := true)])
    case CloseRemove(op) => n.(closing := d.closing - {op})
    case LookupStart(op, id) => n.(looked := d.looked[op := id])
    case AbandonStart(op) => n.(looked := d.looked - {op})
    case Reconnect(op) => n.(looked := d.looked - {op})
    case CheckReconnect(op) =>
      n.(looked := d.looked - {op}, starting := d.starting[op := Starter(d.looked[op], StateOf(d.chans[d.looked[op]]))])
    case FireReconnect(op) => n.(starting := d.starting - {op})
    case _ => n
  }

  ghost predicate IsRun(d: Registry, steps: seq<Step>)
    decreases |steps|
  {
    steps == [] || (Enabled(d, steps[0]) && IsRun(Apply(d, steps[0]), steps[1..]))
  }

  ghost function End(d: Registry, steps: seq<Step>): Registry
    requires IsRun(d, steps)
    decreases |steps|
  {
    if steps == [] then d else End(Apply(d, steps[0]), steps[1..])
  }

  const START: Registry := Registry(0, map[], map[], map[], map[])

  // ----- what every run keeps

  /** One of three states, with a loop behind it whenever it is RECONNECTING. */
  predicate Sound(c: Chan)
  {
    && StateOf(c) in {Connected, Reconnecting, Disconnected}
    && (StateOf(c) == Reconnecting ==> c.loops >= 1)
  }

  ghost predicate Inv(d: Registry)
  {
    && (forall id | id in d.chans :: 1 <= id <= d.nextId && Sound(d.chans[id]))
    && (forall op | op in d.closing :: d.closing[op].id in d.chans && d.chans[d.closing[op].id].phase != Opening)
    && (forall op | op in d.looked :: d.looked[op] in d.chans)
    && (forall op | op in d.starting :: d.starting[op].id in d.chans && d.starting[op].seen == Connected)
  }

  lemma OfferMoves(c: Chan, e: Event)
    ensures StateOf(Offered(c, e)) == Moved(StateOf(c), e)
  {
    assert (c.offered + [e])[..|c.offered|] == c.offered;
  }

  lemma FreshChanIsConnected(c: Chan)
    requires c.offered == [Event.Connect, DialSuccess]
    ensures StateOf(c) == Connected
  {
    assert c.offered[..1] == [Event.Connect] && c.offered[..1][..0] == [];
    assert After(Idle, c.offered[..1]) == Connecting;
  }

  /** Launching a loop and ending one, and the event of a disconnect. */
  lemma LaunchIsSound(c: Chan)
    requires Sound(c)
    ensures Sound(Offered(c, DropEvent(Connected)).(loops := c.loops + 1))
  {
    OfferMoves(c, DropEvent(Connected));
  }

  lemma LoopEndIsSound(c: Chan, e: Event)
    requires Sound(c) && c.loops > 0 && (e == ReconnectDirect || e == BackoffExhausted)
    ensures Sound(Offered(c, e).(loops := c.loops - 1))
  {
    OfferMoves(c, e);
  }

  lemma DisconnectIsSound(c: Chan)
    requires Sound(c)
    ensures Sound(Offered(c, Event.Disconnect))
  {
    OfferMoves(c, Event.Disconnect);
  }

  lemma StaysSound(c: Chan, step: Step, d: Registry)
    requires Inv(d) && Enabled(d, step) && !step.Allocate? && c == d.chans[Target(d, step)] && Sound(c)
    ensures Sound(Changed(d, step))
  {
    match step
    case CloseMove(_) => DisconnectIsSound(c);
    case Reconnect(_) => LaunchIsSound(c);
    case FireReconnect(op) => LaunchIsSound(c);
    case Redialled(_) => LoopEndIsSound(c, ReconnectDirect);
    case GaveUp(_) => LoopEndIsSound(c, BackoffExhausted);
    case _ =>
  }

  lemma ChangedIsSound(d: Registry, step: Step)
    requires Inv(d) && Enabled(d, step)
    ensures Sound(Changed(d, step))
  {
    if step.Allocate? {
      FreshChanIsConnected(Changed(d, step));
    } else {
      StaysSound(d.chans[Target(d, step)], step, d);
    }
  }

  lemma StepKeeps(d: Registry, step: Step)
    requires Inv(d) && Enabled(d, step)
    ensures Inv(Apply(d, step))
  {
    ChangedIsSound(d, step);
    OnlyTargetChanges(d, step);
    var n := Apply(d, step);
    forall id | id in n.chans
      ensures 1 <= id <= n.nextId && Sound(n.chans[id])
    {
      assert id != Target(d, step) ==> id in d.chans && Sound(d.chans[id]);
    }
    ClosersAndStarters(d, step);
  }

  lemma ClosersAndStarters(d: Registry, step: Step)
    requires Inv(d) && Enabled(d, step)
    ensures var n := Apply(d, step);
            && (forall op | op in n.closing :: n.closing[op].id in n.chans && n.chans[n.closing[op].id].phase != Opening)
            && (forall op | op in n.looked :: n.looked[op] in n.chans)
            && (forall op | op in n.starting :: n.starting[op].id in n.chans && n.starting[op].seen == Connected)
  {
    ClosersStay(d, step);
    StartersStay(d, step);
  }

  lemma ClosersStay(d: Registry, step: Step)
    requires Inv(d) && Enabled(d, step)
    ensures var n := Apply(d, step);
            forall op | op in n.closing :: n.closing[op].id in n.chans && n.chans[n.closing[op].id].phase != Opening
  {
    OnlyTargetChanges(d, step);
    if !step.Allocate? {
      NeverOpeningAgain(d, step);
    }
  }

  lemma NeverOpeningAgain(d: Registry, step: Step)
    requires Enabled(d, step) && !step.Allocate?
    ensures d.chans[Target(d, step)].phase != Opening ==> Changed(d, step).phase != Opening
    ensures step.CloseLookup? ==> d.chans[step.id].phase != Opening
  {
  }

  lemma StartersStay(d: Registry, step: Step)
    requires Inv(d) && Enabled(d, step)
    ensures var n := Apply(d, step);
            && (forall op | op in n.looked :: n.looked[op] in n.chans)
            && (forall op | op in n.starting :: n.starting[op].id in n.chans && n.starting[op].seen == Connected)
  {
    if step.CheckReconnect? {
      assert Sound(d.chans[d.looked[step.op]]);
    }
  }

  lemma {:induction false} RunKeeps(d: Registry, steps: seq<Step>)
    requires Inv(d) && IsRun(d, steps)
    ensures Inv(End(d, steps))
    decreases |steps|
  {
    if steps != [] {
      StepKeeps(d, steps[0]);
      RunKeeps(Apply(d, steps[0]), steps[1..]);
    }
  }

  /** In every reachable state: a channel that is looked up is CONNECTED, RECONNECTING or
      DISCONNECTED, every machine's accepted events are a path of the table, and a RECONNECTING
      one has a loop that will move it on. */
  lemma ReachableChannels(steps: seq<Step>, id: nat)
    requires IsRun(START, steps) && id in End(START, steps).chans
    ensures var c := End(START, steps).chans[id];
            && StateOf(c) in {Connected, Reconnecting, Disconnected}
            && IsPath(Idle, Accepted(Idle, c.offered), StateOf(c))
            && (StateOf(c) == Reconnecting ==> Enabled(End(START, steps), Redialled(id)))
  {
    RunKeeps(START, steps);
    AcceptedEventsArePath(Idle, End(START, steps).chans[id].offered);
  }

  /** An id that is handed out was never used before. */
  lemma IdsAreFresh(steps: seq<Step>)
    requires IsRun(START, steps)
    ensures Target(End(START, steps), Allocate) !in End(START, steps).chans
  {
    RunKeeps(START, steps);
  }

  predicate IsRemoved(d: Registry, id: nat)
  {
    id in d.chans && d.chans[id].phase == Removed
  }

  lemma RemovedStays(d: Registry, step: Step, id: nat)
    requires Inv(d) && Enabled(d, step) && IsRemoved(d, id)
    ensures IsRemoved(Apply(d, step), id)
  {
  }

  lemma {:induction false} RemovedForever(d: Registry, steps: seq<Step>, id: nat)
    requires Inv(d) && IsRun(d, steps) && IsRemoved(d, id)
    ensures IsRemoved(End(d, steps), id)
    decreases |steps|
  {
    if steps != [] {
      StepKeeps(d, steps[0]);
      RemovedStays(d, steps[0], id);
      RemovedForever(Apply(d, steps[0]), steps[1..], id);
    }
  }

  /** Once a disconnect has finished, in every later state of every run the channel reads
      DISCONNECTED and sending or receiving on it fails with a closed channel. */
  lemma DisconnectIsFinal(before: seq<Step>, op: nat, after: seq<Step>)
    requires IsRun(START, before) && Enabled(End(START, before), CloseRemove(op))
    requires IsRun(Apply(End(START, before), CloseRemove(op)), after)
    ensures var id := End(START, before).closing[op].id;
            var d := End(Apply(End(START, before), CloseRemove(op)), after);
            Status(d, id) == Disconnected && Lookup(d, id) == Err(ChannelClosed)
  {
    RunKeeps(START, before);
    var d := End(START, before);
    StepKeeps(d, CloseRemove(op));
    RemovedForever(Apply(d, CloseRemove(op)), after, d.closing[op].id);
  }

  // ----- the machine of a disconnected channel

  lemma {:induction false} MachineStaysDown(d: Registry, steps: seq<Step>, id: nat)
    requires Inv(d) && IsRun(d, steps) && id in d.chans && StateOf(d.chans[id]) == Disconnected
    ensures id in End(d, steps).chans && StateOf(End(d, steps).chans[id]) == Disconnected
    decreases |steps|
  {
    if steps != [] {
      StepKeeps(d, steps[0]);
      DownAfterStep(d, steps[0], id);
      MachineStaysDown(Apply(d, steps[0]), steps[1..], id);
    }
  }

  lemma DownAfterStep(d: Registry, step: Step, id: nat)
    requires Inv(d) && Enabled(d, step) && id in d.chans && StateOf(d.chans[id]) == Disconnected
    ensures id in Apply(d, step).chans && StateOf(Apply(d, step).chans[id]) == Disconnected
  {
    if Target(d, step) == id {
      ChangedStaysDown(d, step);
    }
  }

  lemma ChangedStaysDown(d: Registry, step: Step)
    requires Enabled(d, step) && !step.Allocate? && StateOf(d.chans[Target(d, step)]) == Disconnected
    ensures StateOf(Changed(d, step)) == Disconnected
  {
    var c := d.chans[Target(d, step)];
    match step
    case CloseMove(_) => OfferMoves(c, Event.Disconnect);
    case FireReconnect(op) => OfferMoves(c, DropEvent(d.starting[op].seen));
    case Redialled(_) => OfferMoves(c, ReconnectDirect);
    case GaveUp(_) => OfferMoves(c, BackoffExhausted);
    case _ =>
  }

  ghost predicate DownFromNowOn(d: Registry, id: nat)
  {
    forall steps: seq<Step> | IsRun(d, steps) :: id in End(d, steps).chans && StateOf(End(d, steps).chans[id]) == Disconnected
  }

  /** The machine of a channel that is being disconnected agrees with its reported status from the
      moment it is offered the event exactly when it was not RECONNECTING then. */
  lemma MachineGoesDownIff(d: Registry, op: nat)
    requires Inv(d) && Enabled(d, CloseMove(op))
    ensures DownFromNowOn(Apply(d, CloseMove(op)), d.closing[op].id) <==> StateOf(d.chans[d.closing[op].id]) != Reconnecting
  {
    var id := d.closing[op].id;
    var n := Apply(d, CloseMove(op));
    OfferMoves(d.chans[id], Event.Disconnect);
    assert Sound(d.chans[id]);
    StepKeeps(d, CloseMove(op));
    if StateOf(d.chans[id]) != Reconnecting {
      forall steps: seq<Step> | IsRun(n, steps)
        ensures id in End(n, steps).chans && StateOf(End(n, steps).chans[id]) == Disconnected
      {
        MachineStaysDown(n, steps, id);
      }
    } else {
      assert IsRun(n, []) && End(n, []) == n;
    }
  }

  /** Otherwise the loop can still bring it up: the channel reads DISCONNECTED while its machine,
      on a new stream, is CONNECTED. */
  lemma DisconnectedWhileReconnecting(d: Registry, op: nat) returns (steps: seq<Step>)
    requires Inv(d) && Enabled(d, CloseMove(op)) && StateOf(d.chans[d.closing[op].id]) == Reconnecting
    ensures steps == [CloseMove(op)] + ([CloseRemove(op)] + [Redialled(d.closing[op].id)])
    ensures IsRun(d, steps) && d.closing[op].id in End(d, steps).chans
    ensures Status(End(d, steps), d.closing[op].id) == Disconnected
    ensures StateOf(End(d, steps).chans[d.closing[op].id]) == Connected
  {
    var id := d.closing[op].id;
    assert Sound(d.chans[id]);
    OfferMoves(d.chans[id], Event.Disconnect);
    var d1 := Apply(d, CloseMove(op));
    assert StateOf(d1.chans[id]) == Reconnecting && d1.chans[id].loops >= 1;
    var d2 := RemoveThenRedial(d1, op);
    RunCons(d1, CloseRemove(op), [Redialled(id)]);
    RunCons(d, CloseMove(op), [CloseRemove(op)] + [Redialled(id)]);
    steps := [CloseMove(op)] + ([CloseRemove(op)] + [Redialled(id)]);
  }

  lemma RemoveThenRedial(d: Registry, op: nat) returns (d2: Registry)
    requires Enabled(d, CloseRemove(op))
    requires StateOf(d.chans[d.closing[op].id]) == Reconnecting && d.chans[d.closing[op].id].loops >= 1
    ensures var id := d.closing[op].id;
            && d2 == Apply(d, CloseRemove(op)) && IsRun(d2, [Redialled(id)])
            && id in End(d2, [Redialled(id)]).chans
            && IsRemoved(End(d2, [Redialled(id)]), id)
            && StateOf(End(d2, [Redialled(id)]).chans[id]) == Connected
  {
    var id := d.closing[op].id;
    d2 := Apply(d, CloseRemove(op));
    OfferMoves(d2.chans[id], ReconnectDirect);
    RunCons(d2, Redialled(id), []);
    assert [Redialled(id)] + [] == [Redialled(id)];
  }

  // ----- one loop per channel

  /** No StartReconnection was interrupted between its check and its launch. */
  predicate Atomic(steps: seq<Step>)
  {
    steps == [] || (!steps[0].CheckReconnect? && Atomic(steps[1..]))
  }

  predicate OneLoop(c: Chan)
  {
    c.loops == if StateOf(c) == Reconnecting then 1 else 0
  }

  ghost predicate AllOneLoop(d: Registry)
  {
    forall id | id in d.chans :: OneLoop(d.chans[id])
  }

  lemma ChangedHasOneLoop(d: Registry, step: Step)
    requires Enabled(d, step) && !step.FireReconnect?
    requires !step.Allocate? ==> OneLoop(d.chans[Target(d, step)]) && Sound(d.chans[Target(d, step)])
    ensures OneLoop(Changed(d, step))
  {
    if step.Allocate? {
      FreshChanIsConnected(Changed(d, step));
    } else {
      var c := d.chans[Target(d, step)];
      match step
      case CloseMove(_) => OfferMoves(c, Event.Disconnect);
      case Reconnect(_) => OfferMoves(c, DropEvent(StateOf(c)));
      case Redialled(_) => OfferMoves(c, ReconnectDirect);
      case GaveUp(_) => OfferMoves(c, BackoffExhausted);
      case _ =>
    }
  }

  lemma StepKeepsOneLoop(d: Registry, step: Step)
    requires Inv(d) && AllOneLoop(d) && Enabled(d, step) && !step.FireReconnect?
    ensures AllOneLoop(Apply(d, step))
  {
    if !step.Allocate? {
      assert OneLoop(d.chans[Target(d, step)]) && Sound(d.chans[Target(d, step)]);
    }
    ChangedHasOneLoop(d, step);
    OnlyTargetChanges(d, step);
    var n := Apply(d, step);
    forall id | id in n.chans
      ensures OneLoop(n.chans[id])
    {
      assert id != Target(d, step) ==> OneLoop(d.chans[id]);
    }
  }

  lemma OnlyTargetChanges(d: Registry, step: Step)
    requires Enabled(d, step)
    ensures Apply(d, step).chans == d.chans[Target(d, step) := Changed(d, step)]
    ensures Apply(d, step).nextId == if step.Allocate? then d.nextId + 1 else d.nextId
    ensures !step.CheckReconnect? && !step.FireReconnect? ==> Apply(d, step).starting == d.starting
  {
  }

  lemma {:induction false} AtomicRunKeeps(d: Registry, steps: seq<Step>)
    requires Inv(d) && AllOneLoop(d) && d.starting == map[] && IsRun(d, steps) && Atomic(steps)
    ensures AllOneLoop(End(d, steps))
    decreases |steps|
  {
    if steps != [] {
      StepKeeps(d, steps[0]);
      StepKeepsOneLoop(d, steps[0]);
      OnlyTargetChanges(d, steps[0]);
      AtomicRunKeeps(Apply(d, steps[0]), steps[1..]);
    }
  }

  /** With StartReconnection atomic, a channel has exactly one loop while it is RECONNECTING and
      none otherwise, registered or not. */
  lemma OneLoopWhileReconnecting(steps: seq<Step>, id: nat)
    requires IsRun(START, steps) && Atomic(steps) && id in End(START, steps).chans
    ensures OneLoop(End(START, steps).chans[id])
  {
    AtomicRunKeeps(START, steps);
  }

  /** Taken apart, its launch is the only loop of the channel exactly when the state is still the
      one that was checked. */
  lemma FireKeepsOneLoopIff(d: Registry, op: nat)
    requires Inv(d) && Enabled(d, FireReconnect(op)) && OneLoop(d.chans[d.starting[op].id])
    ensures OneLoop(Apply(d, FireReconnect(op)).chans[d.starting[op].id]) <==>
            StateOf(d.chans[d.starting[op].id]) == d.starting[op].seen
  {
    var c := d.chans[d.starting[op].id];
    assert Sound(c);
    OfferMoves(c, DropEvent(d.starting[op].seen));
  }

  /** Every launch in a run finds its channel in the state that was checked. */
  ghost predicate LaunchesAsChecked(d: Registry, steps: seq<Step>)
    requires IsRun(d, steps)
    decreases |steps|
  {
    steps == [] || (LaunchAsChecked(d, steps[0]) && LaunchesAsChecked(Apply(d, steps[0]), steps[1..]))
  }

  predicate LaunchAsChecked(d: Registry, step: Step)
    requires Enabled(d, step)
  {
    step.FireReconnect? ==> StateOf(d.chans[d.starting[step.op].id]) == d.starting[step.op].seen
  }

  ghost predicate AlwaysOneLoop(d: Registry, steps: seq<Step>)
    requires IsRun(d, steps)
    decreases |steps|
  {
    AllOneLoop(d) && (steps == [] || AlwaysOneLoop(Apply(d, steps[0]), steps[1..]))
  }

  lemma StepOneLoopIff(d: Registry, step: Step)
    requires Inv(d) && AllOneLoop(d) && Enabled(d, step)
    ensures AllOneLoop(Apply(d, step)) <==> LaunchAsChecked(d, step)
  {
    if step.FireReconnect? {
      var id := d.starting[step.op].id;
      FireKeepsOneLoopIff(d, step.op);
      OnlyTargetChanges(d, step);
      assert id == Target(d, step) && id in Apply(d, step).chans;
    } else {
      StepKeepsOneLoop(d, step);
    }
  }

  /** Over every run: in each of its states every channel, registered or not, has exactly one loop
      while it is RECONNECTING and none otherwise, if and only if every launch finds the state that
      was checked. */
  lemma {:induction false} OneLoopIff(d: Registry, steps: seq<Step>)
    requires Inv(d) && AllOneLoop(d) && IsRun(d, steps)
    ensures AlwaysOneLoop(d, steps) <==> LaunchesAsChecked(d, steps)
    decreases |steps|
  {
    if steps != [] {
      StepKeeps(d, steps[0]);
      StepOneLoopIff(d, steps[0]);
      if LaunchAsChecked(d, steps[0]) {
        OneLoopIff(Apply(d, steps[0]), steps[1..]);
      }
    }
  }

  /** In particular from the start. */
  lemma OneLoopFromStartIff(steps: seq<Step>)
    requires IsRun(START, steps)
    ensures AlwaysOneLoop(START, steps) <==> LaunchesAsChecked(START, steps)
  {
    OneLoopIff(START, steps);
  }

  /** So two goroutines that see the same broken stream can leave two loops re-dialling one peer. */
  lemma TwoLoopsReachable() returns (steps: seq<Step>)
    ensures IsRun(START, steps) && 1 in End(START, steps).chans && End(START, steps).chans[1].loops == 2
  {
    var d := Apply(Apply(START, Allocate), Register(1));
    FreshChanIsConnected(d.chans[1]);
    var more := TwoLaunches(d, 1);
    RunCons(Apply(START, Allocate), Register(1), more);
    RunCons(START, Allocate, [Register(1)] + more);
    steps := [Allocate] + ([Register(1)] + more);
  }

  /** On any connected channel without a loop. */
  lemma TwoLaunches(d: Registry, id: nat) returns (steps: seq<Step>)
    requires id in d.chans && StateOf(d.chans[id]) == Connected && d.chans[id].loops == 0 && IsRegistered(d, id)
    requires d.looked == map[] && d.starting == map[]
    ensures IsRun(d, steps) && id in End(d, steps).chans && End(d, steps).chans[id].loops == 2
  {
    var d2 := Apply(Apply(d, LookupStart(1, id)), LookupStart(2, id));
    var d4 := Apply(Apply(d2, CheckReconnect(1)), CheckReconnect(2));
    var last := LaunchBoth(d4, id);
    RunCons(Apply(d2, CheckReconnect(1)), CheckReconnect(2), last);
    RunCons(d2, CheckReconnect(1), [CheckReconnect(2)] + last);
    var rest := [CheckReconnect(1)] + ([CheckReconnect(2)] + last);
    RunCons(Apply(d, LookupStart(1, id)), LookupStart(2, id), rest);
    RunCons(d, LookupStart(1, id), [LookupStart(2, id)] + rest);
    steps := [LookupStart(1, id)] + ([LookupStart(2, id)] + rest);
  }

  lemma LaunchBoth(d: Registry, id: nat) returns (steps: seq<Step>)
    requires id in d.chans && StateOf(d.chans[id]) == Connected && d.chans[id].loops == 0
    requires d.starting == map[1 := Starter(id, Connected), 2 := Starter(id, Connected)]
    ensures IsRun(d, steps) && id in End(d, steps).chans && End(d, steps).chans[id].loops == 2
  {
    RunCons(Apply(d, FireReconnect(1)), FireReconnect(2), []);
    RunCons(d, FireReconnect(1), [FireReconnect(2)] + []);
    steps := [FireReconnect(1)] + ([FireReconnect(2)] + []);
  }

  lemma RunCons(d: Registry, step: Step, rest: seq<Step>)
    requires Enabled(d, step) && IsRun(Apply(d, step), rest)
    ensures IsRun(d, [step] + rest) && End(d, [step] + rest) == End(Apply(d, step), rest)
  {
    ConsTail(step, rest);
  }
}
