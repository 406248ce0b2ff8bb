/** The lifecycle state machine of a delivery connection. */
module Connection {
  import opened Prelude
  import opened Tables

  datatype State = Idle | Connecting | Connected | Reconnecting | Relaying | Disconnected

  datatype Event =
    | Connect | DialSuccess | DialFailRelay | DialFailAll | TransportDrop | DCUtRSuccess | RelayDrop
    | ReconnectDirect | ReconnectRelay | BackoffExhausted | Disconnect | FatalError

  const DIALLING: seq<Row<State, Event>> := [
    Row(Idle, Connect, Connecting),
    Row(Connecting, DialSuccess, Connected),
    Row(Connecting, DialFailRelay, Relaying),
    Row(Connecting, DialFailAll, Disconnected),
    Row(Connected, TransportDrop, Reconnecting)]

  const RELAYING: seq<Row<State, Event>> := [
    Row(Relaying, DCUtRSuccess, Connected),
    Row(Relaying, RelayDrop, Reconnecting),
    Row(Reconnecting, ReconnectDirect, Connected),
    Row(Reconnecting, ReconnectRelay, Relaying),
    Row(Reconnecting, BackoffExhausted, Disconnected)]

  const CLOSING: seq<Row<State, Event>> := [
    Row(Connected, Disconnect, Disconnected),
    Row(Connected, FatalError, Disconnected),
    Row(Relaying, Disconnect, Disconnected),
    Row(Relaying, FatalError, Disconnected)]

  const TRANSITIONS: seq<Row<State, Event>> := DIALLING + RELAYING + CLOSING

  /** The rules of the table, event by event. */
  function Next(s: State, e: Event): Option<State>
  {
    match e
    case Connect => if s == Idle then Some(Connecting) else None
    case DialSuccess => if s == Connecting then Some(Connected) else None
    case DialFailRelay => if s == Connecting then Some(Relaying) else None
    case DialFailAll => if s == Connecting then Some(Disconnected) else None
    case TransportDrop => if s == Connected then Some(Reconnecting) else None
    case DCUtRSuccess => if s == Relaying then Some(Connected) else None
    case RelayDrop => if s == Relaying then Some(Reconnecting) else None
    case ReconnectDirect => if s == Reconnecting then Some(Connected) else None
    case ReconnectRelay => if s == Reconnecting then Some(Relaying) else None
    case BackoffExhausted => if s == Reconnecting then Some(Disconnected) else None
    case _ => if s == Connected || s == Relaying then Some(Disconnected) else None
  }

  predicate Closing(e: Event)
  {
    e == Disconnect || e == FatalError
  }

  predicate Dialling(r: Row<State, Event>)
  {
    r.from == Idle || r.from == Connecting || r.event == TransportDrop
  }

  lemma DiallingRows(r: Row<State, Event>)
    ensures r in DIALLING <==> Next(r.from, r.event) == Some(r.to) && !Closing(r.event) && Dialling(r)
  {
  }

  lemma RelayingRows(r: Row<State, Event>)
    ensures r in RELAYING <==> Next(r.from, r.event) == Some(r.to) && !Closing(r.event) && !Dialling(r)
  {
  }

  lemma ClosingRows(r: Row<State, Event>)
    ensures r in CLOSING <==> Next(r.from, r.event) == Some(r.to) && Closing(r.event)
  {
  }

  /** The table and the rules say the same. */
  lemma TableMeaning(s: State, e: Event, t: State)
    ensures HasRow(TRANSITIONS, s, e, t) <==> Next(s, e) == Some(t)
  {
    var r := Row(s, e, t);
    DiallingRows(r);
    RelayingRows(r);
    ClosingRows(r);
    InEither(r, DIALLING + RELAYING, CLOSING);
    InEither(r, DIALLING, RELAYING);
  }

  lemma TableDescribed()
    ensures Describes(TRANSITIONS, Next)
  {
    forall s, e, t
      ensures HasRow(TRANSITIONS, s, e, t) <==> Next(s, e) == Some(t)
    {
      TableMeaning(s, e, t);
    }
  }

  /** What the callback was told. */
  datatype Change = Change(newState: State, event: Event)

  class ConnectionStateMachine {
    const transitionMap: map<State, map<Event, State>>
    const hasCallback: bool
    var state: State
    var fired: seq<Change>

    ghost predicate Valid()
    {
      forall s, e :: Lookup(transitionMap, s, e) == Next(s, e)
    }

    constructor (hasCallback: bool)
      ensures Valid() && state == Idle && fired == [] && this.hasCallback == hasCallback
    {
      TableDescribed();
      var m := TransitionMap(TRANSITIONS, Next);
      transitionMap := m;
      this.hasCallback := hasCallback;
      state, fired := Idle, [];
    }

    /** An accepted event moves the machine and tells the callback once; a rejected one is an error,
        changes nothing and tells nobody. */
    method Transition(event: Event) returns (r: Result<State, State>)
      requires Valid()
      modifies this`state, this`fired
      ensures state == Moved(old(state), event)
      ensures r == if Next(old(state), event).Some? then Ok(state) else Err(state)
      ensures fired == if hasCallback && r.Ok? then old(fired) + [Change(state, event)] else old(fired)
    {
      var next := Lookup(transitionMap, state, event);
      if next == None {
        return Err(state);
      }
      state := next.value;
      if hasCallback {
        fired := fired + [Change(state, event)];
      }
      return Ok(state);
    }
  }

  // ----- histories

  function Moved(s: State, e: Event): State
  {
    match Next(s, e) case Some(t) => t case None => s
  }

  /** The state after offering these events in turn, and those of them that were accepted. */
  function After(s: State, offered: seq<Event>): State
  {
    if offered == [] then s else Moved(After(s, offered[..|offered| - 1]), offered[|offered| - 1])
  }

  function Accepted(s: State, offered: seq<Event>): seq<Event>
  {
    if offered == [] then []
    else
      var init, e := offered[..|offered| - 1], offered[|offered| - 1];
      Accepted(s, init) + if Next(After(s, init), e).Some? then [e] else []
  }

  /** These events are, row after row, a path of the table from s to t. */
  predicate IsPath(s: State, events: seq<Event>, t: State)
  {
    if events == [] then s == t
    else
      var mid := After(s, events[..|events| - 1]);
      HasRow(TRANSITIONS, mid, events[|events| - 1], t) && IsPath(s, events[..|events| - 1], mid)
  }

  lemma PathExtends(s: State, events: seq<Event>, mid: State, e: Event)
    requires IsPath(s, events, mid) && After(s, events) == mid && Next(mid, e).Some?
    ensures IsPath(s, events + [e], Moved(mid, e)) && After(s, events + [e]) == Moved(mid, e)
  {
    assert (events + [e])[..|events|] == events;
    TableMeaning(mid, e, Moved(mid, e));
  }

  /** Over every sequence of offered events, the accepted ones form a path in the table and lead
      to the same state: the rejected ones changed nothing. */
  lemma {:induction false} AcceptedEventsArePath(s: State, offered: seq<Event>)
    ensures IsPath(s, Accepted(s, offered), After(s, offered))
    ensures After(s, Accepted(s, offered)) == After(s, offered)
  {
    if offered != [] {
      var init, e := offered[..|offered| - 1], offered[|offered| - 1];
      AcceptedEventsArePath(s, init);
      if Next(After(s, init), e).Some? {
        PathExtends(s, Accepted(s, init), After(s, init), e);
      } else {
        assert Accepted(s, offered) == Accepted(s, init);
      }
    }
  }

  predicate IsDrop(e: Event)
  {
    e == TransportDrop || e == RelayDrop
  }

  predicate EndsReconnecting(e: Event)
  {
    e == ReconnectDirect || e == ReconnectRelay || e == BackoffExhausted
  }

  function Drops(events: seq<Event>): nat
  {
    if events == [] then 0 else Drops(events[..|events| - 1]) + if IsDrop(events[|events| - 1]) then 1 else 0
  }

  function Recoveries(events: seq<Event>): nat
  {
    if events == [] then 0 else Recoveries(events[..|events| - 1]) + if EndsReconnecting(events[|events| - 1]) then 1 else 0
  }

  lemma CountsExtend(events: seq<Event>, e: Event)
    ensures Drops(events + [e]) == Drops(events) + if IsDrop(e) then 1 else 0
    ensures Recoveries(events + [e]) == Recoveries(events) + if EndsReconnecting(e) then 1 else 0
  {
    assert (events + [e])[..|events|] == events;
  }

  /** Over every history: DISCONNECTED is never left, IDLE is never re-entered, and a second CONNECT
      is never accepted. */
  lemma {:induction false} NeverReturns(s: State, offered: seq<Event>)
    ensures s == Disconnected ==> After(s, offered) == Disconnected && Accepted(s, offered) == []
    ensures s != Idle ==> After(s, offered) != Idle && Connect !in Accepted(s, offered)
  {
    if offered != [] {
      NeverReturns(s, offered[..|offered| - 1]);
    }
  }

  lemma StepsRecover(s: State, e: Event, drops: nat, recoveries: nat)
    requires drops == recoveries + if s == Reconnecting then 1 else 0
    requires Next(s, e).Some?
    ensures drops + (if IsDrop(e) then 1 else 0) ==
            recoveries + (if EndsReconnecting(e) then 1 else 0) + if Moved(s, e) == Reconnecting then 1 else 0
  {
  }

  /** Every drop but one still being recovered from has been recovered from or given up. */
  lemma {:induction false} DropsAreRecovered(offered: seq<Event>)
    ensures Drops(Accepted(Idle, offered)) == Recoveries(Accepted(Idle, offered)) + if After(Idle, offered) == Reconnecting then 1 else 0
  {
    if offered != [] {
      var init, e := offered[..|offered| - 1], offered[|offered| - 1];
      DropsAreRecovered(init);
      var before := Accepted(Idle, init);
      if Next(After(Idle, init), e).Some? {
        CountsExtend(before, e);
        StepsRecover(After(Idle, init), e, Drops(before), Recoveries(before));
      } else {
        assert Accepted(Idle, offered) == before;
      }
    }
  }
}
