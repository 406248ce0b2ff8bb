/** The agreement state machine of a buyer-seller agreement. */
module Agreement {
  import opened Prelude
  import opened Tables

  datatype State = Idle | Requested | Negotiating | Agreed | Funded | Active | Invoiced | Completed | Terminated | Rejected

  datatype Event =
    | ServiceRequest | Accept | Reject | Counter | DeadlineExpired | Withdraw | EscrowCreated | DeliveryStarted
    | Invoice | InvoiceApproved | InvoiceRefused | Terminate | Complete | Timeout | Stop | Cancel

  const TRANSITIONS: seq<Row<State, Event>> := NEGOTIATION + SETTLEMENT + CANCELLATION

  const NEGOTIATION: seq<Row<State, Event>> := [
    Row(Idle, ServiceRequest, Requested),
    Row(Requested, Counter, Negotiating),
    Row(Requested, Accept, Agreed),
    Row(Requested, Reject, Rejected),
    Row(Requested, DeadlineExpired, Rejected),
    Row(Negotiating, Accept, Agreed),
    Row(Negotiating, Reject, Rejected),
    Row(Negotiating, Withdraw, Rejected),
    Row(Negotiating, DeadlineExpired, Rejected)]

  const SETTLEMENT: seq<Row<State, Event>> := [
    Row(Agreed, EscrowCreated, Funded),
    Row(Funded, DeliveryStarted, Active),
    Row(Active, Invoice, Invoiced),
    Row(Invoiced, InvoiceApproved, Active),
    Row(Invoiced, InvoiceRefused, Terminated),
    Row(Invoiced, Timeout, Terminated),
    Row(Active, Terminate, Terminated),
    Row(Active, Complete, Completed)]

  const CANCELLATION: seq<Row<State, Event>> := [
    Row(Active, Stop, Terminated),
    Row(Requested, Cancel, Terminated),
    Row(Negotiating, Cancel, Terminated),
    Row(Agreed, Cancel, Terminated),
    Row(Funded, Cancel, Terminated),
    Row(Active, Cancel, Terminated),
    Row(Invoiced, Cancel, Terminated)]

  /** The rules of the table, state by state. */
  function Next(s: State, e: Event): Option<State>
  {
    match s
    case Idle => if e == ServiceRequest then Some(Requested) else None
    case Requested =>
      (match e
       case Counter => Some(Negotiating)
       case Accept => Some(Agreed)
       case Reject => Some(Rejected)
       case DeadlineExpired => Some(Rejected)
       case Cancel => Some(Terminated)
       case _ => None)
    case Negotiating =>
      (match e
       case Accept => Some(Agreed)
       case Reject => Some(Rejected)
       case Withdraw => Some(Rejected)
       case DeadlineExpired => Some(Rejected)
       case Cancel => Some(Terminated)
       case _ => None)
    case Agreed => if e == EscrowCreated then Some(Funded) else if e == Cancel then Some(Terminated) else None
    case Funded => if e == DeliveryStarted then Some(Active) else if e == Cancel then Some(Terminated) else None
    case Active =>
      (match e
       case Invoice => Some(Invoiced)
       case Complete => Some(Completed)
       case Terminate => Some(Terminated)
       case Stop => Some(Terminated)
       case Cancel => Some(Terminated)
       case _ => None)
    case Invoiced =>
      (match e
       case InvoiceApproved => Some(Active)
       case InvoiceRefused => Some(Terminated)
       case Timeout => Some(Terminated)
       case Cancel => Some(Terminated)
       case _ => None)
    case _ => None
  }

  lemma NegotiationRows(r: Row<State, Event>)
    ensures r in NEGOTIATION <==> Next(r.from, r.event) == Some(r.to) && r.from in {Idle, Requested, Negotiating} && r.event != Cancel
  {
  }

  lemma SettlementRows(r: Row<State, Event>)
    ensures r in SETTLEMENT <==> Next(r.from, r.event) == Some(r.to) && r.from !in {Idle, Requested, Negotiating} && r.event !in {Cancel, Stop}
  {
  }

  lemma CancellationRows(r: Row<State, Event>)
    ensures r in CANCELLATION <==> Next(r.from, r.event) == Some(r.to) && r.event in {Cancel, Stop}
  {
  }

  /** The table and the rules say the same. */
  lemma TableMeaning(s: State, e: Event, t: State)
    ensures HasRow(TRANSITIONS, s, e, t) <==> Next(s, e) == Some(t)
  {
    var r := Row(s, e, t);
    NegotiationRows(r);
    SettlementRows(r);
    CancellationRows(r);
    InEither(r, NEGOTIATION + SETTLEMENT, CANCELLATION);
    InEither(r, NEGOTIATION, SETTLEMENT);
  }

  lemma TableDescribed()
    ensures Describes(TRANSITIONS, Next)
  {
    forall s, e, t
      ensures HasRow(TRANSITIONS, s, e, t) <==> Next(s, e) == Some(t)
    {
      TableMeaning(s, e, t);
    }
  }

  class AgreementStateMachine {
    const requestId: string
    const transitionMap: map<State, map<Event, State>>
    var state: State
    var negotiationDeadline: nat

    ghost predicate Valid()
    {
      forall s, e :: Lookup(transitionMap, s, e) == Next(s, e)
    }

    constructor (requestId: string)
      ensures Valid() && state == Idle && negotiationDeadline == 0 && this.requestId == requestId
    {
      TableDescribed();
      var m := TransitionMap(TRANSITIONS, Next);
      this.requestId := requestId;
      transitionMap := m;
      state := Idle;
      negotiationDeadline := 0;
    }

    method SetNegotiationDeadline(deadline: nat)
      modifies this`negotiationDeadline
      ensures negotiationDeadline == deadline
    {
      negotiationDeadline := deadline;
    }

    /** An event the rules allow moves the machine; any other is an error and changes nothing. */
    method Transition(event: Event) returns (r: Result<State, State>)
      requires Valid()
      modifies this`state
      ensures Next(old(state), event).Some? ==> state == Next(old(state), event).value && r == Ok(state)
      ensures Next(old(state), event).None? ==> state == old(state) && r == Err(state)
    {
      var next := Lookup(transitionMap, state, event);
      if next.Some? {
        state := next.value;
        return Ok(state);
      }
      return Err(state);
    }

    /** An expired deadline rejects a negotiation that is still open and nothing else. */
    method CheckDeadline(now: nat) returns (expired: bool)
      modifies this`state
      ensures expired <==> 0 < negotiationDeadline < now && (old(state) == Requested || old(state) == Negotiating)
      ensures state == if expired then Rejected else old(state)
      ensures expired ==> Next(old(state), DeadlineExpired) == Some(state)
    {
      expired := false;
      if negotiationDeadline == 0 || now <= negotiationDeadline {
        return;
      }
      if state == Requested || state == Negotiating {
        state := Rejected;
        expired := true;
      }
    }
  }

  /** The state after a sequence of events, of which those the rules refuse change nothing. */
  function After(s: State, events: seq<Event>): State
    decreases |events|
  {
    if events == [] then s else After(Moved(s, events[0]), events[1..])
  }

  function Moved(s: State, e: Event): State
  {
    match Next(s, e) case Some(t) => t case None => s
  }

  predicate Final(s: State)
  {
    s == Completed || s == Terminated || s == Rejected
  }

  /** Over every sequence of events: a final state is never left, IDLE is never re-entered, and
      FUNDED, ACTIVE or INVOICED is only reached by an accepted ESCROW_CREATED. */
  lemma {:induction false} AgreementHistory(s: State, events: seq<Event>)
    ensures Final(s) ==> After(s, events) == s
    ensures After(s, events) == Idle ==> s == Idle
    ensures After(s, events) in {Funded, Active, Invoiced} && s !in {Funded, Active, Invoiced} ==> EscrowCreated in events
    decreases |events|
  {
    if events != [] {
      AgreementHistory(Moved(s, events[0]), events[1..]);
    }
  }
}
