/**
 One seller's sessions: each counts the frames it emits up to a limit, and a supervisor restarts
 them after a wait that grows while they stay unproductive.
 */
module Reconnect {
  import opened Prelude

  type Frame = seq<int>

  const TWO64: int := 0x1_0000_0000_0000_0000

  // ----- one session

  /** What one turn of the read loop meets. */
  datatype Turn =
    | Cancelled                       // before the read
    | ReadFails
    | Unmarshalable(frame: Frame)
    | CancelledInSend(frame: Frame)
    | Sent(frame: Frame)

  predicate Stops(t: Turn)
  {
    t.Cancelled? || t.ReadFails? || t.CancelledInSend?
  }

  /** The frames a session could emit before something stops it. */
  function Emittable(turns: seq<Turn>): seq<Frame>
    decreases |turns|
  {
    if turns == [] || Stops(turns[0]) then []
    else if turns[0].Sent? then [turns[0].frame] + Emittable(turns[1..])
    else Emittable(turns[1..])
  }

  /** The frames handed over, whatever else happens. */
  function SentFrames(turns: seq<Turn>): seq<Frame>
  {
    if turns == [] then []
    else if turns[0].Sent? then [turns[0].frame] + SentFrames(turns[1..])
    else SentFrames(turns[1..])
  }

  /** A session goes on past a frame that cannot be wrapped, and ends with the first cancellation or
      read error, whatever comes after it: it emits exactly what is handed over before that. */
  lemma {:induction false} EmittableIsSent(turns: seq<Turn>, n: nat)
    requires n <= |turns| && forall i | 0 <= i < n :: turns[i].Sent? || turns[i].Unmarshalable?
    requires n < |turns| ==> turns[n].Cancelled? || turns[n].ReadFails? || turns[n].CancelledInSend?
    ensures Emittable(turns) == SentFrames(turns[..n])
  {
    if n > 0 {
      EmittableIsSent(turns[1..], n - 1);
      assert turns[..n][1..] == turns[1..][..n - 1];
    }
  }

  function UpToLimit(frames: seq<Frame>, limit: nat): seq<Frame>
  {
    if limit == 0 || |frames| <= limit then frames else frames[..limit]
  }

  /** A limit of 0 is none; otherwise the limit cuts off what comes after that many. */
  lemma UpToLimitMeaning(frames: seq<Frame>, limit: nat)
    ensures UpToLimit(frames, 0) == frames
    ensures UpToLimit(frames, limit) <= frames
    ensures limit > 0 ==> |UpToLimit(frames, limit)| == if |frames| < limit then |frames| else limit
  {
  }

  /** The session emits, in order, what there is to emit, up to the limit, and returns how many. */
  method RunSellerSession(connects: bool, opens: bool, roleKnown: bool, turns: seq<Turn>, frameLimit: nat)
    returns (received: nat, emitted: seq<Frame>)
    ensures received == |emitted|
    ensures emitted == if connects && opens && roleKnown then UpToLimit(Emittable(turns), frameLimit) else []
    ensures frameLimit > 0 ==> received <= frameLimit
  {
    received, emitted := 0, [];
    if !connects {
      return;
    }
    if !opens {
      return;
    }
    if !roleKnown {
      return;
    }
    var i := 0;
    while i < |turns|
      invariant 0 <= i <= |turns|
      invariant received == |emitted|
      invariant frameLimit > 0 ==> received < frameLimit
      invariant emitted + Emittable(turns[i..]) == Emittable(turns)
    {
      var turn := turns[i];
      assert turns[i..][1..] == turns[i + 1..];
      i := i + 1;
      match turn {
        case Cancelled => break;
        case ReadFails => break;
        case Unmarshalable(_) => continue;
        case CancelledInSend(_) => return;
        case Sent(frame) =>
          emitted := emitted + [frame];
          received := received + 1;
          if frameLimit > 0 && received >= frameLimit {
            assert Emittable(turns)[..received] == emitted;
            return;
          }
      }
    }
  }

  // ----- the supervisor

  const BACKOFF: seq<nat> := [1, 2, 5, 10, 30]   // seconds

  /** A session the supervisor ran: its count, and whether it was cancelled during the session or
      during the wait after it. */
  datatype Session = Session(received: nat, cancelledDuring: bool, cancelledInWait: bool)

  /** What the first k sessions received. */
  function Total(sessions: seq<Session>, k: nat): nat
    requires k <= |sessions|
  {
    if k == 0 then 0 else Total(sessions, k - 1) + sessions[k - 1].received
  }

  /** The last of the first k sessions that received anything, counted from 1; 0 when there is none. */
  function LastProductive(sessions: seq<Session>, k: nat): (p: nat)
    requires k <= |sessions|
    ensures p <= k
  {
    if k == 0 then 0
    else if sessions[k - 1].received > 0 then k
    else LastProductive(sessions, k - 1)
  }

  /** It is productive and none after it is. */
  lemma {:induction false} LastProductiveMeaning(sessions: seq<Session>, k: nat)
    requires k <= |sessions|
    ensures var p := LastProductive(sessions, k);
            (p > 0 ==> sessions[p - 1].received > 0) && forall j | p <= j < k :: sessions[j].received == 0
  {
    if k > 0 && sessions[k - 1].received == 0 {
      LastProductiveMeaning(sessions, k - 1);
    }
  }

  function Min(x: nat, y: nat): nat { if x <= y then x else y }

  /** Which wait follows session k: by how many sessions ago the last productive one was, or else
      the first. */
  function WaitIndex(sessions: seq<Session>, k: nat): (i: nat)
    requires 0 < k <= |sessions|
    ensures i < |BACKOFF|
  {
    var p := LastProductive(sessions, k);
    Min(|BACKOFF| - 1, if p == 0 then k - 1 else k - p)
  }

  /** Another session follows it. */
  predicate GoesOn(s: Session, limit: nat)
  {
    !s.cancelledDuring && !s.cancelledInWait && (limit == 0 || s.received < limit)
  }

  datatype Stop = Cancelled | AtLimit | Running

  /** For every trace of sessions: the waits in closed form, the total and the number of attempts.
      Nothing follows a session that reached the limit, or a cancellation. */
  method RunSellerSessionWithReconnect(cancelled: bool, sessions: seq<Session>, frameLimit: nat)
    returns (totalReceived: nat, attempts: nat, waits: seq<nat>, stop: Stop)
    ensures attempts <= |sessions| && (cancelled ==> attempts == 0)
    ensures totalReceived == Total(sessions, attempts) % 0x1_0000_0000_0000_0000
    ensures |waits| == if attempts > 0 && (stop == AtLimit || sessions[attempts - 1].cancelledDuring) then attempts - 1 else attempts
    ensures forall k | 0 <= k < |waits| :: waits[k] == BACKOFF[WaitIndex(sessions, k + 1)]
    ensures forall k | 0 <= k < attempts - 1 ::
              && !sessions[k].cancelledDuring && !sessions[k].cancelledInWait
              && (frameLimit == 0 || sessions[k].received < frameLimit)
    ensures stop == AtLimit <==>
              attempts > 0 && !sessions[attempts - 1].cancelledDuring && frameLimit > 0 && sessions[attempts - 1].received >= frameLimit
    ensures stop == Stop.Cancelled <==>
              || cancelled
              || (attempts > 0 && sessions[attempts - 1].cancelledDuring)
              || (attempts > 0 && stop != AtLimit && sessions[attempts - 1].cancelledInWait)
    ensures stop == Running ==> attempts == |sessions| && !cancelled
  {
    totalReceived, attempts, waits := 0, 0, [];
    if cancelled {
      return totalReceived, attempts, waits, Stop.Cancelled;
    }
    var backoffIdx := 0;
    while attempts < |sessions|
      invariant 0 <= attempts <= |sessions|
      invariant totalReceived == Total(sessions, attempts) % TWO64
      invariant |waits| == attempts
      invariant forall k | 0 <= k < attempts :: waits[k] == BACKOFF[WaitIndex(sessions, k + 1)]
      invariant forall k | 0 <= k < attempts :: GoesOn(sessions[k], frameLimit)
      invariant backoffIdx == if attempts == 0 then 0 else Min(|BACKOFF| - 1, WaitIndex(sessions, attempts) + 1)
    {
      var s := sessions[attempts];
      attempts := attempts + 1;
      AddModulo(Total(sessions, attempts - 1), s.received);
      totalReceived := (totalReceived + s.received) % TWO64;
      if s.cancelledDuring {
        return totalReceived, attempts, waits, Stop.Cancelled;
      }
      if frameLimit > 0 && s.received >= frameLimit {
        return totalReceived, attempts, waits, AtLimit;
      }
      if s.received > 0 {
        backoffIdx := 0;
      }
      WaitAfter(sessions, attempts);
      waits := waits + [BACKOFF[backoffIdx]];
      if s.cancelledInWait {
        return totalReceived, attempts, waits, Stop.Cancelled;
      }
      if backoffIdx < |BACKOFF| - 1 {
        backoffIdx := backoffIdx + 1;
      }
    }
    return totalReceived, attempts, waits, Running;
  }

  lemma AddModulo(x: nat, y: nat)
    ensures (x % TWO64 + y) % TWO64 == (x + y) % TWO64
  {
    assert x == x / TWO64 * TWO64 + x % TWO64;
    var q := x / TWO64;
    var z := x % TWO64 + y;
    assert x + y == q * TWO64 + z;
    ModuloShift(q, z);
  }

  lemma {:induction false} ModuloShift(q: nat, z: nat)
    ensures (q * TWO64 + z) % TWO64 == z % TWO64
  {
    if q > 0 {
      ModuloShift(q - 1, z);
    }
  }

  /** The index climbs by one a session, up to the last, and restarts with each productive one. */
  lemma WaitAfter(sessions: seq<Session>, k: nat)
    requires 0 < k <= |sessions|
    ensures WaitIndex(sessions, k) ==
            if sessions[k - 1].received > 0 || k == 1 then 0 else Min(|BACKOFF| - 1, WaitIndex(sessions, k - 1) + 1)
  {
  }

  /** The wait is 1 second after a productive session and after the first one, then 2, 5, 10, and 30
      from then on: exactly when the last four sessions, at least the second to the fifth, were fruitless. */
  lemma WaitsMeaning(sessions: seq<Session>, k: nat)
    requires 0 < k <= |sessions|
    ensures var p := LastProductive(sessions, k);
            BACKOFF[WaitIndex(sessions, k)] ==
            match (if p == 0 then k - 1 else k - p)
            case 0 => 1
            case 1 => 2
            case 2 => 5
            case 3 => 10
            case _ => 30
    ensures BACKOFF[WaitIndex(sessions, k)] == 30 <==> k >= 5 && forall j | k - 4 <= j < k :: sessions[j].received == 0
  {
    LastProductiveMeaning(sessions, k);
    var p := LastProductive(sessions, k);
    assert p > k - 4 && p > 0 ==> sessions[p - 1].received > 0;
  }

  /** When one of the last four sessions was productive, the wait is below its cap. */
  lemma ProductiveSessionsKeepWaitsShort(sessions: seq<Session>, k: nat, j: nat)
    requires 0 < j <= k <= |sessions| && k - j < 4 && sessions[j - 1].received > 0
    ensures WaitIndex(sessions, k) <= k - j && BACKOFF[WaitIndex(sessions, k)] < 30
  {
    LastProductiveMeaning(sessions, k);
  }
}
