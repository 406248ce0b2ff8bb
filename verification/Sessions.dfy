/** The registry of open seller sessions and its cumulative counters. */
module Sessions {
  datatype SessionInfo = SessionInfo(
    id: nat, peerId: string, remoteAddr: string, nodeId: string, connectedAt: int, lastSeen: int, messageCount: nat)

  type OpenSessions = map<nat, SessionInfo>

  /** What one observed message makes of a session: the first node id that is not empty stays. */
  function Seen(s: SessionInfo, nodeId: string, at: int): SessionInfo
  {
    s.(messageCount := s.messageCount + 1, lastSeen := at, nodeId := if s.nodeId == "" then nodeId else s.nodeId)
  }

  class SessionRegistry {
    var sequence: nat
    var open: OpenSessions
    var totalOpened: nat
    var totalClosed: nat
    var totalMsgs: nat

    function View(): Registry
      reads this
    {
      Registry(sequence, open, totalOpened, totalClosed, totalMsgs)
    }

    constructor ()
      ensures View() == EMPTY
    {
      sequence, open, totalOpened, totalClosed, totalMsgs := 0, map[], 0, 0, 0;
    }

    method OpenSession(peerId: string, remoteAddr: string, now: int) returns (id: nat)
      modifies this
      ensures View() == Do(old(View()), Open(peerId, remoteAddr, now))
      ensures id == sequence == old(sequence) + 1 && id in open && totalOpened == old(totalOpened) + 1
    {
      sequence := sequence + 1;
      totalOpened := totalOpened + 1;
      open := open[sequence := SessionInfo(sequence, peerId, remoteAddr, "", now, now, 0)];
      return sequence;
    }

    method Observe(id: nat, nodeId: string, at: int)
      modifies this
      ensures View() == Do(old(View()), Message(id, nodeId, at))
      ensures totalMsgs == old(totalMsgs) + 1
    {
      totalMsgs := totalMsgs + 1;
      if id !in open {
        return;
      }
      var s := open[id];
      s := s.(messageCount := s.messageCount + 1, lastSeen := at);
      if s.nodeId == "" && nodeId != "" {
        s := s.(nodeId := nodeId);
      }
      open := open[id := s];
    }

    method CloseSession(id: nat)
      modifies this
      ensures View() == Do(old(View()), Close(id))
      ensures totalClosed == old(totalClosed) + (if id in old(open) then 1 else 0) && id !in open
    {
      if id in open {
        open := open - {id};
        totalClosed := totalClosed + 1;
      }
    }

    /** The open sessions, each once, by increasing id. */
    method Snapshot() returns (out: seq<SessionInfo>)
      requires Numbered(open)
      ensures Ascending(out) && |out| == |open|
      ensures forall s :: s in out <==> s.id in open && open[s.id] == s
      ensures forall n | UpTo(open, n) :: out == Listing(open, n)
    {
      var todo := open.Keys;
      out := [];
      while todo != {}
        invariant todo <= open.Keys
        invariant Ascending(out) && |out| + |todo| == |open.Keys|
        invariant forall s :: s in out <==> s.id in open && s.id !in todo && open[s.id] == s
        decreases |todo|
      {
        var id :| id in todo;
        assert forall s | s in out :: s.id != id;
        out := Insert(out, open[id]);
        todo := todo - {id};
      }
      forall n | UpTo(open, n)
        ensures out == Listing(open, n)
      {
        ListingIsUnique(open, n, out);
      }
    }

    method Totals() returns (started: nat, ended: nat, msgs: nat)
      ensures started == totalOpened && ended == totalClosed && msgs == totalMsgs
    {
      return totalOpened, totalClosed, totalMsgs;
    }
  }

  // ----- sorting by id

  predicate Ascending(s: seq<SessionInfo>)
  {
    forall i, j | 0 <= i < j < |s| :: s[i].id < s[j].id
  }

  /** Stands for the library sort: the place of one more session in a sorted list. */
  method Insert(s: seq<SessionInfo>, x: SessionInfo) returns (r: seq<SessionInfo>)
    requires Ascending(s) && forall y | y in s :: y.id != x.id
    ensures Ascending(r) && |r| == |s| + 1
    ensures forall y :: y in r <==> y in s || y == x
  {
    var i := |s|;
    while i > 0 && s[i - 1].id > x.id
      invariant 0 <= i <= |s|
      invariant forall j | i <= j < |s| :: x.id < s[j].id
    {
      i := i - 1;
    }
    assert i > 0 ==> s[i - 1] in s;
    r := s[..i] + [x] + s[i..];
    InsertedIsAscending(s, i, x);
    InsertedMembers(s, i, x);
  }

  lemma InsertedIsAscending(s: seq<SessionInfo>, i: nat, x: SessionInfo)
    requires Ascending(s) && i <= |s|
    requires i > 0 ==> s[i - 1].id < x.id
    requires i < |s| ==> x.id < s[i].id
    ensures Ascending(s[..i] + [x] + s[i..])
  {
    var r := s[..i] + [x] + s[i..];
    forall j, k | 0 <= j < k < |r|
      ensures r[j].id < r[k].id
    {
      assert r[j] == if j < i then s[j] else if j == i then x else s[j - 1];
      assert r[k] == if k < i then s[k] else if k == i then x else s[k - 1];
    }
  }

  lemma InsertedMembers(s: seq<SessionInfo>, i: nat, x: SessionInfo)
    requires i <= |s|
    ensures forall y :: y in s[..i] + [x] + s[i..] <==> y in s || y == x
  {
    assert s == s[..i] + s[i..];
  }

  /** Every session is filed under its own id, and ids start at 1. */
  ghost predicate Numbered(open: OpenSessions)
  {
    forall id | id in open :: id >= 1 && open[id].id == id
  }

  ghost predicate UpTo(open: OpenSessions, n: nat)
  {
    forall id | id in open :: id <= n
  }

  /** The sessions with ids up to n, in order. */
  function Listing(open: OpenSessions, n: nat): seq<SessionInfo>
  {
    if n == 0 then []
    else if n in open then Listing(open, n - 1) + [open[n]]
    else Listing(open, n - 1)
  }

  lemma HeadIsIn(s: seq<SessionInfo>)
    ensures s == [] || s[0] in s
  {
  }

  lemma {:induction false} ListingIsUnique(open: OpenSessions, n: nat, out: seq<SessionInfo>)
    requires Numbered(open) && Ascending(out)
    requires forall s :: s in out <==> 1 <= s.id <= n && s.id in open && open[s.id] == s
    ensures out == Listing(open, n)
  {
    if n == 0 {
      HeadIsIn(out);
    } else if n in open {
      var last := |out| - 1;
      assert open[n] in out;
      var i :| 0 <= i < |out| && out[i] == open[n];
      assert out[last] in out;
      assert i == last;
      forall s
        ensures s in out[..last] <==> 1 <= s.id <= n - 1 && s.id in open && open[s.id] == s
      {
        assert s in out <==> s in out[..last] || s == out[last];
      }
      ListingIsUnique(open, n - 1, out[..last]);
    } else {
      ListingIsUnique(open, n - 1, out);
    }
  }

  // ----- call sequences

  datatype Registry = Registry(sequence: nat, open: OpenSessions, totalOpened: nat, totalClosed: nat, totalMsgs: nat)

  const EMPTY: Registry := Registry(0, map[], 0, 0, 0)

  datatype Call =
    | Open(peerId: string, remoteAddr: string, now: int)
    | Message(id: nat, nodeId: string, at: int)
    | Close(id: nat)

  function Do(r: Registry, c: Call): Registry
  {
    match c
    case Open(peer, addr, now) =>
      var id := r.sequence + 1;
      r.(sequence := id, totalOpened := r.totalOpened + 1, open := r.open[id := SessionInfo(id, peer, addr, "", now, now, 0)])
    case Message(id, nodeId, at) =>
      var n := r.(totalMsgs := r.totalMsgs + 1);
      if id in r.open then n.(open := r.open[id := Seen(r.open[id], nodeId, at)]) else n
    case Close(id) =>
      if id in r.open then r.(open := r.open - {id}, totalClosed := r.totalClosed + 1) else r
  }

  function DoAll(r: Registry, calls: seq<Call>): Registry
    decreases |calls|
  {
    if calls == [] then r else DoAll(Do(r, calls[0]), calls[1..])
  }

  ghost predicate Sound(r: Registry)
  {
    && r.totalOpened == r.sequence == r.totalClosed + |r.open|
    && Numbered(r.open) && UpTo(r.open, r.sequence)
  }

  lemma OpenKeepsSound(r: Registry, peer: string, addr: string, now: int)
    requires Sound(r)
    ensures Sound(Do(r, Open(peer, addr, now)))
  {
    assert r.sequence + 1 !in r.open;
    assert Do(r, Open(peer, addr, now)).open.Keys == r.open.Keys + {r.sequence + 1};
  }

  lemma CloseKeepsSound(r: Registry, id: nat)
    requires Sound(r)
    ensures Sound(Do(r, Close(id)))
  {
    if id in r.open {
      assert Do(r, Close(id)).open.Keys == r.open.Keys - {id};
    }
  }

  lemma DoKeepsSound(r: Registry, c: Call)
    requires Sound(r)
    ensures Sound(Do(r, c))
  {
    match c
    case Open(peer, addr, now) => OpenKeepsSound(r, peer, addr, now);
    case Message(id, nodeId, at) =>
      if id in r.open {
        assert Do(r, c).open.Keys == r.open.Keys;
      }
    case Close(id) => CloseKeepsSound(r, id);
  }

  function Messages(open: OpenSessions, n: nat): nat
  {
    if n == 0 then 0 else Messages(open, n - 1) + if n in open then open[n].messageCount else 0
  }

  /** How one changed entry moves the sum. */
  lemma {:induction false} MessagesChange(open: OpenSessions, changed: OpenSessions, n: nat, id: nat)
    requires forall i | i != id :: (i in open <==> i in changed) && (i in open ==> open[i] == changed[i])
    ensures var before := if id in open && 1 <= id <= n then open[id].messageCount else 0;
            var after := if id in changed && 1 <= id <= n then changed[id].messageCount else 0;
            Messages(changed, n) + before == Messages(open, n) + after
  {
    if n > 0 {
      MessagesChange(open, changed, n - 1, id);
    }
  }

  /** Messages counted in sessions by the time these closed, and messages for no open session. */
  function Unlisted(r: Registry, calls: seq<Call>): nat
    decreases |calls|
  {
    if calls == [] then 0
    else
      var here :=
        match calls[0]
        case Close(id) => if id in r.open then r.open[id].messageCount else 0
        case Message(id, _, _) => if id in r.open then 0 else 1
        case Open(_, _, _) => 0;
      here + Unlisted(Do(r, calls[0]), calls[1..])
  }

  function Observed(calls: seq<Call>): nat
  {
    if calls == [] then 0 else Observed(calls[1..]) + if calls[0].Message? then 1 else 0
  }

  lemma MessagesOfCall(r: Registry, c: Call)
    requires Sound(r)
    ensures Messages(Do(r, c).open, Do(r, c).sequence) + Unlisted(r, [c]) ==
            Messages(r.open, r.sequence) + if c.Message? then 1 else 0
  {
    var n := Do(r, c);
    assert [c][1..] == [];
    match c
    case Open(_, _, _) => MessagesChange(r.open, n.open, r.sequence, r.sequence + 1);
    case Message(id, _, _) => MessagesChange(r.open, n.open, r.sequence, id);
    case Close(id) => MessagesChange(r.open, n.open, r.sequence, id);
  }

  lemma {:induction false} RunKeeps(r: Registry, calls: seq<Call>)
    requires Sound(r)
    ensures Sound(DoAll(r, calls))
    ensures DoAll(r, calls).totalMsgs == r.totalMsgs + Observed(calls)
    ensures Messages(DoAll(r, calls).open, DoAll(r, calls).sequence) + Unlisted(r, calls) ==
            Messages(r.open, r.sequence) + Observed(calls)
    decreases |calls|
  {
    if calls != [] {
      var n := Do(r, calls[0]);
      DoKeepsSound(r, calls[0]);
      MessagesOfCall(r, calls[0]);
      assert [calls[0]][1..] == [];
      RunKeeps(n, calls[1..]);
    }
  }

  /** Over every call sequence: what was opened is closed or open, ids are those handed out, and
      every observed message is counted in an open session, was counted in one now closed, or
      belonged to none. */
  lemma Conservation(calls: seq<Call>)
    ensures var r := DoAll(EMPTY, calls);
            && r.totalOpened == r.totalClosed + |r.open| == r.sequence
            && (forall id | id in r.open :: 1 <= id <= r.sequence && r.open[id].id == id)
            && r.totalMsgs == Observed(calls) == Messages(r.open, r.sequence) + Unlisted(EMPTY, calls)
  {
    RunKeeps(EMPTY, calls);
  }

  // ----- one session through a call sequence

  function FirstNode(calls: seq<Call>, id: nat): string
  {
    if calls == [] then ""
    else if calls[0].Message? && calls[0].id == id && calls[0].nodeId != "" then calls[0].nodeId
    else FirstNode(calls[1..], id)
  }

  function ObservedFor(calls: seq<Call>, id: nat): nat
  {
    if calls == [] then 0
    else ObservedFor(calls[1..], id) + if calls[0].Message? && calls[0].id == id then 1 else 0
  }

  /** When the session was last heard of. */
  function LastSeen(calls: seq<Call>, id: nat, before: int): int
  {
    if calls == [] then before
    else LastSeen(calls[1..], id, if calls[0].Message? && calls[0].id == id then calls[0].at else before)
  }

  lemma ClosedStaysClosed(r: Registry, c: Call, id: nat)
    requires Sound(r) && id <= r.sequence && id !in r.open
    ensures id <= Do(r, c).sequence && id !in Do(r, c).open
  {
  }

  lemma {:induction false} ClosedForever(r: Registry, calls: seq<Call>, id: nat)
    requires Sound(r) && id <= r.sequence && id !in r.open
    ensures id !in DoAll(r, calls).open
    decreases |calls|
  {
    if calls != [] {
      DoKeepsSound(r, calls[0]);
      ClosedStaysClosed(r, calls[0], id);
      ClosedForever(Do(r, calls[0]), calls[1..], id);
    }
  }

  /** As long as a session stays open its node id is the first one observed, never replaced, its
      count is the number of its messages, and who it is does not change. */
  lemma {:induction false} SessionHistory(r: Registry, calls: seq<Call>, id: nat)
    requires Sound(r) && id in r.open && id in DoAll(r, calls).open
    ensures var (s, t) := (r.open[id], DoAll(r, calls).open[id]);
            && t.nodeId == (if s.nodeId != "" then s.nodeId else FirstNode(calls, id))
            && t.messageCount == s.messageCount + ObservedFor(calls, id)
            && t.peerId == s.peerId && t.remoteAddr == s.remoteAddr && t.connectedAt == s.connectedAt
            && t.lastSeen == LastSeen(calls, id, s.lastSeen)
    decreases |calls|
  {
    if calls != [] {
      var n := Do(r, calls[0]);
      DoKeepsSound(r, calls[0]);
      if id !in n.open {
        ClosedForever(n, calls[1..], id);
      } else {
        SessionHistory(n, calls[1..], id);
      }
    }
  }

  /** From the opening on: while it stays open, a session shows the peer and the address it was opened
      for and when, and what has been observed of it since. */
  lemma SessionLife(r: Registry, peer: string, addr: string, now: int, calls: seq<Call>)
    requires Sound(r)
    ensures var id, after := r.sequence + 1, DoAll(Do(r, Open(peer, addr, now)), calls).open;
            id in after ==>
              after[id] == SessionInfo(id, peer, addr, FirstNode(calls, id), now, LastSeen(calls, id, now), ObservedFor(calls, id))
  {
    var begun, id := Do(r, Open(peer, addr, now)), r.sequence + 1;
    DoKeepsSound(r, Open(peer, addr, now));
    RunKeeps(begun, calls);
    if id in DoAll(begun, calls).open {
      SessionHistory(begun, calls, id);
    }
  }
}
