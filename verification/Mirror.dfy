/**
 Observing a topic through a mirror node: each poll fetches the oldest messages, keeps those past a
 cursor, and adds what decodes to a local log; a waiter scans that log for a payload type.
 */
module Mirror {
  import opened Prelude

  const PAGE: nat := 100

  /** `kind` is the payload's type member, None when the payload does not parse. */
  datatype Message = Message(payload: string, kind: Option<string>)

  datatype Content = NotBase64 | NotAMessage | Carries(msg: Message)

  datatype Entry = Entry(sequence: nat, content: Content)

  /** What the mirror node answers: entries in ascending order, or an error. */
  type Fetch = Result<seq<Entry>, string>

  datatype Polled = Polled(msgs: seq<Message>, highest: nat)

  // ----- one poll

  function Decoded(entries: seq<Entry>): seq<Message>
  {
    if entries == [] then []
    else
      var e := entries[|entries| - 1];
      Decoded(entries[..|entries| - 1]) + if e.content.Carries? then [e.content.msg] else []
  }

  /** The entries past the cursor. */
  function Past(entries: seq<Entry>, since: nat): seq<Entry>
  {
    if entries == [] then []
    else
      var e := entries[|entries| - 1];
      Past(entries[..|entries| - 1], since) + if e.sequence > since then [e] else []
  }

  function Highest(entries: seq<Entry>, since: nat): nat
  {
    if entries == [] then since
    else
      var h := Highest(entries[..|entries| - 1], since);
      if entries[|entries| - 1].sequence > h then entries[|entries| - 1].sequence else h
  }

  predicate Decodes(entries: seq<Entry>)
  {
    entries == [] || (entries[|entries| - 1].content != NotBase64 && Decodes(entries[..|entries| - 1]))
  }

  function PollOf(entries: seq<Entry>, since: nat): Option<Polled>
  {
    if Decodes(Past(entries, since)) then Some(Polled(Decoded(Past(entries, since)), Highest(entries, since))) else None
  }

  lemma {:induction false} HighestAtLeast(entries: seq<Entry>, since: nat)
    ensures Highest(entries, since) >= since
  {
    if entries != [] {
      HighestAtLeast(entries[..|entries| - 1], since);
    }
  }

  lemma {:induction false} PastConcat(s: seq<Entry>, t: seq<Entry>, since: nat)
    ensures Past(s + t, since) == Past(s, since) + Past(t, since)
  {
    if t == [] {
      assert s + t == s;
    } else {
      PastConcat(s, t[..|t| - 1], since);
      assert (s + t)[..|s + t| - 1] == s + t[..|t| - 1];
    }
  }

  lemma {:induction false} DecodedConcat(s: seq<Entry>, t: seq<Entry>)
    ensures Decoded(s + t) == Decoded(s) + Decoded(t)
  {
    if t == [] {
      assert s + t == s;
    } else {
      DecodedConcat(s, t[..|t| - 1]);
      assert (s + t)[..|s + t| - 1] == s + t[..|t| - 1];
    }
  }

  lemma DecodedOne(seen: seq<Entry>, e: Entry)
    ensures Decoded(seen + [e]) == Decoded(seen) + if e.content.Carries? then [e.content.msg] else []
    ensures Decodes(seen + [e]) <==> Decodes(seen) && e.content != NotBase64
  {
    assert (seen + [e])[..|seen|] == seen;
  }

  /** One entry past the cursor that is not base64 fails the whole poll. */
  method PollMirrorNodeSince(fetch: Fetch, sinceSeq: nat) returns (r: Result<Polled, string>)
    ensures r.Ok? <==> fetch.Ok? && PollOf(fetch.value, sinceSeq).Some?
    ensures r.Ok? ==> Some(r.value) == PollOf(fetch.value, sinceSeq)
  {
    if fetch.Err? {
      return Err(fetch.error);
    }
    var entries := fetch.value;
    var highest, out := sinceSeq, [];
    for i := 0 to |entries|
      invariant highest == Highest(entries[..i], sinceSeq)
      invariant Decodes(Past(entries[..i], sinceSeq)) && out == Decoded(Past(entries[..i], sinceSeq))
    {
      ghost var seen := Past(entries[..i], sinceSeq);
      assert seen + [] == seen && out + [] == out;
      assert entries[..i + 1][..i] == entries[..i];
      HighestAtLeast(entries[..i], sinceSeq);
      var m := entries[i];
      if m.sequence <= sinceSeq {
        continue;
      }
      assert Past(entries[..i + 1], sinceSeq) == seen + [m];
      DecodedOne(seen, m);
      match m.content {
        case NotBase64 =>
          BrokenEntryStays(entries, i, sinceSeq);
          return Err("base64 decode");
        case NotAMessage =>
        case Carries(msg) => out := out + [msg];
      }
      if m.sequence > highest {
        highest := m.sequence;
      }
    }
    assert entries[..|entries|] == entries;
    return Ok(Polled(out, highest));
  }

  lemma BrokenEntryStays(entries: seq<Entry>, i: nat, since: nat)
    requires i < |entries| && entries[i].content == NotBase64 && entries[i].sequence > since
    ensures !Decodes(Past(entries, since))
  {
    var seen := Past(entries[..i], since);
    assert entries[..i + 1][..i] == entries[..i];
    assert Past(entries[..i + 1], since) == seen + [entries[i]];
    PastConcat(entries[..i + 1], entries[i + 1..], since);
    assert entries[..i + 1] + entries[i + 1..] == entries;
    DecodedOne(seen, entries[i]);
    DecodesConcat(seen + [entries[i]], Past(entries[i + 1..], since));
  }

  // ----- the local log and the waiter

  /** The cached log of one topic and the cursor into the topic. */
  datatype View = View(log: seq<Message>, cursor: nat)

  function Synced(v: View, fetch: Fetch): Option<View>
  {
    if fetch.Err? then None
    else
      match PollOf(fetch.value, v.cursor)
      case None => None
      case Some(p) => Some(View(v.log + p.msgs, p.highest))
  }

  function LogOf(msgLog: map<string, seq<Message>>, loc: string): seq<Message>
  {
    if loc in msgLog then msgLog[loc] else []
  }

  /** One turn of the waiter: what its poll fetches, and whether the deadline has passed after it. */
  datatype Turn = Turn(fetch: Fetch, late: bool)

  /** The deadline had not passed after any of the first n polls. */
  predicate NoneLate(turns: seq<Turn>, n: nat)
    requires n <= |turns|
  {
    n == 0 || (!turns[n - 1].late && NoneLate(turns, n - 1))
  }

  datatype Wait = Found(msg: Message) | TimedOut | SyncFailed | Waiting

  /** The view after the polls of these turns. */
  function SyncedAll(v: View, turns: seq<Turn>): Option<View>
  {
    if turns == [] then Some(v)
    else
      match SyncedAll(v, turns[..|turns| - 1])
      case None => None
      case Some(w) => Synced(w, turns[|turns| - 1].fetch)
  }

  lemma SyncedNext(v: View, turns: seq<Turn>, k: nat)
    requires k < |turns|
    ensures SyncedAll(v, turns[..k + 1]) ==
            match SyncedAll(v, turns[..k]) case None => None case Some(w) => Synced(w, turns[k].fetch)
  {
    assert turns[..k + 1][..k] == turns[..k];
  }

  /** Where the waiter is after n polls, none of them late. */
  ghost predicate StillWaiting(start: View, turns: seq<Turn>, n: nat, now: View)
    requires n <= |turns|
  {
    SyncedAll(start, turns[..n]) == Some(now) && NoneLate(turns, n)
  }

  lemma PolledNext(start: View, turns: seq<Turn>, n: nat, now: View, next: View)
    requires n < |turns| && StillWaiting(start, turns, n, now) && Synced(now, turns[n].fetch) == Some(next)
    ensures SyncedAll(start, turns[..n + 1]) == Some(next)
    ensures !turns[n].late ==> StillWaiting(start, turns, n + 1, next)
  {
    SyncedNext(start, turns, n);
  }

  lemma NoMatchStill(log: seq<Message>, more: seq<Message>, n: nat, payloadType: string)
    requires n <= |log| && log <= more && NoMatch(log, n, payloadType)
    ensures NoMatch(more, n, payloadType)
  {
  }

  predicate Matches(m: Message, payloadType: string)
  {
    m.kind == Some(payloadType)
  }

  predicate NoMatch(log: seq<Message>, n: nat, payloadType: string)
    requires n <= |log|
  {
    forall i | 0 <= i < n :: !Matches(log[i], payloadType)
  }

  /** m is the earliest message of the type. */
  predicate IsEarliest(log: seq<Message>, payloadType: string, m: Message)
  {
    exists i | 0 <= i < |log| :: log[i] == m && Matches(m, payloadType) && NoMatch(log, i, payloadType)
  }

  /** The scanning loop: the first match from here on, or the end. */
  method Scan(cached: seq<Message>, from: nat, payloadType: string) returns (scanned: nat)
    requires from <= |cached| && NoMatch(cached, from, payloadType)
    ensures from <= scanned <= |cached| && NoMatch(cached, scanned, payloadType)
    ensures scanned < |cached| ==> Matches(cached[scanned], payloadType)
  {
    scanned := from;
    while scanned < |cached|
      invariant from <= scanned <= |cached| && NoMatch(cached, scanned, payloadType)
    {
      if Matches(cached[scanned], payloadType) {
        return;
      }
      scanned := scanned + 1;
    }
  }

  /** How the waiter ends after some polls, with this log and cursor. */
  ghost predicate Ended(start: View, turns: seq<Turn>, polls: nat, now: View, payloadType: string, r: Wait)
  {
    && polls <= |turns| && SyncedAll(start, turns[..polls]) == Some(now)
    && match r
       case Found(m) =>
         && polls > 0 && NoneLate(turns, polls - 1) && m.kind == Some(payloadType)
         && exists i :: 0 <= i < |now.log| && now.log[i] == m && forall j | 0 <= j < i :: now.log[j].kind != Some(payloadType)
       case TimedOut =>
         && polls > 0 && NoneLate(turns, polls - 1) && turns[polls - 1].late
         && forall i | 0 <= i < |now.log| :: now.log[i].kind != Some(payloadType)
       case SyncFailed => polls < |turns| && NoneLate(turns, polls) && SyncedAll(start, turns[..polls + 1]) == None
       case Waiting => polls == |turns| && NoneLate(turns, polls)
  }

  class HcsTopicBus {
    var msgLog: map<string, seq<Message>>

    constructor ()
      ensures msgLog == map[]
    {
      msgLog := map[];
    }

    /** A message submitted by this process is logged at once. */
    method Publish(loc: string, m: Message)
      modifies this
      ensures msgLog == old(msgLog)[loc := LogOf(old(msgLog), loc) + [m]]
    {
      msgLog := msgLog[loc := LogOf(msgLog, loc) + [m]];
    }

    /** A failed poll changes nothing. */
    method SyncFromMirror(loc: string, fetch: Fetch, sinceSeq: nat) returns (highest: nat, ok: bool)
      modifies this
      ensures var before := View(LogOf(old(msgLog), loc), sinceSeq);
              && (ok <==> Synced(before, fetch).Some?)
              && View(LogOf(msgLog, loc), highest) == if ok then Synced(before, fetch).value else before
      ensures LogOf(old(msgLog), loc) <= LogOf(msgLog, loc)
      ensures forall other | other != loc :: LogOf(msgLog, other) == LogOf(old(msgLog), other)
    {
      var polled := PollMirrorNodeSince(fetch, sinceSeq);
      match polled {
        case Err(_) => return sinceSeq, false;
        case Ok(p) =>
          if |p.msgs| == 0 {
            assert LogOf(msgLog, loc) + [] == LogOf(msgLog, loc);
            return p.highest, true;
          }
          msgLog := msgLog[loc := LogOf(msgLog, loc) + p.msgs];
          return p.highest, true;
      }
    }

    /** A turn of the waiter: one poll, and the scan of what has not been scanned yet. */
    method SyncAndScan(loc: string, fetch: Fetch, since: nat, from: nat, payloadType: string) returns (high: nat, next: nat, ok: bool)
      requires from <= |LogOf(msgLog, loc)| && NoMatch(LogOf(msgLog, loc), from, payloadType)
      modifies this
      ensures var before := View(LogOf(old(msgLog), loc), since);
              && (ok <==> Synced(before, fetch).Some?)
              && View(LogOf(msgLog, loc), high) == if ok then Synced(before, fetch).value else before
      ensures ok ==> next <= |LogOf(msgLog, loc)| && NoMatch(LogOf(msgLog, loc), next, payloadType)
      ensures ok && next < |LogOf(msgLog, loc)| ==> IsEarliest(LogOf(msgLog, loc), payloadType, LogOf(msgLog, loc)[next])
    {
      ghost var before := LogOf(msgLog, loc);
      next := from;
      high, ok := SyncFromMirror(loc, fetch, since);
      if ok {
        NoMatchStill(before, LogOf(msgLog, loc), from, payloadType);
        next := Scan(LogOf(msgLog, loc), from, payloadType);
      }
    }

    /** The waiter returns the earliest cached message of the type, also one cached before the call;
        unless it does there is none.  Log and cursor are those after the polls it made. */
    method WaitForPayloadType(loc: string, payloadType: string, lastSeq: nat, turns: seq<Turn>)
      returns (r: Wait, newSeq: nat, polls: nat)
      modifies this
      ensures Ended(View(LogOf(old(msgLog), loc), lastSeq), turns, polls, View(LogOf(msgLog, loc), newSeq), payloadType, r)
    {
      ghost var start := View(LogOf(msgLog, loc), lastSeq);
      newSeq, polls := lastSeq, 0;
      var scanned := 0;
      while polls < |turns|
        invariant polls <= |turns| && StillWaiting(start, turns, polls, View(LogOf(msgLog, loc), newSeq))
        invariant 0 <= scanned <= |LogOf(msgLog, loc)| && NoMatch(LogOf(msgLog, loc), scanned, payloadType)
      {
        ghost var before := View(LogOf(msgLog, loc), newSeq);
        SyncedNext(start, turns, polls);
        var high, next, ok := SyncAndScan(loc, turns[polls].fetch, newSeq, scanned, payloadType);
        if !ok {
          return SyncFailed, newSeq, polls;
        }
        newSeq, scanned := high, next;
        PolledNext(start, turns, polls, before, View(LogOf(msgLog, loc), newSeq));
        var late := turns[polls].late;
        polls := polls + 1;
        if scanned < |LogOf(msgLog, loc)| {
          return Found(LogOf(msgLog, loc)[scanned]), newSeq, polls;
        }
        if late {
          return TimedOut, newSeq, polls;
        }
      }
      return Waiting, newSeq, polls;
    }
  }

  // ----- against the topic itself

  /** The topic as the network has it, what this process has seen of it, the entries its log was
      filled from, and those it published itself. */
  datatype Observed = Observed(topic: seq<Entry>, view: View, logged: seq<Entry>, local: set<Entry>)

  datatype Step =
    | Append(e: Entry)       // somebody else publishes
    | LocalPublish(e: Entry) // this process publishes, and logs at once
    | Poll(k: nat)           // the mirror node shows the first k entries
    | PollFails

  function Newest(topic: seq<Entry>): nat
  {
    if topic == [] then 0 else topic[|topic| - 1].sequence
  }

  predicate Enabled(s: Observed, step: Step)
  {
    match step
    case Append(e) => e.sequence > Newest(s.topic)
    case LocalPublish(e) => e.sequence > Newest(s.topic) && e.content.Carries?
    case Poll(k) => k <= |s.topic| && k <= PAGE
    case PollFails => true
  }

  function Apply(s: Observed, step: Step): Observed
    requires Enabled(s, step)
  {
    match step
    case Append(e) => s.(topic := s.topic + [e])
    case LocalPublish(e) =>
      s.(topic := s.topic + [e], view := s.view.(log := s.view.log + [e.content.msg]), logged := s.logged + [e], local := s.local + {e})
    case Poll(k) =>
      (match Synced(s.view, Ok(s.topic[..k]))
       case None => s
       case Some(v) => s.(view := v, logged := s.logged + Carried(Past(s.topic[..k], s.view.cursor))))
    case PollFails => s
  }

  ghost predicate IsRun(s: Observed, steps: seq<Step>)
    decreases |steps|
  {
    steps == [] || (Enabled(s, steps[0]) && IsRun(Apply(s, steps[0]), steps[1..]))
  }

  ghost function End(s: Observed, steps: seq<Step>): Observed
    requires IsRun(s, steps)
    decreases |steps|
  {
    if steps == [] then s else End(Apply(s, steps[0]), steps[1..])
  }

  const START: Observed := Observed([], View([], 0), [], {})

  /** Sequence numbers start at 1 and grow. */
  predicate Increasing(topic: seq<Entry>)
  {
    topic == [] || (topic[|topic| - 1].sequence > Newest(topic[..|topic| - 1]) && Increasing(topic[..|topic| - 1]))
  }

  lemma {:induction false} PrefixIncreases(topic: seq<Entry>, n: nat)
    requires Increasing(topic) && n <= |topic|
    ensures Increasing(topic[..n])
    decreases |topic|
  {
    if n == |topic| {
      assert topic[..n] == topic;
    } else {
      PrefixIncreases(topic[..|topic| - 1], n);
      assert topic[..|topic| - 1][..n] == topic[..n];
    }
  }

  /** Entry i is among the first n exactly when the cursor there has reached its number. */
  lemma {:induction false} OlderIff(topic: seq<Entry>, i: nat, n: nat)
    requires Increasing(topic) && i < |topic| && n <= |topic|
    ensures topic[i].sequence <= Newest(topic[..n]) <==> i < n
    ensures topic[i].sequence >= 1
    decreases |topic|
  {
    var init := topic[..|topic| - 1];
    if i < |topic| - 1 && n < |topic| {
      assert init[i] == topic[i] && init[..n] == topic[..n];
      OlderIff(init, i, n);
    } else if i < |topic| - 1 {
      assert topic[..n] == topic && init[i] == topic[i] && init[..|init|] == init;
      OlderIff(init, i, |init|);
    } else if n == |topic| {
      assert topic[..n] == topic;
    } else {
      NewestGrows(init, n);
      assert init[..n] == topic[..n];
    }
  }

  lemma {:induction false} NewestGrows(topic: seq<Entry>, n: nat)
    requires Increasing(topic) && n <= |topic|
    ensures Newest(topic[..n]) <= Newest(topic)
    decreases |topic|
  {
    if n == |topic| {
      assert topic[..n] == topic;
    } else {
      NewestGrows(topic[..|topic| - 1], n);
      assert topic[..|topic| - 1][..n] == topic[..n];
    }
  }

  /** The entries that carry a message. */
  function Carried(entries: seq<Entry>): seq<Entry>
  {
    if entries == [] then []
    else
      var e := entries[|entries| - 1];
      Carried(entries[..|entries| - 1]) + if e.content.Carries? then [e] else []
  }

  function Count(entries: seq<Entry>, e: Entry): nat
  {
    if entries == [] then 0 else Count(entries[..|entries| - 1], e) + if entries[|entries| - 1] == e then 1 else 0
  }

  lemma {:induction false} CarriedConcat(s: seq<Entry>, t: seq<Entry>)
    ensures Carried(s + t) == Carried(s) + Carried(t)
  {
    if t == [] {
      assert s + t == s;
    } else {
      CarriedConcat(s, t[..|t| - 1]);
      assert (s + t)[..|s + t| - 1] == s + t[..|t| - 1];
    }
  }

  lemma {:induction false} CountConcat(s: seq<Entry>, t: seq<Entry>, e: Entry)
    ensures Count(s + t, e) == Count(s, e) + Count(t, e)
  {
    if t == [] {
      assert s + t == s;
    } else {
      CountConcat(s, t[..|t| - 1], e);
      assert (s + t)[..|s + t| - 1] == s + t[..|t| - 1];
    }
  }

  lemma {:induction false} DecodedCarried(entries: seq<Entry>)
    ensures Decoded(Carried(entries)) == Decoded(entries)
  {
    if entries != [] {
      var init, e := entries[..|entries| - 1], entries[|entries| - 1];
      DecodedCarried(init);
      DecodedOne(Carried(init), e);
      assert Carried(init) + [] == Carried(init) && Decoded(init) + [] == Decoded(init);
    }
  }

  lemma {:induction false} CountCarried(topic: seq<Entry>, n: nat, e: Entry)
    requires Increasing(topic) && n <= |topic|
    ensures Count(Carried(topic[..n]), e) == if e in topic[..n] && e.content.Carries? then 1 else 0
  {
    if n > 0 {
      CountCarried(topic, n - 1, e);
      LastIsNew(topic, n);
      LastOf(topic, n, e);
      if topic[n - 1].content.Carries? {
        CountOne(Carried(topic[..n - 1]), topic[n - 1], e);
      } else {
        assert Carried(topic[..n]) == Carried(topic[..n - 1]);
      }
    }
  }

  lemma LastOf(topic: seq<Entry>, n: nat, e: Entry)
    requires 0 < n <= |topic|
    ensures topic[..n][..n - 1] == topic[..n - 1]
    ensures e in topic[..n] <==> e in topic[..n - 1] || e == topic[n - 1]
  {
    assert topic[..n] == topic[..n - 1] + [topic[n - 1]];
  }

  lemma LastIsNew(topic: seq<Entry>, n: nat)
    requires Increasing(topic) && 0 < n <= |topic|
    ensures topic[n - 1] !in topic[..n - 1]
  {
    var older := topic[..n - 1];
    forall i | 0 <= i < |older|
      ensures older[i] != topic[n - 1]
    {
      OlderIff(topic, i, n - 1);
      OlderIff(topic, n - 1, n - 1);
    }
  }

  lemma CountOne(s: seq<Entry>, x: Entry, e: Entry)
    ensures Count(s + [x], e) == Count(s, e) + if x == e then 1 else 0
  {
    assert (s + [x])[..|s|] == s;
  }

  /** The first n entries have been seen, and that is what the cursor says. */
  predicate HasSeen(s: Observed, n: nat)
  {
    n <= |s.topic| && n <= PAGE && Decodes(s.topic[..n]) && s.view.cursor == Newest(s.topic[..n])
  }

  /** The log was filled once from every message seen and once from every message published here. */
  ghost predicate Accounted(s: Observed, n: nat)
    requires n <= |s.topic|
  {
    && s.view.log == Decoded(s.logged)
    && (forall e :: Count(s.logged, e) == Count(Carried(s.topic[..n]), e) + if e in s.local then 1 else 0)
    && (forall e | e in s.local :: e in s.topic && e.content.Carries?)
    && (s.local == {} ==> s.logged == Carried(s.topic[..n]))
  }

  /** What a poll shows past the cursor are the entries after those already seen. */
  /** One entry more. */
  lemma ScanLast(topic: seq<Entry>, k: nat, since: nat)
    requires 0 < k <= |topic|
    ensures topic[k - 1].sequence <= since ==> Past(topic[..k], since) == Past(topic[..k - 1], since)
    ensures topic[k - 1].sequence > since ==> Past(topic[..k], since) == Past(topic[..k - 1], since) + [topic[k - 1]]
    ensures var h := Highest(topic[..k - 1], since);
            Highest(topic[..k], since) == if topic[k - 1].sequence > h then topic[k - 1].sequence else h
  {
    var init := topic[..k];
    assert init[..|init| - 1] == topic[..k - 1];
  }

  lemma {:induction false} PastIsUnseen(topic: seq<Entry>, n: nat, k: nat)
    requires Increasing(topic) && n <= |topic| && k <= |topic|
    ensures Past(topic[..k], Newest(topic[..n])) == if k <= n then [] else topic[n..k]
    ensures Highest(topic[..k], Newest(topic[..n])) == if k <= n then Newest(topic[..n]) else Newest(topic[..k])
    decreases k
  {
    if k > 0 {
      var last, since := topic[k - 1], Newest(topic[..n]);
      PastIsUnseen(topic, n, k - 1);
      OlderIff(topic, k - 1, n);
      OlderIff(topic, k - 1, k - 1);
      ScanLast(topic, k, since);
      if k > n {
        SliceNext(topic, n, k);
      }
    }
  }

  lemma UnseenDecodes(topic: seq<Entry>, n: nat, k: nat)
    requires n <= k <= |topic| && Decodes(topic[..n])
    ensures Decodes(topic[n..k]) <==> Decodes(topic[..k])
  {
    assert topic[..k] == topic[..n] + topic[n..k];
    DecodesConcat(topic[..n], topic[n..k]);
  }

  lemma PollOfPast(entries: seq<Entry>, since: nat, past: seq<Entry>, high: nat)
    requires Past(entries, since) == past && Highest(entries, since) == high
    ensures PollOf(entries, since) == if Decodes(past) then Some(Polled(Decoded(past), high)) else None
  {
  }

  lemma PollOfUnseen(topic: seq<Entry>, n: nat, k: nat)
    requires Increasing(topic) && n <= |topic| && k <= |topic| && Decodes(topic[..n])
    ensures k <= n ==> PollOf(topic[..k], Newest(topic[..n])) == Some(Polled([], Newest(topic[..n])))
    ensures k > n ==> PollOf(topic[..k], Newest(topic[..n])) ==
                      if Decodes(topic[..k]) then Some(Polled(Decoded(topic[n..k]), Newest(topic[..k]))) else None
  {
    PastIsUnseen(topic, n, k);
    if k > n {
      UnseenDecodes(topic, n, k);
      PollOfPast(topic[..k], Newest(topic[..n]), topic[n..k], Newest(topic[..k]));
    } else {
      PollOfPast(topic[..k], Newest(topic[..n]), [], Newest(topic[..n]));
    }
  }

  lemma PollSees(s: Observed, n: nat, k: nat)
    requires Increasing(s.topic) && HasSeen(s, n) && Enabled(s, Poll(k))
    ensures k <= n || !Decodes(s.topic[..k]) ==> Apply(s, Poll(k)) == s
    ensures k > n && Decodes(s.topic[..k]) ==>
              && HasSeen(Apply(s, Poll(k)), k)
              && Apply(s, Poll(k)) == s.(view := View(s.view.log + Decoded(s.topic[n..k]), Newest(s.topic[..k])),
                                         logged := s.logged + Carried(s.topic[n..k]))
  {
    PollOfUnseen(s.topic, n, k);
    PastIsUnseen(s.topic, n, k);
    assert s.view.log + [] == s.view.log && s.logged + [] == s.logged;
  }

  lemma PollAccounts(s: Observed, n: nat, k: nat)
    requires Increasing(s.topic) && HasSeen(s, n) && Accounted(s, n) && Enabled(s, Poll(k))
    ensures k > n && Decodes(s.topic[..k]) ==> Accounted(Apply(s, Poll(k)), k)
  {
    PollSees(s, n, k);
    if k > n && Decodes(s.topic[..k]) {
      PolledAccounts(s, n, k, Apply(s, Poll(k)));
    }
  }

  lemma PolledAccounts(s: Observed, n: nat, k: nat, t: Observed)
    requires n <= k <= |s.topic| && Accounted(s, n) && t.topic == s.topic && t.local == s.local
    requires t.logged == s.logged + Carried(s.topic[n..k]) && t.view.log == s.view.log + Decoded(s.topic[n..k])
    ensures Accounted(t, k)
  {
    DecodedConcat(s.logged, Carried(s.topic[n..k]));
    DecodedCarried(s.topic[n..k]);
    SliceSum(s.topic, n, k);
    CarriedConcat(s.topic[..n], s.topic[n..k]);
    forall e
      ensures Count(t.logged, e) == Count(Carried(t.topic[..k]), e) + if e in t.local then 1 else 0
    {
      PollCounts(s, n, k, e);
    }
  }

  lemma PollCounts(s: Observed, n: nat, k: nat, e: Entry)
    requires n <= k <= |s.topic|
    ensures Count(s.logged + Carried(s.topic[n..k]), e) - Count(s.logged, e)
            == Count(Carried(s.topic[..k]), e) - Count(Carried(s.topic[..n]), e)
  {
    var unseen := Carried(s.topic[n..k]);
    SliceSum(s.topic, n, k);
    CarriedConcat(s.topic[..n], s.topic[n..k]);
    CountConcat(s.logged, unseen, e);
    CountConcat(Carried(s.topic[..n]), unseen, e);
  }

  lemma NewIsNew(topic: seq<Entry>, e: Entry)
    requires Increasing(topic) && e.sequence > Newest(topic)
    ensures e !in topic
  {
    assert topic[..|topic|] == topic;
    forall i | 0 <= i < |topic|
      ensures topic[i] != e
    {
      OlderIff(topic, i, |topic|);
    }
  }

  lemma PublishAccounts(s: Observed, n: nat, e: Entry)
    requires Increasing(s.topic) && n <= |s.topic| && Accounted(s, n) && Enabled(s, LocalPublish(e))
    ensures Accounted(Apply(s, LocalPublish(e)), n)
  {
    var t := Apply(s, LocalPublish(e));
    assert t.topic[..n] == s.topic[..n];
    DecodedOne(s.logged, e);
    NewIsNew(s.topic, e);
    forall x
      ensures Count(t.logged, x) == Count(Carried(t.topic[..n]), x) + if x in t.local then 1 else 0
    {
      CountOne(s.logged, e, x);
    }
  }

  lemma {:induction false} DecodesConcat(s: seq<Entry>, t: seq<Entry>)
    ensures Decodes(s + t) <==> Decodes(s) && Decodes(t)
  {
    if t == [] {
      assert s + t == s;
    } else {
      DecodesConcat(s, t[..|t| - 1]);
      assert (s + t)[..|s + t| - 1] == s + t[..|t| - 1];
    }
  }

  lemma PrefixDecodes(entries: seq<Entry>, n: nat)
    requires Decodes(entries) && n <= |entries|
    ensures Decodes(entries[..n])
  {
    assert entries == entries[..n] + entries[n..];
    DecodesConcat(entries[..n], entries[n..]);
  }

  lemma AppendKeeps(topic: seq<Entry>, e: Entry, n: nat)
    requires Increasing(topic) && e.sequence > Newest(topic) && n <= |topic|
    ensures Increasing(topic + [e]) && (topic + [e])[..n] == topic[..n]
  {
    assert (topic + [e])[..|topic|] == topic;
  }

  lemma PollKeeps(s: Observed, k: nat, n: nat) returns (m: nat)
    requires Increasing(s.topic) && HasSeen(s, n) && Accounted(s, n) && Enabled(s, Poll(k))
    ensures var t := Apply(s, Poll(k));
            t.topic == s.topic && HasSeen(t, m) && Accounted(t, m) && m >= n && t.view.cursor >= s.view.cursor
  {
    m := n;
    PollSees(s, n, k);
    PollAccounts(s, n, k);
    if k > n && Decodes(s.topic[..k]) {
      PrefixIncreases(s.topic, k);
      assert s.topic[..k][..n] == s.topic[..n];
      NewestGrows(s.topic[..k], n);
      m := k;
    }
  }

  lemma StepKeeps(s: Observed, step: Step, n: nat) returns (m: nat)
    requires Increasing(s.topic) && HasSeen(s, n) && Accounted(s, n) && Enabled(s, step)
    ensures var t := Apply(s, step);
            Increasing(t.topic) && HasSeen(t, m) && Accounted(t, m) && m >= n && t.view.cursor >= s.view.cursor
  {
    m := n;
    match step
    case Append(e) => AppendKeeps(s.topic, e, n);
    case LocalPublish(e) =>
      AppendKeeps(s.topic, e, n);
      PublishAccounts(s, n, e);
    case Poll(k) => m := PollKeeps(s, k, n);
    case PollFails =>
  }

  lemma {:induction false} RunKeeps(s: Observed, steps: seq<Step>, n: nat) returns (m: nat)
    requires Increasing(s.topic) && HasSeen(s, n) && Accounted(s, n) && IsRun(s, steps)
    ensures Increasing(End(s, steps).topic) && HasSeen(End(s, steps), m) && Accounted(End(s, steps), m) && m >= n
    ensures End(s, steps).view.cursor >= s.view.cursor
    decreases |steps|
  {
    m := n;
    if steps != [] {
      m := StepKeeps(s, steps[0], n);
      m := RunKeeps(Apply(s, steps[0]), steps[1..], m);
    }
  }

  /** The entries of the topic up to a sequence number. */
  function UpTo(topic: seq<Entry>, cursor: nat): seq<Entry>
  {
    if topic == [] then []
    else
      var e := topic[|topic| - 1];
      UpTo(topic[..|topic| - 1], cursor) + if e.sequence <= cursor then [e] else []
  }

  lemma {:induction false} UpToIsPrefix(topic: seq<Entry>, n: nat, k: nat)
    requires Increasing(topic) && n <= |topic| && k <= |topic|
    ensures UpTo(topic[..k], Newest(topic[..n])) == if k <= n then topic[..k] else topic[..n]
    decreases k
  {
    if k > 0 {
      OlderIff(topic, k - 1, n);
      UpToIsPrefix(topic, n, k - 1);
      assert topic[..k][..k - 1] == topic[..k - 1];
    }
  }

  predicate ExactView(s: Observed)
  {
    s.view.log == Decoded(UpTo(s.topic, s.view.cursor))
  }

  lemma SeenIsExact(s: Observed, n: nat)
    requires Increasing(s.topic) && HasSeen(s, n) && Accounted(s, n) && s.local == {}
    ensures ExactView(s)
  {
    UpToCursor(s.topic, n);
    DecodedCarried(s.topic[..n]);
  }

  lemma UpToCursor(topic: seq<Entry>, n: nat)
    requires Increasing(topic) && n <= |topic|
    ensures UpTo(topic, Newest(topic[..n])) == topic[..n]
  {
    UpToIsPrefix(topic, n, |topic|);
    assert topic[..|topic|] == topic;
  }

  lemma StartHasSeen()
    ensures Increasing(START.topic) && HasSeen(START, 0) && Accounted(START, 0)
  {
  }

  /** After every run of publishes and polls: a log that only polling has filled is exactly the
      decodable messages of the topic up to the cursor, in order and once each, and the cursor never
      goes back. */
  lemma CursorIsExact(before: seq<Step>, after: seq<Step>)
    requires IsRun(START, before) && IsRun(End(START, before), after)
    ensures End(End(START, before), after).local == {} ==> ExactView(End(End(START, before), after))
    ensures End(End(START, before), after).view.cursor >= End(START, before).view.cursor
  {
    StartHasSeen();
    var s := End(START, before);
    var m := RunKeeps(START, before, 0);
    var n := RunKeeps(s, after, m);
    if End(s, after).local == {} {
      SeenIsExact(End(s, after), n);
    }
  }

  ghost predicate CanSee(s: Observed, i: nat)
    requires i < |s.topic|
  {
    exists steps: seq<Step> :: IsRun(s, steps) && End(s, steps).view.cursor >= s.topic[i].sequence
  }

  lemma {:induction false} TopicGrows(s: Observed, steps: seq<Step>)
    requires IsRun(s, steps)
    ensures s.topic <= End(s, steps).topic
    decreases |steps|
  {
    if steps != [] {
      TopicGrows(Apply(s, steps[0]), steps[1..]);
    }
  }

  lemma PollReaches(s: Observed, n: nat, i: nat)
    requires Increasing(s.topic) && HasSeen(s, n) && i < |s.topic| && i < PAGE && Decodes(s.topic[..i + 1])
    ensures CanSee(s, i)
  {
    PollPasses(s, n, i);
    RunOne(s, Poll(i + 1));
  }

  lemma PollPasses(s: Observed, n: nat, i: nat)
    requires Increasing(s.topic) && HasSeen(s, n) && i < |s.topic| && i < PAGE && Decodes(s.topic[..i + 1])
    ensures Apply(s, Poll(i + 1)).view.cursor >= s.topic[i].sequence
  {
    PollSees(s, n, i + 1);
    OlderIff(s.topic, i, if i < n then n else i + 1);
  }

  lemma RunOne(s: Observed, step: Step)
    requires Enabled(s, step)
    ensures IsRun(s, [step]) && End(s, [step]) == Apply(s, step)
  {
    var n := Apply(s, step);
    assert [step][1..] == [];
    assert IsRun(n, []) && End(n, []) == n;
  }

  lemma SeenIsReachable(s: Observed, n: nat, i: nat, steps: seq<Step>)
    requires Increasing(s.topic) && HasSeen(s, n) && Accounted(s, n) && i < |s.topic|
    requires IsRun(s, steps) && End(s, steps).view.cursor >= s.topic[i].sequence
    ensures i < PAGE && Decodes(s.topic[..i + 1])
  {
    var m := RunKeeps(s, steps, n);
    var t := End(s, steps);
    TopicGrows(s, steps);
    SeenIncludes(t, m, i);
    SeenDecodes(t, m, s.topic, i);
  }

  /** An entry can be reached exactly when it is among the first hundred of the topic and no entry
      up to it fails to decode: a poll never asks for a second page. */
  lemma CanSeeIff(before: seq<Step>, i: nat)
    requires IsRun(START, before) && i < |End(START, before).topic|
    ensures CanSee(End(START, before), i) <==> i < 100 && Decodes(End(START, before).topic[..i + 1])
  {
    var s := End(START, before);
    StartHasSeen();
    var n := RunKeeps(START, before, 0);
    if i < PAGE && Decodes(s.topic[..i + 1]) {
      PollReaches(s, n, i);
    }
    if CanSee(s, i) {
      var steps: seq<Step> :| IsRun(s, steps) && End(s, steps).view.cursor >= s.topic[i].sequence;
      SeenIsReachable(s, n, i, steps);
    }
  }

  /** What somebody else publishes within the first hundred is the newest thing logged after the next full
      poll, when nothing before it is in the way. */
  lemma AppendedIsLogged(before: seq<Step>, e: Entry, m: Message)
    requires IsRun(START, before) && e.content == Carries(m)
    requires var s := End(START, before); Enabled(s, Append(e)) && |s.topic| < 100 && Decodes(s.topic)
    ensures var s := End(START, before);
            var t := Apply(s, Append(e));
            && Enabled(t, Poll(|s.topic| + 1))
            && var v := Apply(t, Poll(|s.topic| + 1)).view;
            v.cursor == e.sequence && v.log != [] && v.log[|v.log| - 1] == m
  {
    var s := End(START, before);
    StartHasSeen();
    var n := RunKeeps(START, before, 0);
    AppendKeeps(s.topic, e, n);
    DecodedOne(s.topic, e);
    LastIsLogged(Apply(s, Append(e)), n, e, m);
  }

  lemma LastIsLogged(t: Observed, n: nat, e: Entry, m: Message)
    requires Increasing(t.topic) && HasSeen(t, n) && n < |t.topic| <= PAGE && Decodes(t.topic)
    requires t.topic[|t.topic| - 1] == e && e.content == Carries(m)
    ensures Enabled(t, Poll(|t.topic|))
    ensures var v := Apply(t, Poll(|t.topic|)).view; v.cursor == e.sequence && v.log != [] && v.log[|v.log| - 1] == m
  {
    var k := |t.topic|;
    assert t.topic[..k] == t.topic;
    PollSees(t, n, k);
    SliceNext(t.topic, n, k);
    DecodedOne(t.topic[n..k - 1], e);
  }

  lemma SeenIncludes(s: Observed, m: nat, i: nat)
    requires Increasing(s.topic) && HasSeen(s, m) && i < |s.topic| && s.view.cursor >= s.topic[i].sequence
    ensures i < m
  {
    OlderIff(s.topic, i, m);
  }

  // ----- messages this process publishes itself

  /** No message of the topic was logged twice. */
  ghost predicate LoggedOnce(s: Observed)
  {
    forall e :: Count(s.logged, e) <= 1
  }

  /** Over every run: the log is free of repetitions exactly as long as the cursor has passed no
      message that this process published itself. */
  lemma LoggedOnceIff(steps: seq<Step>)
    requires IsRun(START, steps)
    ensures var s := End(START, steps); LoggedOnce(s) <==> forall e | e in s.local :: e.sequence > s.view.cursor
  {
    StartHasSeen();
    var n := RunKeeps(START, steps, 0);
    OnceIffPast(End(START, steps), n);
  }

  lemma OnceIffPast(s: Observed, n: nat)
    requires Increasing(s.topic) && HasSeen(s, n) && Accounted(s, n)
    ensures LoggedOnce(s) <==> forall e | e in s.local :: e.sequence > s.view.cursor
  {
    forall e
      ensures Count(s.logged, e) <= 1 <==> !(e in s.local && e.sequence <= s.view.cursor)
    {
      CountCarried(s.topic, n, e);
      if e in s.local {
        LocalIsSeenIff(s, n, e);
      }
    }
  }

  lemma LocalIsSeenIff(s: Observed, n: nat, e: Entry)
    requires Increasing(s.topic) && HasSeen(s, n) && e in s.topic
    ensures e in s.topic[..n] <==> e.sequence <= s.view.cursor
  {
    var i :| 0 <= i < |s.topic| && s.topic[i] == e;
    OlderIff(s.topic, i, n);
    if i < n {
      assert e == s.topic[..n][i];
    } else if e in s.topic[..n] {
      var j :| 0 <= j < n && s.topic[..n][j] == e;
      OlderIff(s.topic, j, n);
    }
  }

  /** A poll can reach the entry, or has. */
  predicate Visible(topic: seq<Entry>, i: nat)
    requires i < |topic|
  {
    i < PAGE && Decodes(topic[..i + 1])
  }

  /** What was published here cannot be seen, and neither can what would be published next. */
  predicate OutOfSight(s: Observed)
  {
    && (forall i | 0 <= i < |s.topic| && s.topic[i] in s.local :: !Visible(s.topic, i))
    && (|s.topic| >= PAGE || !Decodes(s.topic))
  }

  ghost predicate StaysLoggedOnce(s: Observed)
  {
    forall steps: seq<Step> | IsRun(s, steps) :: LoggedOnce(End(s, steps))
  }

  lemma {:induction false} NewLocalIsNewer(s: Observed, steps: seq<Step>, e: Entry)
    requires IsRun(s, steps) && e in End(s, steps).local && e !in s.local
    ensures exists j :: |s.topic| <= j < |End(s, steps).topic| && End(s, steps).topic[j] == e
    decreases |steps|
  {
    var t := Apply(s, steps[0]);
    TopicGrows(t, steps[1..]);
    if e in t.local {
      assert t.topic[|s.topic|] == e;
      assert End(s, steps).topic[|s.topic|] == e;
    } else {
      NewLocalIsNewer(t, steps[1..], e);
    }
  }

  lemma SeenDecodes(t: Observed, m: nat, topic: seq<Entry>, j: nat)
    requires HasSeen(t, m) && topic <= t.topic && j < m
    ensures j < PAGE
    ensures j < |topic| ==> Decodes(topic[..j + 1])
    ensures j >= |topic| ==> Decodes(topic)
  {
    var k := if j < |topic| then j + 1 else |topic|;
    PrefixDecodes(t.topic[..m], k);
    assert t.topic[..m][..k] == topic[..k];
    assert topic[..|topic|] == topic;
  }

  /** A local entry that cannot be seen now will not be. */
  lemma UnseenStays(s: Observed, t: Observed, m: nat, j: nat)
    requires s.topic <= t.topic && Increasing(t.topic) && HasSeen(t, m) && j < |t.topic|
    requires if j < |s.topic| then !Visible(s.topic, j) else |s.topic| >= PAGE || !Decodes(s.topic)
    ensures t.topic[j].sequence > t.view.cursor
  {
    if t.topic[j].sequence <= t.view.cursor {
      SeenIncludes(t, m, j);
      SeenDecodes(t, m, s.topic, j);
    }
  }

  lemma OutOfSightStays(s: Observed, n: nat, steps: seq<Step>)
    requires Increasing(s.topic) && HasSeen(s, n) && Accounted(s, n) && OutOfSight(s) && IsRun(s, steps)
    ensures LoggedOnce(End(s, steps))
  {
    var t := End(s, steps);
    var m := RunKeeps(s, steps, n);
    TopicGrows(s, steps);
    forall e | e in t.local
      ensures e.sequence > t.view.cursor
    {
      if e in s.local {
        assert e in s.topic;
        var j: nat :| j < |s.topic| && s.topic[j] == e;
        UnseenStays(s, t, m, j);
      } else {
        NewLocalIsNewer(s, steps, e);
        var j: nat :| |s.topic| <= j < |t.topic| && t.topic[j] == e;
        UnseenStays(s, t, m, j);
      }
    }
    OnceIffPast(t, m);
  }

  lemma InSightRepeats(s: Observed, n: nat, i: nat)
    requires Increasing(s.topic) && HasSeen(s, n) && Accounted(s, n)
    requires i < |s.topic| && s.topic[i] in s.local && Visible(s.topic, i)
    ensures !LoggedOnce(Apply(s, Poll(i + 1)))
  {
    var u := Apply(s, Poll(i + 1));
    var m := StepKeeps(s, Poll(i + 1), n);
    PollPasses(s, n, i);
    PollMovesOnlyTheView(s, i + 1);
    OnceIffPast(u, m);
  }

  lemma PollMovesOnlyTheView(s: Observed, k: nat)
    requires Enabled(s, Poll(k))
    ensures Apply(s, Poll(k)).topic == s.topic && Apply(s, Poll(k)).local == s.local
  {
  }

  lemma PublishedRepeats(s: Observed, n: nat, e: Entry)
    requires Increasing(s.topic) && HasSeen(s, n) && Accounted(s, n) && |s.topic| < PAGE && Decodes(s.topic)
    requires Enabled(s, LocalPublish(e))
    ensures Enabled(Apply(s, LocalPublish(e)), Poll(|s.topic| + 1))
    ensures !LoggedOnce(Apply(Apply(s, LocalPublish(e)), Poll(|s.topic| + 1)))
  {
    var t, i := Apply(s, LocalPublish(e)), |s.topic|;
    var k := StepKeeps(s, LocalPublish(e), n);
    PublishedIsVisible(s, e);
    assert |t.topic| == i + 1;
    InSightRepeats(t, k, i);
  }

  lemma TwoSteps(s: Observed, a: Step, b: Step)
    requires Enabled(s, a) && Enabled(Apply(s, a), b)
    ensures IsRun(s, [a, b]) && End(s, [a, b]) == Apply(Apply(s, a), b)
  {
    RunOne(Apply(s, a), b);
    assert [a, b][1..] == [b];
  }

  lemma PublishedIsVisible(s: Observed, e: Entry)
    requires Enabled(s, LocalPublish(e)) && |s.topic| < PAGE && Decodes(s.topic)
    ensures var t := Apply(s, LocalPublish(e)); |t.topic| == |s.topic| + 1 && t.topic[|s.topic|] in t.local && Visible(t.topic, |s.topic|)
  {
    var t := Apply(s, LocalPublish(e));
    assert t.topic[..|s.topic| + 1] == s.topic + [e];
    DecodedOne(s.topic, e);
  }

  /** In every reachable state: whatever happens from here, each message is logged once exactly when
      neither a message published here nor the next one that would be can be seen by a poll. */
  lemma StaysLoggedOnceIff(before: seq<Step>)
    requires IsRun(START, before)
    ensures StaysLoggedOnce(End(START, before)) <==> OutOfSight(End(START, before))
  {
    var s := End(START, before);
    StartHasSeen();
    var n := RunKeeps(START, before, 0);
    if OutOfSight(s) {
      forall steps: seq<Step> | IsRun(s, steps)
        ensures LoggedOnce(End(s, steps))
      {
        OutOfSightStays(s, n, steps);
      }
    } else if |s.topic| < PAGE && Decodes(s.topic) {
      var e := Entry(Newest(s.topic) + 1, Carries(Message("", None)));
      PublishedRepeats(s, n, e);
      TwoSteps(s, LocalPublish(e), Poll(|s.topic| + 1));
    } else {
      var i :| 0 <= i < |s.topic| && s.topic[i] in s.local && Visible(s.topic, i);
      InSightRepeats(s, n, i);
      RunOne(s, Poll(i + 1));
    }
  }

  lemma OneEntry(e: Entry, m: Message)
    requires e.content == Carries(m)
    ensures Decoded([e]) == [m] && Decodes([e]) && Newest([e]) == e.sequence
  {
    var none: seq<Entry> := [];
    SumOfSeqs(none, [e]);
    DecodedOne(none, e);
  }

  /** The first message of the topic, published here. */
  lemma FirstIsLogged(e: Entry, m: Message)
    requires e == Entry(1, Carries(m))
    ensures Enabled(START, LocalPublish(e)) && Apply(START, LocalPublish(e)) == Observed([e], View([m], 0), [e], {e})
    ensures HasSeen(Observed([e], View([m], 0), [e], {e}), 0)
  {
  }

  lemma FirstIsPolled(s: Observed, e: Entry, m: Message)
    requires e == Entry(1, Carries(m)) && s == Observed([e], View([m], 0), [e], {e}) && HasSeen(s, 0)
    ensures Enabled(s, Poll(1)) && Apply(s, Poll(1)).view == View([m, m], 1)
  {
    assert Increasing([e]) && s.topic[..1] == [e] && s.topic[0..1] == [e];
    OneEntry(e, m);
    PollSees(s, 0, 1);
    assert [m] + [m] == [m, m];
  }

  /** For instance the very first message, published here and then polled. */
  lemma LocalPublishIsLoggedTwice(m: Message)
    ensures var steps := [LocalPublish(Entry(1, Carries(m))), Poll(1)];
            IsRun(START, steps) && End(START, steps).view == View([m, m], 1)
  {
    var e := Entry(1, Carries(m));
    FirstIsLogged(e, m);
    FirstIsPolled(Apply(START, LocalPublish(e)), e, m);
    TwoSteps(START, LocalPublish(e), Poll(1));
  }

  /** Nothing more is published here. */
  predicate OnlyWatches(steps: seq<Step>)
  {
    steps == [] || (!steps[0].LocalPublish? && OnlyWatches(steps[1..]))
  }

  ghost predicate StaysLoggedOnceWatching(s: Observed)
  {
    forall steps: seq<Step> | IsRun(s, steps) && OnlyWatches(steps) :: LoggedOnce(End(s, steps))
  }

  lemma {:induction false} WatchingKeepsLocal(s: Observed, steps: seq<Step>)
    requires IsRun(s, steps) && OnlyWatches(steps)
    ensures End(s, steps).local == s.local
    decreases |steps|
  {
    if steps != [] {
      WatchingKeepsLocal(Apply(s, steps[0]), steps[1..]);
    }
  }

  lemma UnseenLocalsStay(s: Observed, n: nat, steps: seq<Step>)
    requires Increasing(s.topic) && HasSeen(s, n) && Accounted(s, n) && IsRun(s, steps) && OnlyWatches(steps)
    requires forall i | 0 <= i < |s.topic| && s.topic[i] in s.local :: !Visible(s.topic, i)
    ensures LoggedOnce(End(s, steps))
  {
    var t := End(s, steps);
    var m := RunKeeps(s, steps, n);
    TopicGrows(s, steps);
    WatchingKeepsLocal(s, steps);
    forall e | e in t.local
      ensures e.sequence > t.view.cursor
    {
      assert e in s.topic;
      var j: nat :| j < |s.topic| && s.topic[j] == e;
      UnseenStays(s, t, m, j);
    }
    OnceIffPast(t, m);
  }

  /** The same once this process has stopped publishing: only what it has published counts. */
  lemma WatchingStaysLoggedOnceIff(before: seq<Step>)
    requires IsRun(START, before)
    ensures var s := End(START, before);
            StaysLoggedOnceWatching(s) <==> forall i | 0 <= i < |s.topic| && s.topic[i] in s.local :: !CanSee(s, i)
  {
    var s := End(START, before);
    StartHasSeen();
    var n := RunKeeps(START, before, 0);
    forall i | 0 <= i < |s.topic|
      ensures CanSee(s, i) <==> Visible(s.topic, i)
    {
      CanSeeIff(before, i);
    }
    if i :| 0 <= i < |s.topic| && s.topic[i] in s.local && Visible(s.topic, i) {
      InSightRepeats(s, n, i);
      RunOne(s, Poll(i + 1));
      assert [Poll(i + 1)][1..] == [];
      assert OnlyWatches([Poll(i + 1)]);
    } else {
      forall steps: seq<Step> | IsRun(s, steps) && OnlyWatches(steps)
        ensures LoggedOnce(End(s, steps))
      {
        UnseenLocalsStay(s, n, steps);
      }
    }
  }
}
