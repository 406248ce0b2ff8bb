/**
 Message rates from polled cumulative counters: a ring of samples that is pruned as it grows, and
 a rate over a sliding window that restarts at every counter reset.

 Times are nanoseconds.  Counters are 64-bit unsigned and their difference wraps around.
 */
module Rates {
  import opened Prelude

  const SECOND: int := 1_000_000_000
  const RATE_WINDOW: int := 60 * SECOND
  const SLACK: int := 30 * SECOND

  const TWO64: int := 0x1_0000_0000_0000_0000

  type Count = c: int | 0 <= c < TWO64

  datatype Entry = Entry(peerId: string, messageCount: Count)

  datatype RatePoint = RatePoint(at: int, countByKey: map<string, Count>)

  datatype Point = Point(at: int, count: Count)

  function Minus64(x: Count, y: Count): Count
  {
    (x - y) % TWO64
  }

  lemma MinusWithoutWrap(x: Count, y: Count)
    requires x >= y
    ensures Minus64(x, y) == x - y
  {
  }

  // ----- the rate over a list of samples

  /** The samples of one key that are not older than the cutoff. */
  function Points(samples: seq<RatePoint>, key: string, cutoff: int): seq<Point>
  {
    if samples == [] then []
    else
      var s := samples[|samples| - 1];
      var earlier := Points(samples[..|samples| - 1], key, cutoff);
      if s.at >= cutoff && key in s.countByKey then earlier + [Point(s.at, s.countByKey[key])] else earlier
  }

  lemma PointsNext(samples: seq<RatePoint>, i: nat, key: string, cutoff: int)
    requires i < |samples|
    ensures var s := samples[i];
            var earlier := Points(samples[..i], key, cutoff);
            Points(samples[..i + 1], key, cutoff) ==
            if s.at >= cutoff && key in s.countByKey then earlier + [Point(s.at, s.countByKey[key])] else earlier
  {
    assert samples[..i + 1][..i] == samples[..i];
  }

  lemma {:induction false} PointsConcat(s: seq<RatePoint>, t: seq<RatePoint>, key: string, cutoff: int)
    ensures Points(s + t, key, cutoff) == Points(s, key, cutoff) + Points(t, key, cutoff)
  {
    if t == [] {
      assert s + t == s;
    } else {
      PointsConcat(s, t[..|t| - 1], key, cutoff);
      assert (s + t)[..|s + t| - 1] == s + t[..|t| - 1];
    }
  }

  predicate NonDecreasing(pts: seq<Point>, from: nat)
  {
    forall i, j :: from <= i <= j < |pts| ==> pts[i].count <= pts[j].count
  }

  /** b starts the longest suffix in which the counter never goes down: it does not, and at b it did. */
  predicate StartsSuffix(pts: seq<Point>, b: nat)
  {
    && b < |pts|
    && NonDecreasing(pts, b)
    && (b > 0 ==> pts[b].count < pts[b - 1].count)
  }

  /** The index after the last reset. */
  function Base(pts: seq<Point>): (b: nat)
    requires pts != []
    ensures b < |pts|
  {
    var n := |pts|;
    if n == 1 then 0
    else if pts[n - 1].count < pts[n - 2].count then n - 1
    else Base(pts[..n - 1])
  }

  lemma {:induction false} BaseStartsSuffix(pts: seq<Point>)
    requires pts != []
    ensures StartsSuffix(pts, Base(pts))
  {
    var n := |pts|;
    if n > 1 && pts[n - 1].count >= pts[n - 2].count {
      BaseStartsSuffix(pts[..n - 1]);
    }
  }

  /** It is the only index that starts the longest such suffix. */
  lemma BaseIffStartsSuffix(pts: seq<Point>, b: nat)
    requires pts != []
    ensures b == Base(pts) <==> StartsSuffix(pts, b)
  {
    BaseStartsSuffix(pts);
  }

  /** What the counter gained from sample to sample, a reset counting as nothing. */
  function Gained(pts: seq<Point>): nat
  {
    if |pts| < 2 then 0
    else
      var n := |pts|;
      Gained(pts[..n - 1]) + if pts[n - 1].count >= pts[n - 2].count then pts[n - 1].count - pts[n - 2].count else 0
  }

  lemma {:induction false} GainTelescopes(pts: seq<Point>)
    requires pts != [] && NonDecreasing(pts, 0)
    ensures Gained(pts) == pts[|pts| - 1].count - pts[0].count
  {
    if |pts| > 1 {
      GainTelescopes(pts[..|pts| - 1]);
    }
  }

  /** What the counter gained since its last reset at b, over the time that took. */
  function GainRate(pts: seq<Point>, b: nat): Option<real>
    requires b < |pts|
  {
    var elapsed := pts[|pts| - 1].at - pts[b].at;
    if elapsed <= 0 then None else Some(PerSecond(Gained(pts[b..]), elapsed))
  }

  function Seconds(d: int): real
  {
    d as real / SECOND as real
  }

  /** The rate is unknown without two samples, or without time between the first and the last
      that count. */
  function Rate(pts: seq<Point>): Option<real>
  {
    if |pts| < 2 then None else GainRate(pts, Base(pts))
  }

  lemma RateIsNotNegative(pts: seq<Point>)
    ensures Rate(pts).Some? ==> Rate(pts).value >= 0.0
  {
    if Rate(pts).Some? {
      var b := Base(pts);
      QuotientIsNotNegative(Gained(pts[b..]) as real, Seconds(pts[|pts| - 1].at - pts[b].at));
    }
  }

  function PerSecond(gain: int, elapsed: int): real
    requires elapsed > 0
  {
    gain as real / Seconds(elapsed)
  }

  lemma QuotientTimes(x: real, y: real)
    requires y != 0.0
    ensures x / y * y == x
  {
  }

  /** The unit: n in one second, which is a billion nanoseconds, is n, and twice the time is half the rate. */
  lemma PerSecondMeaning(gain: int, elapsed: int)
    requires elapsed > 0
    ensures PerSecond(gain, 1_000_000_000) == gain as real
    ensures PerSecond(gain, elapsed) * Seconds(elapsed) == gain as real
    ensures Seconds(elapsed) == elapsed as real / 1000000000.0
  {
    QuotientTimes(gain as real, Seconds(elapsed));
    assert Seconds(1_000_000_000) == 1.0;
  }

  /** The gain since the base over the time since the base, when that time has gone on. */
  lemma RateMeaning(pts: seq<Point>)
    requires |pts| >= 2
    ensures var b, n := Base(pts), |pts| - 1;
            Rate(pts) == if pts[n].at <= pts[b].at then None else Some(PerSecond(Gained(pts[b..]), pts[n].at - pts[b].at))
  {
  }

  lemma QuotientIsNotNegative(x: real, y: real)
    requires x >= 0.0 && y > 0.0
    ensures x / y >= 0.0
  {
  }

  /** The unsigned difference does not wrap around at the base, and gives the rate. */
  lemma DifferenceIsGain(pts: seq<Point>, b: nat)
    requires pts != [] && b == Base(pts)
    ensures pts[|pts| - 1].count >= pts[b].count
    ensures Minus64(pts[|pts| - 1].count, pts[b].count) == Gained(pts[b..])
  {
    BaseStartsSuffix(pts);
    var kept := pts[b..];
    assert kept[0] == pts[b] && kept[|kept| - 1] == pts[|pts| - 1];
    assert NonDecreasing(kept, 0);
    GainTelescopes(kept);
    MinusWithoutWrap(pts[|pts| - 1].count, pts[b].count);
  }

  method MessageRate(samples: seq<RatePoint>, key: string, window: int, now: int) returns (rate: Option<real>)
    ensures rate == Rate(Points(samples, key, now - window))
    ensures rate.Some? ==> rate.value >= 0.0
  {
    var cutoff := now - window;
    var pts: seq<Point> := [];
    for i := 0 to |samples|
      invariant pts == Points(samples[..i], key, cutoff)
    {
      PointsNext(samples, i, key, cutoff);
      var s := samples[i];
      if s.at < cutoff {
        continue;
      }
      if key in s.countByKey {
        pts := pts + [Point(s.at, s.countByKey[key])];
      }
    }
    assert samples[..|samples|] == samples;
    if |pts| < 2 {
      return None;
    }
    var base := 0;
    for i := 1 to |pts|
      invariant base == Base(pts[..i])
    {
      assert pts[..i + 1][..i] == pts[..i];
      if pts[i].count < pts[i - 1].count {
        base := i;
      }
    }
    assert pts[..|pts|] == pts;
    var first, last := pts[base], pts[|pts| - 1];
    var elapsed := last.at - first.at;
    if elapsed <= 0 {
      return None;
    }
    DifferenceIsGain(pts, base);
    rate := Some(Minus64(last.count, first.count) as real / Seconds(elapsed));
    RateIsNotNegative(pts);
  }

  // ----- the poller

  /** The counts of one answer: for a peer listed twice, the later one. */
  function CountsOf(entries: seq<Entry>): map<string, Count>
  {
    if entries == [] then map[]
    else
      var e := entries[|entries| - 1];
      CountsOf(entries[..|entries| - 1])[e.peerId := e.messageCount]
  }

  /** The ring without its leading samples from before the cutoff. */
  function Pruned(ring: seq<RatePoint>, cutoff: int): seq<RatePoint>
  {
    if ring != [] && ring[0].at < cutoff then Pruned(ring[1..], cutoff) else ring
  }

  /** The answer of one poll, or the reason why there is none. */
  datatype Poll = Answered(now: int, entries: seq<Entry>) | Failed(now: int, reason: string)

  datatype View = View(polledAt: int, entries: seq<Entry>, err: string)

  function RingAfter(ring: seq<RatePoint>, poll: Poll): seq<RatePoint>
  {
    match poll
    case Failed(_, _) => ring
    case Answered(now, entries) => Pruned(ring + [RatePoint(now, CountsOf(entries))], now - RATE_WINDOW - SLACK)
  }

  class SessionsPoller {
    var cur: View
    var ring: seq<RatePoint>

    constructor ()
      ensures ring == Ring([])
    {
      cur, ring := View(0, [], ""), [];
    }

    /** A failing poll keeps the samples and the entries and reports the failure. */
    method PollOnce(poll: Poll)
      modifies this
      ensures ring == RingAfter(old(ring), poll)
      ensures cur == if poll.Failed? then View(poll.now, old(cur).entries, poll.reason) else View(poll.now, poll.entries, "")
    {
      if poll.Failed? {
        SetErr(poll.now, poll.reason);
        return;
      }
      var counts: map<string, Count> := map[];
      for i := 0 to |poll.entries|
        invariant counts == CountsOf(poll.entries[..i])
        invariant ring == old(ring) && cur == old(cur)
      {
        assert poll.entries[..i + 1][..i] == poll.entries[..i];
        counts := counts[poll.entries[i].peerId := poll.entries[i].messageCount];
      }
      assert poll.entries[..|poll.entries|] == poll.entries;
      cur := View(poll.now, poll.entries, "");
      ring := ring + [RatePoint(poll.now, counts)];
      var cutoff := poll.now - RATE_WINDOW - SLACK;
      while ring != [] && ring[0].at < cutoff
        invariant Pruned(ring, cutoff) == RingAfter(old(ring), poll)
        invariant cur == View(poll.now, poll.entries, "")
        decreases |ring|
      {
        ring := ring[1..];
      }
    }

    method SetErr(now: int, reason: string)
      modifies this`cur
      ensures cur == View(now, old(cur).entries, reason)
    {
      cur := View(now, cur.entries, reason);
    }

    /** The rate read off the pruned ring is the rate over every sample ever taken. */
    method RateFor(peerId: string, now: int, ghost polls: seq<Poll>) returns (rate: Option<real>)
      requires ring == Ring(polls)
      requires forall i | 0 <= i < |polls| :: now >= polls[i].now - 30_000_000_000
      ensures rate == Rate(Points(History(polls), peerId, now - 60_000_000_000))
    {
      RingServesQueries(polls, peerId, now);
      rate := MessageRate(ring, peerId, RATE_WINDOW, now);
    }
  }

  // ----- the ring against the full history

  /** Every sample ever taken. */
  function History(polls: seq<Poll>): seq<RatePoint>
  {
    if polls == [] then []
    else
      var p := polls[|polls| - 1];
      History(polls[..|polls| - 1]) + if p.Answered? then [RatePoint(p.now, CountsOf(p.entries))] else []
  }

  /** The ring after these polls. */
  function Ring(polls: seq<Poll>): seq<RatePoint>
  {
    if polls == [] then [] else RingAfter(Ring(polls[..|polls| - 1]), polls[|polls| - 1])
  }

  predicate AllBefore(s: seq<RatePoint>, t: int)
  {
    forall i | 0 <= i < |s| :: s[i].at < t
  }

  lemma {:induction false} PruningDropsOldPrefix(ring: seq<RatePoint>, cutoff: int) returns (dropped: seq<RatePoint>)
    ensures ring == dropped + Pruned(ring, cutoff)
    ensures AllBefore(dropped, cutoff)
    ensures Pruned(ring, cutoff) == [] || Pruned(ring, cutoff)[0].at >= cutoff
  {
    if ring != [] && ring[0].at < cutoff {
      var rest := PruningDropsOldPrefix(ring[1..], cutoff);
      dropped := [ring[0]] + rest;
    } else {
      dropped := [];
    }
  }

  /** What has been pruned is older than every later query's window. */
  lemma {:induction false} RingIsRecentHistory(polls: seq<Poll>, now: int) returns (dropped: seq<RatePoint>)
    requires forall i | 0 <= i < |polls| :: now >= polls[i].now - SLACK
    ensures History(polls) == dropped + Ring(polls)
    ensures AllBefore(dropped, now - RATE_WINDOW)
  {
    if polls == [] {
      return [];
    }
    var n := |polls| - 1;
    dropped := RingIsRecentHistory(polls[..n], now);
    match polls[n]
    case Failed(_, _) =>
    case Answered(at, entries) =>
      var grown := Ring(polls[..n]) + [RatePoint(at, CountsOf(entries))];
      var more := PruningDropsOldPrefix(grown, at - RATE_WINDOW - SLACK);
      SumAssociates(dropped, Ring(polls[..n]), [RatePoint(at, CountsOf(entries))]);
      SumAssociates(dropped, more, Ring(polls));
      dropped := dropped + more;
  }

  lemma {:induction false} NoPointsBefore(s: seq<RatePoint>, key: string, cutoff: int)
    requires AllBefore(s, cutoff)
    ensures Points(s, key, cutoff) == []
  {
    if s != [] {
      NoPointsBefore(s[..|s| - 1], key, cutoff);
    }
  }

  /** For every list of polls, at whatever times, and every query made no more than the slack
      before any of them: the pruned ring and the full history have the same points. */
  lemma RingServesQueries(polls: seq<Poll>, key: string, now: int)
    requires forall i | 0 <= i < |polls| :: now >= polls[i].now - SLACK
    ensures Points(Ring(polls), key, now - RATE_WINDOW) == Points(History(polls), key, now - RATE_WINDOW)
  {
    var dropped := RingIsRecentHistory(polls, now);
    PointsConcat(dropped, Ring(polls), key, now - RATE_WINDOW);
    NoPointsBefore(dropped, key, now - RATE_WINDOW);
    assert [] + Points(Ring(polls), key, now - RATE_WINDOW) == Points(Ring(polls), key, now - RATE_WINDOW);
  }

  predicate Ordered(polls: seq<Poll>)
  {
    forall i, j :: 0 <= i <= j < |polls| ==> polls[i].now <= polls[j].now
  }

  predicate InOrder(s: seq<RatePoint>)
  {
    forall i, j :: 0 <= i <= j < |s| ==> s[i].at <= s[j].at
  }

  lemma {:induction false} PrunedInOrder(ring: seq<RatePoint>, cutoff: int)
    requires InOrder(ring)
    ensures InOrder(Pruned(ring, cutoff)) && AllNotBefore(Pruned(ring, cutoff), cutoff)
    ensures Pruned(ring, cutoff) != [] ==> Pruned(ring, cutoff)[|Pruned(ring, cutoff)| - 1] == ring[|ring| - 1]
  {
    if ring != [] && ring[0].at < cutoff {
      PrunedInOrder(ring[1..], cutoff);
    }
  }

  /** With a clock that does not go back, the ring only holds samples of the last 90 seconds
      before the last successful poll: it does not grow without bound. */
  lemma {:induction false} RingIsBounded(polls: seq<Poll>)
    requires Ordered(polls) && polls != []
    ensures InOrder(Ring(polls))
    ensures Ring(polls) != [] ==> Ring(polls)[|Ring(polls)| - 1].at <= polls[|polls| - 1].now
    ensures polls[|polls| - 1].Answered? ==> AllNotBefore(Ring(polls), polls[|polls| - 1].now - 90_000_000_000)
  {
    var n := |polls| - 1;
    var ring := Ring(polls[..n]);
    if n > 0 {
      RingIsBounded(polls[..n]);
      assert polls[n - 1].now <= polls[n].now;
    }
    if polls[n].Answered? {
      PrunedInOrder(ring + [RatePoint(polls[n].now, CountsOf(polls[n].entries))], polls[n].now - RATE_WINDOW - SLACK);
    }
  }

  predicate AllNotBefore(s: seq<RatePoint>, t: int)
  {
    forall i | 0 <= i < |s| :: s[i].at >= t
  }
}
