/**
 The initial map focus: the densest cluster of live drones, its centroid and its bounds.

 Distances are a parameter, of which only dist(p, p) == 0 is used, and coordinates are reals.
 Tracks come out of a map in no particular order, so the focus should not depend on their order.
 */
module Focus {
  import opened Prelude

  const FOCUS_RADIUS: real := 1500.0
  const OPERATOR_LEASH: real := 2000.0

  const MAX_FLOAT64: real := 179769313486231570814527423731704356798070567525844996598917476803157260780028538760589558632766878171540458953514382464234321326889464182768467546703537516986049910576551282076245490090389328944075868508455133942304583236903222948165808559332123348274797826204144723168738177180919299881250404026184124858368.0

  datatype Place = Place(lat: real, lon: real)

  type Distance = (Place, Place) -> real

  /** Remote identification: where the pilot stands, when known. */
  datatype RemoteId = RemoteId(opLat: Option<real>, opLon: Option<real>)

  datatype Snapshot = Snapshot(uid: string, kind: string, position: Option<Place>, rid: Option<RemoteId>)

  datatype Cand = Cand(uid: string, at: Place, opLat: Option<real>, opLon: Option<real>)

  datatype Box = Box(minLat: real, minLon: real, maxLat: real, maxLon: real)

  datatype FocusArea = FocusArea(count: nat, lat: real, lon: real, box: Box)

  predicate ValidCoord(p: Place)
  {
    -90.0 <= p.lat <= 90.0 && -180.0 <= p.lon <= 180.0 && (p.lat != 0.0 || p.lon != 0.0)
  }

  /** Byte-wise lexicographic order of strings. */
  predicate Less(a: string, b: string)
  {
    b != "" && (a == "" || a[0] < b[0] || (a[0] == b[0] && Less(a[1..], b[1..])))
  }

  lemma {:induction false} LessIsTransitive(a: string, b: string, c: string)
    requires !Less(b, a) && !Less(c, b)
    ensures !Less(c, a)
  {
    if a != "" && b != "" && c != "" && a[0] == b[0] == c[0] {
      LessIsTransitive(a[1..], b[1..], c[1..]);
    }
  }

  lemma {:induction false} LessIsTotal(a: string, b: string)
    ensures a == b || Less(a, b) || Less(b, a)
    ensures !(Less(a, b) && Less(b, a))
  {
    if a != "" && b != "" {
      LessIsTotal(a[1..], b[1..]);
    }
  }

  // ----- folds that do not depend on the order

  function Fold<A, B>(s: seq<A>, step: (B, A) -> B, zero: B): B
  {
    if s == [] then zero else step(Fold(s[..|s| - 1], step, zero), s[|s| - 1])
  }

  ghost predicate Commutes<A(!new), B(!new)>(step: (B, A) -> B)
  {
    forall b, x, y :: step(step(b, x), y) == step(step(b, y), x)
  }

  /** An element can be moved to the end. */
  lemma {:induction false} FoldMoves<A(!new), B(!new)>(s: seq<A>, i: nat, step: (B, A) -> B, zero: B)
    requires i < |s| && Commutes(step)
    ensures Fold(s, step, zero) == step(Fold(s[..i] + s[i + 1..], step, zero), s[i])
  {
    var n := |s| - 1;
    var rest := s[..i] + s[i + 1..];
    if i == n {
      assert rest == s[..n];
    } else {
      FoldMoves(s[..n], i, step, zero);
      assert rest[..n - 1] == s[..n][..i] + s[..n][i + 1..];
    }
  }

  lemma {:induction false} FoldPermutes<A(!new), B(!new)>(s: seq<A>, t: seq<A>, step: (B, A) -> B, zero: B)
    requires multiset(s) == multiset(t) && Commutes(step)
    ensures Fold(s, step, zero) == Fold(t, step, zero)
  {
    if s == [] {
      assert |multiset(t)| == 0;
    } else {
      var n := |s| - 1;
      var i := Locate(t, s, n);
      FoldMoves(t, i, step, zero);
      FoldPermutes(s[..n], t[..i] + t[i + 1..], step, zero);
    }
  }

  /** Where in t the last element of s is, and that the others remain. */
  lemma Locate<A>(t: seq<A>, s: seq<A>, n: nat) returns (i: nat)
    requires multiset(s) == multiset(t) && |s| == n + 1
    ensures i < |t| && t[i] == s[n]
    ensures multiset(s[..n]) == multiset(t[..i] + t[i + 1..])
  {
    assert s == s[..n] + [s[n]];
    assert s[n] in multiset(s);
    assert s[n] in t;
    i :| 0 <= i < |t| && t[i] == s[n];
    assert t == t[..i] + [t[i]] + t[i + 1..];
    var rest := t[..i] + t[i + 1..];
    assert multiset(t) == multiset(rest) + multiset{t[i]};
    assert multiset(s) == multiset(s[..n]) + multiset{s[n]};
    assert multiset(rest) == multiset(t) - multiset{s[n]};
    assert multiset(s[..n]) == multiset(s) - multiset{s[n]};
  }

  // ----- candidates

  predicate Usable(s: Snapshot)
  {
    s.position.Some? && ValidCoord(s.position.value)
  }

  function CandOf(s: Snapshot): Cand
    requires Usable(s)
  {
    match s.rid
    case None => Cand(s.uid, s.position.value, None, None)
    case Some(rid) => Cand(s.uid, s.position.value, rid.opLat, rid.opLon)
  }

  /** The candidates of one kind: aircraft, or everything else. */
  function Kind(snaps: seq<Snapshot>, aircraft: bool): seq<Cand>
  {
    if snaps == [] then []
    else
      var s := snaps[|snaps| - 1];
      Kind(snaps[..|snaps| - 1], aircraft) + if Usable(s) && (s.kind == "adsb") == aircraft then [CandOf(s)] else []
  }

  /** Aircraft only count when there is nothing else. */
  function Candidates(snaps: seq<Snapshot>): seq<Cand>
  {
    if Kind(snaps, false) == [] then Kind(snaps, true) else Kind(snaps, false)
  }

  // ----- the choice

  function Neighbours(dist: Distance, cands: seq<Cand>, c: Cand): nat
  {
    if cands == [] then 0
    else Neighbours(dist, cands[..|cands| - 1], c) + if dist(c.at, cands[|cands| - 1].at) <= FOCUS_RADIUS then 1 else 0
  }

  /** c is at least as good a centre as d. */
  predicate AtLeastAsGood(dist: Distance, cands: seq<Cand>, c: Cand, d: Cand)
  {
    var (m, n) := (Neighbours(dist, cands, c), Neighbours(dist, cands, d));
    m > n || (m == n && !Less(d.uid, c.uid))
  }

  /** Nobody has more neighbours, and nobody with as many has a smaller uid. */
  ghost predicate Top(dist: Distance, cands: seq<Cand>, c: Cand)
  {
    c in cands && forall d | d in cands :: AtLeastAsGood(dist, cands, c, d)
  }

  /** The first of the best among the first k candidates. */
  function BestOf(dist: Distance, cands: seq<Cand>, k: nat): (best: nat)
    requires 0 < k <= |cands|
    ensures best < k
  {
    if k == 1 then 0
    else
      var b := BestOf(dist, cands, k - 1);
      if AtLeastAsGood(dist, cands, cands[b], cands[k - 1]) then b else k - 1
  }

  lemma GoodIsTransitive(dist: Distance, cands: seq<Cand>, c: Cand, d: Cand, e: Cand)
    requires AtLeastAsGood(dist, cands, c, d) && AtLeastAsGood(dist, cands, d, e)
    ensures AtLeastAsGood(dist, cands, c, e)
  {
    if Neighbours(dist, cands, c) == Neighbours(dist, cands, e) {
      LessIsTransitive(c.uid, d.uid, e.uid);
    }
  }

  lemma GoodIsTotal(dist: Distance, cands: seq<Cand>, c: Cand, d: Cand)
    ensures AtLeastAsGood(dist, cands, c, d) || AtLeastAsGood(dist, cands, d, c)
  {
    LessIsTotal(c.uid, d.uid);
  }

  lemma {:induction false} BestOfIsBest(dist: Distance, cands: seq<Cand>, k: nat)
    requires 0 < k <= |cands|
    ensures var b := BestOf(dist, cands, k);
            && (forall j | 0 <= j < k :: AtLeastAsGood(dist, cands, cands[b], cands[j]))
            && (forall j | 0 <= j < b :: !AtLeastAsGood(dist, cands, cands[j], cands[b]))
  {
    var b := BestOf(dist, cands, k);
    GoodIsTotal(dist, cands, cands[b], cands[b]);
    if k > 1 {
      var c := BestOf(dist, cands, k - 1);
      BestOfIsBest(dist, cands, k - 1);
      GoodIsTotal(dist, cands, cands[c], cands[k - 1]);
      if b == k - 1 {
        forall j | 0 <= j < b
          ensures AtLeastAsGood(dist, cands, cands[b], cands[j]) && !AtLeastAsGood(dist, cands, cands[j], cands[b])
        {
          GoodIsTransitive(dist, cands, cands[b], cands[c], cands[j]);
          if AtLeastAsGood(dist, cands, cands[j], cands[b]) {
            GoodIsTransitive(dist, cands, cands[c], cands[j], cands[b]);
          }
        }
      }
    }
  }

  // ----- the area around a centre

  function Min(x: real, y: real): real { if x <= y then x else y }

  function Max(x: real, y: real): real { if x >= y then x else y }

  function Extend(b: Box, p: Place): Box
  {
    Box(Min(b.minLat, p.lat), Min(b.minLon, p.lon), Max(b.maxLat, p.lat), Max(b.maxLon, p.lon))
  }

  datatype Tally = Tally(count: nat, sumLat: real, sumLon: real, box: Box)

  const EMPTY: Tally := Tally(0, 0.0, 0.0, Box(MAX_FLOAT64, MAX_FLOAT64, -MAX_FLOAT64, -MAX_FLOAT64))

  predicate ShowsOperator(dist: Distance, c: Cand)
  {
    && c.opLat.Some? && c.opLon.Some? && ValidCoord(Place(c.opLat.value, c.opLon.value))
    && dist(c.at, Place(c.opLat.value, c.opLon.value)) <= OPERATOR_LEASH
  }

  /** The box takes in a member and, when plausibly close, its pilot. */
  function Widened(dist: Distance, b: Box, c: Cand): Box
  {
    var w := Extend(b, c.at);
    if ShowsOperator(dist, c) then Extend(w, Place(c.opLat.value, c.opLon.value)) else w
  }

  function Add(dist: Distance, centre: Place, t: Tally, c: Cand): Tally
  {
    if dist(centre, c.at) > FOCUS_RADIUS then t
    else Tally(t.count + 1, t.sumLat + c.at.lat, t.sumLon + c.at.lon, Widened(dist, t.box, c))
  }

  function Adder(dist: Distance, centre: Place): (Tally, Cand) -> Tally
  {
    (t, c) => Add(dist, centre, t, c)
  }

  function TallyOf(dist: Distance, cands: seq<Cand>, centre: Place): Tally
  {
    Fold(cands, Adder(dist, centre), EMPTY)
  }

  function AreaOf(t: Tally): FocusArea
    requires t.count > 0
  {
    FocusArea(t.count, t.sumLat / t.count as real, t.sumLon / t.count as real, t.box)
  }

  lemma {:induction false} CountIsNeighbours(dist: Distance, cands: seq<Cand>, c: Cand)
    ensures TallyOf(dist, cands, c.at).count == Neighbours(dist, cands, c)
  {
    if cands != [] {
      CountIsNeighbours(dist, cands[..|cands| - 1], c);
    }
  }

  lemma {:induction false} OwnNeighbour(dist: Distance, cands: seq<Cand>, c: Cand)
    requires c in cands && dist(c.at, c.at) == 0.0
    ensures Neighbours(dist, cands, c) >= 1
  {
    if cands[|cands| - 1] != c {
      assert c in cands[..|cands| - 1];
      OwnNeighbour(dist, cands[..|cands| - 1], c);
    }
  }

  ghost predicate Reflexive(dist: Distance)
  {
    forall p :: dist(p, p) == 0.0
  }

  /** The focus with candidate c as the centre. */
  function AreaAround(dist: Distance, cands: seq<Cand>, c: Cand): Option<FocusArea>
  {
    var t := TallyOf(dist, cands, c.at);
    if t.count > 0 then Some(AreaOf(t)) else None
  }

  function Result(dist: Distance, snaps: seq<Snapshot>): Option<FocusArea>
  {
    var cands := Candidates(snaps);
    if cands == [] then None else AreaAround(dist, cands, cands[BestOf(dist, cands, |cands|)])
  }

  /** The centre is a top candidate, the count is its number of neighbours, the largest there is
      and at least one, so that the division is safe. */
  method FocusFor(dist: Distance, snaps: seq<Snapshot>) returns (f: Option<FocusArea>)
    requires Reflexive(dist)
    ensures f == Result(dist, snaps)
    ensures f == None <==> Candidates(snaps) == []
    ensures f.Some? ==>
              exists c :: Top(dist, Candidates(snaps), c) && f == AreaAround(dist, Candidates(snaps), c) &&
                          f.value.count == Neighbours(dist, Candidates(snaps), c)
  {
    var cands, adsbCands: seq<Cand> := [], [];
    for i := 0 to |snaps|
      invariant cands == Kind(snaps[..i], false) && adsbCands == Kind(snaps[..i], true)
    {
      assert snaps[..i + 1][..i] == snaps[..i];
      var s := snaps[i];
      if s.position == None || !ValidCoord(s.position.value) {
        continue;
      }
      var c := CandOf(s);
      if s.kind == "adsb" {
        adsbCands := adsbCands + [c];
        continue;
      }
      cands := cands + [c];
    }
    assert snaps[..|snaps|] == snaps;
    if |cands| == 0 {
      cands := adsbCands;
    }
    if |cands| == 0 {
      return None;
    }
    var best := ChooseCentre(dist, cands);
    f := Measure(dist, cands, best);
  }

  /** The two nested loops of the choice. */
  lemma NextNeighbour(dist: Distance, cands: seq<Cand>, j: nat, c: Cand)
    requires j < |cands|
    ensures Neighbours(dist, cands[..j + 1], c) ==
            Neighbours(dist, cands[..j], c) + if dist(c.at, cands[j].at) <= FOCUS_RADIUS then 1 else 0
  {
    assert cands[..j + 1][..j] == cands[..j];
  }

  method ChooseCentre(dist: Distance, cands: seq<Cand>) returns (best: nat)
    requires cands != []
    ensures best < |cands| && best == BestOf(dist, cands, |cands|) && Top(dist, cands, cands[best])
  {
    var bestCount: int := -1;
    best := 0;
    for i := 0 to |cands|
      invariant i == 0 ==> bestCount == -1
      invariant i > 0 ==> best == BestOf(dist, cands, i) && bestCount == Neighbours(dist, cands, cands[best])
    {
      var n := 0;
      for j := 0 to |cands|
        invariant n == Neighbours(dist, cands[..j], cands[i])
      {
        NextNeighbour(dist, cands, j, cands[i]);
        if dist(cands[i].at, cands[j].at) <= FOCUS_RADIUS {
          n := n + 1;
        }
      }
      assert cands[..|cands|] == cands;
      if n > bestCount || (n == bestCount && Less(cands[i].uid, cands[best].uid)) {
        best, bestCount := i, n;
      }
    }
    BestOfIsBest(dist, cands, |cands|);
  }

  /** The loop that sums up the members around the centre. */
  method Measure(dist: Distance, cands: seq<Cand>, best: nat) returns (f: Option<FocusArea>)
    requires best < |cands| && Reflexive(dist)
    ensures f.Some? && f == AreaAround(dist, cands, cands[best])
    ensures f.value.count == Neighbours(dist, cands, cands[best])
  {
    var centre := cands[best].at;
    var count: nat, sumLat, sumLon := 0, 0.0, 0.0;
    var box := Box(MAX_FLOAT64, MAX_FLOAT64, -MAX_FLOAT64, -MAX_FLOAT64);
    for i := 0 to |cands|
      invariant Tally(count, sumLat, sumLon, box) == TallyOf(dist, cands[..i], centre)
    {
      assert cands[..i + 1][..i] == cands[..i];
      var c := cands[i];
      if dist(centre, c.at) > FOCUS_RADIUS {
        continue;
      }
      count, sumLat, sumLon := count + 1, sumLat + c.at.lat, sumLon + c.at.lon;
      box := Extend(box, c.at);
      if c.opLat.Some? && c.opLon.Some? {
        var operator := Place(c.opLat.value, c.opLon.value);
        if ValidCoord(operator) && dist(c.at, operator) <= OPERATOR_LEASH {
          box := Extend(box, operator);
        }
      }
    }
    assert cands[..|cands|] == cands;
    CountIsNeighbours(dist, cands, cands[best]);
    OwnNeighbour(dist, cands, cands[best]);
    f := Some(FocusArea(count, sumLat / count as real, sumLon / count as real, box));
  }

  // ----- the order of the tracks

  lemma AdderCommutes(dist: Distance, centre: Place)
    ensures Commutes(Adder(dist, centre))
  {
    forall t: Tally, c, d
      ensures Add(dist, centre, Add(dist, centre, t, c), d) == Add(dist, centre, Add(dist, centre, t, d), c)
    {
      WideningCommutes(dist, t.box, c, d);
    }
  }

  lemma ExtendCommutes(b: Box, p: Place, q: Place)
    ensures Extend(Extend(b, p), q) == Extend(Extend(b, q), p)
  {
  }

  lemma WideningCommutes(dist: Distance, b: Box, c: Cand, d: Cand)
    ensures Widened(dist, Widened(dist, b, c), d) == Widened(dist, Widened(dist, b, d), c)
  {
    ExtendCommutes(b, c.at, d.at);
    if ShowsOperator(dist, c) {
      var p := Place(c.opLat.value, c.opLon.value);
      ExtendCommutes(Extend(b, c.at), p, d.at);
      if ShowsOperator(dist, d) {
        var q := Place(d.opLat.value, d.opLon.value);
        ExtendCommutes(Extend(Extend(b, c.at), d.at), p, q);
        ExtendCommutes(Extend(b, d.at), q, c.at);
      }
    } else if ShowsOperator(dist, d) {
      ExtendCommutes(Extend(b, d.at), Place(d.opLat.value, d.opLon.value), c.at);
    }
  }

  function Collector(aircraft: bool): (multiset<Cand>, Snapshot) -> multiset<Cand>
  {
    (m, s) => if Usable(s) && (s.kind == "adsb") == aircraft then m + multiset{CandOf(s)} else m
  }

  lemma UnionCommutes<T>(m: multiset<T>, c: multiset<T>, d: multiset<T>)
    ensures m + c + d == m + d + c
  {
  }

  lemma CollectsInAnyOrder(aircraft: bool, m: multiset<Cand>, s: Snapshot, t: Snapshot)
    ensures var collect := Collector(aircraft); collect(collect(m, s), t) == collect(collect(m, t), s)
  {
    if Usable(s) && Usable(t) {
      UnionCommutes(m, multiset{CandOf(s)}, multiset{CandOf(t)});
    }
  }

  lemma CollectorCommutes(aircraft: bool)
    ensures Commutes(Collector(aircraft))
  {
    forall m, s, t
      ensures Collector(aircraft)(Collector(aircraft)(m, s), t) == Collector(aircraft)(Collector(aircraft)(m, t), s)
    {
      CollectsInAnyOrder(aircraft, m, s, t);
    }
  }

  lemma {:induction false} KindIsCollected(snaps: seq<Snapshot>, aircraft: bool)
    ensures multiset(Kind(snaps, aircraft)) == Fold(snaps, Collector(aircraft), multiset{})
  {
    if snaps != [] {
      KindIsCollected(snaps[..|snaps| - 1], aircraft);
    }
  }

  lemma KindPermutes(s: seq<Snapshot>, t: seq<Snapshot>, aircraft: bool)
    requires multiset(s) == multiset(t)
    ensures multiset(Kind(s, aircraft)) == multiset(Kind(t, aircraft))
  {
    KindIsCollected(s, aircraft);
    KindIsCollected(t, aircraft);
    CollectorCommutes(aircraft);
    FoldPermutes(s, t, Collector(aircraft), multiset{});
  }

  lemma SameElements(s: seq<Cand>, t: seq<Cand>)
    requires multiset(s) == multiset(t)
    ensures |s| == |t| && forall c :: c in s <==> c in t
  {
    assert |multiset(s)| == |multiset(t)|;
    forall c
      ensures c in s <==> c in t
    {
      assert c in s <==> c in multiset(s);
      assert c in t <==> c in multiset(t);
    }
  }

  lemma CandidatesPermute(s: seq<Snapshot>, t: seq<Snapshot>)
    requires multiset(s) == multiset(t)
    ensures multiset(Candidates(s)) == multiset(Candidates(t))
    ensures Kind(s, false) == [] <==> Kind(t, false) == []
  {
    KindPermutes(s, t, false);
    KindPermutes(s, t, true);
    SameElements(Kind(s, false), Kind(t, false));
  }

  /** What is measured around a place does not depend on the order of the candidates. */
  lemma TallyPermutes(dist: Distance, s: seq<Cand>, t: seq<Cand>, c: Cand)
    requires multiset(s) == multiset(t)
    ensures TallyOf(dist, s, c.at) == TallyOf(dist, t, c.at)
    ensures Neighbours(dist, s, c) == Neighbours(dist, t, c)
  {
    AdderCommutes(dist, c.at);
    FoldPermutes(s, t, Adder(dist, c.at), EMPTY);
    CountIsNeighbours(dist, s, c);
    CountIsNeighbours(dist, t, c);
  }

  lemma TopPermutes(dist: Distance, s: seq<Cand>, t: seq<Cand>, c: Cand)
    requires multiset(s) == multiset(t) && Top(dist, s, c)
    ensures Top(dist, t, c)
  {
    SameElements(s, t);
    forall d | d in t
      ensures AtLeastAsGood(dist, t, c, d)
    {
      assert AtLeastAsGood(dist, s, c, d);
      TallyPermutes(dist, s, t, c);
      TallyPermutes(dist, s, t, d);
    }
  }

  lemma ResultIsATop(dist: Distance, snaps: seq<Snapshot>) returns (c: Cand)
    requires Candidates(snaps) != []
    ensures Top(dist, Candidates(snaps), c) && Result(dist, snaps) == AreaAround(dist, Candidates(snaps), c)
  {
    var cands := Candidates(snaps);
    BestOfIsBest(dist, cands, |cands|);
    c := cands[BestOf(dist, cands, |cands|)];
  }

  lemma {:induction false} KindConcat(s: seq<Snapshot>, t: seq<Snapshot>, aircraft: bool)
    ensures Kind(s + t, aircraft) == Kind(s, aircraft) + Kind(t, aircraft)
  {
    if t == [] {
      assert s + t == s;
    } else {
      KindConcat(s, t[..|t| - 1], aircraft);
      assert (s + t)[..|s + t| - 1] == s + t[..|t| - 1];
    }
  }

  lemma {:induction false} KindSource(snaps: seq<Snapshot>, aircraft: bool, c: Cand) returns (i: nat)
    requires c in Kind(snaps, aircraft)
    ensures i < |snaps| && Usable(snaps[i]) && (snaps[i].kind == "adsb") == aircraft && CandOf(snaps[i]) == c
  {
    i := |snaps| - 1;
    if !(Usable(snaps[i]) && (snaps[i].kind == "adsb") == aircraft && CandOf(snaps[i]) == c) {
      i := KindSource(snaps[..|snaps| - 1], aircraft, c);
    }
  }

  lemma HeadCandidate(s: Snapshot, rest: seq<Snapshot>, aircraft: bool)
    requires Usable(s) && (s.kind == "adsb") == aircraft
    ensures Kind([s] + rest, aircraft) == [CandOf(s)] + Kind(rest, aircraft)
  {
    assert [s][..0] == [];
    assert Kind([s][..0], aircraft) == [];
    KindConcat([s], rest, aircraft);
  }

  lemma MoveToFront(snaps: seq<Snapshot>, i: nat) returns (other: seq<Snapshot>)
    requires i < |snaps|
    ensures other == [snaps[i]] + (snaps[..i] + snaps[i + 1..])
    ensures multiset(other) == multiset(snaps)
  {
    other := [snaps[i]] + (snaps[..i] + snaps[i + 1..]);
    assert snaps == snaps[..i] + [snaps[i]] + snaps[i + 1..];
  }

  /** Every top candidate is the centre for some order of the same tracks. */
  lemma EveryTopIsChosen(dist: Distance, snaps: seq<Snapshot>, c: Cand) returns (other: seq<Snapshot>)
    requires Top(dist, Candidates(snaps), c)
    ensures multiset(other) == multiset(snaps) && Result(dist, other) == AreaAround(dist, Candidates(snaps), c)
  {
    var aircraft := Kind(snaps, false) == [];
    var i := KindSource(snaps, aircraft, c);
    other := MoveToFront(snaps, i);
    HeadCandidate(snaps[i], snaps[..i] + snaps[i + 1..], aircraft);
    CandidatesPermute(snaps, other);
    FirstCandidateIsChosen(dist, snaps, other, c);
  }

  lemma FirstCandidateIsChosen(dist: Distance, snaps: seq<Snapshot>, other: seq<Snapshot>, c: Cand)
    requires multiset(Candidates(snaps)) == multiset(Candidates(other))
    requires Top(dist, Candidates(snaps), c) && Candidates(other) != [] && Candidates(other)[0] == c
    ensures Result(dist, other) == AreaAround(dist, Candidates(snaps), c)
  {
    TopPermutes(dist, Candidates(snaps), Candidates(other), c);
    FirstTopIsChosen(dist, Candidates(other));
    TallyPermutes(dist, Candidates(snaps), Candidates(other), c);
  }

  lemma FirstTopIsChosen(dist: Distance, cands: seq<Cand>)
    requires cands != [] && Top(dist, cands, cands[0])
    ensures BestOf(dist, cands, |cands|) == 0
  {
    BestOfIsBest(dist, cands, |cands|);
  }

  ghost predicate OrderIndependent(dist: Distance, snaps: seq<Snapshot>)
  {
    forall other | multiset(other) == multiset(snaps) :: Result(dist, other) == Result(dist, snaps)
  }

  ghost predicate TopsAgree(dist: Distance, cands: seq<Cand>)
  {
    forall c, d | Top(dist, cands, c) && Top(dist, cands, d) :: AreaAround(dist, cands, c) == AreaAround(dist, cands, d)
  }

  lemma OrdersMakeTopsAgree(dist: Distance, snaps: seq<Snapshot>, c: Cand)
    requires OrderIndependent(dist, snaps) && Top(dist, Candidates(snaps), c)
    ensures AreaAround(dist, Candidates(snaps), c) == Result(dist, snaps)
  {
    var other := EveryTopIsChosen(dist, snaps, c);
  }

  /** Whatever the order, the focus is the area around a top candidate. */
  lemma OtherOrderPicksATop(dist: Distance, snaps: seq<Snapshot>, other: seq<Snapshot>) returns (c: Cand)
    requires Candidates(snaps) != [] && multiset(other) == multiset(snaps)
    ensures Top(dist, Candidates(snaps), c) && Result(dist, other) == AreaAround(dist, Candidates(snaps), c)
  {
    CandidatesPermute(snaps, other);
    SameElements(Candidates(snaps), Candidates(other));
    c := ResultIsATop(dist, other);
    TopPermutes(dist, Candidates(other), Candidates(snaps), c);
    TallyPermutes(dist, Candidates(snaps), Candidates(other), c);
  }

  lemma AgreeingTopsAllowOrders(dist: Distance, snaps: seq<Snapshot>, other: seq<Snapshot>)
    requires TopsAgree(dist, Candidates(snaps)) && multiset(other) == multiset(snaps)
    ensures Result(dist, other) == Result(dist, snaps)
  {
    if Candidates(snaps) == [] {
      CandidatesPermute(snaps, other);
      SameElements(Candidates(snaps), Candidates(other));
    } else {
      var c := OtherOrderPicksATop(dist, snaps, snaps);
      var d := OtherOrderPicksATop(dist, snaps, other);
    }
  }

  /** Permuting the tracks leaves the focus alone exactly when the candidates that tie on both the
      neighbour count and the uid lead to the same area. */
  lemma OrderIndependentIffTopsAgree(dist: Distance, snaps: seq<Snapshot>)
    ensures OrderIndependent(dist, snaps) <==> TopsAgree(dist, Candidates(snaps))
  {
    if OrderIndependent(dist, snaps) {
      forall c | Top(dist, Candidates(snaps), c)
        ensures AreaAround(dist, Candidates(snaps), c) == Result(dist, snaps)
      {
        OrdersMakeTopsAgree(dist, snaps, c);
      }
    }
    if TopsAgree(dist, Candidates(snaps)) {
      forall other | multiset(other) == multiset(snaps)
        ensures Result(dist, other) == Result(dist, snaps)
      {
        AgreeingTopsAllowOrders(dist, snaps, other);
      }
    }
  }

  /** With distinct uids the focus is a function of the set of tracks. */
  lemma DistinctUidsAreOrderIndependent(dist: Distance, snaps: seq<Snapshot>)
    requires forall c, d | c in Candidates(snaps) && d in Candidates(snaps) && c.uid == d.uid :: c == d
    ensures OrderIndependent(dist, snaps)
  {
    var cands := Candidates(snaps);
    forall c, d | Top(dist, cands, c) && Top(dist, cands, d)
      ensures AreaAround(dist, cands, c) == AreaAround(dist, cands, d)
    {
      assert AtLeastAsGood(dist, cands, c, d) && AtLeastAsGood(dist, cands, d, c);
      LessIsTotal(c.uid, d.uid);
    }
    OrderIndependentIffTopsAgree(dist, snaps);
  }

  /** Two nodes can report the same uid: with two such drones far apart, the order decides. */
  lemma SharedUidDependsOnOrder(dist: Distance, s: Snapshot, t: Snapshot)
    requires Reflexive(dist) && Usable(s) && Usable(t) && s.uid == t.uid && s.kind != "adsb" && t.kind != "adsb"
    requires dist(s.position.value, t.position.value) > FOCUS_RADIUS && dist(t.position.value, s.position.value) > FOCUS_RADIUS
    ensures !OrderIndependent(dist, [s, t])
  {
    var (c, d) := (CandOf(s), CandOf(t));
    PairResult(dist, s, t);
    PairResult(dist, t, s);
    assert multiset([t, s]) == multiset([s, t]);
    assert dist(c.at, c.at) == 0.0;
  }

  lemma PairResult(dist: Distance, s: Snapshot, t: Snapshot)
    requires Reflexive(dist) && Usable(s) && Usable(t) && s.uid == t.uid && s.kind != "adsb" && t.kind != "adsb"
    requires dist(s.position.value, t.position.value) > FOCUS_RADIUS && dist(t.position.value, s.position.value) > FOCUS_RADIUS
    ensures Result(dist, [s, t]).Some?
    ensures Result(dist, [s, t]).value.lat == s.position.value.lat && Result(dist, [s, t]).value.lon == s.position.value.lon
  {
    var (c, d) := (CandOf(s), CandOf(t));
    assert dist(c.at, c.at) == 0.0 && dist(d.at, d.at) == 0.0;
    PairCandidates(s, t);
    PairBest(dist, c, d);
    PairTally(dist, c, d);
  }

  lemma PairNeighbours(dist: Distance, c: Cand, d: Cand, e: Cand)
    ensures Neighbours(dist, [c, d], e) ==
            (if dist(e.at, c.at) <= FOCUS_RADIUS then 1 else 0) + (if dist(e.at, d.at) <= FOCUS_RADIUS then 1 else 0)
  {
    assert [c, d][..1] == [c] && [c][..0] == [];
    assert Neighbours(dist, [c], e) == if dist(e.at, c.at) <= FOCUS_RADIUS then 1 else 0;
  }

  lemma PairBest(dist: Distance, c: Cand, d: Cand)
    requires dist(c.at, c.at) == 0.0 && dist(d.at, d.at) == 0.0 && c.uid == d.uid
    requires dist(c.at, d.at) > FOCUS_RADIUS && dist(d.at, c.at) > FOCUS_RADIUS
    ensures BestOf(dist, [c, d], 2) == 0
  {
    PairNeighbours(dist, c, d, c);
    PairNeighbours(dist, c, d, d);
    LessIsTotal(c.uid, c.uid);
    assert AtLeastAsGood(dist, [c, d], c, d);
    assert BestOf(dist, [c, d], 1) == 0;
  }

  lemma PairTally(dist: Distance, c: Cand, d: Cand)
    requires dist(c.at, c.at) == 0.0 && dist(c.at, d.at) > FOCUS_RADIUS
    ensures TallyOf(dist, [c, d], c.at) == Add(dist, c.at, EMPTY, c)
  {
    assert [c, d][..1] == [c] && [c][..0] == [];
    assert Fold([c][..0], Adder(dist, c.at), EMPTY) == EMPTY;
    assert TallyOf(dist, [c], c.at) == Add(dist, c.at, EMPTY, c);
  }

  lemma PairCandidates(s: Snapshot, t: Snapshot)
    requires Usable(s) && Usable(t) && s.kind != "adsb" && t.kind != "adsb"
    ensures Candidates([s, t]) == [CandOf(s), CandOf(t)]
  {
    assert [s, t][..1] == [s] && [s][..0] == [];
    assert Kind([s], false) == [CandOf(s)];
  }

  // ----- aircraft

  function WithoutAircraft(snaps: seq<Snapshot>): seq<Snapshot>
  {
    if snaps == [] then []
    else
      var s := snaps[|snaps| - 1];
      WithoutAircraft(snaps[..|snaps| - 1]) + if s.kind == "adsb" then [] else [s]
  }

  lemma KindNext(init: seq<Snapshot>, s: Snapshot)
    ensures Kind(init + [s], false) == Kind(init, false) + if Usable(s) && s.kind != "adsb" then [CandOf(s)] else []
  {
    assert (init + [s])[..|init|] == init;
  }

  lemma {:induction false} DronesRemain(snaps: seq<Snapshot>)
    ensures Kind(WithoutAircraft(snaps), false) == Kind(snaps, false)
  {
    if snaps != [] {
      var init := WithoutAircraft(snaps[..|snaps| - 1]);
      var s := snaps[|snaps| - 1];
      DronesRemain(snaps[..|snaps| - 1]);
      if s.kind != "adsb" {
        KindNext(init, s);
      } else {
        assert init + [] == init;
      }
    }
  }

  /** While any drone is validly placed, aircraft make no difference at all. */
  lemma AircraftAreIgnored(dist: Distance, snaps: seq<Snapshot>)
    requires exists s :: s in snaps && Usable(s) && s.kind != "adsb"
    ensures Result(dist, snaps) == Result(dist, WithoutAircraft(snaps))
  {
    DronesRemain(snaps);
    var s :| s in snaps && Usable(s) && s.kind != "adsb";
    DroneCounts(snaps, s);
  }

  lemma {:induction false} DroneCounts(snaps: seq<Snapshot>, s: Snapshot)
    requires s in snaps && Usable(s) && s.kind != "adsb"
    ensures Kind(snaps, false) != []
  {
    if snaps[|snaps| - 1] != s {
      DroneCounts(snaps[..|snaps| - 1], s);
    }
  }

  // ----- the centroid and the bounds

  predicate Inside(b: Box, p: Place)
  {
    b.minLat <= p.lat <= b.maxLat && b.minLon <= p.lon <= b.maxLon
  }

  predicate Encloses(outer: Box, inner: Box)
  {
    && outer.minLat <= inner.minLat && outer.minLon <= inner.minLon
    && inner.maxLat <= outer.maxLat && inner.maxLon <= outer.maxLon
  }

  /** n times x, by addition. */
  function Times(n: nat, x: real): real
  {
    if n == 0 then 0.0 else Times(n - 1, x) + x
  }

  lemma {:induction false} TimesIsProduct(n: nat, x: real)
    ensures Times(n, x) == n as real * x
  {
    if n > 0 {
      TimesIsProduct(n - 1, x);
      assert n as real * x == (n - 1) as real * x + x;
    }
  }

  lemma {:induction false} TimesIsMonotone(n: nat, x: real, y: real)
    requires x <= y
    ensures Times(n, x) <= Times(n, y)
  {
    if n > 0 {
      TimesIsMonotone(n - 1, x, y);
    }
  }

  predicate Balanced(n: nat, lo: real, hi: real, sum: real)
  {
    Times(n, lo) <= sum <= Times(n, hi)
  }

  lemma SumStaysBetween(n: nat, lo: real, hi: real, lo2: real, hi2: real, sum: real, x: real)
    requires Balanced(n, lo, hi, sum)
    requires lo2 <= lo && lo2 <= x && hi <= hi2 && x <= hi2
    ensures Balanced(n + 1, lo2, hi2, sum + x)
  {
    TimesIsMonotone(n, lo2, lo);
    TimesIsMonotone(n, hi, hi2);
  }

  /** The box holds every member, and the sums stay between count times its edges. */
  lemma {:induction false} TallyIsBalanced(dist: Distance, cands: seq<Cand>, centre: Place)
    ensures var t := TallyOf(dist, cands, centre);
            && Balanced(t.count, t.box.minLat, t.box.maxLat, t.sumLat)
            && Balanced(t.count, t.box.minLon, t.box.maxLon, t.sumLon)
            && forall c | c in cands && dist(centre, c.at) <= FOCUS_RADIUS :: Inside(t.box, c.at)
  {
    var u := TallyOf(dist, cands, centre);
    if cands != [] {
      var init, c := cands[..|cands| - 1], cands[|cands| - 1];
      TallyIsBalanced(dist, init, centre);
      var t := TallyOf(dist, init, centre);
      assert forall d | d in cands :: d in init || d == c;
      if dist(centre, c.at) <= FOCUS_RADIUS {
        WidenedEncloses(dist, t.box, c);
        SumStaysBetween(t.count, t.box.minLat, t.box.maxLat, u.box.minLat, u.box.maxLat, t.sumLat, c.at.lat);
        SumStaysBetween(t.count, t.box.minLon, t.box.maxLon, u.box.minLon, u.box.maxLon, t.sumLon, c.at.lon);
      }
    }
  }

  lemma WidenedEncloses(dist: Distance, b: Box, c: Cand)
    ensures Encloses(Widened(dist, b, c), b) && Inside(Widened(dist, b, c), c.at)
  {
  }

  lemma QuotientBetween(n: nat, lo: real, hi: real, sum: real)
    requires n > 0 && Balanced(n, lo, hi, sum)
    ensures lo <= sum / n as real <= hi
  {
    TimesIsProduct(n, lo);
    TimesIsProduct(n, hi);
    DivideBetween(n as real, lo, hi, sum);
  }

  lemma DivideBetween(n: real, lo: real, hi: real, sum: real)
    requires n > 0.0 && n * lo <= sum <= n * hi
    ensures lo <= sum / n <= hi
  {
  }

  /** The centroid lies inside the bounds, as does every member of the cluster. */
  lemma CentroidInsideBounds(dist: Distance, snaps: seq<Snapshot>)
    requires Result(dist, snaps).Some?
    ensures var f := Result(dist, snaps).value;
            && Inside(f.box, Place(f.lat, f.lon))
            && exists c :: Top(dist, Candidates(snaps), c) &&
                           forall d | d in Candidates(snaps) && dist(c.at, d.at) <= FOCUS_RADIUS :: Inside(f.box, d.at)
  {
    var c := ResultIsATop(dist, snaps);
    var t := TallyOf(dist, Candidates(snaps), c.at);
    TallyIsBalanced(dist, Candidates(snaps), c.at);
    QuotientBetween(t.count, t.box.minLat, t.box.maxLat, t.sumLat);
    QuotientBetween(t.count, t.box.minLon, t.box.maxLon, t.sumLon);
  }

  // ----- what the focus shows

  /** The cluster: the candidates within 1500 metres of the centre. */
  function Members(dist: Distance, cands: seq<Cand>, centre: Place): seq<Cand>
  {
    if cands == [] then []
    else
      var init, c := cands[..|cands| - 1], cands[|cands| - 1];
      Members(dist, init, centre) + if dist(centre, c.at) <= 1500.0 then [c] else []
  }

  function SumLat(cands: seq<Cand>): real
  {
    if cands == [] then 0.0 else SumLat(cands[..|cands| - 1]) + cands[|cands| - 1].at.lat
  }

  function SumLon(cands: seq<Cand>): real
  {
    if cands == [] then 0.0 else SumLon(cands[..|cands| - 1]) + cands[|cands| - 1].at.lon
  }

  /** The places a member puts on the map: its own, and its pilot's when that is known, valid and within
      2000 metres of it. */
  predicate Puts(dist: Distance, c: Cand, p: Place)
  {
    || p == c.at
    || (c.opLat == Some(p.lat) && c.opLon == Some(p.lon) && ValidCoord(p) && dist(c.at, p) <= 2000.0)
  }

  ghost predicate Shown(dist: Distance, cands: seq<Cand>, p: Place)
  {
    exists c :: c in cands && Puts(dist, c, p)
  }

  /** The smallest box around the places shown. */
  ghost predicate Tight(dist: Distance, cands: seq<Cand>, b: Box)
  {
    && (forall p | Shown(dist, cands, p) :: Inside(b, p))
    && (exists p :: Shown(dist, cands, p) && p.lat == b.minLat)
    && (exists p :: Shown(dist, cands, p) && p.lat == b.maxLat)
    && (exists p :: Shown(dist, cands, p) && p.lon == b.minLon)
    && (exists p :: Shown(dist, cands, p) && p.lon == b.maxLon)
  }

  lemma ShownNext(dist: Distance, cands: seq<Cand>, c: Cand, p: Place)
    ensures Shown(dist, cands + [c], p) <==> Shown(dist, cands, p) || Puts(dist, c, p)
  {
    assert forall d :: d in cands + [c] <==> d in cands || d == c;
  }

  lemma WidenedPuts(dist: Distance, b: Box, c: Cand)
    ensures var w := Widened(dist, b, c);
            && Encloses(w, b) && (forall p | Puts(dist, c, p) :: Inside(w, p))
            && (w.minLat == b.minLat || exists p :: Puts(dist, c, p) && p.lat == w.minLat)
            && (w.maxLat == b.maxLat || exists p :: Puts(dist, c, p) && p.lat == w.maxLat)
            && (w.minLon == b.minLon || exists p :: Puts(dist, c, p) && p.lon == w.minLon)
            && (w.maxLon == b.maxLon || exists p :: Puts(dist, c, p) && p.lon == w.maxLon)
  {
    assert Puts(dist, c, c.at);
    if ShowsOperator(dist, c) {
      assert Puts(dist, c, Place(c.opLat.value, c.opLon.value));
    }
  }

  lemma FirstIsTight(dist: Distance, c: Cand)
    requires ValidCoord(c.at)
    ensures Tight(dist, [c], Widened(dist, EMPTY.box, c))
  {
    var w := Widened(dist, EMPTY.box, c);
    WidenedPuts(dist, EMPTY.box, c);
    forall p
      ensures Shown(dist, [c], p) <==> Puts(dist, c, p)
    {
    }
    assert Inside(w, c.at) by {
      assert Puts(dist, c, c.at);
    }
  }

  lemma NextIsTight(dist: Distance, cands: seq<Cand>, b: Box, c: Cand)
    requires Tight(dist, cands, b)
    ensures Tight(dist, cands + [c], Widened(dist, b, c))
  {
    WidenedPuts(dist, b, c);
    forall p
      ensures Shown(dist, cands + [c], p) <==> Shown(dist, cands, p) || Puts(dist, c, p)
    {
      ShownNext(dist, cands, c, p);
    }
  }

  lemma {:induction false} TallyMeaning(dist: Distance, cands: seq<Cand>, centre: Place)
    requires forall c | c in cands :: ValidCoord(c.at)
    ensures var t, ms := TallyOf(dist, cands, centre), Members(dist, cands, centre);
            && t.count == |ms| && t.sumLat == SumLat(ms) && t.sumLon == SumLon(ms)
            && (if ms == [] then t.box == EMPTY.box else Tight(dist, ms, t.box))
  {
    if cands != [] {
      var init, c := cands[..|cands| - 1], cands[|cands| - 1];
      TallyMeaning(dist, init, centre);
      if dist(centre, c.at) <= 1500.0 {
        var ms := Members(dist, init, centre);
        assert (ms + [c])[..|ms|] == ms;
        if ms == [] {
          assert ms + [c] == [c];
          FirstIsTight(dist, c);
        } else {
          NextIsTight(dist, ms, TallyOf(dist, init, centre).box, c);
        }
      } else {
        assert Members(dist, init, centre) + [] == Members(dist, init, centre);
      }
    }
  }

  lemma {:induction false} KindIsValid(snaps: seq<Snapshot>, aircraft: bool, c: Cand)
    requires c in Kind(snaps, aircraft)
    ensures ValidCoord(c.at)
  {
    if snaps != [] && c in Kind(snaps[..|snaps| - 1], aircraft) {
      KindIsValid(snaps[..|snaps| - 1], aircraft, c);
    }
  }

  lemma CandidatesAreValid(snaps: seq<Snapshot>)
    ensures forall c | c in Candidates(snaps) :: ValidCoord(c.at)
  {
    forall c | c in Candidates(snaps)
      ensures ValidCoord(c.at)
    {
      KindIsValid(snaps, Kind(snaps, false) == [], c);
    }
  }

  lemma {:induction false} NeighboursAreMembers(dist: Distance, cands: seq<Cand>, c: Cand)
    ensures Neighbours(dist, cands, c) == |Members(dist, cands, c.at)|
  {
    if cands != [] {
      NeighboursAreMembers(dist, cands[..|cands| - 1], c);
    }
  }

  /** The focus is the number, the mean and the smallest bounds of the members of the cluster around a
      candidate, with the pilots that are plausibly close; no candidate has a larger cluster, and none
      of those with as large a one has a smaller uid. */
  lemma FocusMeaning(dist: Distance, snaps: seq<Snapshot>) returns (c: Cand)
    requires Result(dist, snaps).Some?
    ensures Top(dist, Candidates(snaps), c) && c in Candidates(snaps)
    ensures forall d | d in Candidates(snaps) :: NotBetter(dist, Candidates(snaps), c, d)
    ensures var f, ms := Result(dist, snaps).value, Members(dist, Candidates(snaps), c.at);
            && f.count == |ms| > 0
            && f.lat == SumLat(ms) / |ms| as real && f.lon == SumLon(ms) / |ms| as real
            && Tight(dist, ms, f.box)
  {
    var cands := Candidates(snaps);
    c := ResultIsATop(dist, snaps);
    CandidatesAreValid(snaps);
    TallyMeaning(dist, cands, c.at);
    NoneIsBetter(dist, cands, c);
  }

  /** The cluster of d is smaller than that of c, or as large and its uid is not smaller. */
  ghost predicate NotBetter(dist: Distance, cands: seq<Cand>, c: Cand, d: Cand)
  {
    var m, n := |Members(dist, cands, c.at)|, |Members(dist, cands, d.at)|;
    n < m || (n == m && !Less(d.uid, c.uid))
  }

  lemma NoneIsBetter(dist: Distance, cands: seq<Cand>, c: Cand)
    requires Top(dist, cands, c)
    ensures forall d | d in cands :: NotBetter(dist, cands, c, d)
  {
    forall d | d in cands
      ensures NotBetter(dist, cands, c, d)
    {
      assert AtLeastAsGood(dist, cands, c, d);
      NeighboursAreMembers(dist, cands, c);
      NeighboursAreMembers(dist, cands, d);
    }
  }

  /** Ties are broken by the smallest uid in byte order. */
  lemma SmallerUidFirst(a: char, b: char, s: string, t: string)
    ensures Less([a] + s, [b] + t) <==> a < b || (a == b && Less(s, t))
    ensures Less("", [a] + s) && !Less([a] + s, "")
  {
    assert ([a] + s)[1..] == s && ([b] + t)[1..] == t;
  }

  /** A known place on earth, other than where absent coordinates end up. */
  predicate OnEarth(p: Place)
  {
    p.lat >= -90.0 && p.lat <= 90.0 && p.lon >= -180.0 && p.lon <= 180.0 && p != Place(0.0, 0.0)
  }

  /** A snapshot and the candidate it makes. */
  predicate Makes(s: Snapshot, c: Cand)
  {
    && s.position == Some(c.at) && OnEarth(c.at) && c.uid == s.uid
    && (if s.rid.Some? then c.opLat == s.rid.value.opLat && c.opLon == s.rid.value.opLon else c.opLat == None && c.opLon == None)
  }

  lemma {:induction false} KindMeaning(snaps: seq<Snapshot>, aircraft: bool, c: Cand)
    ensures c in Kind(snaps, aircraft) <==> exists s :: s in snaps && Makes(s, c) && (s.kind == "adsb" <==> aircraft)
  {
    if snaps != [] {
      var init, last := snaps[..|snaps| - 1], snaps[|snaps| - 1];
      KindMeaning(init, aircraft, c);
      assert forall s :: s in snaps <==> s in init || s == last;
      assert Usable(last) ==> Makes(last, CandOf(last));
      assert Makes(last, c) ==> Usable(last) && c == CandOf(last);
    }
  }

  /** A drone is on the map. */
  ghost predicate DroneShown(snaps: seq<Snapshot>)
  {
    exists s, c :: s in snaps && Makes(s, c) && s.kind != "adsb"
  }

  /** The candidates are exactly the drones with a valid position, or, when there are none, the aircraft. */
  lemma CandidatesAre(snaps: seq<Snapshot>, c: Cand)
    ensures c in Candidates(snaps) <==> exists s :: s in snaps && Makes(s, c) && (s.kind == "adsb" <==> !DroneShown(snaps))
  {
    KindMeaning(snaps, false, c);
    KindMeaning(snaps, true, c);
    if Kind(snaps, false) != [] {
      var d := Kind(snaps, false)[0];
      KindMeaning(snaps, false, d);
    } else if DroneShown(snaps) {
      var s, d :| s in snaps && Makes(s, d) && s.kind != "adsb";
      KindMeaning(snaps, false, d);
      assert false;
    }
  }
}
