/**
 Transition tables and the two-level lookup maps that package initialisers build from them.
 The payment agreement and the delivery connection are both driven this way.
 */
module Tables {
  import opened Prelude

  datatype Row<S, E> = Row(from: S, event: E, to: S)

  /** No state has two different targets for one event. */
  ghost predicate Functional<S(!new), E(!new)>(rows: seq<Row<S, E>>)
  {
    forall p, q | p in rows && q in rows && p.from == q.from && p.event == q.event :: p.to == q.to
  }

  predicate HasRow<S(==), E(==)>(rows: seq<Row<S, E>>, s: S, e: E, t: S)
  {
    Row(s, e, t) in rows
  }

  function Lookup<S, E>(m: map<S, map<E, S>>, s: S, e: E): Option<S>
  {
    if s in m && e in m[s] then Some(m[s][e]) else None
  }

  /** The initialiser's loop: the map it fills answers exactly by the rows of the table. */
  method BuildMap<S(==, !new), E(==, !new)>(rows: seq<Row<S, E>>) returns (m: map<S, map<E, S>>)
    requires Functional(rows)
    ensures forall s, e, t :: Lookup(m, s, e) == Some(t) <==> HasRow(rows, s, e, t)
  {
    m := map[];
    for i := 0 to |rows|
      invariant forall s, e, t :: Lookup(m, s, e) == Some(t) <==> HasRow(rows[..i], s, e, t)
    {
      var r := rows[i];
      ghost var before := m;
      if r.from !in m {
        m := m[r.from := map[]];
      }
      m := m[r.from := m[r.from][r.event := r.to]];
      forall s, e, t
        ensures Lookup(m, s, e) == Some(t) <==> HasRow(rows[..i + 1], s, e, t)
      {
        assert rows[..i + 1] == rows[..i] + [r];
        assert Lookup(before, s, e) == Some(t) <==> HasRow(rows[..i], s, e, t);
        if s == r.from && e == r.event {
          assert Lookup(m, s, e) == Some(r.to);
          assert Row(s, e, t) in rows[..i + 1] ==> Row(s, e, t) in rows && t == r.to;
        } else {
          assert Lookup(m, s, e) == Lookup(before, s, e);
        }
      }
    }
    assert rows[..|rows|] == rows;
  }

  /** The rows and these rules say the same. */
  ghost predicate Describes<S(!new), E(!new)>(rows: seq<Row<S, E>>, next: (S, E) -> Option<S>)
  {
    forall s, e, t :: HasRow(rows, s, e, t) <==> next(s, e) == Some(t)
  }

  /** A table that follows rules has one target for a state and an event. */
  lemma DescribedIsFunctional<S(!new), E(!new)>(rows: seq<Row<S, E>>, next: (S, E) -> Option<S>)
    requires Describes(rows, next)
    ensures Functional(rows)
  {
    forall p, q | p in rows && q in rows && p.from == q.from && p.event == q.event
      ensures p.to == q.to
    {
      assert HasRow(rows, p.from, p.event, p.to) && HasRow(rows, q.from, q.event, q.to);
    }
  }

  /** The package initialiser: the map it builds answers by the rules. */
  method TransitionMap<S(==, !new), E(==, !new)>(rows: seq<Row<S, E>>, ghost next: (S, E) -> Option<S>)
    returns (m: map<S, map<E, S>>)
    requires Describes(rows, next)
    ensures forall s, e :: Lookup(m, s, e) == next(s, e)
  {
    DescribedIsFunctional(rows, next);
    m := BuildMap(rows);
    forall s, e
      ensures Lookup(m, s, e) == next(s, e)
    {
      match next(s, e)
      case Some(t) => assert HasRow(rows, s, e, t);
      case None =>
        if Lookup(m, s, e).Some? {
          assert HasRow(rows, s, e, Lookup(m, s, e).value);
        }
    }
  }

  lemma InEither<S, E>(r: Row<S, E>, p: seq<Row<S, E>>, q: seq<Row<S, E>>)
    ensures r in p + q <==> r in p || r in q
  {
  }
}
