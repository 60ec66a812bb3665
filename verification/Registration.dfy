/**
 Registration of live rounds in the hub (server/stream/stream.go): Open, and the two halves of Done --
 marking the round under its own lock, then deleting its id under the hub's -- of any number of callers,
 interleaved in any way.  Rounds are named by addresses of type R.
 */
module Registration {
  import opened Common

  datatype Registry<!R(==)> = Registry(
    rounds: map<Uint64, R>,   // the hub's table
    ids: map<R, Uint64>,      // every round ever opened
    done: set<R>,             // marked
    closing: set<R>) {        // marked, but not yet deleted from the table

    predicate Registered(r: R)
      requires r in ids
    {
      ids[r] in rounds && rounds[ids[r]] == r
    }

    /** A round is in the table exactly until the second half of its Done. */
    ghost predicate Inv() {
      && closing <= done <= ids.Keys
      && (forall r | r in ids :: Registered(r) <==> r !in done || r in closing)
      && (forall id | id in rounds :: rounds[id] in ids && ids[rounds[id]] == id)
    }
  }

  datatype Event<R> = Open(id: Uint64, r: R) | MarkDone(r: R) | Delete(r: R)

  predicate Possible<R(==)>(s: Registry<R>, e: Event<R>) {
    match e
    case Open(_, r) => r !in s.ids
    case MarkDone(r) => r in s.ids
    case Delete(r) => r in s.closing && r in s.ids
  }

  function Step<R(==)>(s: Registry<R>, e: Event<R>): Registry<R>
    requires Possible(s, e)
  {
    match e
    case Open(id, r) =>
      if id in s.rounds then s else s.(rounds := s.rounds[id := r], ids := s.ids[r := id])
    case MarkDone(r) =>
      if r in s.done then s else s.(done := s.done + {r}, closing := s.closing + {r})
    case Delete(r) =>
      s.(rounds := s.rounds - {s.ids[r]}, closing := s.closing - {r})
  }

  function EmptyRegistry<R(==)>(): Registry<R> { Registry(map[], map[], {}, {}) }

  ghost predicate IsPath<R>(s: Registry<R>, path: seq<Event<R>>)
    decreases |path|
  {
    path == [] || (Possible(s, path[0]) && IsPath(Step(s, path[0]), path[1..]))
  }

  ghost function After<R>(s: Registry<R>, path: seq<Event<R>>): Registry<R>
    requires IsPath(s, path)
    decreases |path|
  {
    if path == [] then s else After(Step(s, path[0]), path[1..])
  }

  lemma StepKeeps<R>(s: Registry<R>, e: Event<R>)
    requires s.Inv() && Possible(s, e)
    ensures Step(s, e).Inv()
  {
    var s' := Step(s, e);
    forall r | r in s'.ids ensures s'.Registered(r) <==> r !in s'.done || r in s'.closing {
      if r in s.ids {
        assert s.Registered(r) <==> r !in s.done || r in s.closing;
        if e.Delete? {
          assert s.Registered(e.r);
        }
      }
    }
  }

  /**
   In every interleaving, a round that is not done -- or is between the two halves of its Done -- is found
   under its own id, and a round whose Done is over is not.
   */
  lemma {:induction false} FoundUntilDeleted<R>(s: Registry<R>, path: seq<Event<R>>)
    requires s.Inv() && IsPath(s, path)
    ensures After(s, path).Inv()
    decreases |path|
  {
    if path != [] {
      StepKeeps(s, path[0]);
      FoundUntilDeleted(Step(s, path[0]), path[1..]);
    }
  }

  /**
   A delete takes away its own round and nothing else: the id is still bound to the round that is done, so
   a newer round reopened under the same id can only come after it.
   */
  lemma DeletesOnlyItself<R>(path: seq<Event<R>>, r: R)
    requires IsPath(EmptyRegistry<R>(), path) && Possible(After(EmptyRegistry<R>(), path), Delete(r))
    ensures var s := After(EmptyRegistry<R>(), path); var s' := Step(s, Delete(r));
      && s.Registered(r) && !s'.Registered(r)
      && (forall id | id in s.rounds && s.rounds[id] != r :: id in s'.rounds && s'.rounds[id] == s.rounds[id])
      && s'.rounds.Keys == s.rounds.Keys - {s.ids[r]}
  {
    FoundUntilDeleted(EmptyRegistry<R>(), path);
  }

  /** How often a round is deleted along a path. */
  function Deletions<R(==)>(path: seq<Event<R>>, r: R): nat {
    if path == [] then 0 else (if path[0] == Delete(r) then 1 else 0) + Deletions(path[1..], r)
  }

  /** Each round is deleted at most once, and exactly once when both halves of its Done are over. */
  lemma {:induction false} DeletedOnce<R>(s: Registry<R>, path: seq<Event<R>>, r: R)
    requires s.Inv() && IsPath(s, path)
    ensures var s' := After(s, path);
      Deletions(path, r) + (if r in s'.closing || r !in s'.done then 1 else 0)
      == if r in s.closing || r !in s.done then 1 else 0
    decreases |path|
  {
    if path != [] {
      StepKeeps(s, path[0]);
      DeletedOnce(Step(s, path[0]), path[1..], r);
    }
  }

  /** In the gap a done round is still found, and its id cannot be opened anew. */
  lemma DoneRoundIsFoundInTheGap<R>(r: R, r': R, id: Uint64)
    requires r != r'
    ensures
      var s := Step(Step(EmptyRegistry<R>(), Open(id, r)), MarkDone(r));
      && r in s.done && s.Registered(r)
      && Possible(s, Open(id, r')) && Step(s, Open(id, r')) == s
      && Possible(s, Delete(r)) && Step(Step(s, Delete(r)), Open(id, r')).Registered(r')
  {
  }
}
