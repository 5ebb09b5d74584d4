/**
 NodeGetInfo's topology cache: read under the lock, resolve without it, then publish under the lock
 unless another call was faster. Any number of calls interleave.
 */
module NodeTopologyCache {
  import opened Basics

  datatype Call = Started | Resolving | Resolved(found: Params) | Answered(answer: Option<Params>)

  datatype State = State(cache: Option<Params>, calls: map<nat, Call>)

  datatype Event =
    | Begin(id: nat)
    | ReadCache(id: nat)
    | Resolve(id: nat, result: Option<Params>)
    | Publish(id: nat)

  /** Events that do not fit the call's phase change nothing. */
  function Step(s: State, e: Event): State {
    match e
    case Begin(id) =>
      if id in s.calls then s else s.(calls := s.calls[id := Started])
    case ReadCache(id) =>
      if id !in s.calls || !s.calls[id].Started? then s
      else s.(calls := s.calls[id := if s.cache.Some? then Answered(s.cache) else Resolving])
    case Resolve(id, result) =>
      if id !in s.calls || !s.calls[id].Resolving? then s
      else s.(calls := s.calls[id := match result case None => Answered(None) case Some(t) => Resolved(t)])
    case Publish(id) =>
      if id !in s.calls || !s.calls[id].Resolved? then s
      else
        var kept := if s.cache.None? then Some(s.calls[id].found) else s.cache;
        State(kept, s.calls[id := Answered(kept)])
  }

  function Run(s: State, es: seq<Event>): State {
    if es == [] then s else Step(Run(s, es[..|es| - 1]), es[|es| - 1])
  }

  const EMPTY := State(None, map[])

  ghost predicate IsResolution(es: seq<Event>, t: Params) {
    exists i :: 0 <= i < |es| && es[i].Resolve? && es[i].result == Some(t)
  }

  /** Answers agree with the cache, and everything cached or about to be was really resolved. */
  ghost predicate Coherent(s: State, es: seq<Event>) {
    && (forall id :: id in s.calls && s.calls[id].Answered? && s.calls[id].answer.Some? ==> s.calls[id].answer == s.cache)
    && (s.cache.Some? ==> IsResolution(es, s.cache.value))
    && (forall id :: id in s.calls && s.calls[id].Resolved? ==> IsResolution(es, s.calls[id].found))
  }

  lemma ResolutionExtends(es: seq<Event>, e: Event, t: Params)
    requires IsResolution(es, t)
    ensures IsResolution(es + [e], t)
  {
    var i :| 0 <= i < |es| && es[i].Resolve? && es[i].result == Some(t);
    assert (es + [e])[i] == es[i];
  }

  lemma {:induction false} RunIsCoherent(es: seq<Event>)
    ensures Coherent(Run(EMPTY, es), es)
  {
    if es != [] {
      var init, e := es[..|es| - 1], es[|es| - 1];
      RunIsCoherent(init);
      var s, n := Run(EMPTY, init), Run(EMPTY, es);
      assert es == init + [e];
      forall t | IsResolution(init, t) ensures IsResolution(es, t) {
        ResolutionExtends(init, e, t);
      }
      if e.Resolve? && e.result.Some? {
        assert es[|es| - 1] == e;
        assert IsResolution(es, e.result.value);
      }
    }
  }

  lemma {:induction false} CacheIsStable(s: State, es: seq<Event>)
    requires s.cache.Some?
    ensures Run(s, es).cache == s.cache
  {
    if es != [] {
      CacheIsStable(s, es[..|es| - 1]);
    }
  }

  /** Under every interleaving all successful calls answer the same topology, one that a call resolved. */
  lemma AllAnswersAgree(es: seq<Event>, a: nat, b: nat)
    requires var s := Run(EMPTY, es);
             && a in s.calls && s.calls[a].Answered? && s.calls[a].answer.Some?
             && b in s.calls && s.calls[b].Answered? && s.calls[b].answer.Some?
    ensures var s := Run(EMPTY, es);
            s.calls[a].answer == s.calls[b].answer == s.cache && IsResolution(es, s.cache.value)
  {
    RunIsCoherent(es);
  }

  /** The server's cache field and its two locked sections. */
  class TopologyCache {
    var topo: Option<Params>

    constructor ()
      ensures topo == None
    {
      topo := None;
    }

    method Peek() returns (t: Option<Params>)
      ensures t == topo
    {
      t := topo;
    }

    method Settle(resolved: Params) returns (t: Params)
      modifies this
      ensures old(topo).Some? ==> topo == old(topo)
      ensures old(topo).None? ==> topo == Some(resolved)
      ensures topo == Some(t)
    {
      if topo.None? {
        topo := Some(resolved);
      }
      t := topo.value;
    }

    /** NodeGetInfo run alone; None is the Unavailable answer. */
    method NodeGetInfo(resolved: Option<Params>) returns (answer: Option<Params>)
      modifies this
      ensures answer == topo
      ensures topo == if old(topo).Some? then old(topo) else resolved
    {
      answer := Peek();
      if answer.None? {
        if resolved.None? {
          return None;
        }
        var t := Settle(resolved.value);
        answer := Some(t);
      }
    }
  }

  // ---- Progress ----

  /** Publishing settles a resolved call and fills an empty cache with what it resolved. */
  lemma PublishFillsTheCache(s: State, id: nat)
    requires id in s.calls && s.calls[id].Resolved?
    ensures var n := Step(s, Publish(id));
            && n.cache == (if s.cache.None? then Some(s.calls[id].found) else s.cache)
            && n.calls[id] == Answered(n.cache)
  {
  }

  /** A call alone: a filled cache answers at once; otherwise its resolution does, and a failed one leaves no trace. */
  lemma LoneCallAnswers(s: State, id: nat, result: Option<Params>)
    requires id !in s.calls
    ensures var read := Step(Step(s, Begin(id)), ReadCache(id));
            var end := Step(Step(read, Resolve(id, result)), Publish(id));
            && id in end.calls && end.calls[id].Answered?
            && end.calls[id].answer == end.cache == (if s.cache.Some? then s.cache else result)
  {
  }

  /** A call that starts once the cache is filled never resolves and never fails. */
  lemma {:induction false} LaterCallsAnswerFromTheCache(s: State, es: seq<Event>, id: nat)
    requires s.cache.Some? && id !in s.calls
    ensures var n := Run(s, es);
            id in n.calls ==> n.calls[id].Started? || n.calls[id] == Answered(s.cache)
  {
    if es != [] {
      LaterCallsAnswerFromTheCache(s, es[..|es| - 1], id);
      CacheIsStable(s, es[..|es| - 1]);
    }
  }
}
