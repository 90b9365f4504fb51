/** A stack of one stage, step by step: what the stages that race a task against their consumer are shown to be. */
module OneStage {
  import L = Lockstep

  /** A stack of one stage, from its links and the stage. */
  function Stack(source: L.Link, client: L.Link, stage: L.Stage, produced: seq<nat>, out: seq<L.Frame>, atEnd: seq<nat>)
    : L.State
  {
    L.State([source, client], [stage], produced, out, atEnd)
  }

  /** What a stage does of itself, or is told by a recorder. */
  predicate Own(a: L.Action) {
    L.Inside(a) || a.Record?
  }

  /** Steps of the stage, after noticing that it was asked again. */
  ghost predicate OwnSteps(actions: seq<L.Action>) {
    forall k :: 0 <= k < |actions| ==> Own(actions[k]) || (k == 0 && actions[k].ClientBack?)
  }

  lemma Links(source: L.Link, client: L.Link, other: L.Link)
    ensures [source, client][0 := other] == [other, client] && [source, client][1 := other] == [source, other]
  {
  }

  lemma Stages(stage: L.Stage, other: L.Stage)
    ensures [stage][0 := other] == [other]
  {
  }

  ghost predicate Leads(s: L.State, actions: seq<L.Action>, t: L.State)
    decreases |actions|
  {
    if actions == [] then s == t
    else L.Shaped(s) && L.Enabled(s, actions[0]) && Leads(L.Do(s, actions[0]), actions[1..], t)
  }

  lemma LeadsByOne(s: L.State, a: L.Action)
    requires L.Shaped(s) && L.Enabled(s, a)
    ensures Leads(s, [a], L.Do(s, a))
  {
    assert [a][1..] == [];
  }

  lemma LeadsByTwo(s: L.State, a: L.Action, b: L.Action)
    requires L.Shaped(s) && L.Enabled(s, a) && L.Shaped(L.Do(s, a)) && L.Enabled(L.Do(s, a), b)
    ensures Leads(s, [a, b], L.Do(L.Do(s, a), b))
  {
    LeadsByOne(L.Do(s, a), b);
    assert [a, b][1..] == [b];
  }

  lemma LedByOne(s: L.State, a: L.Action, t: L.State)
    requires Leads(s, [a], t)
    ensures L.Shaped(s) && L.Enabled(s, a) && t == L.Do(s, a)
  {
    assert [a][1..] == [];
  }

  lemma OwnOne(a: L.Action)
    requires Own(a)
    ensures OwnSteps([a]) && Own([a][0])
  {
  }

  lemma DoProduce(client: L.Link, stage: L.Stage, produced: seq<nat>, out: seq<L.Frame>, atEnd: seq<nat>, e: nat)
    ensures var s := Stack(L.Asked, client, stage, produced, out, atEnd);
            && L.Enabled(s, L.Produce(e))
            && L.Do(s, L.Produce(e)) == Stack(L.Holding(L.Frame(0, e)), client, stage, produced + [e], out, atEnd)
  {
    Links(L.Asked, client, L.Holding(L.Frame(0, e)));
  }

  lemma DoSourceEnd(client: L.Link, stage: L.Stage, produced: seq<nat>, out: seq<L.Frame>, atEnd: seq<nat>)
    ensures var s := Stack(L.Asked, client, stage, produced, out, atEnd);
            && L.Enabled(s, L.SourceEnd)
            && L.Do(s, L.SourceEnd) == Stack(L.Over, client, stage, produced, out, [|stage.recorded|])
  {
    Links(L.Asked, client, L.Over);
    var s := Stack(L.Asked, client, stage, produced, out, atEnd);
    assert L.Do(s, L.SourceEnd).atEnd == [|stage.recorded|];
  }

  lemma DoRecord(source: L.Link, client: L.Link, stage: L.Stage, produced: seq<nat>, out: seq<L.Frame>,
                 atEnd: seq<nat>, e: nat)
    requires stage.kind.Delegations?
    ensures var s := Stack(source, client, stage, produced, out, atEnd);
            && L.Enabled(s, L.Record(0, e))
            && L.Do(s, L.Record(0, e))
                == Stack(source, client, stage.(sink := stage.sink + [e], recorded := stage.recorded + [e]), produced,
                out, atEnd)
  {
    Stages(stage, stage.(sink := stage.sink + [e], recorded := stage.recorded + [e]));
  }

  lemma DoInject(source: L.Link, stage: L.Stage, produced: seq<nat>, out: seq<L.Frame>, atEnd: seq<nat>, e: nat)
    requires stage.kind.Delegations? && stage.phase.Expecting? && stage.sink != [] && stage.sink[0] == e
    ensures var s := Stack(source, L.Asked, stage, produced, out, atEnd);
            && L.Enabled(s, L.Inject(0, e))
            && L.Do(s, L.Inject(0, e))
               == Stack(source, L.Holding(L.Frame(1, e)),
                   stage.(sink := stage.sink[1..], injected := stage.injected + [e]), produced, out + [L.Frame(1, e)],
                   atEnd)
  {
    Stages(stage, stage.(sink := stage.sink[1..], injected := stage.injected + [e]));
    Links(source, L.Asked, L.Holding(L.Frame(1, e)));
  }

  lemma DoBeat(source: L.Link, stage: L.Stage, produced: seq<nat>, out: seq<L.Frame>, atEnd: seq<nat>, e: nat)
    requires stage.kind.Heartbeat? && stage.phase.Expecting?
    ensures var s := Stack(source, L.Asked, stage, produced, out, atEnd);
            && L.Enabled(s, L.Inject(0, e))
            && L.Do(s, L.Inject(0, e))
               == Stack(source, L.Holding(L.Frame(1, e)), stage.(injected := stage.injected + [e]), produced, out
                   + [L.Frame(1, e)], atEnd)
  {
    Stages(stage, stage.(injected := stage.injected + [e]));
    Links(source, L.Asked, L.Holding(L.Frame(1, e)));
  }

  lemma DoReceive(x: L.Frame, client: L.Link, stage: L.Stage, produced: seq<nat>, out: seq<L.Frame>, atEnd: seq<nat>)
    requires !stage.kind.ListSink? && stage.phase.Expecting?
    ensures var s := Stack(L.Holding(x), client, stage, produced, out, atEnd);
            && L.Enabled(s, L.Receive(0))
            && L.Do(s, L.Receive(0))
                == Stack(L.Holding(x), client, stage.(phase := L.Carrying(x)), produced, out, atEnd)
  {
    Stages(stage, stage.(phase := L.Carrying(x)));
  }

  lemma DoForward(source: L.Link, x: L.Frame, stage: L.Stage, produced: seq<nat>, out: seq<L.Frame>, atEnd: seq<nat>)
    requires !stage.kind.ListSink? && stage.phase == L.Carrying(x) && L.Waiting(stage) == []
    ensures var s := Stack(source, L.Asked, stage, produced, out, atEnd);
            && L.Enabled(s, L.Forward(0))
            && L.Do(s, L.Forward(0))
                == Stack(source, L.Holding(x), stage.(phase := L.Passing(x)), produced, out + [x], atEnd)
  {
    Stages(stage, stage.(phase := L.Passing(x)));
    Links(source, L.Asked, L.Holding(x));
  }

  lemma DoBack(source: L.Link, x: L.Frame, stage: L.Stage, produced: seq<nat>, out: seq<L.Frame>, atEnd: seq<nat>)
    requires stage.phase == L.Passing(x)
    ensures var s := Stack(source, L.Asked, stage, produced, out, atEnd);
            && L.Enabled(s, L.Back(0))
            && L.Do(s, L.Back(0)) == Stack(L.Asked, L.Asked, stage.(phase := L.Expecting), produced, out, atEnd)
  {
    Stages(stage, stage.(phase := L.Expecting));
    Links(source, L.Asked, L.Asked);
  }

  lemma DoSeeEnd(client: L.Link, stage: L.Stage, produced: seq<nat>, out: seq<L.Frame>, atEnd: seq<nat>)
    requires !stage.kind.ListSink? && stage.phase.Expecting?
    ensures var s := Stack(L.Over, client, stage, produced, out, atEnd);
            && L.Enabled(s, L.SeeEnd(0))
            && L.Do(s, L.SeeEnd(0))
                == Stack(L.Over, client, stage.(phase := L.Flushing, owed := |stage.recorded|), produced, out, atEnd)
  {
    Stages(stage, stage.(phase := L.Flushing, owed := |stage.recorded|));
  }

  lemma DoFinish(source: L.Link, stage: L.Stage, produced: seq<nat>, out: seq<L.Frame>, atEnd: seq<nat>)
    requires stage.phase.Flushing? && L.Waiting(stage) == []
    ensures var s := Stack(source, L.Asked, stage, produced, out, atEnd);
            && L.Enabled(s, L.Finish(0))
            && L.Do(s, L.Finish(0)) == Stack(source, L.Over, stage.(phase := L.Done), produced, out, atEnd)
  {
    Stages(stage, stage.(phase := L.Done));
    Links(source, L.Asked, L.Over);
  }

  lemma DoSourceError(client: L.Link, stage: L.Stage, produced: seq<nat>, out: seq<L.Frame>, atEnd: seq<nat>, e: nat)
    ensures var s := Stack(L.Asked, client, stage, produced, out, atEnd);
            && L.Enabled(s, L.SourceError(e))
            && L.Do(s, L.SourceError(e)) == Stack(L.Broken(e), client, stage, produced, out, atEnd)
  {
    Links(L.Asked, client, L.Broken(e));
  }

  lemma DoPropagate(e: nat, stage: L.Stage, produced: seq<nat>, out: seq<L.Frame>, atEnd: seq<nat>)
    requires stage.phase.Expecting?
    ensures var s := Stack(L.Broken(e), L.Asked, stage, produced, out, atEnd);
            && L.Enabled(s, L.Propagate(0))
            && L.Do(s, L.Propagate(0))
                == Stack(L.Broken(e), L.Broken(e), stage.(phase := L.Failed), produced, out, atEnd)
  {
    Stages(stage, stage.(phase := L.Failed));
    Links(L.Broken(e), L.Asked, L.Broken(e));
  }

  lemma DoClientBack(source: L.Link, x: L.Frame, stage: L.Stage, produced: seq<nat>, out: seq<L.Frame>, atEnd: seq<nat>)
    ensures var s := Stack(source, L.Holding(x), stage, produced, out, atEnd);
            && L.Enabled(s, L.ClientBack)
            && L.Do(s, L.ClientBack) == Stack(source, L.Asked, stage, produced, out, atEnd)
  {
    Links(source, L.Holding(x), L.Asked);
  }

  lemma ReachesOneMore(kinds: seq<L.Kind>, before: seq<L.Action>, s: L.State, a: L.Action)
    requires L.Reaches(kinds, before, s) && L.Shaped(s) && L.Enabled(s, a)
    ensures L.Reaches(kinds, before + [a], L.Do(s, a))
  {
    assert (before + [a])[..|before|] == before;
  }

  lemma Regrouped(before: seq<L.Action>, more: seq<L.Action>)
    requires more != []
    ensures before + more == before + [more[0]] + more[1..]
  {
  }

  lemma {:induction false} ReachesOn(kinds: seq<L.Kind>, before: seq<L.Action>, s: L.State, more: seq<L.Action>,
                                     t: L.State)
    requires L.Reaches(kinds, before, s) && Leads(s, more, t)
    ensures L.Reaches(kinds, before + more, t)
    decreases |more|
  {
    if more == [] {
      assert before + more == before;
    } else {
      ReachesOneMore(kinds, before, s, more[0]);
      ReachesOn(kinds, before + [more[0]], L.Do(s, more[0]), more[1..], t);
      Regrouped(before, more);
    }
  }
}
