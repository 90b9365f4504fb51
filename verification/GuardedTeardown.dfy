/**
 What a disconnect does to a chain of generators. Generator 0 is the provider's stream, generator `n`
 the outermost stage, and each one in between wraps the one below it. A plain stage asks what it wraps
 itself; a racing stage owns a pump task that asks for it.
 */
module GuardedTeardown {

  datatype Mode = Suspended | Running | Closed

  datatype Kind = Plain | Racing

  datatype Gen = Gen(kind: Kind, mode: Mode, pump: bool)

  type Chain = gens: seq<Gen> | gens != [] witness [Gen(Plain, Suspended, false)]

  /** Who is inside generator `i`: the plain stage around it, or the pump of the racing stage around it. */
  predicate Drives(gens: Chain, j: nat)
    requires j < |gens|
  {
    match gens[j].kind
    case Plain => gens[j].mode.Running?
    case Racing => gens[j].pump
  }

  /** A generator runs only inside whoever drives it, and a stage that is over has no pump left. */
  ghost predicate Sound(gens: Chain) {
    && (forall i :: 0 <= i < |gens| - 1 && gens[i].mode.Running? ==> Drives(gens, i + 1))
    && (forall i :: 0 <= i < |gens| && gens[i].pump ==> gens[i].kind.Racing? && !gens[i].mode.Closed? && i > 0)
  }

  function SetGen(gens: Chain, i: nat, g: Gen): Chain
    requires i < |gens|
  {
    gens[i := g]
  }

  // ---- The chain while it runs --------------------------------------------------------------------

  datatype Action = Ask(gen: nat) | StartPump(gen: nat) | GiveBack(gen: nat) | End(gen: nat)

  /** Whether generator `i` waits for what it wraps in its own task. */
  predicate Inside(gens: Chain, i: nat)
    requires i < |gens|
  {
    gens[i].kind.Plain? && i > 0 && gens[i - 1].mode.Running?
  }

  /** A generator is asked by its driver, yields or ends only when it waits for nothing below it. */
  predicate Enabled(gens: Chain, a: Action) {
    a.gen < |gens| &&
    match a
    case Ask(i) => gens[i].mode.Suspended? && (i == |gens| - 1 || Drives(gens, i + 1))
    case StartPump(i) => i > 0 && gens[i].kind.Racing? && gens[i].mode.Running? && !gens[i].pump
    case GiveBack(i) => gens[i].mode.Running? && !Inside(gens, i)
    case End(i) => gens[i].mode.Running? && !Inside(gens, i)
  }

  function Do(gens: Chain, a: Action): Chain
    requires Enabled(gens, a)
  {
    match a
    case Ask(i) => SetGen(gens, i, gens[i].(mode := Running))
    case StartPump(i) => SetGen(gens, i, gens[i].(pump := true))
    case GiveBack(i) => SetGen(gens, i, gens[i].(mode := Suspended))
    case End(i) => Ended(gens, i)
  }

  /**
   A generator brought to its end -- closed at its yield, cancelled where it waits, or run out. A plain
   one takes down what it is inside of, and leaves what it is merely suspended around; a racing one
   cancels its pump, and the pump closes what it drives whether it was inside it or not.
   */
  function Ended(gens: Chain, i: nat): (gens': Chain)
    requires i < |gens|
    ensures |gens'| == |gens|
    decreases i
  {
    if gens[i].mode.Closed? then gens
    else
      var below := if i > 0
          && (if gens[i].kind.Plain? then gens[i].mode.Running? && gens[i - 1].mode.Running? else gens[i].pump)
                   then Ended(gens, i - 1) else gens;
      SetGen(below, i, below[i].(mode := Closed, pump := false))
  }

  lemma {:induction false} EndedLocally(gens: Chain, i: nat)
    requires Sound(gens) && i < |gens|
    ensures Sound(Ended(gens, i))
    ensures Ended(gens, i)[i].mode.Closed? && !Ended(gens, i)[i].pump
    ensures forall j :: i < j < |gens| ==> Ended(gens, i)[j] == gens[j]
    ensures forall j :: 0 <= j < |gens| ==> Ended(gens, i)[j].kind == gens[j].kind
    decreases i
  {
    if !gens[i].mode.Closed? && i > 0 {
      EndedLocally(gens, i - 1);
    }
  }

  /** Soundness is what running the chain keeps, whatever runs when. */
  lemma RunningKeepsSound(gens: Chain, a: Action)
    requires Sound(gens) && Enabled(gens, a)
    ensures Sound(Do(gens, a))
  {
    if a.End? {
      EndedLocally(gens, a.gen);
    }
  }

  ghost predicate Reaches(kinds: seq<Kind>, actions: seq<Action>, gens: Chain) {
    if actions == [] then
      |kinds| == |gens| && forall i :: 0 <= i < |gens| ==> gens[i] == Gen(kinds[i], Suspended, false)
    else
      var n := |actions| - 1;
      exists before: Chain :: Reaches(kinds, actions[..n], before) && Enabled(before, actions[n])
          && gens == Do(before, actions[n])
  }

  lemma {:induction false} EveryRunIsSound(kinds: seq<Kind>, actions: seq<Action>, gens: Chain)
    requires Reaches(kinds, actions, gens)
    ensures Sound(gens)
  {
    if actions != [] {
      var n := |actions| - 1;
      var before: Chain :| Reaches(kinds, actions[..n], before) && Enabled(before, actions[n])
          && gens == Do(before, actions[n]);
      EveryRunIsSound(kinds, actions[..n], before);
      RunningKeepsSound(before, actions[n]);
    }
  }

  // ---- Closing from outside -------------------------------------------------------------------------

  /** What a close comes to. A running generator refuses, and nothing happens to it. */
  datatype Outcome = Refused | Raised | Ok

  function Aclose(gens: Chain, i: nat): Chain
    requires i < |gens|
  {
    if gens[i].mode.Running? then gens else Ended(gens, i)
  }

  function CloseOutcome(gens: Chain, i: nat, fails: set<nat>): Outcome
    requires i < |gens|
  {
    if gens[i].mode.Running? then Refused
    else if gens[i].mode.Suspended? && i in fails then Raised
    else Ok
  }

  predicate InChain(order: seq<nat>, gens: Chain) {
    forall k :: 0 <= k < |order| ==> order[k] < |gens|
  }

  /** The chain after `order` was closed one after another. */
  function CloseAll(gens: Chain, order: seq<nat>): (gens': Chain)
    requires InChain(order, gens)
    ensures |gens'| == |gens|
    decreases |order|
  {
    if order == [] then gens else CloseAll(Aclose(gens, order[0]), order[1..])
  }

  /** Whether no close of `order` meets a running generator. */
  predicate NoneRefused(gens: Chain, order: seq<nat>)
    requires InChain(order, gens)
    decreases |order|
  {
    order == [] || (!gens[order[0]].mode.Running? && NoneRefused(Aclose(gens, order[0]), order[1..]))
  }

  /** The racing stages below `i`, outermost first. */
  function RacingBelow(gens: Chain, i: nat): (order: seq<nat>)
    requires i <= |gens|
    ensures InChain(order, gens)
  {
    if i == 0 then []
    else if gens[i - 1].kind.Racing? then [i - 1] + RacingBelow(gens, i - 1)
    else RacingBelow(gens, i - 1)
  }

  /** The guard's order: the stream, the racing stages it wraps outermost first, the provider's stream. */
  function GuardOrder(gens: Chain): (order: seq<nat>)
    ensures InChain(order, gens)
  {
    [|gens| - 1] + RacingBelow(gens, |gens| - 1) + [0]
  }

  lemma {:induction false} RacingBelowGoesDown(gens: Chain, i: nat)
    requires i <= |gens|
    ensures var order := RacingBelow(gens, i);
            && (forall j: nat :: j in order <==> j < i && gens[j].kind.Racing?)
            && (forall k :: 0 <= k < |order| - 1 ==> order[k + 1] < order[k])
  {
    if i > 0 {
      RacingBelowGoesDown(gens, i - 1);
      var rest := RacingBelow(gens, i - 1);
      assert rest != [] ==> rest[0] in rest;
    }
  }

  /** That order begins with the stream and ends with the provider's; between them is every racing stage, going down. */
  lemma GuardOrderGoesDown(gens: Chain)
    ensures var order, n := GuardOrder(gens), |gens| - 1;
            && |order| >= 2 && order[0] == n && order[|order| - 1] == 0
            && var between := order[1..|order| - 1];
               && (forall j: nat :: j in between <==> j < n && gens[j].kind.Racing?)
               && (forall k :: 0 <= k < |between| - 1 ==> between[k + 1] < between[k])
  {
    var racing := RacingBelow(gens, |gens| - 1);
    RacingBelowGoesDown(gens, |gens| - 1);
    assert GuardOrder(gens)[1..|GuardOrder(gens)| - 1] == racing;
  }

  /** Nothing at or above `i` runs or has a pump. */
  ghost predicate Quiet(gens: Chain, i: nat) {
    forall j :: i <= j < |gens| ==> !gens[j].mode.Running? && !gens[j].pump
  }

  /** With nothing above to drive it, a plain stage does not run. */
  lemma QuietBelow(gens: Chain, i: nat)
    requires Sound(gens) && 0 < i < |gens| && Quiet(gens, i)
    ensures !gens[i - 1].mode.Running?
    ensures gens[i - 1].kind.Plain? ==> Quiet(gens, i - 1)
  {
    assert !Drives(gens, i);
  }

  lemma CloseQuiets(gens: Chain, i: nat)
    requires Sound(gens) && i < |gens| && !gens[i].mode.Running? && Quiet(gens, i + 1)
    ensures Sound(Aclose(gens, i)) && Quiet(Aclose(gens, i), i) && Aclose(gens, i)[i].mode.Closed?
    ensures forall j :: 0 <= j < |gens| ==> Aclose(gens, i)[j].kind == gens[j].kind
  {
    EndedLocally(gens, i);
  }

  /** One close, and then the rest of an order. */
  lemma CloseFirst(gens: Chain, i: nat, order: seq<nat>)
    requires i < |gens| && InChain(order, gens)
    ensures InChain([i] + order, gens)
    ensures CloseAll(gens, [i] + order) == CloseAll(Aclose(gens, i), order)
    ensures NoneRefused(gens, [i] + order) <==> !gens[i].mode.Running? && NoneRefused(Aclose(gens, i), order)
  {
    assert ([i] + order)[1..] == order;
  }

  ghost predicate TornDown(gens: Chain, order: seq<nat>)
    requires InChain(order, gens)
  {
    NoneRefused(gens, order) && Quiet(CloseAll(gens, order), 0) && CloseAll(gens, order)[0].mode.Closed?
  }

  /** Closing the racing stages below `i`, then the provider's stream, once everything from `i` up is quiet. */
  lemma {:induction false} ClosesFrom(gens: Chain, i: nat)
    requires Sound(gens) && i < |gens| && Quiet(gens, i)
    ensures TornDown(gens, RacingBelow(gens, i) + [0])
    decreases i, 1
  {
    if i == 0 {
      CloseQuiets(gens, 0);
      CloseFirst(gens, 0, []);
      assert RacingBelow(gens, 0) + [0] == [0] + [];
    } else {
      QuietBelow(gens, i);
      if gens[i - 1].kind.Plain? {
        ClosesFrom(gens, i - 1);
      } else {
        ClosesRacing(gens, i - 1);
      }
    }
  }

  lemma ClosesRacing(gens: Chain, i: nat)
    requires Sound(gens) && i + 1 < |gens| && Quiet(gens, i + 1) && !gens[i].mode.Running? && gens[i].kind.Racing?
    ensures TornDown(gens, RacingBelow(gens, i + 1) + [0])
    decreases i + 1, 0
  {
    CloseQuiets(gens, i);
    ClosesFrom(Aclose(gens, i), i);
    ClosesNext(gens, i);
    assert RacingBelow(gens, i + 1) + [0] == [i] + (RacingBelow(gens, i) + [0]);
  }

  lemma ClosesNext(gens: Chain, i: nat)
    requires Sound(gens) && i < |gens| && !gens[i].mode.Running?
    requires TornDown(Aclose(gens, i), RacingBelow(Aclose(gens, i), i) + [0])
    ensures TornDown(gens, [i] + (RacingBelow(gens, i) + [0]))
  {
    EndedLocally(gens, i);
    SameRacing(gens, Aclose(gens, i), i);
    CloseFirst(gens, i, RacingBelow(gens, i) + [0]);
  }

  lemma {:induction false} SameRacing(gens: Chain, gens': Chain, i: nat)
    requires i <= |gens| == |gens'| && forall j :: 0 <= j < |gens| ==> gens'[j].kind == gens[j].kind
    ensures RacingBelow(gens', i) == RacingBelow(gens, i)
  {
    if i > 0 {
      SameRacing(gens, gens', i - 1);
    }
  }

  /**
   For a chain of any length with any racing stages in it, and from any state in which the guard is
   suspended at a yield: the guard's closes never meet a running generator, and afterwards the
   provider's stream is closed, no generator runs and no pump is alive.
   */
  lemma TeardownReachesTheProvider(gens: Chain)
    requires Sound(gens) && !gens[|gens| - 1].mode.Running?
    ensures TornDown(gens, GuardOrder(gens))
  {
    var n := |gens| - 1;
    CloseQuiets(gens, n);
    ClosesFrom(Aclose(gens, n), n);
    ClosesNext(gens, n);
    assert GuardOrder(gens) == [n] + (RacingBelow(gens, n) + [0]);
  }

  /** Without the racing stages a provider's stream that a pump is inside of refuses, and goes on running. */
  lemma WithoutRacingStagesTheProviderRuns()
    ensures var gens := [Gen(Plain, Running, false), Gen(Racing, Suspended, true), Gen(Plain, Suspended, false)];
            && Sound(gens)
            && !NoneRefused(gens, [2, 0])
            && CloseAll(gens, [2, 0])[0].mode.Running?
  {
    var gens: Chain := [Gen(Plain, Running, false), Gen(Racing, Suspended, true), Gen(Plain, Suspended, false)];
    CloseFirst(gens, 2, [0]);
    CloseFirst(Aclose(gens, 2), 0, []);
    assert [2] + [0] == [2, 0] && [0] + [] == [0];
  }

  // ---- The guard ------------------------------------------------------------------------------------

  /** What the guard did, in order. */
  datatype Entry = CloseOf(gen: nat, outcome: Outcome) | OnCancel(settled: bool)

  /** How the disconnect reached the guard. */
  datatype Cancellation = CancelledError | GeneratorExit

  function CloseLog(gens: Chain, order: seq<nat>, fails: set<nat>): seq<Entry>
    requires InChain(order, gens)
    decreases |order|
  {
    if order == [] then []
    else [CloseOf(order[0], CloseOutcome(gens, order[0], fails))] + CloseLog(Aclose(gens, order[0]), order[1..], fails)
  }

  lemma LogFirst(gens: Chain, order: seq<nat>, fails: set<nat>, log: seq<Entry>)
    requires InChain(order, gens) && order != []
    ensures log + CloseLog(gens, order, fails)
            == log + [CloseOf(order[0], CloseOutcome(gens, order[0], fails))]
                + CloseLog(Aclose(gens, order[0]), order[1..], fails)
  {
  }

  /** One entry for each close: refused where the closes before it left a generator running, raised where it fails. */
  lemma {:induction false} EachCloseIsLogged(gens: Chain, order: seq<nat>, fails: set<nat>, k: nat)
    requires InChain(order, gens) && k < |order| && InChain(order[..k], gens)
    ensures |CloseLog(gens, order, fails)| == |order|
    ensures var mode := CloseAll(gens, order[..k])[order[k]].mode;
            CloseLog(gens, order, fails)[k]
            == CloseOf(order[k], if mode == Running then Refused
                                 else if mode == Suspended && order[k] in fails then Raised else Ok)
    decreases |order|
  {
    if k > 0 {
      assert order[..k][1..] == order[1..][..k - 1] && order[1..][k - 1] == order[k];
      EachCloseIsLogged(Aclose(gens, order[0]), order[1..], fails, k - 1);
    } else if |order| > 1 {
      EachCloseIsLogged(Aclose(gens, order[0]), order[1..], fails, 0);
    }
  }

  class Guard {
    var gens: Chain
    var log: seq<Entry>

    constructor (gens: Chain)
      ensures this.gens == gens && log == []
    {
      this.gens, log := gens, [];
    }

    /** Close one generator; what the close raises is logged, never passed on. */
    method CloseQuietly(i: nat, fails: set<nat>)
      requires i < |gens|
      modifies this
      ensures gens == Aclose(old(gens), i)
      ensures log == old(log) + [CloseOf(i, CloseOutcome(old(gens), i, fails))]
    {
      log := log + [CloseOf(i, CloseOutcome(gens, i, fails))];
      if !gens[i].mode.Running? {
        gens := Ended(gens, i);
      }
    }

    /** Close a list of stages, each on its own. */
    method CloseStages(order: seq<nat>, fails: set<nat>)
      requires InChain(order, gens)
      modifies this
      ensures gens == CloseAll(old(gens), order)
      ensures log == old(log) + CloseLog(old(gens), order, fails)
    {
      var rest := order;
      while rest != []
        invariant InChain(rest, gens)
        invariant CloseAll(gens, rest) == CloseAll(old(gens), order)
        invariant log + CloseLog(gens, rest, fails) == old(log) + CloseLog(old(gens), order, fails)
        decreases |rest|
      {
        LogFirst(gens, rest, fails, log);
        CloseQuietly(rest[0], fails);
        rest := rest[1..];
      }
    }

    /**
     The guard's handler. A `CancelledError` has unwound the chain on its way up; a `GeneratorExit` finds
     it suspended. Then the closes, then `on_cancel` -- once, whatever the closes raised, and whether or
     not it settles within its bound -- and the cancellation is raised again.
     */
    method OnDisconnect(how: Cancellation, fails: set<nat>, settles: bool) returns (raised: Cancellation)
      requires Sound(gens)
      requires how.GeneratorExit? ==> !gens[|gens| - 1].mode.Running?
      modifies this
      ensures raised == how
      ensures |gens| == |old(gens)| && gens[0].mode.Closed? && Quiet(gens, 0)
      ensures var before := Unwound(old(gens), how);
              var order := GuardOrder(before);
              && NoneRefused(before, order)
              && gens == CloseAll(before, order)
              && log == old(log) + CloseLog(before, order, fails) + [OnCancel(settles)]
    {
      if how.CancelledError? {
        EndedLocally(gens, |gens| - 1);
        gens := Ended(gens, |gens| - 1);
      }
      TeardownReachesTheProvider(gens);
      CloseStages(GuardOrder(gens), fails);
      log := log + [OnCancel(settles)];
      raised := how;
    }
  }

  /** The chain as the handler finds it. */
  function Unwound(gens: Chain, how: Cancellation): (gens': Chain)
    ensures |gens'| == |gens|
  {
    if how.CancelledError? then Ended(gens, |gens| - 1) else gens
  }
}
