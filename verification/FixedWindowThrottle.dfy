/**
 The fixed-window limiter over a shared cache whose `add` and `incr` are atomic and whose entries may
 vanish at any time: calls interleave between the two operations.
 */
module FixedWindowThrottle {
  import opened Messages

  /** One client's counter in one window. */
  datatype Counter = Counter(client: string, bucket: int)

  datatype Limits = Limits(maxRuns: nat, window: nat)

  /** What the constructor insists on. */
  predicate Positive(l: Limits) {
    l.maxRuns > 0 && l.window > 0
  }

  function BucketOf(l: Limits, now: int): int
    requires Positive(l)
  {
    now / l.window
  }

  function CounterOf(l: Limits, client: string, now: int): Counter
    requires Positive(l)
  {
    Counter(client, BucketOf(l, now))
  }

  /** Seconds to the next window, and never none. */
  function RetryAfter(l: Limits, now: int): int
    requires Positive(l)
  {
    var left := (BucketOf(l, now) + 1) * l.window - now;
    if left > 1 then left else 1
  }

  lemma BucketBounds(l: Limits, now: int)
    requires Positive(l)
    ensures BucketOf(l, now) * l.window <= now < (BucketOf(l, now) + 1) * l.window
  {
    var w, b := l.window, BucketOf(l, now);
    assert now == b * w + now % w;
    assert (b + 1) * w == b * w + w;
  }

  lemma WholeWindows(b: int, c: int, w: nat)
    ensures b < c ==> (b + 1) * w <= c * w
  {
    if b < c {
      assert c * w == (b + 1) * w + (c - b - 1) * w;
    }
  }

  lemma BucketIs(l: Limits, now: int, b: int)
    requires Positive(l) && b * l.window <= now < (b + 1) * l.window
    ensures BucketOf(l, now) == b
  {
    BucketBounds(l, now);
    WholeWindows(b, BucketOf(l, now), l.window);
    WholeWindows(BucketOf(l, now), b, l.window);
  }

  /** A refusal names the first second of the next window: 1 to `window` seconds on, and none sooner would do. */
  lemma RefusalPointsAtTheNextWindow(l: Limits, now: int)
    requires Positive(l)
    ensures var r := RetryAfter(l, now);
            && 1 <= r <= l.window && now + r == (BucketOf(l, now) + 1) * l.window
            && BucketOf(l, now + r) == BucketOf(l, now) + 1
            && forall t :: now <= t < now + r ==> BucketOf(l, t) == BucketOf(l, now)
  {
    BucketBounds(l, now);
    var r, b, w := RetryAfter(l, now), BucketOf(l, now), l.window;
    assert (b + 1) * w == b * w + w && (b + 2) * w == (b + 1) * w + w;
    BucketIs(l, now + r, b + 1);
    forall t | now <= t < now + r ensures BucketOf(l, t) == b {
      BucketIs(l, t, b);
    }
  }

  /** Two calls count on one counter exactly when they are one client's, in one window. */
  lemma OneCounterPerClientAndWindow(l: Limits, client: string, now: int, other: string, then_: int)
    requires Positive(l)
    ensures CounterOf(l, client, now) == CounterOf(l, other, then_)
            <==> client == other
                 && exists b: int :: b * l.window <= now < (b + 1) * l.window
                                     && b * l.window <= then_ < (b + 1) * l.window
  {
    BucketBounds(l, now);
    BucketBounds(l, then_);
    if b: int :| b * l.window <= now < (b + 1) * l.window && b * l.window <= then_ < (b + 1) * l.window {
      BucketIs(l, now, b);
      BucketIs(l, then_, b);
    }
  }

  // ---- One call ---------------------------------------------------------------------------------------------

  class Cache {
    var entries: map<Counter, nat>

    constructor ()
      ensures entries == map[]
    {
      entries := map[];
    }

    /** Sets the counter unless it is there. */
    method Add(key: Counter) returns (added: bool)
      modifies this
      ensures added == (key !in old(entries))
      ensures entries == if added then old(entries)[key := 1] else old(entries)
    {
      added := key !in entries;
      if added {
        entries := entries[key := 1];
      }
    }

    /** Bumps the counter, or says that it is gone. */
    method Incr(key: Counter) returns (count: Option<nat>)
      modifies this
      ensures count == if key in old(entries) then Some(old(entries)[key] + 1) else None
      ensures entries == if key in old(entries) then old(entries)[key := old(entries)[key] + 1] else old(entries)
    {
      if key !in entries {
        return None;
      }
      entries := entries[key := entries[key] + 1];
      return Some(entries[key]);
    }
  }

  class Throttle {
    const limits: Limits
    const cache: Cache

    constructor (cache: Cache, limits: Limits)
      requires Positive(limits)
      ensures this.cache == cache && this.limits == limits
    {
      this.cache, this.limits := cache, limits;
    }

    method Increment(key: Counter) returns (count: nat)
      modifies cache
      ensures count == if key in old(cache.entries) then old(cache.entries)[key] + 1 else 1
      ensures cache.entries == old(cache.entries)[key := count]
    {
      var bumped := cache.Incr(key);
      match bumped {
        case Some(n) =>
          return n;
        case None =>
          var added := cache.Add(key);
          return 1;
      }
    }

    /** Undisturbed, a call counts itself, and is refused exactly when the window is full. */
    method Consume(client: string, now: int) returns (refusal: Option<int>)
      requires Positive(limits)
      modifies cache
      ensures var key := CounterOf(limits, client, now);
              var count := if key in old(cache.entries) then old(cache.entries)[key] + 1 else 1;
              && cache.entries == old(cache.entries)[key := count]
              && (refusal == None <==> count <= limits.maxRuns)
              && (refusal.Some? ==> refusal.value == RetryAfter(limits, now))
    {
      var key := CounterOf(limits, client, now);
      var added := cache.Add(key);
      if added {
        return None;
      }
      var count := Increment(key);
      if count <= limits.maxRuns {
        return None;
      }
      var left := (key.bucket + 1) * limits.window - now;
      return Some(if left > 1 then left else 1);
    }
  }

  // ---- Calls in between one another -----------------------------------------------------------------------------

  /** Where a call has got to. `counted` tells an admission the counter knows of from one it does not. */
  datatype Phase = Adding | Counting | Reseeding | Admitted(counted: bool) | Refused(retryAfter: int)

  datatype Call = Call(client: string, now: int, phase: Phase)

  /** An entry the cache lost, and how far it had counted. */
  datatype Loss = Loss(key: Counter, count: nat)

  datatype State = State(cache: map<Counter, nat>, calls: seq<Call>, lost: seq<Loss>)

  datatype Move = Arrive(client: string, now: int) | Proceed(call: nat) | Evict(key: Counter)

  predicate Enabled(s: State, m: Move) {
    match m
    case Arrive(_, _) => true
    case Proceed(i) => i < |s.calls| && !s.calls[i].phase.Admitted? && !s.calls[i].phase.Refused?
    case Evict(key) => key in s.cache
  }

  function CounterFor(l: Limits, c: Call): Counter
    requires Positive(l)
  {
    CounterOf(l, c.client, c.now)
  }

  /** One operation on the cache, and the phase it leaves the call in. */
  function Operate(l: Limits, cache: map<Counter, nat>, c: Call): (map<Counter, nat>, Phase)
    requires Positive(l)
  {
    var key := CounterFor(l, c);
    match c.phase
    case Adding => if key in cache then (cache, Counting) else (cache[key := 1], Admitted(true))
    case Counting =>
      if key !in cache then (cache, Reseeding)
      else (cache[key := cache[key] + 1], if cache[key] + 1 <= l.maxRuns then Admitted(true)
          else Refused(RetryAfter(l, c.now)))
    case Reseeding => if key in cache then (cache, Admitted(false)) else (cache[key := 1], Admitted(true))
    case _ => (cache, c.phase)
  }

  function Do(l: Limits, s: State, m: Move): State
    requires Positive(l) && Enabled(s, m)
  {
    match m
    case Arrive(client, now) => s.(calls := s.calls + [Call(client, now, Adding)])
    case Proceed(i) =>
      var (cache, phase) := Operate(l, s.cache, s.calls[i]);
      s.(cache := cache, calls := s.calls[i := s.calls[i].(phase := phase)])
    case Evict(key) => s.(cache := s.cache - {key}, lost := s.lost + [Loss(key, s.cache[key])])
  }

  function Run(l: Limits, moves: seq<Move>, n: nat): Option<State>
    requires Positive(l) && n <= |moves|
  {
    if n == 0 then Some(State(map[], [], []))
    else
      match Run(l, moves, n - 1)
      case None => None
      case Some(s) => if Enabled(s, moves[n - 1]) then Some(Do(l, s, moves[n - 1])) else None
  }

  // ---- Counting -----------------------------------------------------------------------------------------------------

  datatype Kind = CountedIn | WavedIn | TurnedAway

  predicate Is(c: Call, kind: Kind) {
    match kind
    case CountedIn => c.phase == Admitted(true)
    case WavedIn => c.phase == Admitted(false)
    case TurnedAway => c.phase.Refused?
  }

  function One(l: Limits, c: Call, key: Counter, kind: Kind): nat
    requires Positive(l)
  {
    if CounterFor(l, c) == key && Is(c, kind) then 1 else 0
  }

  /** How many of the first `n` calls on a counter are of a kind. */
  function Tally(l: Limits, calls: seq<Call>, n: nat, key: Counter, kind: Kind): nat
    requires Positive(l) && n <= |calls|
  {
    if n == 0 then 0 else Tally(l, calls, n - 1, key, kind) + One(l, calls[n - 1], key, kind)
  }

  /** How many of the first `n` losses were of a counter. */
  function Losses(lost: seq<Loss>, n: nat, key: Counter): nat
    requires n <= |lost|
  {
    if n == 0 then 0 else Losses(lost, n - 1, key) + if lost[n - 1].key == key then 1 else 0
  }

  /** How many calls the lost lifetimes of a counter let in, the first `maxRuns` of each. */
  function LetIn(l: Limits, lost: seq<Loss>, n: nat, key: Counter): nat
    requires n <= |lost|
  {
    if n == 0 then 0 else LetIn(l, lost, n - 1, key) + if lost[n - 1].key == key then Min(lost[n - 1].count, l.maxRuns)
        else 0
  }

  /** How many calls the lost lifetimes of a counter counted. */
  function CountedBefore(lost: seq<Loss>, n: nat, key: Counter): nat
    requires n <= |lost|
  {
    if n == 0 then 0 else CountedBefore(lost, n - 1, key) + if lost[n - 1].key == key then lost[n - 1].count else 0
  }

  function Count(cache: map<Counter, nat>, key: Counter): nat {
    if key in cache then cache[key] else 0
  }

  function Min(a: nat, b: nat): nat {
    if a < b then a else b
  }

  lemma {:induction false} TallyUpTo(l: Limits, a: seq<Call>, b: seq<Call>, n: nat, key: Counter, kind: Kind)
    requires Positive(l) && n <= |a| && n <= |b| && forall k :: 0 <= k < n ==> a[k] == b[k]
    ensures Tally(l, a, n, key, kind) == Tally(l, b, n, key, kind)
  {
    if n > 0 {
      TallyUpTo(l, a, b, n - 1, key, kind);
    }
  }

  lemma {:induction false} TallyWith(l: Limits, calls: seq<Call>, i: nat, c: Call, n: nat, key: Counter, kind: Kind)
    requires Positive(l) && i < n <= |calls|
    ensures Tally(l, calls[i := c], n, key, kind) + One(l, calls[i], key, kind)
            == Tally(l, calls, n, key, kind) + One(l, c, key, kind)
  {
    if n - 1 == i {
      TallyUpTo(l, calls[i := c], calls, i, key, kind);
    } else {
      TallyWith(l, calls, i, c, n - 1, key, kind);
    }
  }

  // ---- What holds of a counter, whatever happens to the cache -------------------------------------------------------

  function In(l: Limits, s: State, key: Counter, kind: Kind): nat
    requires Positive(l)
  {
    Tally(l, s.calls, |s.calls|, key, kind)
  }

  function Lost(s: State, key: Counter): nat {
    Losses(s.lost, |s.lost|, key)
  }

  /**
   Lifetime by lifetime of its entry, a counter lets in the first `maxRuns` of the calls it counts, and turns
   the others away.
   */
  ghost predicate Counts(l: Limits, s: State, key: Counter)
    requires Positive(l)
  {
    && In(l, s, key, CountedIn) == LetIn(l, s.lost, |s.lost|, key) + Min(Count(s.cache, key), l.maxRuns)
    && In(l, s, key, CountedIn) + In(l, s, key, TurnedAway)
        == CountedBefore(s.lost, |s.lost|, key) + Count(s.cache, key)
  }

  /** Until its entry is lost, no call gets past a counter uncounted. */
  ghost predicate Unbroken(l: Limits, s: State, key: Counter)
    requires Positive(l)
  {
    Lost(s, key) == 0 ==>
      && In(l, s, key, WavedIn) == 0
      && forall i :: 0 <= i < |s.calls| && CounterFor(l, s.calls[i]) == key ==>
           !s.calls[i].phase.Reseeding? && (s.calls[i].phase.Counting? ==> key in s.cache)
  }

  /** A call that has been refused says when to come back. */
  ghost predicate Told(l: Limits, s: State)
    requires Positive(l)
  {
    forall i :: 0 <= i < |s.calls| && s.calls[i].phase.Refused? ==>
        s.calls[i].phase.retryAfter == RetryAfter(l, s.calls[i].now)
  }

  // ---- Keeping it -------------------------------------------------------------------------------------------------

  lemma ArriveKeeps(l: Limits, s: State, client: string, now: int, key: Counter)
    requires Positive(l) && Counts(l, s, key) && Unbroken(l, s, key)
    ensures var s' := Do(l, s, Arrive(client, now)); Counts(l, s', key) && Unbroken(l, s', key)
  {
    var s' := Do(l, s, Arrive(client, now));
    TallyUpTo(l, s'.calls, s.calls, |s.calls|, key, CountedIn);
    TallyUpTo(l, s'.calls, s.calls, |s.calls|, key, TurnedAway);
    TallyUpTo(l, s'.calls, s.calls, |s.calls|, key, WavedIn);
  }

  lemma {:induction false} LossesUpTo(l: Limits, lost: seq<Loss>, more: Loss, n: nat, key: Counter)
    requires n <= |lost|
    ensures Losses(lost + [more], n, key) == Losses(lost, n, key)
    ensures LetIn(l, lost + [more], n, key) == LetIn(l, lost, n, key)
    ensures CountedBefore(lost + [more], n, key) == CountedBefore(lost, n, key)
  {
    if n > 0 {
      LossesUpTo(l, lost, more, n - 1, key);
    }
  }

  lemma EvictKeeps(l: Limits, s: State, lost: Counter, key: Counter)
    requires Positive(l) && lost in s.cache && Counts(l, s, key) && Unbroken(l, s, key)
    ensures var s' := Do(l, s, Evict(lost)); Counts(l, s', key) && Unbroken(l, s', key)
  {
    LossesUpTo(l, s.lost, Loss(lost, s.cache[lost]), |s.lost|, key);
  }

  /** A call on another counter is no business of this one's. */
  lemma OtherProceedKeeps(l: Limits, s: State, i: nat, key: Counter)
    requires Positive(l) && Enabled(s, Proceed(i)) && CounterFor(l, s.calls[i]) != key
    requires Counts(l, s, key) && Unbroken(l, s, key)
    ensures var s' := Do(l, s, Proceed(i)); Counts(l, s', key) && Unbroken(l, s', key)
  {
    var s' := Do(l, s, Proceed(i));
    TallyWith(l, s.calls, i, s'.calls[i], |s.calls|, key, CountedIn);
    TallyWith(l, s.calls, i, s'.calls[i], |s.calls|, key, TurnedAway);
    TallyWith(l, s.calls, i, s'.calls[i], |s.calls|, key, WavedIn);
    assert (key in s'.cache <==> key in s.cache) && Count(s'.cache, key) == Count(s.cache, key);
  }

  lemma ProceedKeepsCounts(l: Limits, s: State, i: nat)
    requires Positive(l) && Enabled(s, Proceed(i)) && Counts(l, s, CounterFor(l, s.calls[i]))
    ensures Counts(l, Do(l, s, Proceed(i)), CounterFor(l, s.calls[i]))
  {
    var key := CounterFor(l, s.calls[i]);
    var s' := Do(l, s, Proceed(i));
    TallyWith(l, s.calls, i, s'.calls[i], |s.calls|, key, CountedIn);
    TallyWith(l, s.calls, i, s'.calls[i], |s.calls|, key, TurnedAway);
  }

  lemma ProceedKeepsUnbroken(l: Limits, s: State, i: nat)
    requires Positive(l) && Enabled(s, Proceed(i)) && Unbroken(l, s, CounterFor(l, s.calls[i]))
    ensures Unbroken(l, Do(l, s, Proceed(i)), CounterFor(l, s.calls[i]))
  {
    var s' := Do(l, s, Proceed(i));
    TallyWith(l, s.calls, i, s'.calls[i], |s.calls|, CounterFor(l, s.calls[i]), WavedIn);
  }

  lemma MoveKeeps(l: Limits, s: State, m: Move, key: Counter)
    requires Positive(l) && Enabled(s, m) && Counts(l, s, key) && Unbroken(l, s, key)
    ensures Counts(l, Do(l, s, m), key) && Unbroken(l, Do(l, s, m), key)
  {
    match m {
      case Arrive(client, now) => ArriveKeeps(l, s, client, now, key);
      case Evict(lost) => EvictKeeps(l, s, lost, key);
      case Proceed(i) =>
        if CounterFor(l, s.calls[i]) == key {
          ProceedKeepsCounts(l, s, i);
          ProceedKeepsUnbroken(l, s, i);
        } else {
          OtherProceedKeeps(l, s, i, key);
        }
    }
  }

  lemma {:induction false} EveryRunKeeps(l: Limits, moves: seq<Move>, n: nat, key: Counter)
    requires Positive(l) && n <= |moves| && Run(l, moves, n).Some?
    ensures var s := Run(l, moves, n).value; Counts(l, s, key) && Unbroken(l, s, key)
  {
    if n > 0 {
      EveryRunKeeps(l, moves, n - 1, key);
      MoveKeeps(l, Run(l, moves, n - 1).value, moves[n - 1], key);
    }
  }

  lemma {:induction false} RefusalsAreTold(l: Limits, moves: seq<Move>, n: nat)
    requires Positive(l) && n <= |moves| && Run(l, moves, n).Some?
    ensures Told(l, Run(l, moves, n).value)
  {
    if n > 0 {
      RefusalsAreTold(l, moves, n - 1);
    }
  }

  /** Every call refused in any run is told to come back at the first second of the window after its own. */
  lemma EveryRefusalPointsAhead(l: Limits, moves: seq<Move>, i: nat)
    requires Positive(l) && Run(l, moves, |moves|).Some?
    requires i < |Run(l, moves, |moves|).value.calls| && Run(l, moves, |moves|).value.calls[i].phase.Refused?
    ensures var c := Run(l, moves, |moves|).value.calls[i];
            && 1 <= c.phase.retryAfter <= l.window
            && c.now + c.phase.retryAfter == (BucketOf(l, c.now) + 1) * l.window
  {
    RefusalsAreTold(l, moves, |moves|);
    RefusalPointsAtTheNextWindow(l, Run(l, moves, |moves|).value.calls[i].now);
  }

  /** A call nothing comes between does to the cache, and is told, what `Consume` says. */
  lemma UndisturbedIsConsume(l: Limits, s: State, client: string, now: int)
    requires Positive(l)
    ensures var key := CounterOf(l, client, now);
            var count := Count(s.cache, key) + 1;
            var i := |s.calls|;
            var added := Do(l, Do(l, s, Arrive(client, now)), Proceed(i));
            var done := if added.calls[i].phase.Counting? then Do(l, added, Proceed(i)) else added;
            && done.cache == s.cache[key := count]
            && done.calls[i].phase == (if count <= l.maxRuns then Admitted(true) else Refused(RetryAfter(l, now)))
  {
  }

  // ---- The limit --------------------------------------------------------------------------------------------------

  function Admissions(l: Limits, s: State, key: Counter): nat
    requires Positive(l)
  {
    In(l, s, key, CountedIn) + In(l, s, key, WavedIn)
  }

  /**
   However calls interleave and however often the entry is lost: lifetime by lifetime, the counter lets in
   exactly the first `maxRuns` of the calls it counts. Besides those there are only the calls that found the
   entry gone between their two operations, and back again.
   */
  lemma EachLifetimeAdmitsItsLimit(l: Limits, moves: seq<Move>, key: Counter)
    requires Positive(l) && Run(l, moves, |moves|).Some?
    ensures var s := Run(l, moves, |moves|).value;
            && Admissions(l, s, key)
                == LetIn(l, s.lost, |s.lost|, key) + Min(Count(s.cache, key), l.maxRuns) + In(l, s, key, WavedIn)
            && In(l, s, key, CountedIn) + In(l, s, key, TurnedAway)
                == CountedBefore(s.lost, |s.lost|, key) + Count(s.cache, key)
  {
    EveryRunKeeps(l, moves, |moves|, key);
  }

  lemma OneLifetimeMore(max: nat, lost: nat)
    ensures max * (lost + 1) == max * lost + max
  {
  }

  lemma {:induction false} LetInAtMost(l: Limits, lost: seq<Loss>, n: nat, key: Counter)
    requires n <= |lost|
    ensures LetIn(l, lost, n, key) <= l.maxRuns * Losses(lost, n, key)
  {
    if n > 0 {
      LetInAtMost(l, lost, n - 1, key);
      OneLifetimeMore(l.maxRuns, Losses(lost, n - 1, key));
    }
  }

  /** At most the limit for every lifetime of the entry, those calls aside. */
  lemma AdmissionsAreBounded(l: Limits, moves: seq<Move>, key: Counter)
    requires Positive(l) && Run(l, moves, |moves|).Some?
    ensures var s := Run(l, moves, |moves|).value;
            Admissions(l, s, key) <= l.maxRuns * (Lost(s, key) + 1) + In(l, s, key, WavedIn)
  {
    EachLifetimeAdmitsItsLimit(l, moves, key);
    var s := Run(l, moves, |moves|).value;
    LetInAtMost(l, s.lost, |s.lost|, key);
    OneLifetimeMore(l.maxRuns, Lost(s, key));
  }

  lemma {:induction false} NothingLetInWithoutALoss(l: Limits, lost: seq<Loss>, n: nat, key: Counter)
    requires n <= |lost| && Losses(lost, n, key) == 0
    ensures LetIn(l, lost, n, key) == 0 && CountedBefore(lost, n, key) == 0
  {
    if n > 0 {
      NothingLetInWithoutALoss(l, lost, n - 1, key);
    }
  }

  /**
   However calls interleave, while its entry is not lost a counter lets in exactly the first `maxRuns` decided on it.
   */
  lemma AWindowAdmitsItsLimit(l: Limits, moves: seq<Move>, key: Counter)
    requires Positive(l) && Run(l, moves, |moves|).Some? && Lost(Run(l, moves, |moves|).value, key) == 0
    ensures var s := Run(l, moves, |moves|).value;
            Admissions(l, s, key) == Min(Admissions(l, s, key) + In(l, s, key, TurnedAway), l.maxRuns)
  {
    EveryRunKeeps(l, moves, |moves|, key);
    var s := Run(l, moves, |moves|).value;
    NothingLetInWithoutALoss(l, s.lost, |s.lost|, key);
  }

  /** The admissions of one client to calls made in a span of one window's length from `from` on. */
  function AdmittedSince(l: Limits, calls: seq<Call>, n: nat, client: string, from: int): nat
    requires n <= |calls|
  {
    if n == 0 then 0
    else
      AdmittedSince(l, calls, n - 1, client, from) +
      var c := calls[n - 1];
      if c.client == client && from <= c.now < from + l.window && c.phase.Admitted? then 1 else 0
  }

  /** A span as long as a window touches two windows at the most. */
  lemma SpanTouchesTwo(l: Limits, from: int, now: int)
    requires Positive(l) && from <= now < from + l.window
    ensures BucketOf(l, now) in {BucketOf(l, from), BucketOf(l, from) + 1}
  {
    var b := BucketOf(l, from);
    BucketBounds(l, from);
    assert (b + 1) * l.window == b * l.window + l.window && (b + 2) * l.window == (b + 1) * l.window + l.window;
    BucketIs(l, now, if now < (b + 1) * l.window then b else b + 1);
  }

  lemma {:induction false} SpanIsInTwo(l: Limits, calls: seq<Call>, n: nat, client: string, from: int)
    requires Positive(l) && n <= |calls|
    ensures var b := BucketOf(l, from);
            AdmittedSince(l, calls, n, client, from)
            <= Tally(l, calls, n, Counter(client, b), CountedIn) + Tally(l, calls, n, Counter(client, b), WavedIn)
               + Tally(l, calls, n, Counter(client, b + 1), CountedIn)
                   + Tally(l, calls, n, Counter(client, b + 1), WavedIn)
  {
    if n > 0 {
      SpanIsInTwo(l, calls, n - 1, client, from);
      var c := calls[n - 1];
      if c.client == client && from <= c.now < from + l.window {
        SpanTouchesTwo(l, from, c.now);
      }
    }
  }

  /** Over any stretch as long as a window, wherever it starts, a client is let in at most twice the limit. */
  lemma AnySpanAdmitsAtMostTwice(l: Limits, moves: seq<Move>, client: string, from: int)
    requires Positive(l) && Run(l, moves, |moves|).Some?
    requires var s := Run(l, moves, |moves|).value;
             var b := BucketOf(l, from);
             Lost(s, Counter(client, b)) == 0 && Lost(s, Counter(client, b + 1)) == 0
    ensures var s := Run(l, moves, |moves|).value;
            AdmittedSince(l, s.calls, |s.calls|, client, from) <= 2 * l.maxRuns
  {
    var s := Run(l, moves, |moves|).value;
    var b := BucketOf(l, from);
    AWindowAdmitsItsLimit(l, moves, Counter(client, b));
    AWindowAdmitsItsLimit(l, moves, Counter(client, b + 1));
    SpanIsInTwo(l, s.calls, |s.calls|, client, from);
  }

  // ---- Every loss may let the limit in again ----------------------------------------------------------------------

  lemma OneMore(l: Limits, moves: seq<Move>, m: Move, s: State)
    requires Positive(l) && Run(l, moves, |moves|) == Some(s) && Enabled(s, m)
    ensures Run(l, moves + [m], |moves| + 1) == Some(Do(l, s, m))
  {
    RunUpTo(l, moves, m, |moves|);
  }

  lemma {:induction false} RunUpTo(l: Limits, moves: seq<Move>, m: Move, n: nat)
    requires Positive(l) && n <= |moves|
    ensures Run(l, moves + [m], n) == Run(l, moves, n)
  {
    if n > 0 {
      RunUpTo(l, moves, m, n - 1);
    }
  }

  /** The counter of one client in the window that time 0 is in. */
  function FirstWindow(client: string): Counter {
    Counter(client, 0)
  }

  /**
   A run in which only `client` calls, at time 0, with nobody between, and each call so far was let in and counted.
   */
  ghost predicate AllIn(l: Limits, moves: seq<Move>, s: State, client: string, losses: nat, count: nat)
    requires Positive(l)
  {
    && Run(l, moves, |moves|) == Some(s)
    && Lost(s, FirstWindow(client)) == losses
    && Count(s.cache, FirstWindow(client)) == count && (FirstWindow(client) in s.cache <==> count > 0)
    && Admissions(l, s, FirstWindow(client)) == l.maxRuns * losses + count
  }

  lemma AtTimeZero(l: Limits, client: string)
    requires Positive(l)
    ensures CounterOf(l, client, 0) == FirstWindow(client)
  {
    BucketIs(l, 0, 0);
  }

  lemma OneCallMore(l: Limits, s: State, s': State, client: string)
    requires Positive(l) && |s'.calls| == |s.calls| + 1 && forall k :: 0 <= k < |s.calls| ==> s'.calls[k] == s.calls[k]
    requires s'.calls[|s.calls|] == Call(client, 0, Admitted(true))
    ensures Admissions(l, s', FirstWindow(client)) == Admissions(l, s, FirstWindow(client)) + 1
  {
    AtTimeZero(l, client);
    TallyUpTo(l, s'.calls, s.calls, |s.calls|, FirstWindow(client), CountedIn);
    TallyUpTo(l, s'.calls, s.calls, |s.calls|, FirstWindow(client), WavedIn);
  }

  /** `s'` is `s` with one more call of `client` let in and counted. */
  ghost predicate OneMoreCounted(s: State, s': State, client: string) {
    var key := FirstWindow(client);
    && |s'.calls| == |s.calls| + 1 && (forall k :: 0 <= k < |s.calls| ==> s'.calls[k] == s.calls[k])
    && s'.calls[|s.calls|] == Call(client, 0, Admitted(true))
    && s'.lost == s.lost && s'.cache == s.cache[key := Count(s.cache, key) + 1]
  }

  /** A call arrives and makes its first operation. */
  function FirstOperation(l: Limits, s: State, client: string): State
    requires Positive(l)
  {
    Do(l, Do(l, s, Arrive(client, 0)), Proceed(|s.calls|))
  }

  lemma FirstCallIsIn(l: Limits, s: State, client: string)
    requires Positive(l) && FirstWindow(client) !in s.cache
    ensures OneMoreCounted(s, FirstOperation(l, s, client), client)
  {
    AtTimeZero(l, client);
  }

  lemma AddedMeetsTheEntry(l: Limits, s: State, client: string)
    requires Positive(l) && FirstWindow(client) in s.cache
    ensures var added := FirstOperation(l, s, client);
            && Enabled(added, Proceed(|s.calls|)) && added.lost == s.lost && added.cache == s.cache
            && |added.calls| == |s.calls| + 1 && (forall k :: 0 <= k < |s.calls| ==> added.calls[k] == s.calls[k])
            && added.calls[|s.calls|] == Call(client, 0, Counting)
  {
    AtTimeZero(l, client);
  }

  lemma LaterCallIsIn(l: Limits, s: State, client: string)
    requires Positive(l) && FirstWindow(client) in s.cache && Count(s.cache, FirstWindow(client)) < l.maxRuns
    ensures Enabled(FirstOperation(l, s, client), Proceed(|s.calls|))
    ensures OneMoreCounted(s, Do(l, FirstOperation(l, s, client), Proceed(|s.calls|)), client)
  {
    AtTimeZero(l, client);
    AddedMeetsTheEntry(l, s, client);
  }

  lemma CountedIsIn(l: Limits, moves: seq<Move>, s: State, more: seq<Move>, s': State, client: string, losses: nat,
                    count: nat)
    requires Positive(l) && AllIn(l, moves, s, client, losses, count) && OneMoreCounted(s, s', client)
    requires Run(l, more, |more|) == Some(s')
    ensures AllIn(l, more, s', client, losses, count + 1)
  {
    OneCallMore(l, s, s', client);
  }

  lemma RunAdds(l: Limits, moves: seq<Move>, s: State, client: string) returns (more: seq<Move>)
    requires Positive(l) && Run(l, moves, |moves|) == Some(s)
    ensures Run(l, more, |more|) == Some(FirstOperation(l, s, client))
  {
    OneMore(l, moves, Arrive(client, 0), s);
    more := moves + [Arrive(client, 0)];
    OneMore(l, more, Proceed(|s.calls|), Do(l, s, Arrive(client, 0)));
    more := more + [Proceed(|s.calls|)];
  }

  /** One call more, undisturbed, where the window has room for it. */
  lemma OneMoreIn(l: Limits, moves: seq<Move>, s: State, client: string, losses: nat, count: nat)
    returns (more: seq<Move>, s': State)
    requires Positive(l) && AllIn(l, moves, s, client, losses, count) && count < l.maxRuns
    ensures AllIn(l, more, s', client, losses, count + 1)
  {
    more := RunAdds(l, moves, s, client);
    s' := FirstOperation(l, s, client);
    if count == 0 {
      FirstCallIsIn(l, s, client);
    } else {
      LaterCallIsIn(l, s, client);
      OneMore(l, more, Proceed(|s.calls|), s');
      more, s' := more + [Proceed(|s.calls|)], Do(l, s', Proceed(|s.calls|));
    }
    CountedIsIn(l, moves, s, more, s', client, losses, count);
  }

  lemma {:induction false} FillTheWindow(l: Limits, moves: seq<Move>, s: State, client: string, losses: nat, n: nat)
    returns (more: seq<Move>, s': State)
    requires Positive(l) && AllIn(l, moves, s, client, losses, 0) && n <= l.maxRuns
    ensures AllIn(l, more, s', client, losses, n)
  {
    if n == 0 {
      more, s' := moves, s;
    } else {
      more, s' := FillTheWindow(l, moves, s, client, losses, n - 1);
      more, s' := OneMoreIn(l, more, s', client, losses, n - 1);
    }
  }

  lemma LoseAFullWindow(l: Limits, moves: seq<Move>, s: State, client: string, losses: nat)
    returns (more: seq<Move>, s': State)
    requires Positive(l) && AllIn(l, moves, s, client, losses, l.maxRuns)
    ensures AllIn(l, more, s', client, losses + 1, 0)
  {
    var key := FirstWindow(client);
    OneMore(l, moves, Evict(key), s);
    more, s' := moves + [Evict(key)], Do(l, s, Evict(key));
    LossesUpTo(l, s.lost, Loss(key, s.cache[key]), |s.lost|, key);
    OneLifetimeMore(l.maxRuns, losses);
  }

  lemma {:induction false} FillAgain(l: Limits, client: string, losses: nat) returns (moves: seq<Move>, s: State)
    requires Positive(l)
    ensures AllIn(l, moves, s, client, losses, l.maxRuns)
  {
    if losses == 0 {
      moves, s := FillTheWindow(l, [], State(map[], [], []), client, 0, l.maxRuns);
    } else {
      moves, s := FillAgain(l, client, losses - 1);
      moves, s := LoseAFullWindow(l, moves, s, client, losses - 1);
      moves, s := FillTheWindow(l, moves, s, client, losses, l.maxRuns);
    }
  }

  /**
   The bound is met, whatever the limits: for any number of losses there is a run with just so many, in one
   window and with no call between another's two operations, that lets in the limit once more for each.
   */
  lemma EveryLossLetsTheLimitInAgain(l: Limits, client: string, losses: nat) returns (moves: seq<Move>)
    requires Positive(l)
    ensures Run(l, moves, |moves|).Some?
    ensures var s := Run(l, moves, |moves|).value;
            Lost(s, FirstWindow(client)) == losses && Admissions(l, s, FirstWindow(client)) == l.maxRuns * (losses + 1)
  {
    var s;
    moves, s := FillAgain(l, client, losses);
    OneLifetimeMore(l.maxRuns, losses);
  }

  /** So for no limit does it hold once an entry may be lost: one loss, and the very next call is one too many. */
  lemma ALostEntryBreaksTheLimit(l: Limits, client: string) returns (moves: seq<Move>)
    requires Positive(l)
    ensures Run(l, moves, |moves|).Some?
    ensures var s := Run(l, moves, |moves|).value;
            Lost(s, FirstWindow(client)) == 1 && Admissions(l, s, FirstWindow(client)) == l.maxRuns + 1
  {
    var s;
    moves, s := FillAgain(l, client, 0);
    moves, s := LoseAFullWindow(l, moves, s, client, 0);
    moves, s := OneMoreIn(l, moves, s, client, 1, 0);
  }
}
