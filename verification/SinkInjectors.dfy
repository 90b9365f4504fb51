/**
 The two list-sink injectors: what the run records into a per-run list is emptied in place each time
 upstream gets somewhere, and once more when it is over.
 */
module SinkInjectors {

  /** What upstream produced, after what was recorded since the last drain. */
  datatype Turn<T, E> = Turn(recorded: seq<T>, event: E)

  datatype Out<T, E> = Forwarded(event: E) | Injected(item: T)

  class Sink<T> {
    var items: seq<T>

    constructor ()
      ensures items == []
    {
      items := [];
    }

    method Record(more: seq<T>)
      modifies this
      ensures items == old(items) + more
    {
      items := items + more;
    }

    /** Everything recorded so far, leaving the sink empty. */
    method Drain() returns (recorded: seq<T>)
      modifies this
      ensures recorded == old(items) && items == []
    {
      recorded, items := items, [];
    }
  }

  function Wrapped<T, E>(items: seq<T>, n: nat): seq<Out<T, E>>
    requires n <= |items|
  {
    if n == 0 then [] else Wrapped(items, n - 1) + [Injected(items[n - 1])]
  }

  function Interleaved<T, E>(turns: seq<Turn<T, E>>, n: nat): seq<Out<T, E>>
    requires n <= |turns|
  {
    if n == 0 then []
    else
      Interleaved(turns, n - 1) + Wrapped(turns[n - 1].recorded, |turns[n - 1].recorded|)
      + [Forwarded(turns[n - 1].event)]
  }

  method YieldAll<T, E>(before: seq<Out<T, E>>, recorded: seq<T>) returns (out: seq<Out<T, E>>)
    ensures out == before + Wrapped(recorded, |recorded|)
  {
    out := before;
    for k := 0 to |recorded|
      invariant out == before + Wrapped(recorded, k)
    {
      out := out + [Injected(recorded[k])];
    }
  }

  /** One generator's whole run: upstream's turns, and what was recorded after its last event. */
  method InjectRecorded<T, E>(turns: seq<Turn<T, E>>, last: seq<T>) returns (out: seq<Out<T, E>>)
    ensures out == Sent(turns, last)
  {
    var sink := new Sink<T>();
    out := [];
    for n := 0 to |turns|
      invariant out == Interleaved(turns, n) && sink.items == []
    {
      sink.Record(turns[n].recorded);
      assert sink.items == turns[n].recorded;
      var recorded := sink.Drain();
      out := YieldAll(out, recorded);
      out := out + [Forwarded(turns[n].event)];
    }
    sink.Record(last);
    assert sink.items == last;
    var recorded := sink.Drain();
    out := YieldAll(out, recorded);
  }

  // ---- What a client is owed ------------------------------------------------------------------------

  function EventsOf<T, E>(out: seq<Out<T, E>>): seq<E> {
    if out == [] then []
    else EventsOf(out[..|out| - 1]) + match out[|out| - 1] case Forwarded(event) => [event] case Injected(_) => []
  }

  function ItemsOf<T, E>(out: seq<Out<T, E>>): seq<T> {
    if out == [] then []
    else ItemsOf(out[..|out| - 1]) + match out[|out| - 1] case Forwarded(_) => [] case Injected(item) => [item]
  }

  function Produced<T, E>(turns: seq<Turn<T, E>>, n: nat): seq<E>
    requires n <= |turns|
  {
    if n == 0 then [] else Produced(turns, n - 1) + [turns[n - 1].event]
  }

  function Recorded<T, E>(turns: seq<Turn<T, E>>, n: nat): seq<T>
    requires n <= |turns|
  {
    if n == 0 then [] else Recorded(turns, n - 1) + turns[n - 1].recorded
  }

  lemma OneMoreOut<T, E>(out: seq<Out<T, E>>, one: Out<T, E>)
    ensures EventsOf(out + [one]) == EventsOf(out) + if one.Forwarded? then [one.event] else []
    ensures ItemsOf(out + [one]) == ItemsOf(out) + if one.Injected? then [one.item] else []
  {
    assert (out + [one])[..|out|] == out;
  }

  lemma WrappedOneMore<T, E>(out: seq<Out<T, E>>, items: seq<T>, n: nat)
    requires 0 < n <= |items|
    ensures out + Wrapped(items, n) == out + Wrapped(items, n - 1) + [Injected(items[n - 1])]
    ensures items[..n] == items[..n - 1] + [items[n - 1]]
  {
  }

  lemma {:induction false} WrappedHasNoEvent<T, E>(out: seq<Out<T, E>>, items: seq<T>, n: nat)
    requires n <= |items|
    ensures EventsOf(out + Wrapped(items, n)) == EventsOf(out)
  {
    if n == 0 {
      assert out + Wrapped(items, 0) == out;
    } else {
      WrappedHasNoEvent(out, items, n - 1);
      WrappedOneMore(out, items, n);
      OneMoreOut(out + Wrapped(items, n - 1), Injected(items[n - 1]));
    }
  }

  lemma {:induction false} WrappedHasTheItems<T, E>(out: seq<Out<T, E>>, items: seq<T>, n: nat)
    requires n <= |items|
    ensures ItemsOf(out + Wrapped(items, n)) == ItemsOf(out) + items[..n]
  {
    if n == 0 {
      assert out + Wrapped(items, 0) == out;
    } else {
      WrappedHasTheItems(out, items, n - 1);
      WrappedOneMore(out, items, n);
      OneMoreOut(out + Wrapped(items, n - 1), Injected(items[n - 1]));
    }
  }

  lemma WrappedAfter<T, E>(out: seq<Out<T, E>>, items: seq<T>)
    ensures EventsOf(out + Wrapped(items, |items|)) == EventsOf(out)
    ensures ItemsOf(out + Wrapped(items, |items|)) == ItemsOf(out) + items
  {
    WrappedHasNoEvent(out, items, |items|);
    WrappedHasTheItems(out, items, |items|);
    assert items[..|items|] == items;
  }

  lemma {:induction false} InterleavedKeepsBoth<T, E>(turns: seq<Turn<T, E>>, n: nat)
    requires n <= |turns|
    ensures EventsOf(Interleaved(turns, n)) == Produced(turns, n)
    ensures ItemsOf(Interleaved(turns, n)) == Recorded(turns, n)
  {
    if n > 0 {
      InterleavedKeepsBoth(turns, n - 1);
      var recorded := turns[n - 1].recorded;
      var before := Interleaved(turns, n - 1) + Wrapped(recorded, |recorded|);
      WrappedAfter(Interleaved(turns, n - 1), recorded);
      OneMoreOut(before, Forwarded(turns[n - 1].event));
    }
  }

  /** What a run of one generator sends. */
  function Sent<T, E>(turns: seq<Turn<T, E>>, last: seq<T>): seq<Out<T, E>> {
    Interleaved(turns, |turns|) + Wrapped(last, |last|)
  }

  /** Upstream's events reach the client in order, and everything recorded reaches it, in order. */
  lemma NothingLostNothingMoved<T, E>(turns: seq<Turn<T, E>>, last: seq<T>)
    ensures EventsOf(Sent(turns, last)) == Produced(turns, |turns|)
    ensures ItemsOf(Sent(turns, last)) == Recorded(turns, |turns|) + last
  {
    var before: seq<Out<T, E>> := Interleaved(turns, |turns|);
    InterleavedKeepsBoth(turns, |turns|);
    WrappedAfter(before, last);
  }

  // ---- Where everything stands ----------------------------------------------------------------------

  /** How much is sent before a turn: an event for each turn before it, and all that was recorded in them. */
  function SentBefore<T, E>(turns: seq<Turn<T, E>>, n: nat): nat
    requires n <= |turns|
  {
    n + |Recorded(turns, n)|
  }

  lemma {:induction false} WrappedAt<T, E>(items: seq<T>, n: nat)
    requires n <= |items|
    ensures var wrapped: seq<Out<T, E>> := Wrapped(items, n);
            |wrapped| == n && forall k :: 0 <= k < n ==> wrapped[k] == Injected(items[k])
  {
    if n > 0 {
      WrappedAt<T, E>(items, n - 1);
    }
  }

  lemma {:induction false} InterleavedLength<T, E>(turns: seq<Turn<T, E>>, n: nat)
    requires n <= |turns|
    ensures |Interleaved(turns, n)| == SentBefore(turns, n)
  {
    if n > 0 {
      InterleavedLength(turns, n - 1);
      WrappedAt<T, E>(turns[n - 1].recorded, |turns[n - 1].recorded|);
    }
  }

  lemma {:induction false} InterleavedGrows<T, E>(turns: seq<Turn<T, E>>, n: nat, m: nat)
    requires n <= m <= |turns|
    ensures Interleaved(turns, n) <= Interleaved(turns, m)
  {
    if n < m {
      InterleavedGrows(turns, n, m - 1);
    }
  }

  /**
   What was recorded before an event stands right before it, in order and after all that came before; what was
   recorded after the last event stands at the end, and nothing else is sent.
   */
  lemma EachStandsRightBefore<T, E>(turns: seq<Turn<T, E>>, last: seq<T>, n: nat)
    requires n <= |turns|
    ensures var at := SentBefore(turns, n);
            var recorded := if n < |turns| then turns[n].recorded else last;
            && at + |recorded| <= |Sent(turns, last)|
            && (forall k :: 0 <= k < |recorded| ==> Sent(turns, last)[at + k] == Injected(recorded[k]))
            && if n < |turns|
               then at + |recorded| < |Sent(turns, last)|
                    && Sent(turns, last)[at + |recorded|] == Forwarded(turns[n].event)
               else at + |recorded| == |Sent(turns, last)|
  {
    InterleavedLength(turns, |turns|);
    InterleavedLength(turns, n);
    WrappedAt<T, E>(last, |last|);
    if n < |turns| {
      var all, next := Interleaved(turns, |turns|), Interleaved(turns, n + 1);
      WrappedAt<T, E>(turns[n].recorded, |turns[n].recorded|);
      InterleavedGrows(turns, n + 1, |turns|);
      assert all[..|next|] == next;
      forall i | 0 <= i < |next| ensures Sent(turns, last)[i] == next[i] {
        assert all[..|next|][i] == all[i];
      }
    }
  }
}
