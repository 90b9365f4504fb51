/** Stored copies of server-made messages, without the file bytes they inline. */
module StripBinaryContent {
  import opened Messages

  predicate IsInlineBinary(part: Part) {
    part.MediaPart? && part.source.Inline?
  }

  /** The first `n` parts that are not inline bytes. */
  function KeptParts(parts: seq<Part>, n: nat): (kept: seq<Part>)
    requires n <= |parts|
    ensures |kept| <= n
    ensures forall k :: 0 <= k < |kept| ==> !IsInlineBinary(kept[k])
  {
    if n == 0 then []
    else if IsInlineBinary(parts[n - 1]) then KeptParts(parts, n - 1)
    else KeptParts(parts, n - 1) + [parts[n - 1]]
  }

  predicate HasParts(m: Message) {
    m.User? && m.body.Parts?
  }

  /** A message left with no content at all is not stored. */
  function StrippedMessage(m: Message): Option<Message> {
    if !HasParts(m) then Some(m)
    else
      var kept := KeptParts(m.body.parts, |m.body.parts|);
      if kept == [] then None else Some(m.(body := Parts(kept)))
  }

  function WithStored(kept: seq<Message>, stored: Option<Message>): seq<Message> {
    match stored
    case Some(m) => kept + [m]
    case None => kept
  }

  /** The first `n` messages, stripped. */
  function Stripped(messages: seq<Message>, n: nat): seq<Message>
    requires n <= |messages|
  {
    if n == 0 then [] else WithStored(Stripped(messages, n - 1), StrippedMessage(messages[n - 1]))
  }

  method Strip(messages: seq<Message>) returns (kept: seq<Message>)
    ensures kept == Stripped(messages, |messages|)
  {
    kept := [];
    for n := 0 to |messages|
      invariant kept == Stripped(messages, n)
    {
      var m := messages[n];
      if !HasParts(m) {
        kept := kept + [m];
      } else {
        var parts := StripParts(m.body.parts);
        NothingToStrip(m.body.parts, |m.body.parts|);
        assert m.body.parts[..|m.body.parts|] == m.body.parts;
        if parts != [] {
          kept := kept + [if |parts| == |m.body.parts| then m else m.(body := Parts(parts))];
        }
      }
    }
  }

  method StripParts(content: seq<Part>) returns (parts: seq<Part>)
    ensures parts == KeptParts(content, |content|)
  {
    parts := [];
    for k := 0 to |content|
      invariant parts == KeptParts(content, k)
    {
      if !IsInlineBinary(content[k]) {
        parts := parts + [content[k]];
      }
    }
  }

  lemma {:induction false} NothingToStrip(parts: seq<Part>, n: nat)
    requires n <= |parts|
    ensures |KeptParts(parts, n)| == n <==> forall k :: 0 <= k < n ==> !IsInlineBinary(parts[k])
    ensures |KeptParts(parts, n)| == n ==> KeptParts(parts, n) == parts[..n]
  {
    if n > 0 {
      NothingToStrip(parts, n - 1);
    }
  }

  ghost predicate NoInlineBytes(m: Message) {
    m.User? && m.body.Parts? ==>
      forall k :: 0 <= k < |m.body.parts| ==> !(m.body.parts[k].MediaPart? && m.body.parts[k].source.Inline?)
  }

  lemma {:induction false} OnlyBytes(parts: seq<Part>, n: nat)
    requires n <= |parts|
    ensures KeptParts(parts, n) == [] <==> forall k :: 0 <= k < n ==> IsInlineBinary(parts[k])
  {
    if n > 0 {
      OnlyBytes(parts, n - 1);
    }
  }

  /** `f` says where each of `kept` stood among the first `n` parts: in order, and none missing but inline bytes. */
  ghost predicate PartsAt(parts: seq<Part>, n: nat, kept: seq<Part>, f: seq<nat>)
    requires n <= |parts|
  {
    && |f| == |kept|
    && (forall k :: 0 <= k < |f| ==> f[k] < n && parts[f[k]] == kept[k])
    && (forall k :: 0 <= k < |f| - 1 ==> f[k] < f[k + 1])
    && (forall i: nat :: i < n ==> (i in f <==> !(parts[i].MediaPart? && parts[i].source.Inline?)))
  }

  lemma InOneMore(f: seq<nat>, n: nat, i: nat)
    ensures i in f + [n] <==> i in f || i == n
  {
  }

  lemma NotYetIn(f: seq<nat>, n: nat)
    requires forall k :: 0 <= k < |f| ==> f[k] < n
    ensures n !in f
  {
  }

  lemma OneMorePart(parts: seq<Part>, n: nat, kept: seq<Part>, f: seq<nat>)
    requires n < |parts| && PartsAt(parts, n, kept, f)
    ensures IsInlineBinary(parts[n]) ==> PartsAt(parts, n + 1, kept, f)
    ensures !IsInlineBinary(parts[n]) ==> PartsAt(parts, n + 1, kept + [parts[n]], f + [n])
  {
    NotYetIn(f, n);
    forall i: nat | i < n + 1 ensures i in f + [n] <==> i in f || i == n {
      InOneMore(f, n, i);
    }
  }

  lemma KeptPartsOneMore(parts: seq<Part>, n: nat, f: seq<nat>) returns (g: seq<nat>)
    requires n < |parts| && PartsAt(parts, n, KeptParts(parts, n), f)
    ensures PartsAt(parts, n + 1, KeptParts(parts, n + 1), g)
  {
    OneMorePart(parts, n, KeptParts(parts, n), f);
    g := if IsInlineBinary(parts[n]) then f else f + [n];
  }

  /** What is kept of a list of parts is the parts that are not inline bytes: each of them, as it was, in order. */
  lemma {:induction false} KeptPartsAreASublist(parts: seq<Part>, n: nat) returns (f: seq<nat>)
    requires n <= |parts|
    ensures PartsAt(parts, n, KeptParts(parts, n), f)
  {
    if n == 0 {
      f := [];
    } else {
      f := KeptPartsAreASublist(parts, n - 1);
      f := KeptPartsOneMore(parts, n - 1, f);
    }
  }

  lemma StrippingParts(parts: seq<Part>) returns (f: seq<nat>)
    ensures var kept := KeptParts(parts, |parts|);
            && PartsAt(parts, |parts|, kept, f)
            && (kept == [] <==> forall k :: 0 <= k < |parts| ==> IsInlineBinary(parts[k]))
            && ((forall k :: 0 <= k < |parts| ==> !IsInlineBinary(parts[k])) ==> kept == parts)
            && KeptParts(kept, |kept|) == kept
  {
    f := KeptPartsAreASublist(parts, |parts|);
    NothingToStrip(parts, |parts|);
    OnlyBytes(parts, |parts|);
    assert parts[..|parts|] == parts;
    var kept := KeptParts(parts, |parts|);
    NothingToStrip(kept, |kept|);
    assert kept[..|kept|] == kept;
  }

  lemma StoredStaysStored(m: Message)
    requires HasParts(m) && StrippedMessage(m).Some?
    ensures StrippedMessage(StrippedMessage(m).value) == StrippedMessage(m)
  {
    var f := StrippingParts(m.body.parts);
  }

  /**
   A message is dropped exactly when it was a list of nothing but inline bytes. What is stored of any other is
   the message with its inline bytes taken out and nothing else: every other part is there, in order, and a
   message that had none is itself.
   */
  lemma StrippingAMessage(m: Message) returns (f: seq<nat>)
    ensures StrippedMessage(m).None? <==>
            m.User? && m.body.Parts? && forall k :: 0 <= k < |m.body.parts| ==>
              m.body.parts[k].MediaPart? && m.body.parts[k].source.Inline?
    ensures StrippedMessage(m).Some? ==>
              var stored := StrippedMessage(m).value;
              && stored.id == m.id && NoInlineBytes(stored)
              && (if m.User? && m.body.Parts?
                  then stored.User? && stored.body.Parts? && stored.body.parts != []
                       && PartsAt(m.body.parts, |m.body.parts|, stored.body.parts, f)
                  else stored == m)
              && (NoInlineBytes(m) ==> stored == m)
              && StrippedMessage(stored) == Some(stored)
  {
    f := [];
    if HasParts(m) {
      f := StrippingParts(m.body.parts);
      if StrippedMessage(m).Some? {
        StoredStaysStored(m);
      }
    }
  }

  predicate StoredAs(m: Message, stored: Option<Message>) {
    StrippedMessage(m) == stored
  }

  /** `f` says where each of `kept` stood among the first `n` messages: in order, none missing but the dropped. */
  ghost predicate KeptAt(messages: seq<Message>, n: nat, kept: seq<Message>, f: seq<nat>)
    requires n <= |messages|
  {
    && |f| == |kept|
    && (forall k :: 0 <= k < |f| ==> f[k] < n && StoredAs(messages[f[k]], Some(kept[k])))
    && (forall k :: 0 <= k < |f| - 1 ==> f[k] < f[k + 1])
    && (forall i: nat :: i < n ==> (i in f <==> !StoredAs(messages[i], None)))
  }

  lemma KeptWithout(messages: seq<Message>, n: nat, kept: seq<Message>, f: seq<nat>)
    requires n < |messages| && KeptAt(messages, n, kept, f) && StoredAs(messages[n], None)
    ensures KeptAt(messages, n + 1, kept, f)
  {
    NotYetIn(f, n);
  }

  lemma KeptWith(messages: seq<Message>, n: nat, kept: seq<Message>, f: seq<nat>, m: Message)
    requires n < |messages| && KeptAt(messages, n, kept, f) && StoredAs(messages[n], Some(m))
    ensures KeptAt(messages, n + 1, kept + [m], f + [n])
  {
    NotYetIn(f, n);
    forall i: nat | i < n + 1 ensures i in f + [n] <==> !StoredAs(messages[i], None) {
      InOneMore(f, n, i);
    }
  }

  lemma KeptOneMore(messages: seq<Message>, n: nat, f: seq<nat>) returns (g: seq<nat>)
    requires 0 < n <= |messages| && KeptAt(messages, n - 1, Stripped(messages, n - 1), f)
    ensures KeptAt(messages, n, Stripped(messages, n), g)
  {
    var before := Stripped(messages, n - 1);
    match StrippedMessage(messages[n - 1]) {
      case None =>
        g := f;
        KeptWithout(messages, n - 1, before, f);
      case Some(m) =>
        g := f + [n - 1];
        KeptWith(messages, n - 1, before, f, m);
    }
  }

  lemma NothingKept(messages: seq<Message>)
    ensures KeptAt(messages, 0, Stripped(messages, 0), [])
  {
  }

  lemma {:induction false} StrippingIsASublist(messages: seq<Message>, n: nat) returns (f: seq<nat>)
    requires n <= |messages|
    ensures KeptAt(messages, n, Stripped(messages, n), f)
  {
    if n == 0 {
      f := [];
      NothingKept(messages);
    } else {
      f := StrippingIsASublist(messages, n - 1);
      f := KeptOneMore(messages, n, f);
    }
  }

  /** A row saved stripped reads the same when it is stripped again. */
  lemma {:induction false} StrippingTwiceIsStrippingOnce(messages: seq<Message>, n: nat, stored: seq<Message>, m: nat)
    requires n <= |messages| && stored == Stripped(messages, n) && m <= |stored|
    ensures Stripped(stored, m) == stored[..m]
  {
    if m > 0 {
      StrippingTwiceIsStrippingOnce(messages, n, stored, m - 1);
      var f := StrippingIsASublist(messages, n);
      var g := StrippingAMessage(messages[f[m - 1]]);
    }
  }
}
