/**
 What a bounded read of a conversation returns: the messages it kept, and a continuation naming every stretch
 of the thread that may still hold readable ones.
 */
module ConversationContinuation {
  import opened Wrappers
  import opened MessageKeys
  import opened KeyedLists
  import opened Conversation
  import opened ConversationPaging

  datatype Gap = Gap(after: Boundary, before: Boundary)

  datatype Continuation = Continuation(before: Option<Boundary>, after: Option<Boundary>, gaps: seq<Gap>)

  /** Some index in the stretch is not known to be unreadable. */
  predicate Skips(unreadable: set<nat>, from: nat, to: nat) {
    exists i: nat :: from <= i < to && i !in unreadable
  }

  predicate Rising(thread: seq<Event>, indexes: seq<nat>) {
    IndexesInto(thread, indexes) && forall i, j :: 0 <= i < j < |indexes| ==> indexes[i] < indexes[j]
  }

  function GapsOf(thread: seq<Event>, kept: seq<nat>, unreadable: set<nat>): seq<Gap>
    requires IndexesInto(thread, kept)
  {
    if |kept| < 2 then []
    else if Skips(unreadable, kept[0] + 1, kept[1])
    then [Gap(BoundaryOf(thread[kept[0]]), BoundaryOf(thread[kept[1]]))] + GapsOf(thread, kept[1..], unreadable)
    else GapsOf(thread, kept[1..], unreadable)
  }

  function ContinuationOf(thread: seq<Event>, kept: seq<nat>, unreadable: set<nat>): Continuation
    requires IndexesInto(thread, kept)
  {
    if kept == [] then Continuation(None, None, [])
    else
      var first, last := kept[0], kept[|kept| - 1];
      Continuation(
        if Skips(unreadable, 0, first) then Some(BoundaryOf(thread[first])) else None,
        if Skips(unreadable, last + 1, |thread|) then Some(BoundaryOf(thread[last])) else None,
        GapsOf(thread, kept, unreadable))
  }

  // ----- operations

  method ReadableBetween(unreadable: set<nat>, from: nat, to: nat) returns (found: bool)
    ensures found <==> Skips(unreadable, from, to)
  {
    var index := from;
    while index < to
      invariant from <= index
      invariant forall i: nat :: from <= i < index && i < to ==> i in unreadable
    {
      if index !in unreadable { return true; }
      index := index + 1;
    }
    return false;
  }

  lemma {:induction false} GapsSnoc(thread: seq<Event>, kept: seq<nat>, unreadable: set<nat>, next: nat)
    requires IndexesInto(thread, kept) && kept != [] && next < |thread|
    ensures var last := kept[|kept| - 1];
            GapsOf(thread, kept + [next], unreadable) ==
            GapsOf(thread, kept, unreadable) +
            if Skips(unreadable, last + 1, next)
            then [Gap(BoundaryOf(thread[last]), BoundaryOf(thread[next]))] else []
    decreases |kept|
  {
    hide Skips, BoundaryOf;
    assert (kept + [next])[1..] == kept[1..] + [next];
    if |kept| > 1 { GapsSnoc(thread, kept[1..], unreadable, next); }
  }

  method ContextGaps(thread: seq<Event>, kept: seq<nat>, unreadable: set<nat>) returns (gaps: seq<Gap>)
    requires IndexesInto(thread, kept)
    ensures gaps == GapsOf(thread, kept, unreadable)
  {
    hide Skips, BoundaryOf, GapsOf;
    gaps := [];
    if |kept| < 2 {
      NoGap(thread, kept, unreadable);
      return;
    }
    NoGap(thread, kept[..1], unreadable);
    for index := 1 to |kept|
      invariant gaps == GapsOf(thread, kept[..index], unreadable)
    {
      var previous, current := kept[index - 1], kept[index];
      var skipped := ReadableBetween(unreadable, previous + 1, current);
      GapsSnoc(thread, kept[..index], unreadable, current);
      assert kept[..index + 1] == kept[..index] + [current];
      if skipped {
        gaps := gaps + [Gap(BoundaryOf(thread[previous]), BoundaryOf(thread[current]))];
      }
    }
    assert kept[..|kept|] == kept;
  }

  lemma NoGap(thread: seq<Event>, kept: seq<nat>, unreadable: set<nat>)
    requires IndexesInto(thread, kept) && |kept| < 2
    ensures GapsOf(thread, kept, unreadable) == []
  {
  }

  /** Reads the selected messages and says where the thread goes on around them. */
  method ReadSelected(blobs: Blobs, thread: seq<Event>, selected: seq<nat>)
    returns (messages: seq<Message>, continuation: Continuation)
    requires IndexesInto(thread, selected)
    ensures messages == Messages(blobs, thread, Pick(thread, selected))
    ensures continuation ==
            ContinuationOf(thread, KeptOf(blobs, thread, selected), UnreadableOf(blobs, thread, selected))
    ensures forall m :: m in messages ==> Truthful(blobs, thread, m)
  {
    hide Messages, Readable, GapsOf, Skips, Truthful;
    var kept, unreadable;
    messages, kept, unreadable := ReadMessages(blobs, thread, selected);
    KeptFacts(blobs, thread, selected);
    var before, after := None, None;
    if kept != [] {
      var first, last := kept[0], kept[|kept| - 1];
      var earlier := ReadableBetween(unreadable, 0, first);
      var later := ReadableBetween(unreadable, last + 1, |thread|);
      if earlier { before := Some(BoundaryOf(thread[first])); }
      if later { after := Some(BoundaryOf(thread[last])); }
    } else {
      NoGap(thread, kept, unreadable);
    }
    var gaps := ContextGaps(thread, kept, unreadable);
    continuation := Continuation(before, after, gaps);
  }

  function UnreadableOf(blobs: Blobs, thread: seq<Event>, selected: seq<nat>): set<nat>
    requires IndexesInto(thread, selected)
  {
    set i | i in selected && i < |thread| && !Readable(blobs, thread[i])
  }

  predicate AllReadable(blobs: Blobs, thread: seq<Event>, kept: seq<nat>)
    requires IndexesInto(thread, kept)
  {
    forall k :: 0 <= k < |kept| ==> Readable(blobs, thread[kept[k]])
  }

  lemma {:induction false} KeptFacts(blobs: Blobs, thread: seq<Event>, selected: seq<nat>)
    requires IndexesInto(thread, selected)
    ensures var kept := KeptOf(blobs, thread, selected);
            && IndexesInto(thread, kept) && AllReadable(blobs, thread, kept)
            && (forall i :: i in kept ==> i in selected)
            && (Rising(thread, selected) ==> Rising(thread, kept))
            && Messages(blobs, thread, Pick(thread, selected)) == Messages(blobs, thread, Pick(thread, kept))
  {
    hide Readable, MessageOf;
    if selected != [] {
      KeptFacts(blobs, thread, selected[1..]);
      var rest := KeptOf(blobs, thread, selected[1..]);
      assert Pick(thread, selected)[1..] == Pick(thread, selected[1..]);
      if Rising(thread, selected) {
        forall j | 0 <= j < |rest| ensures selected[0] < rest[j] {
          assert rest[j] in selected[1..];
        }
      }
      if Readable(blobs, thread[selected[0]]) {
        assert Pick(thread, [selected[0]] + rest)[1..] == Pick(thread, rest);
      }
    }
  }

  // ----- putting the thread together again

  /** The messages with every named gap paged in after the message it follows. */
  function Filled(blobs: Blobs, thread: seq<Event>, messages: seq<Message>, gaps: seq<Gap>, limit: nat): seq<Message>
    requires limit > 0 && Pageable(thread)
    requires forall g :: g in gaps ==> BoundaryKey(g.after).Some? && BoundaryKey(g.before).Some?
    decreases |messages|
  {
    if messages == [] then []
    else if gaps != [] && gaps[0].after == BoundaryOf(messages[0].event)
    then [messages[0]]
       + Walk(blobs, thread, After, BoundaryKey(gaps[0].after).value, BoundaryKey(gaps[0].before), limit)
       + Filled(blobs, thread, messages[1..], gaps[1..], limit)
    else [messages[0]] + Filled(blobs, thread, messages[1..], gaps, limit)
  }

  predicate Named(c: Continuation) {
    && (c.before.Some? ==> BoundaryKey(c.before.value).Some?)
    && (c.after.Some? ==> BoundaryKey(c.after.value).Some?)
    && (forall g :: g in c.gaps ==> BoundaryKey(g.after).Some? && BoundaryKey(g.before).Some?)
  }

  /** Everything a caller gets by paging each interval of the continuation to its end. */
  function PagedOut(blobs: Blobs, thread: seq<Event>, messages: seq<Message>, c: Continuation, limit: nat): seq<Message>
    requires limit > 0 && Pageable(thread) && Named(c)
  {
    (if c.before.None? then [] else Walk(blobs, thread, Before, BoundaryKey(c.before.value).value, None, limit))
    + Filled(blobs, thread, messages, c.gaps, limit)
    + (if c.after.None? then [] else Walk(blobs, thread, After, BoundaryKey(c.after.value).value, None, limit))
  }

  lemma Keys(thread: seq<Event>, i: nat)
    requires Pageable(thread) && i < |thread|
    ensures BoundaryKey(BoundaryOf(thread[i])) == Some(Key(thread[i]))
  {
    hide Stable, BoundaryKey;
    assert thread[i] in thread;
    BoundaryNamesItsMessage(thread[i].occurredAt, thread[i].id);
  }

  /** Every boundary of a gap is that of a kept message. */
  lemma {:induction false} GapsAreOfKept(thread: seq<Event>, kept: seq<nat>, unreadable: set<nat>)
    requires Pageable(thread) && Rising(thread, kept)
    ensures forall g :: g in GapsOf(thread, kept, unreadable) ==>
              && BoundaryKey(g.after).Some? && BoundaryKey(g.before).Some?
              && exists k :: 0 <= k < |kept| && g.after == BoundaryOf(thread[kept[k]])
    decreases |kept|
  {
    hide Skips, BoundaryKey, Pageable, BoundaryOf;
    if |kept| >= 2 {
      GapsAreOfKept(thread, kept[1..], unreadable);
      Keys(thread, kept[0]);
      Keys(thread, kept[1]);
      forall g | g in GapsOf(thread, kept[1..], unreadable)
        ensures exists k :: 0 <= k < |kept| && g.after == BoundaryOf(thread[kept[k]])
      {
        var k :| 0 <= k < |kept[1..]| && g.after == BoundaryOf(thread[kept[1..][k]]);
        assert kept[1..][k] == kept[k + 1];
      }
    }
  }

  lemma NamedContinuation(thread: seq<Event>, kept: seq<nat>, unreadable: set<nat>)
    requires Pageable(thread) && Rising(thread, kept)
    ensures Named(ContinuationOf(thread, kept, unreadable))
  {
    hide Skips, BoundaryKey, Pageable, BoundaryOf, GapsOf;
    GapsAreOfKept(thread, kept, unreadable);
    if kept != [] {
      Keys(thread, kept[0]);
      Keys(thread, kept[|kept| - 1]);
    }
  }

  /** Only unreadable messages in a stretch the continuation does not name. */
  lemma {:induction false} NothingSkipped(blobs: Blobs, thread: seq<Event>, unreadable: set<nat>, from: nat, to: nat)
    requires from <= to <= |thread| && !Skips(unreadable, from, to)
    requires forall i :: i in unreadable ==> i < |thread| && !Readable(blobs, thread[i])
    ensures Messages(blobs, thread, thread[from..to]) == []
    decreases |thread| - from
  {
    hide Readable;
    if from < to {
      assert from in unreadable;
      assert !Skips(unreadable, from + 1, to);
      NothingSkipped(blobs, thread, unreadable, from + 1, to);
      assert thread[from..to][1..] == thread[from + 1..to];
    }
  }

  /** Paging between two messages of the thread yields the readable ones between them. */
  lemma WalkBetween(blobs: Blobs, thread: seq<Event>, i: nat, j: nat, limit: nat)
    requires limit > 0 && Pageable(thread) && i < j < |thread|
    ensures Walk(blobs, thread, After, Key(thread[i]), Some(Key(thread[j])), limit) ==
            Messages(blobs, thread, thread[i + 1..j])
  {
    hide Messages, Walk, Less, Stable, Key;
    WalkReadsTheRange(blobs, thread, After, Key(thread[i]), Some(Key(thread[j])), limit);
    forall k | 0 <= k < |thread|
      ensures InRange(Key(thread[k]), Some(Key(thread[i])), Some(Key(thread[j]))) <==> i + 1 <= k < j
    {
      KeyCutsAt(thread, Key, i, k);
      KeyCutsAt(thread, Key, k, j);
    }
    InsideIsSlice(thread, Key, Some(Key(thread[i])), Some(Key(thread[j])), i + 1, j);
  }

  lemma WalkOutward(blobs: Blobs, thread: seq<Event>, i: nat, limit: nat)
    requires limit > 0 && Pageable(thread) && i < |thread|
    ensures Walk(blobs, thread, Before, Key(thread[i]), None, limit) == Messages(blobs, thread, thread[..i])
    ensures Walk(blobs, thread, After, Key(thread[i]), None, limit) == Messages(blobs, thread, thread[i + 1..])
  {
    hide Messages, Walk, Less, Stable, Key;
    WalkReadsTheRange(blobs, thread, Before, Key(thread[i]), None, limit);
    WalkReadsTheRange(blobs, thread, After, Key(thread[i]), None, limit);
    forall k | 0 <= k < |thread|
      ensures InRange(Key(thread[k]), None, Some(Key(thread[i]))) <==> 0 <= k < i
      ensures InRange(Key(thread[k]), Some(Key(thread[i])), None) <==> i + 1 <= k < |thread|
    {
      KeyCutsAt(thread, Key, i, k);
      KeyCutsAt(thread, Key, k, i);
    }
    InsideIsSlice(thread, Key, None, Some(Key(thread[i])), 0, i);
    InsideIsSlice(thread, Key, Some(Key(thread[i])), None, i + 1, |thread|);
    assert thread[0..i] == thread[..i] && thread[i + 1..|thread|] == thread[i + 1..];
  }

  /** The kept messages and their gaps are the stretch from the first kept message to the last. */
  lemma {:induction false} GapsFillTheMiddle(blobs: Blobs, thread: seq<Event>, kept: seq<nat>, unreadable: set<nat>, limit: nat)
    requires limit > 0 && Pageable(thread) && Rising(thread, kept) && kept != [] && AllReadable(blobs, thread, kept)
    requires forall i :: i in unreadable ==> i < |thread| && !Readable(blobs, thread[i])
    requires forall g :: g in GapsOf(thread, kept, unreadable) ==> BoundaryKey(g.after).Some? && BoundaryKey(g.before).Some?
    ensures Filled(blobs, thread, Messages(blobs, thread, Pick(thread, kept)), GapsOf(thread, kept, unreadable), limit) ==
            Messages(blobs, thread, thread[kept[0]..kept[|kept| - 1] + 1])
    decreases |kept|
  {
    hide Readable, FindReply, Skips, Walk, BoundaryKey, Pageable, Messages, BoundaryOf, GapsOf;
    var a, z := kept[0], kept[|kept| - 1];
    var first := MessageOf(blobs, thread, thread[a]);
    var messages := Messages(blobs, thread, Pick(thread, kept));
    var rest := Messages(blobs, thread, Pick(thread, kept[1..]));
    PickCons(blobs, thread, kept);
    if |kept| == 1 {
      assert messages == [first];
      assert Pick(thread, kept) == thread[a..z + 1];
      NoGap(thread, kept, unreadable);
    } else {
      var b := kept[1];
      GapsCons(thread, kept, unreadable);
      GapsFillTheMiddle(blobs, thread, kept[1..], unreadable, limit);
      StretchSplit(blobs, thread, a, b, z);
      if Skips(unreadable, a + 1, b) {
        WalkBetween(blobs, thread, a, b, limit);
        Keys(thread, a);
        Keys(thread, b);
      } else {
        NothingSkipped(blobs, thread, unreadable, a + 1, b);
        LaterGapsDiffer(thread, kept, unreadable);
      }
      assert messages[1..] == rest;
    }
  }

  lemma PickCons(blobs: Blobs, thread: seq<Event>, kept: seq<nat>)
    requires Rising(thread, kept) && kept != [] && AllReadable(blobs, thread, kept)
    ensures Messages(blobs, thread, Pick(thread, kept)) ==
            [MessageOf(blobs, thread, thread[kept[0]])] + Messages(blobs, thread, Pick(thread, kept[1..]))
    ensures |kept| == 1 ==> Messages(blobs, thread, Pick(thread, kept[1..])) == []
  {
    hide Readable, MessageOf;
    assert Pick(thread, kept)[1..] == Pick(thread, kept[1..]);
  }

  lemma GapsCons(thread: seq<Event>, kept: seq<nat>, unreadable: set<nat>)
    requires IndexesInto(thread, kept) && |kept| >= 2
    ensures var gaps, later := GapsOf(thread, kept, unreadable), GapsOf(thread, kept[1..], unreadable);
            if Skips(unreadable, kept[0] + 1, kept[1])
            then gaps != [] && gaps[0] == Gap(BoundaryOf(thread[kept[0]]), BoundaryOf(thread[kept[1]])) && gaps[1..] == later
            else gaps == later
  {
    hide Skips, BoundaryOf;
  }

  lemma StretchSplit(blobs: Blobs, thread: seq<Event>, a: nat, b: nat, z: nat)
    requires a < b <= z < |thread| && Readable(blobs, thread[a])
    ensures Messages(blobs, thread, thread[a..z + 1]) ==
            [MessageOf(blobs, thread, thread[a])] + Messages(blobs, thread, thread[a + 1..b]) +
            Messages(blobs, thread, thread[b..z + 1])
  {
    hide Messages, Readable, MessageOf;
    assert thread[a..z + 1] == [thread[a]] + (thread[a + 1..b] + thread[b..z + 1]);
    MessagesCons(blobs, thread, thread[a..z + 1]);
    MessagesConcat(blobs, thread, thread[a + 1..b], thread[b..z + 1]);
  }

  lemma MessagesCons(blobs: Blobs, thread: seq<Event>, s: seq<Event>)
    ensures s == [] ==> Messages(blobs, thread, s) == []
    ensures s != [] && Readable(blobs, s[0]) ==>
              Messages(blobs, thread, s) == [MessageOf(blobs, thread, s[0])] + Messages(blobs, thread, s[1..])
  {
  }

  /** No gap further on starts at the first kept message. */
  lemma LaterGapsDiffer(thread: seq<Event>, kept: seq<nat>, unreadable: set<nat>)
    requires Pageable(thread) && Rising(thread, kept) && |kept| >= 2
    ensures forall g :: g in GapsOf(thread, kept[1..], unreadable) ==> g.after != BoundaryOf(thread[kept[0]])
  {
    hide GapsOf, Less, Stable;
    GapsAreOfKept(thread, kept[1..], unreadable);
    forall g | g in GapsOf(thread, kept[1..], unreadable) ensures g.after != BoundaryOf(thread[kept[0]]) {
      var k :| 0 <= k < |kept[1..]| && g.after == BoundaryOf(thread[kept[1..][k]]);
      LessIrreflexive(Key(thread[kept[0]]));
      assert Less(Key(thread[kept[0]]), Key(thread[kept[k + 1]]));
    }
  }

  /**
   A caller that pages every named interval to its end has the whole conversation, in order and with nothing
   twice, exactly if the bounded read kept a message or there was nothing to read.
   */
  lemma ContinuationIsComplete(blobs: Blobs, thread: seq<Event>, selected: seq<nat>, limit: nat)
    requires limit > 0 && Pageable(thread) && Rising(thread, selected)
    ensures var kept, unreadable := KeptOf(blobs, thread, selected), UnreadableOf(blobs, thread, selected);
            var messages := Messages(blobs, thread, Pick(thread, selected));
            && IndexesInto(thread, kept) && Named(ContinuationOf(thread, kept, unreadable))
            && (PagedOut(blobs, thread, messages, ContinuationOf(thread, kept, unreadable), limit) == Messages(blobs, thread, thread)
                <==> (exists i :: i in selected && i < |thread| && Readable(blobs, thread[i]))
                     || (forall e :: e in thread ==> !Readable(blobs, e)))
  {
    hide Readable, Messages, Walk, GapsOf, Skips, BoundaryKey, Filled, Pageable, BoundaryOf, Named;
    var kept, unreadable := KeptOf(blobs, thread, selected), UnreadableOf(blobs, thread, selected);
    KeptFacts(blobs, thread, selected);
    NamedContinuation(thread, kept, unreadable);
    KeptUnless(blobs, thread, selected);
    if kept == [] {
      MessagesCons(blobs, thread, Pick(thread, kept));
      MessagesUnless(blobs, thread, thread);
      NothingKept(blobs, thread, unreadable, limit);
    } else {
      KeptMakesWhole(blobs, thread, kept, unreadable, limit);
    }
  }

  lemma NothingKept(blobs: Blobs, thread: seq<Event>, unreadable: set<nat>, limit: nat)
    requires limit > 0 && Pageable(thread) && Named(ContinuationOf(thread, [], unreadable))
    ensures PagedOut(blobs, thread, [], ContinuationOf(thread, [], unreadable), limit) == []
  {
    hide Pageable;
  }

  lemma {:induction false} KeptUnless(blobs: Blobs, thread: seq<Event>, selected: seq<nat>)
    requires IndexesInto(thread, selected)
    ensures KeptOf(blobs, thread, selected) != [] <==>
            exists i :: i in selected && i < |thread| && Readable(blobs, thread[i])
  {
    hide Readable;
    if selected != [] { KeptUnless(blobs, thread, selected[1..]); }
  }

  lemma {:induction false} MessagesUnless(blobs: Blobs, thread: seq<Event>, s: seq<Event>)
    ensures Messages(blobs, thread, s) == [] <==> forall e :: e in s ==> !Readable(blobs, e)
  {
    hide Readable, MessageOf;
    if s != [] { MessagesUnless(blobs, thread, s[1..]); }
  }

  lemma KeptMakesWhole(blobs: Blobs, thread: seq<Event>, kept: seq<nat>, unreadable: set<nat>, limit: nat)
    requires limit > 0 && Pageable(thread) && Rising(thread, kept) && kept != [] && AllReadable(blobs, thread, kept)
    requires forall i :: i in unreadable ==> i < |thread| && !Readable(blobs, thread[i])
    requires Named(ContinuationOf(thread, kept, unreadable))
    ensures PagedOut(blobs, thread, Messages(blobs, thread, Pick(thread, kept)),
                     ContinuationOf(thread, kept, unreadable), limit) == Messages(blobs, thread, thread)
  {
    hide Readable, Messages, Walk, GapsOf, Skips, BoundaryKey, Filled, Pageable, BoundaryOf, AllReadable;
    var a, z := kept[0], kept[|kept| - 1];
    GapsFillTheMiddle(blobs, thread, kept, unreadable, limit);
    WalkOutward(blobs, thread, a, limit);
    WalkOutward(blobs, thread, z, limit);
    Keys(thread, a);
    Keys(thread, z);
    if !Skips(unreadable, 0, a) { NothingSkipped(blobs, thread, unreadable, 0, a); }
    if !Skips(unreadable, z + 1, |thread|) { NothingSkipped(blobs, thread, unreadable, z + 1, |thread|); }
    assert thread[0..a] == thread[..a] && thread[z + 1..|thread|] == thread[z + 1..];
    assert thread == thread[..a] + thread[a..z + 1] + thread[z + 1..];
    MessagesConcat(blobs, thread, thread[..a] + thread[a..z + 1], thread[z + 1..]);
    MessagesConcat(blobs, thread, thread[..a], thread[a..z + 1]);
  }

  // ----- a thread whose only selected message cannot be read

  function Sent(unit: Unit, hash: nat): Event {
    Event([unit], [unit], 0, false, Some(hash), Some(0), 0, hash, None)
  }

  /** The body of the first message is stored, that of the second is not. */
  function TwoMessages(): seq<Event> {
    [Sent(65, 0), Sent(66, 1)]
  }

  function OneStored(): Blobs {
    Blobs(map[0 := []], _ => 0, (_, _) => Some(Content([], 1)))
  }

  lemma TwoMessagesPageable()
    ensures Pageable(TwoMessages())
    ensures Readable(OneStored(), TwoMessages()[0]) && !Readable(OneStored(), TwoMessages()[1])
  {
    assert Trim([65]) == [65] && Trim([66]) == [66];
    assert Key(Sent(65, 0))[0] == 65 && Key(Sent(66, 1))[0] == 66;
  }

  /** Selecting the second message keeps nothing, so the continuation names nothing and the first is never found. */
  lemma UnreadableSelectionLosesTheRest(limit: nat)
    requires limit > 0
    ensures KeptOf(OneStored(), TwoMessages(), [1]) == [] && UnreadableOf(OneStored(), TwoMessages(), [1]) == {1}
    ensures ContinuationOf(TwoMessages(), [], {1}) == Continuation(None, None, [])
    ensures Pageable(TwoMessages()) && |Messages(OneStored(), TwoMessages(), TwoMessages())| == 1
    ensures Messages(OneStored(), TwoMessages(), Pick(TwoMessages(), [1])) == []
    ensures Named(ContinuationOf(TwoMessages(), [], {1}))
    ensures PagedOut(OneStored(), TwoMessages(), [], ContinuationOf(TwoMessages(), [], {1}), limit) == []
  {
    hide Readable, Pageable, Messages, MessageOf;
    TwoMessagesPageable();
    NothingKept(OneStored(), TwoMessages(), {1}, limit);
    KeptFacts(OneStored(), TwoMessages(), [1]);
    assert [1][1..] == [];
    MessagesCons(OneStored(), TwoMessages(), Pick(TwoMessages(), []));
    OneMessage(OneStored(), TwoMessages());
  }

  lemma OneMessage(blobs: Blobs, thread: seq<Event>)
    requires |thread| == 2 && Readable(blobs, thread[0]) && !Readable(blobs, thread[1])
    ensures |Messages(blobs, thread, thread)| == 1
  {
    hide Readable, MessageOf;
    var rest := thread[1..];
    assert rest[0] == thread[1] && rest[1..] == [];
    assert Messages(blobs, thread, rest) == Messages(blobs, thread, rest[1..]) == [];
  }
}
