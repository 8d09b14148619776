/**
 Paging a conversation to its end, and the continuation that tells a caller where to page: the kept messages
 and every interval named around them make up the whole thread.
 */
module ConversationPaging {
  import opened Wrappers
  import opened MessageKeys
  import opened KeyedLists
  import opened Conversation

  function BoundaryOf(e: Event): Boundary {
    Boundary(e.occurredAt, e.id)
  }

  /** A thread in order, whose boundaries name their own messages. */
  predicate Pageable(thread: seq<Event>) {
    Ascending(thread, Key) && forall e :: e in thread ==> Stable(e.occurredAt) && Stable(e.id)
  }

  // ----- one page and the rest

  lemma {:induction false} PageFacts(blobs: Blobs, thread: seq<Event>, c: seq<Event>, limit: nat)
    requires limit > 0
    ensures var end := PageEnd(blobs, c, limit);
            && |Messages(blobs, thread, c[..end])| <= limit
            && (end < |c| ==> |Messages(blobs, thread, c[..end])| == limit && end > 0 && Readable(blobs, c[end - 1]))
    decreases |c|
  {
    hide Readable, MessageOf;
    if c != [] {
      var end := PageEnd(blobs, c, limit);
      assert c[..end][1..] == c[1..][..end - 1];
      if !Readable(blobs, c[0]) || limit > 1 {
        PageFacts(blobs, thread, c[1..], if Readable(blobs, c[0]) then limit - 1 else limit);
      } else {
        assert PageEnd(blobs, c[1..], 0) == 0;
      }
    }
  }

  /** The outermost message of a page that is not the last: the one at the page's end. */
  function Extreme(direction: Direction, page: Page): Event
    requires page.messages != []
  {
    if direction.After? then page.messages[|page.messages| - 1].event else page.messages[0].event
  }

  /** The page holds the readable ones of the part of `inside` next to the boundary, and `rest` is what is left. */
  predicate PageThenRest(blobs: Blobs, thread: seq<Event>, direction: Direction, messages: seq<Message>,
                         inside: seq<Event>, rest: seq<Event>)
  {
    && |rest| < |inside|
    && messages == Messages(blobs, thread, if direction.After? then inside[..|inside| - |rest|] else inside[|rest|..])
    && rest == if direction.After? then inside[|inside| - |rest|..] else inside[..|rest|]
  }

  /** Behind the outermost message lies exactly what the page has not read. */
  lemma NextRange(blobs: Blobs, thread: seq<Event>, direction: Direction, boundary: Text, until: Option<Text>, limit: nat)
    requires limit > 0 && Ascending(thread, Key)
    requires WindowOf(blobs, thread, direction, boundary, until, limit).hasMore
    ensures var page := WindowOf(blobs, thread, direction, boundary, until, limit);
            && page.messages != []
            && var e := Extreme(direction, page);
               && e in thread
               && PageThenRest(blobs, thread, direction, page.messages, Between(thread, direction, boundary, until),
                               Between(thread, direction, Key(e), until))
  {
    hide WindowOf, Between, PageThenRest;
    if direction.After? {
      NextRangeAfter(blobs, thread, boundary, until, limit);
    } else {
      NextRangeBefore(blobs, thread, boundary, until, limit);
    }
  }

  lemma NextRangeAfter(blobs: Blobs, thread: seq<Event>, boundary: Text, until: Option<Text>, limit: nat)
    requires limit > 0 && Ascending(thread, Key)
    requires WindowOf(blobs, thread, After, boundary, until, limit).hasMore
    ensures var page := WindowOf(blobs, thread, After, boundary, until, limit);
            && page.messages != []
            && var e := Extreme(After, page);
               && e in thread
               && PageThenRest(blobs, thread, After, page.messages, Between(thread, After, boundary, until),
                               Between(thread, After, Key(e), until))
  {
    hide Inside, PageEnd, Messages, Reverse, Key, Ascending;
    var inside := Inside(thread, Key, Some(boundary), until);
    InsideAscends(thread, Key, Some(boundary), until);
    FullPageAfter(blobs, thread, inside, limit);
    BehindLower(thread, boundary, until, inside, PageEnd(blobs, inside, limit) - 1);
  }

  lemma NextRangeBefore(blobs: Blobs, thread: seq<Event>, boundary: Text, until: Option<Text>, limit: nat)
    requires limit > 0 && Ascending(thread, Key)
    requires WindowOf(blobs, thread, Before, boundary, until, limit).hasMore
    ensures var page := WindowOf(blobs, thread, Before, boundary, until, limit);
            && page.messages != []
            && var e := Extreme(Before, page);
               && e in thread
               && PageThenRest(blobs, thread, Before, page.messages, Between(thread, Before, boundary, until),
                               Between(thread, Before, Key(e), until))
  {
    hide Inside, PageEnd, Messages, Reverse, Key, Ascending;
    var inside := Inside(thread, Key, until, Some(boundary));
    InsideAscends(thread, Key, until, Some(boundary));
    FullPageBefore(blobs, thread, inside, limit);
    BehindUpper(thread, boundary, until, inside, |inside| - PageEnd(blobs, Reverse(inside), limit));
  }

  lemma FullPageAfter(blobs: Blobs, thread: seq<Event>, inside: seq<Event>, limit: nat)
    requires limit > 0 && PageEnd(blobs, inside, limit) < |inside|
    ensures var end := PageEnd(blobs, inside, limit); var ms := Messages(blobs, thread, inside[..end]);
            end > 0 && ms != [] && ms[|ms| - 1].event == inside[end - 1]
  {
    hide Messages, PageEnd, Readable;
    PageFacts(blobs, thread, inside, limit);
    LastRead(blobs, thread, inside[..PageEnd(blobs, inside, limit)]);
  }

  lemma FullPageBefore(blobs: Blobs, thread: seq<Event>, inside: seq<Event>, limit: nat)
    requires limit > 0 && PageEnd(blobs, Reverse(inside), limit) < |inside|
    ensures var start := |inside| - PageEnd(blobs, Reverse(inside), limit);
            var ms := Messages(blobs, thread, inside[start..]);
            start < |inside| && ms != [] && ms[0].event == inside[start]
  {
    hide Messages, PageEnd, Readable, Reverse;
    PageFacts(blobs, thread, Reverse(inside), limit);
    FirstRead(blobs, thread, inside[|inside| - PageEnd(blobs, Reverse(inside), limit)..]);
  }

  lemma LastRead(blobs: Blobs, thread: seq<Event>, s: seq<Event>)
    requires s != [] && Readable(blobs, s[|s| - 1])
    ensures var ms := Messages(blobs, thread, s);
            ms != [] && ms[|ms| - 1].event == s[|s| - 1]
  {
    hide Readable;
    var n := |s| - 1;
    assert s == s[..n] + [s[n]];
    MessagesConcat(blobs, thread, s[..n], [s[n]]);
  }

  lemma FirstRead(blobs: Blobs, thread: seq<Event>, s: seq<Event>)
    requires s != [] && Readable(blobs, s[0])
    ensures var ms := Messages(blobs, thread, s);
            ms != [] && ms[0].event == s[0]
  {
  }

  lemma BehindLower(thread: seq<Event>, boundary: Text, until: Option<Text>, inside: seq<Event>, i: nat)
    requires Ascending(thread, Key) && inside == Inside(thread, Key, Some(boundary), until) && i < |inside|
    requires Ascending(inside, Key)
    ensures Inside(thread, Key, Some(Key(inside[i])), until) == inside[i + 1..]
  {
    hide Less, Key;
    var at := Key(inside[i]);
    forall e | e in thread && InRange(Key(e), Some(at), until) ensures InRange(Key(e), Some(boundary), until) {
      assert inside[i] in inside;
      LessTransitive(boundary, at, Key(e));
    }
    InsideTwice(thread, Key, Some(boundary), until, Some(at), until);
    forall j | 0 <= j < |inside| ensures InRange(Key(inside[j]), Some(at), until) <==> i + 1 <= j < |inside| {
      assert inside[j] in inside;
      KeyCutsAt(inside, Key, i, j);
    }
    InsideIsSlice(inside, Key, Some(at), until, i + 1, |inside|);
  }

  lemma BehindUpper(thread: seq<Event>, boundary: Text, until: Option<Text>, inside: seq<Event>, i: nat)
    requires Ascending(thread, Key) && inside == Inside(thread, Key, until, Some(boundary)) && i < |inside|
    requires Ascending(inside, Key)
    ensures Inside(thread, Key, until, Some(Key(inside[i]))) == inside[..i]
  {
    hide Less, Key;
    var at := Key(inside[i]);
    forall e | e in thread && InRange(Key(e), until, Some(at)) ensures InRange(Key(e), until, Some(boundary)) {
      assert inside[i] in inside;
      LessTransitive(Key(e), at, boundary);
    }
    InsideTwice(thread, Key, until, Some(boundary), until, Some(at));
    forall j | 0 <= j < |inside| ensures InRange(Key(inside[j]), until, Some(at)) <==> 0 <= j < i {
      assert inside[j] in inside;
      KeyCutsAt(inside, Key, j, i);
    }
    InsideIsSlice(inside, Key, until, Some(at), 0, i);
  }

  // ----- paging to the end

  /** The caller's loop: ask again from the outermost message while there is more. */
  function Walk(blobs: Blobs, thread: seq<Event>, direction: Direction, boundary: Text, until: Option<Text>,
                limit: nat): seq<Message>
    requires limit > 0 && Pageable(thread)
    decreases |Between(thread, direction, boundary, until)|
  {
    var page := WindowOf(blobs, thread, direction, boundary, until, limit);
    if !page.hasMore then page.messages
    else
      NextRange(blobs, thread, direction, boundary, until, limit);
      var e := Extreme(direction, page);
      BoundaryNamesItsMessage(e.occurredAt, e.id);
      var next := BoundaryKey(BoundaryOf(e)).value;
      if direction.After? then page.messages + Walk(blobs, thread, direction, next, until, limit)
      else Walk(blobs, thread, direction, next, until, limit) + page.messages
  }

  /** Paging ends, and yields every readable message strictly inside the range exactly once and in order. */
  lemma {:induction false} WalkReadsTheRange(blobs: Blobs, thread: seq<Event>, direction: Direction, boundary: Text,
                                             until: Option<Text>, limit: nat)
    requires limit > 0 && Pageable(thread)
    ensures Walk(blobs, thread, direction, boundary, until, limit) ==
            Messages(blobs, thread, Between(thread, direction, boundary, until))
    decreases |Between(thread, direction, boundary, until)|
  {
    hide Messages, Between, WindowOf, Pageable, BoundaryKey;
    var page := WindowOf(blobs, thread, direction, boundary, until, limit);
    var inside := Between(thread, direction, boundary, until);
    if page.hasMore {
      assert Ascending(thread, Key) by { PageableParts(thread); }
      NextRange(blobs, thread, direction, boundary, until, limit);
      var e := Extreme(direction, page);
      PageableParts(thread);
      BoundaryNamesItsMessage(e.occurredAt, e.id);
      var rest := Between(thread, direction, Key(e), until);
      WalkReadsTheRange(blobs, thread, direction, Key(e), until, limit);
      var k := |inside| - |rest|;
      assert inside == if direction.After? then inside[..k] + rest else rest + inside[|rest|..];
      if direction.After? {
        MessagesConcat(blobs, thread, inside[..k], rest);
      } else {
        MessagesConcat(blobs, thread, rest, inside[|rest|..]);
      }
    } else {
      LastPage(blobs, thread, direction, boundary, until, limit);
    }
  }

  lemma PageableParts(thread: seq<Event>)
    requires Pageable(thread)
    ensures Ascending(thread, Key) && forall e :: e in thread ==> Stable(e.occurredAt) && Stable(e.id)
  {
  }

  lemma LastPage(blobs: Blobs, thread: seq<Event>, direction: Direction, boundary: Text, until: Option<Text>, limit: nat)
    requires !WindowOf(blobs, thread, direction, boundary, until, limit).hasMore
    ensures WindowOf(blobs, thread, direction, boundary, until, limit).messages ==
            Messages(blobs, thread, Between(thread, direction, boundary, until))
  {
    hide Messages, PageEnd, Reverse;
    var inside := Between(thread, direction, boundary, until);
    assert inside[..|inside|] == inside && inside[0..] == inside;
  }
}
