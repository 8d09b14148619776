/**
 Reading one conversation: its current messages in order, the ones whose stored body can be read, and the
 window that pages away from a boundary.
 */
module Conversation {
  import opened Wrappers
  import opened MessageKeys
  import opened KeyedLists

  datatype Event = Event(
    id: Text,
    occurredAt: Text,
    thread: nat,
    tombstone: bool,
    contentHash: Option<nat>,
    mediaType: Option<nat>,
    source: nat,
    externalId: nat,
    parentExternalId: Option<nat>)

  datatype Content = Content(text: Text, attachments: nat)

  /** A readable event with what was read of it. */
  datatype Message = Message(event: Event, replyTo: Option<Text>, content: Content)

  /** The blob store, its digest and the decoder of stored bodies. Decoding gives None for an empty body. */
  datatype Blobs = Blobs(stored: map<nat, seq<bv8>>, sha256: seq<bv8> -> nat, decode: (seq<bv8>, nat) -> Option<Content>)

  function Key(e: Event): Text {
    EventKey(e.occurredAt, e.id)
  }

  function MessageKey(m: Message): Text {
    Key(m.event)
  }

  // ----- the thread

  predicate Current(e: Event, heads: set<Text>, thread: nat) {
    e.thread == thread && !e.tombstone && e.id in heads && e.contentHash.Some? && e.mediaType.Some?
  }

  function CurrentOnly(rows: seq<Event>, heads: set<Text>, thread: nat): seq<Event> {
    if rows == [] then []
    else if Current(rows[0], heads, thread) then [rows[0]] + CurrentOnly(rows[1..], heads, thread)
    else CurrentOnly(rows[1..], heads, thread)
  }

  function ReadThread(rows: seq<Event>, heads: set<Text>, thread: nat): seq<Event> {
    Sort(CurrentOnly(rows, heads, thread), Key)
  }

  predicate DistinctIds(rows: seq<Event>) {
    forall i, j :: 0 <= i < j < |rows| ==> rows[i].id != rows[j].id
  }

  lemma {:induction false} CurrentOnlyElements(rows: seq<Event>, heads: set<Text>, thread: nat)
    ensures forall e :: e in CurrentOnly(rows, heads, thread) <==> e in rows && Current(e, heads, thread)
    ensures DistinctIds(rows) ==> DistinctIds(CurrentOnly(rows, heads, thread))
  {
    if rows != [] {
      CurrentOnlyElements(rows[1..], heads, thread);
      var rest := CurrentOnly(rows[1..], heads, thread);
      if DistinctIds(rows) {
        forall j | 0 <= j < |rest| ensures rest[j].id != rows[0].id {
          assert rest[j] in rows[1..];
        }
      }
    }
  }

  /** A thread holds its current events, each in its place by time and then id. */
  lemma ThreadIsOrdered(rows: seq<Event>, heads: set<Text>, thread: nat)
    requires DistinctIds(rows) && forall e :: e in rows ==> NUL !in e.occurredAt
    ensures var events := ReadThread(rows, heads, thread);
            && Ascending(events, Key)
            && (forall e :: e in events <==>
                  && e in rows && e.thread == thread && !e.tombstone && e.id in heads
                  && e.contentHash.Some? && e.mediaType.Some?)
            && (forall i, j :: 0 <= i < j < |events| ==>
                  Less(events[i].occurredAt, events[j].occurredAt)
                  || (events[i].occurredAt == events[j].occurredAt && Less(events[i].id, events[j].id)))
  {
    hide Less, Sort;
    var kept, events := CurrentOnly(rows, heads, thread), ReadThread(rows, heads, thread);
    CurrentOnlyElements(rows, heads, thread);
    forall i, j | 0 <= i < j < |kept| ensures Key(kept[i]) != Key(kept[j]) {
      assert kept[i] in kept && kept[j] in kept;
      KeyOrdersAsPair(kept[i].occurredAt, kept[i].id, kept[j].occurredAt, kept[j].id);
      LessTotal(kept[i].id, kept[j].id);
      KeyOrdersAsPair(kept[j].occurredAt, kept[j].id, kept[i].occurredAt, kept[i].id);
      LessTotal(kept[i].occurredAt, kept[j].occurredAt);
      LessIrreflexive(Key(kept[i]));
    }
    SortAscends(kept, Key);
    SortElements(kept, Key);
    forall e ensures e in events <==> e in kept {
      assert e in multiset(events) <==> e in multiset(kept);
    }
    forall i, j | 0 <= i < j < |events|
      ensures Less(events[i].occurredAt, events[j].occurredAt)
              || (events[i].occurredAt == events[j].occurredAt && Less(events[i].id, events[j].id))
    {
      assert events[i] in events && events[j] in events;
      KeyOrdersAsPair(events[i].occurredAt, events[i].id, events[j].occurredAt, events[j].id);
    }
  }

  // ----- bodies

  function ContentOf(blobs: Blobs, e: Event): Option<Content> {
    if e.contentHash.None? || e.mediaType.None? || e.contentHash.value !in blobs.stored then None
    else
      var bytes := blobs.stored[e.contentHash.value];
      if blobs.sha256(bytes) != e.contentHash.value then None else blobs.decode(bytes, e.mediaType.value)
  }

  predicate Readable(blobs: Blobs, e: Event) {
    ContentOf(blobs, e).Some?
  }

  function FindReply(thread: seq<Event>, source: nat, externalId: nat): Option<Text> {
    if thread == [] then None
    else if thread[0].source == source && thread[0].externalId == externalId then Some(thread[0].id)
    else FindReply(thread[1..], source, externalId)
  }

  function MessageOf(blobs: Blobs, thread: seq<Event>, e: Event): Message
    requires Readable(blobs, e)
  {
    var replyTo := if e.parentExternalId.None? then None else FindReply(thread, e.source, e.parentExternalId.value);
    Message(e, replyTo, ContentOf(blobs, e).value)
  }

  /** The readable ones of `events`, in their order. */
  function Messages(blobs: Blobs, thread: seq<Event>, events: seq<Event>): seq<Message> {
    if events == [] then []
    else if Readable(blobs, events[0]) then [MessageOf(blobs, thread, events[0])] + Messages(blobs, thread, events[1..])
    else Messages(blobs, thread, events[1..])
  }

  lemma {:induction false} MessagesConcat(blobs: Blobs, thread: seq<Event>, s: seq<Event>, t: seq<Event>)
    ensures Messages(blobs, thread, s + t) == Messages(blobs, thread, s) + Messages(blobs, thread, t)
  {
    hide Readable, MessageOf;
    if s == [] {
      assert s + t == t;
    } else {
      assert (s + t)[1..] == s[1..] + t;
      MessagesConcat(blobs, thread, s[1..], t);
    }
  }

  lemma {:induction false} MessagesReversed(blobs: Blobs, thread: seq<Event>, s: seq<Event>)
    ensures Messages(blobs, thread, Reverse(s)) == Reverse(Messages(blobs, thread, s))
  {
    hide Readable, MessageOf;
    if s != [] {
      MessagesReversed(blobs, thread, s[1..]);
      MessagesConcat(blobs, thread, Reverse(s[1..]), [s[0]]);
      var rest := Messages(blobs, thread, s[1..]);
      if Readable(blobs, s[0]) {
        assert ([MessageOf(blobs, thread, s[0])] + rest)[1..] == rest;
      }
    }
  }

  lemma {:induction false} MessagesAreOfEvents(blobs: Blobs, thread: seq<Event>, s: seq<Event>)
    ensures |Messages(blobs, thread, s)| <= |s|
    ensures forall m :: m in Messages(blobs, thread, s) ==> m.event in s
    ensures Ascending(s, Key) ==> Ascending(Messages(blobs, thread, s), MessageKey)
  {
    if s != [] { MessagesAreOfEvents(blobs, thread, s[1..]); }
  }

  // ----- what a message says

  /** The event a reply to `e` answers: one of the same source, with the external id of the parent. */
  predicate IsParent(e: Event, candidate: Event) {
    e.parentExternalId.Some? && candidate.source == e.source && candidate.externalId == e.parentExternalId.value
  }

  /** The first event of the thread that `m` replies to, if there is one. */
  predicate RepliesRightly(thread: seq<Event>, m: Message) {
    if m.replyTo.None? then forall i :: 0 <= i < |thread| ==> !IsParent(m.event, thread[i])
    else exists i :: 0 <= i < |thread| && IsParent(m.event, thread[i]) && thread[i].id == m.replyTo.value
                     && forall k :: 0 <= k < i ==> !IsParent(m.event, thread[k])
  }

  /** The body of `e` is stored under its own digest, and decodes to this content. */
  predicate StoredAs(blobs: Blobs, e: Event, content: Content) {
    && e.contentHash.Some? && e.mediaType.Some? && e.contentHash.value in blobs.stored
    && blobs.sha256(blobs.stored[e.contentHash.value]) == e.contentHash.value
    && blobs.decode(blobs.stored[e.contentHash.value], e.mediaType.value) == Some(content)
  }

  predicate Truthful(blobs: Blobs, thread: seq<Event>, m: Message) {
    RepliesRightly(thread, m) && StoredAs(blobs, m.event, m.content)
  }

  lemma {:induction false} FindsTheFirst(thread: seq<Event>, e: Event)
    requires e.parentExternalId.Some?
    ensures var found := FindReply(thread, e.source, e.parentExternalId.value);
            if found.None? then forall i :: 0 <= i < |thread| ==> !IsParent(e, thread[i])
            else exists i :: 0 <= i < |thread| && IsParent(e, thread[i]) && thread[i].id == found.value
                             && forall k :: 0 <= k < i ==> !IsParent(e, thread[k])
  {
    if thread != [] && !IsParent(e, thread[0]) {
      FindsTheFirst(thread[1..], e);
      var found := FindReply(thread[1..], e.source, e.parentExternalId.value);
      if found.Some? {
        var i :| 0 <= i < |thread[1..]| && IsParent(e, thread[1..][i]) && thread[1..][i].id == found.value
                 && forall k :: 0 <= k < i ==> !IsParent(e, thread[1..][k]);
        assert thread[i + 1] == thread[1..][i];
        assert forall k :: 0 <= k < i + 1 ==> !IsParent(e, thread[k]) by {
          assert forall k :: 1 <= k < i + 1 ==> thread[k] == thread[1..][k - 1];
        }
      }
    }
  }

  /** A body can be read exactly if it is stored, under its own digest, and is not empty. */
  lemma ReadableExactly(blobs: Blobs, e: Event)
    ensures Readable(blobs, e) <==> exists content :: StoredAs(blobs, e, content)
  {
    if Readable(blobs, e) { assert StoredAs(blobs, e, ContentOf(blobs, e).value); }
  }

  lemma MessageIsTruthful(blobs: Blobs, thread: seq<Event>, e: Event)
    requires Readable(blobs, e)
    ensures MessageOf(blobs, thread, e).event == e && Truthful(blobs, thread, MessageOf(blobs, thread, e))
  {
    hide IsParent;
    if e.parentExternalId.Some? {
      FindsTheFirst(thread, e);
    } else {
      assert forall i :: 0 <= i < |thread| ==> !IsParent(e, thread[i]) by { NoParent(thread, e); }
    }
  }

  lemma NoParent(thread: seq<Event>, e: Event)
    requires e.parentExternalId.None?
    ensures forall i :: 0 <= i < |thread| ==> !IsParent(e, thread[i])
  {
  }

  /** Every message replies to the first event it names as its parent, and its content is what its event's digest stands for. */
  lemma {:induction false} MessagesAreTruthful(blobs: Blobs, thread: seq<Event>, s: seq<Event>)
    ensures forall m :: m in Messages(blobs, thread, s) ==> m.event in s && Truthful(blobs, thread, m)
  {
    hide Readable, MessageOf, Truthful;
    if s != [] {
      MessagesAreTruthful(blobs, thread, s[1..]);
      if Readable(blobs, s[0]) { MessageIsTruthful(blobs, thread, s[0]); }
    }
  }

  predicate IndexesInto(thread: seq<Event>, indexes: seq<nat>) {
    forall k :: 0 <= k < |indexes| ==> indexes[k] < |thread|
  }

  function Pick(thread: seq<Event>, indexes: seq<nat>): (r: seq<Event>)
    requires IndexesInto(thread, indexes)
    ensures |r| == |indexes| && forall k :: 0 <= k < |indexes| ==> r[k] == thread[indexes[k]]
  {
    seq(|indexes|, k requires 0 <= k < |indexes| => thread[indexes[k]])
  }

  function KeptOf(blobs: Blobs, thread: seq<Event>, indexes: seq<nat>): (kept: seq<nat>)
    requires IndexesInto(thread, indexes)
    ensures IndexesInto(thread, kept) && forall i :: i in kept ==> i in indexes
  {
    if indexes == [] then []
    else if Readable(blobs, thread[indexes[0]]) then [indexes[0]] + KeptOf(blobs, thread, indexes[1..])
    else KeptOf(blobs, thread, indexes[1..])
  }

  lemma {:induction false} KeptSnoc(blobs: Blobs, thread: seq<Event>, indexes: seq<nat>, i: nat)
    requires i < |thread| && IndexesInto(thread, indexes)
    ensures KeptOf(blobs, thread, indexes + [i]) ==
            KeptOf(blobs, thread, indexes) + if Readable(blobs, thread[i]) then [i] else []
  {
    if indexes != [] {
      assert (indexes + [i])[1..] == indexes[1..] + [i];
      KeptSnoc(blobs, thread, indexes[1..], i);
    }
  }

  /** Reads the bodies at `indexes`: the readable ones become messages, and every index is reported once. */
  method ReadMessages(blobs: Blobs, thread: seq<Event>, indexes: seq<nat>)
    returns (messages: seq<Message>, kept: seq<nat>, unreadable: set<nat>)
    requires IndexesInto(thread, indexes)
    ensures messages == Messages(blobs, thread, Pick(thread, indexes))
    ensures kept == KeptOf(blobs, thread, indexes)
    ensures unreadable == set i | i in indexes && i < |thread| && !Readable(blobs, thread[i])
    ensures forall m :: m in messages ==> Truthful(blobs, thread, m)
  {
    messages, kept, unreadable := [], [], {};
    for k := 0 to |indexes|
      invariant messages == Messages(blobs, thread, Pick(thread, indexes[..k]))
      invariant kept == KeptOf(blobs, thread, indexes[..k])
      invariant unreadable == set i | i in indexes[..k] && i < |thread| && !Readable(blobs, thread[i])
    {
      var index := indexes[k];
      assert indexes[..k + 1] == indexes[..k] + [index];
      assert Pick(thread, indexes[..k + 1]) == Pick(thread, indexes[..k]) + [thread[index]];
      MessagesConcat(blobs, thread, Pick(thread, indexes[..k]), [thread[index]]);
      KeptSnoc(blobs, thread, indexes[..k], index);
      if !Readable(blobs, thread[index]) {
        unreadable := unreadable + {index};
      } else {
        kept := kept + [index];
        messages := messages + [MessageOf(blobs, thread, thread[index])];
      }
    }
    assert indexes[..|indexes|] == indexes;
    MessagesAreTruthful(blobs, thread, Pick(thread, indexes));
  }

  // ----- the window

  datatype Direction = Before | After

  datatype WindowError = InvalidRequest | ContextChanged

  datatype Page = Page(messages: seq<Message>, hasMore: bool)

  /** How far a page reads into its candidates: up to and including the readable event that fills it. */
  function PageEnd(blobs: Blobs, candidates: seq<Event>, limit: nat): (end: nat)
    ensures end <= |candidates|
  {
    if limit == 0 || candidates == [] then 0
    else 1 + PageEnd(blobs, candidates[1..], if Readable(blobs, candidates[0]) then limit - 1 else limit)
  }

  function Lower(direction: Direction, boundary: Text, until: Option<Text>): Option<Text> {
    if direction.After? then Some(boundary) else until
  }

  function Upper(direction: Direction, boundary: Text, until: Option<Text>): Option<Text> {
    if direction.After? then until else Some(boundary)
  }

  function Between(thread: seq<Event>, direction: Direction, boundary: Text, until: Option<Text>): seq<Event> {
    Inside(thread, Key, Lower(direction, boundary, until), Upper(direction, boundary, until))
  }

  /** The page next to the boundary, in message order, and whether the range goes on behind it. */
  function WindowOf(blobs: Blobs, thread: seq<Event>, direction: Direction, boundary: Text, until: Option<Text>,
                    limit: nat): Page
  {
    var inside := Between(thread, direction, boundary, until);
    if direction.After? then
      var end := PageEnd(blobs, inside, limit);
      Page(Messages(blobs, thread, inside[..end]), end < |inside|)
    else
      var end := PageEnd(blobs, Reverse(inside), limit);
      Page(Messages(blobs, thread, inside[|inside| - end..]), end < |inside|)
  }

  lemma WindowIsTruthful(blobs: Blobs, thread: seq<Event>, direction: Direction, boundary: Text, until: Option<Text>, limit: nat)
    ensures forall m :: m in WindowOf(blobs, thread, direction, boundary, until, limit).messages ==> Truthful(blobs, thread, m)
  {
    hide Truthful, Messages, PageEnd, Reverse;
    var inside := Between(thread, direction, boundary, until);
    if direction.After? {
      MessagesAreTruthful(blobs, thread, inside[..PageEnd(blobs, inside, limit)]);
    } else {
      MessagesAreTruthful(blobs, thread, inside[|inside| - PageEnd(blobs, Reverse(inside), limit)..]);
    }
  }

  /** Reading a batch no longer than the room left moves the page's end on by the whole batch. */
  lemma {:induction false} PageEndAfterBatch(blobs: Blobs, thread: seq<Event>, c: seq<Event>, limit: nat, n: nat)
    requires n <= |c| && n <= limit
    ensures |Messages(blobs, thread, c[..n])| <= n
    ensures PageEnd(blobs, c, limit) == n + PageEnd(blobs, c[n..], limit - |Messages(blobs, thread, c[..n])|)
    decreases n
  {
    hide Readable, MessageOf;
    MessagesAreOfEvents(blobs, thread, c[..n]);
    if n > 0 {
      PageEndAfterBatch(blobs, thread, c[1..], if Readable(blobs, c[0]) then limit - 1 else limit, n - 1);
      assert c[..n][1..] == c[1..][..n - 1];
      assert c[1..][n - 1..] == c[n..];
    } else {
      assert c[0..] == c;
    }
  }

  /** Pages backward or forward from a boundary, over unreadable messages, until the page is full. */
  method Window(blobs: Blobs, thread: seq<Event>, epoch: nat, expectedEpoch: nat, direction: Direction,
                boundary: Boundary, until: Option<Boundary>, limit: int)
    returns (r: Result<Page, WindowError>)
    requires Ascending(thread, Key)
    ensures r == Err(InvalidRequest) <==>
            BoundaryKey(boundary).None? || (until.Some? && BoundaryKey(until.value).None?) || !(1 <= limit <= 50)
    ensures r.Err? && r.error.ContextChanged? ==> epoch != expectedEpoch
    ensures r.Ok? ==> epoch == expectedEpoch &&
                      r.value == WindowOf(blobs, thread, direction, BoundaryKey(boundary).value,
                                          if until.Some? then BoundaryKey(until.value) else None, limit)
    ensures r.Ok? ==> forall m :: m in r.value.messages ==> Truthful(blobs, thread, m)
  {
    hide Key, MessageKey, Readable, MessageOf, Sort, BoundaryKey, Ascending, WindowOf, Nearest;
    var edge, stop := BoundaryKey(boundary), if until.Some? then BoundaryKey(until.value) else None;
    if edge.None? || (until.Some? && stop.None?) || !(1 <= limit <= 50) { return Err(InvalidRequest); }
    if epoch != expectedEpoch { return Err(ContextChanged); }

    var candidates := Candidates(thread, direction, edge.value, stop);
    var messages, examined := FillPage(blobs, thread, candidates, limit);
    PageInOrder(blobs, thread, direction, edge.value, stop, limit);
    WindowIsTruthful(blobs, thread, direction, edge.value, stop, limit);
    r := Ok(Page(Sort(messages, MessageKey), examined < |candidates|));
  }

  /** Reads candidates in batches no larger than the room left, until the page is full or they run out. */
  method FillPage(blobs: Blobs, thread: seq<Event>, candidates: seq<nat>, limit: nat)
    returns (messages: seq<Message>, examined: nat)
    requires IndexesInto(thread, candidates)
    ensures examined == PageEnd(blobs, Pick(thread, candidates), limit)
    ensures messages == Messages(blobs, thread, Pick(thread, candidates)[..examined])
  {
    hide Messages, PageEnd, Readable, KeptOf;
    ghost var c := Pick(thread, candidates);
    PageEnds(blobs, thread);
    messages, examined := [], 0;
    assert c[..0] == [] && c[0..] == c;
    while |messages| < limit && examined < |candidates|
      invariant examined <= |candidates| && |messages| <= limit
      invariant messages == Messages(blobs, thread, c[..examined])
      invariant PageEnd(blobs, c, limit) == examined + PageEnd(blobs, c[examined..], limit - |messages|)
    {
      var room := limit - |messages|;
      var size := if room <= |candidates| - examined then room else |candidates| - examined;
      var read, _, _ := ReadMessages(blobs, thread, candidates[examined..examined + size]);
      assert Pick(thread, candidates[examined..examined + size]) == c[examined..][..size];
      NextBatch(blobs, thread, c, examined, size, room);
      messages := messages + read;
      examined := examined + size;
    }
  }

  lemma PageEnds(blobs: Blobs, thread: seq<Event>)
    ensures Messages(blobs, thread, []) == []
    ensures forall d :: PageEnd(blobs, d, 0) == 0
    ensures forall room: nat :: PageEnd(blobs, [], room) == 0
  {
  }

  lemma NextBatch(blobs: Blobs, thread: seq<Event>, c: seq<Event>, examined: nat, size: nat, room: nat)
    requires examined + size <= |c| && size <= room
    ensures var read := Messages(blobs, thread, c[examined..][..size]);
            && |read| <= size
            && Messages(blobs, thread, c[..examined + size]) == Messages(blobs, thread, c[..examined]) + read
            && PageEnd(blobs, c[examined..], room) == size + PageEnd(blobs, c[examined + size..], room - |read|)
  {
    hide Messages, PageEnd;
    PageEndAfterBatch(blobs, thread, c[examined..], room, size);
    MessagesConcat(blobs, thread, c[..examined], c[examined..][..size]);
    assert c[..examined] + c[examined..][..size] == c[..examined + size];
    assert c[examined..][size..] == c[examined + size..];
  }

  /** The indexes in range, nearest to the boundary first. */
  method Candidates(thread: seq<Event>, direction: Direction, boundary: Text, until: Option<Text>)
    returns (candidates: seq<nat>)
    ensures IndexesInto(thread, candidates)
    ensures Pick(thread, candidates) == Nearest(thread, direction, boundary, until)
  {
    hide Key, InRange, Inside;
    candidates := [];
    var lo, hi := Lower(direction, boundary, until), Upper(direction, boundary, until);
    InsideAllOrNone(thread[..0], Key, lo, hi);
    for i := 0 to |thread|
      invariant IndexesInto(thread, candidates)
      invariant Pick(thread, candidates) == Inside(thread[..i], Key, lo, hi)
    {
      assert thread[..i + 1] == thread[..i] + [thread[i]];
      InsideConcat(thread[..i], [thread[i]], Key, lo, hi);
      InsideAllOrNone([thread[i]], Key, lo, hi);
      if InRange(Key(thread[i]), lo, hi) {
        candidates := candidates + [i];
      }
    }
    assert thread[..|thread|] == thread;
    if direction.Before? {
      ghost var forward := candidates;
      candidates := Reverse(candidates);
      assert Pick(thread, candidates) == Reverse(Pick(thread, forward));
    }
  }

  function Nearest(thread: seq<Event>, direction: Direction, boundary: Text, until: Option<Text>): seq<Event> {
    var inside := Between(thread, direction, boundary, until);
    if direction.After? then inside else Reverse(inside)
  }

  lemma SortPart(blobs: Blobs, thread: seq<Event>, part: seq<Event>)
    requires Ascending(part, Key)
    ensures Sort(Messages(blobs, thread, part), MessageKey) == Messages(blobs, thread, part)
    ensures Sort(Messages(blobs, thread, Reverse(part)), MessageKey) == Messages(blobs, thread, part)
  {
    hide *;
    MessagesAreOfEvents(blobs, thread, part);
    MessagesReversed(blobs, thread, part);
    SortKeepsAscending(Messages(blobs, thread, part), MessageKey);
    SortReversesDescending(Messages(blobs, thread, part), MessageKey);
  }

  lemma {:induction false} ReversedPrefix<T>(s: seq<T>, n: nat)
    requires n <= |s|
    ensures Reverse(s)[..n] == Reverse(s[|s| - n..])
    decreases |s|
  {
    if n == |s| {
      assert s[0..] == s;
    } else {
      ReversedPrefix(s[1..], n);
      assert s[1..][|s| - 1 - n..] == s[|s| - n..];
      assert (Reverse(s[1..]) + [s[0]])[..n] == Reverse(s[1..])[..n];
    }
  }

  /** Sorted, what was read nearest first is the page next to the boundary. */
  lemma PageInOrder(blobs: Blobs, thread: seq<Event>, direction: Direction, boundary: Text, until: Option<Text>, limit: nat)
    requires Ascending(thread, Key)
    ensures var c := Nearest(thread, direction, boundary, until);
            var end := PageEnd(blobs, c, limit);
            Page(Sort(Messages(blobs, thread, c[..end]), MessageKey), end < |c|) ==
            WindowOf(blobs, thread, direction, boundary, until, limit)
  {
    hide WindowOf, Nearest, Messages, PageEnd, Sort;
    if direction.After? {
      PageInOrderAfter(blobs, thread, boundary, until, limit);
    } else {
      PageInOrderBefore(blobs, thread, boundary, until, limit);
    }
  }

  lemma PageInOrderAfter(blobs: Blobs, thread: seq<Event>, boundary: Text, until: Option<Text>, limit: nat)
    requires Ascending(thread, Key)
    ensures var c := Nearest(thread, After, boundary, until);
            var end := PageEnd(blobs, c, limit);
            Page(Sort(Messages(blobs, thread, c[..end]), MessageKey), end < |c|) ==
            WindowOf(blobs, thread, After, boundary, until, limit)
  {
    hide Key, MessageKey, Sort, Messages, InRange, Inside, PageEnd, Reverse, Ascending;
    var inside := Inside(thread, Key, Some(boundary), until);
    InsideAscends(thread, Key, Some(boundary), until);
    AscendingPart(inside, 0, PageEnd(blobs, inside, limit));
    SortPart(blobs, thread, inside[..PageEnd(blobs, inside, limit)]);
  }

  lemma PageInOrderBefore(blobs: Blobs, thread: seq<Event>, boundary: Text, until: Option<Text>, limit: nat)
    requires Ascending(thread, Key)
    ensures var c := Nearest(thread, Before, boundary, until);
            var end := PageEnd(blobs, c, limit);
            Page(Sort(Messages(blobs, thread, c[..end]), MessageKey), end < |c|) ==
            WindowOf(blobs, thread, Before, boundary, until, limit)
  {
    hide Key, MessageKey, Sort, Messages, InRange, Inside, PageEnd, Reverse, Ascending;
    var inside := Inside(thread, Key, until, Some(boundary));
    InsideAscends(thread, Key, until, Some(boundary));
    var end := PageEnd(blobs, Reverse(inside), limit);
    ReversedPrefix(inside, end);
    AscendingPart(inside, |inside| - end, |inside|);
    SortPart(blobs, thread, inside[|inside| - end..]);
  }

  lemma AscendingPart(s: seq<Event>, from: nat, to: nat)
    requires Ascending(s, Key) && from <= to <= |s|
    ensures Ascending(s[from..to], Key) && s[0..to] == s[..to] && s[from..|s|] == s[from..]
  {
    hide Key, Less;
  }
}
