/**
 The inbox list: one head a conversation, newest last. Pinned conversations and ones with active work are shown
 elsewhere, so a page of the rest is fetched with room for them and then partitioned.
 */
module InboxHeads {
  import opened Wrappers
  import opened MessageKeys
  import opened InboxScan

  datatype InboxItem = InboxItem(at: Row, conversation: nat)

  datatype Pref = Pref(conversation: nat, pinned: bool, hidden: bool)

  const INBOX_PAGE_MAX: nat := 200

  predicate Ordered(heads: seq<InboxItem>) {
    forall i, j :: 0 <= i < j < |heads| ==> IsAfter(heads[j].at, heads[i].at)
  }

  predicate OneEach(heads: seq<InboxItem>) {
    forall i, j :: 0 <= i < j < |heads| ==> heads[i].conversation != heads[j].conversation
  }

  function NormalizeInboxLimit(limit: int): Option<nat> {
    if limit < 1 then None else Some(if limit <= INBOX_PAGE_MAX then limit else INBOX_PAGE_MAX)
  }

  function HeadsLiveFetchLimit(limit: Option<int>, excluded: nat): Option<int> {
    if limit.None? then None
    else
      var fetch := NormalizeInboxLimit(limit.value + excluded);
      if fetch.None? then limit else Some(fetch.value)
  }

  /** The pinned conversations of this list, and the other ones with active work. */
  function SplitHeadExcludeIds(prefs: seq<Pref>, work: seq<nat>, hiddenList: bool): (set<nat>, set<nat>) {
    var pinned := set p | p in prefs && p.pinned && p.hidden == hiddenList :: p.conversation;
    (pinned, if hiddenList then {} else set id | id in work && id !in pinned)
  }

  /** Left out of the page: pinned on this list, or, on the visible list, with work under way. */
  predicate ShownElsewhere(conversation: nat, prefs: seq<Pref>, work: seq<nat>, hiddenList: bool) {
    || (exists p :: p in prefs && p.conversation == conversation && p.pinned && (if hiddenList then p.hidden else !p.hidden))
    || (!hiddenList && conversation in work)
  }

  lemma SplitExactly(prefs: seq<Pref>, work: seq<nat>, hiddenList: bool)
    ensures var (pinned, jobs) := SplitHeadExcludeIds(prefs, work, hiddenList);
            && pinned !! jobs
            && (forall c :: c in pinned + jobs <==> ShownElsewhere(c, prefs, work, hiddenList))
            && (forall c :: c in pinned <==>
                  exists p :: p in prefs && p.conversation == c && p.pinned && (if hiddenList then p.hidden else !p.hidden))
  {
  }

  function Last<T>(s: seq<T>, n: nat): seq<T> {
    if |s| <= n then s else s[|s| - n..]
  }

  /** The newest of an ordered list, up to the limit. */
  function TakeRecent(heads: seq<InboxItem>, limit: Option<int>): seq<InboxItem> {
    if limit.None? || NormalizeInboxLimit(limit.value).None? then heads
    else Last(heads, NormalizeInboxLimit(limit.value).value)
  }

  function Before(heads: seq<InboxItem>, cursor: Option<Row>): seq<InboxItem> {
    if heads == [] then []
    else if cursor.None? || IsAfter(cursor.value, heads[0].at) then [heads[0]] + Before(heads[1..], cursor)
    else Before(heads[1..], cursor)
  }

  /** The heads whose conversation is in `ids`, or is not. */
  function Heads(heads: seq<InboxItem>, ids: set<nat>, member: bool): seq<InboxItem> {
    if heads == [] then []
    else if (heads[0].conversation in ids) == member then [heads[0]] + Heads(heads[1..], ids, member)
    else Heads(heads[1..], ids, member)
  }

  function Live(heads: seq<InboxItem>, out: set<nat>): seq<InboxItem> {
    Heads(heads, out, false)
  }

  datatype HeadsPage = HeadsPage(live: seq<InboxItem>, nextBefore: Option<Row>, hasOlder: bool)

  lemma {:induction false} HeadsConcat(s: seq<InboxItem>, t: seq<InboxItem>, ids: set<nat>, member: bool)
    ensures Heads(s + t, ids, member) == Heads(s, ids, member) + Heads(t, ids, member)
  {
    if s == [] {
      assert s + t == t;
    } else {
      assert (s + t)[1..] == s[1..] + t;
      HeadsConcat(s[1..], t, ids, member);
    }
  }

  // ----- operations

  method PartitionLiveInboxHeads(items: seq<InboxItem>, pinned: set<nat>, work: set<nat>, limit: Option<int>,
                                 fetchedCount: nat, fetchLimit: Option<int>)
    returns (live: seq<InboxItem>, pinnedHeads: seq<InboxItem>, workHeads: seq<InboxItem>, hasOlder: bool)
    ensures live == TakeRecent(Live(items, pinned + work), limit)
    ensures pinnedHeads == Heads(items, pinned, true) && workHeads == Heads(items, work - pinned, true)
    ensures hasOlder <==> (limit.Some? && |Live(items, pinned + work)| > |live|) || (fetchLimit.Some? && fetchedCount >= fetchLimit.value)
  {
    pinnedHeads, workHeads := [], [];
    var liveAll := [];
    for i := 0 to |items|
      invariant pinnedHeads == Heads(items[..i], pinned, true)
      invariant workHeads == Heads(items[..i], work - pinned, true)
      invariant liveAll == Live(items[..i], pinned + work)
    {
      var item := items[i];
      assert items[..i + 1] == items[..i] + [item];
      HeadsConcat(items[..i], [item], pinned, true);
      HeadsConcat(items[..i], [item], work - pinned, true);
      HeadsConcat(items[..i], [item], pinned + work, false);
      if item.conversation in pinned {
        pinnedHeads := pinnedHeads + [item];
      } else if item.conversation in work {
        workHeads := workHeads + [item];
      } else {
        liveAll := liveAll + [item];
      }
    }
    assert items[..|items|] == items;
    live := TakeRecent(liveAll, limit);
    hasOlder := (limit.Some? && |liveAll| > |live|) || (fetchLimit.Some? && fetchedCount >= fetchLimit.value);
  }

  method HeadsNextBefore(live: seq<InboxItem>) returns (oldest: Option<Row>)
    ensures oldest.None? <==> live == []
    ensures oldest.Some? ==> exists i :: 0 <= i < |live| && live[i].at == oldest.value
    ensures oldest.Some? ==> forall i :: 0 <= i < |live| ==> !IsAfter(oldest.value, live[i].at)
  {
    hide IsAfter;
    oldest := None;
    for i := 0 to |live|
      invariant oldest.None? <==> i == 0
      invariant oldest.Some? ==> exists k :: 0 <= k < i && live[k].at == oldest.value
      invariant oldest.Some? ==> forall k :: 0 <= k < i ==> !IsAfter(oldest.value, live[k].at)
    {
      ghost var was := oldest;
      if oldest.None? || IsAfter(oldest.value, live[i].at) {
        oldest := Some(live[i].at);
      }
      forall k | 0 <= k <= i ensures !IsAfter(oldest.value, live[k].at) {
        AfterIsStrict(live[k].at, oldest.value, if was.Some? then was.value else oldest.value);
        AfterIsStrict(oldest.value, live[k].at, oldest.value);
      }
    }
  }

  /** A page of the list, from a store that keeps its heads in order. */
  method LivePage(store: seq<InboxItem>, prefs: seq<Pref>, work: seq<nat>, hiddenList: bool, limit: Option<int>, before: Option<Row>)
    returns (page: HeadsPage)
    requires Ordered(store)
    ensures var (pinned, jobs) := SplitHeadExcludeIds(prefs, work, hiddenList);
            page == PageOf(Before(store, before), pinned + jobs, limit)
    ensures forall h :: h in page.live ==> h in store && !ShownElsewhere(h.conversation, prefs, work, hiddenList)
    ensures limit.None? ==> forall h :: h in store && (before.None? || IsAfter(before.value, h.at)) ==>
                              (h in page.live <==> !ShownElsewhere(h.conversation, prefs, work, hiddenList))
  {
    SplitExactly(prefs, work, hiddenList);
    AllLive(store, before, prefs, work, hiddenList, limit);
    hide IsAfter, Before, Heads, TakeRecent, Ordered;
    var (pinned, jobs) := SplitHeadExcludeIds(prefs, work, hiddenList);
    assert |pinned + jobs| == |pinned| + |jobs|;
    var fetchLimit := HeadsLiveFetchLimit(limit, |pinned| + |jobs|);
    var scanned := TakeRecent(Before(store, before), fetchLimit);
    var live, _, _, hasOlder := PartitionLiveInboxHeads(scanned, pinned, jobs, limit, |scanned|, fetchLimit);
    var next := HeadsNextBefore(live);
    BeforeOrdered(store, before);
    RecentOrdered(Before(store, before), fetchLimit);
    LiveOrdered(scanned, pinned + jobs);
    RecentOrdered(Live(scanned, pinned + jobs), limit);
    if live != [] { OldestIsFirst(live, next.value); }
    page := HeadsPage(live, next, hasOlder);
  }

  lemma {:induction false} BeforeElements(heads: seq<InboxItem>, cursor: Option<Row>)
    ensures forall h :: h in Before(heads, cursor) <==> h in heads && (cursor.None? || IsAfter(cursor.value, h.at))
  {
    hide IsAfter;
    if heads != [] { BeforeElements(heads[1..], cursor); }
  }

  lemma {:induction false} HeadsElements(heads: seq<InboxItem>, ids: set<nat>, member: bool)
    ensures forall h :: h in Heads(heads, ids, member) <==> h in heads && (h.conversation in ids) == member
  {
    if heads != [] { HeadsElements(heads[1..], ids, member); }
  }

  /** The heads of a page: from before the cursor, not shown elsewhere, and all of those without a limit. */
  lemma AllLive(store: seq<InboxItem>, before: Option<Row>, prefs: seq<Pref>, work: seq<nat>, hiddenList: bool, limit: Option<int>)
    ensures var (pinned, jobs) := SplitHeadExcludeIds(prefs, work, hiddenList);
            var live := PageOf(Before(store, before), pinned + jobs, limit).live;
            && (forall h :: h in live ==> h in store && !ShownElsewhere(h.conversation, prefs, work, hiddenList))
            && (limit.None? ==> forall h :: h in store && (before.None? || IsAfter(before.value, h.at)) ==>
                  (h in live <==> !ShownElsewhere(h.conversation, prefs, work, hiddenList)))
  {
    hide IsAfter, ShownElsewhere, SplitHeadExcludeIds;
    var (pinned, jobs) := SplitHeadExcludeIds(prefs, work, hiddenList);
    SplitExactly(prefs, work, hiddenList);
    BeforeElements(store, before);
    var heads := Before(store, before);
    var scanned := TakeRecent(heads, HeadsLiveFetchLimit(limit, |pinned + jobs|));
    HeadsElements(scanned, pinned + jobs, false);
  }

  lemma RecentOrdered(heads: seq<InboxItem>, limit: Option<int>)
    requires Ordered(heads)
    ensures Ordered(TakeRecent(heads, limit))
  {
    hide IsAfter;
  }

  lemma OldestIsFirst(live: seq<InboxItem>, oldest: Row)
    requires Ordered(live) && exists i :: 0 <= i < |live| && live[i].at == oldest
    requires forall i :: 0 <= i < |live| ==> !IsAfter(oldest, live[i].at)
    ensures oldest == live[0].at
  {
    hide IsAfter;
  }

  /** The page of `heads`, all of them before the cursor, with the conversations in `out` shown elsewhere. */
  function PageOf(heads: seq<InboxItem>, out: set<nat>, limit: Option<int>): HeadsPage {
    var fetchLimit := HeadsLiveFetchLimit(limit, |out|);
    var scanned := TakeRecent(heads, fetchLimit);
    var all := Live(scanned, out);
    var live := TakeRecent(all, limit);
    HeadsPage(live, if live == [] then None else Some(live[0].at),
              (limit.Some? && |all| > |live|) || (fetchLimit.Some? && |scanned| >= fetchLimit.value))
  }

  lemma {:induction false} BeforeOrdered(heads: seq<InboxItem>, cursor: Option<Row>)
    requires Ordered(heads)
    ensures Ordered(Before(heads, cursor))
    ensures forall h :: h in Before(heads, cursor) ==> h in heads
  {
    hide IsAfter;
    if heads != [] {
      BeforeOrdered(heads[1..], cursor);
      forall h | h in Before(heads[1..], cursor) ensures IsAfter(h.at, heads[0].at) {}
    }
  }

  lemma {:induction false} LiveOrdered(heads: seq<InboxItem>, out: set<nat>)
    requires Ordered(heads)
    ensures Ordered(Live(heads, out))
    ensures forall h :: h in Live(heads, out) <==> h in heads && h.conversation !in out
  {
    hide IsAfter;
    if heads != [] {
      LiveOrdered(heads[1..], out);
      forall h | h in Live(heads[1..], out) ensures IsAfter(h.at, heads[0].at) {}
    }
  }
}
