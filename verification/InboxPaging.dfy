/** What paging the inbox list delivers: when a page is the newest of the list, and when paging reaches its end. */
module InboxPaging {
  import opened Wrappers
  import opened MessageKeys
  import opened InboxScan
  import opened InboxHeads

  function FetchSize(limit: int, excluded: nat): nat
    requires limit >= 1
  {
    NormalizeInboxLimit(limit + excluded).value
  }

  function PageSize(limit: int): nat
    requires limit >= 1
  {
    NormalizeInboxLimit(limit).value
  }

  /** The page with a limit, in terms of lists only. */
  lemma PageParts(heads: seq<InboxItem>, out: set<nat>, limit: int)
    requires limit >= 1
    ensures var page, f := PageOf(heads, out, Some(limit)), FetchSize(limit, |out|);
            var all := Live(Last(heads, f), out);
            && page.live == Last(all, PageSize(limit))
            && (page.hasOlder <==> |all| > PageSize(limit) || |heads| >= f)
  {
  }

  lemma LiveSuffix(heads: seq<InboxItem>, out: set<nat>, i: nat)
    requires i <= |heads|
    ensures Live(heads, out) == Live(heads[..i], out) + Live(heads[i..], out)
  {
    assert heads == heads[..i] + heads[i..];
    HeadsConcat(heads[..i], heads[i..], out, false);
  }

  lemma {:induction false} LiveElements(heads: seq<InboxItem>, out: set<nat>)
    ensures forall h :: h in Live(heads, out) <==> h in heads && h.conversation !in out
    ensures |Live(heads, out)| <= |heads|
  {
    if heads != [] { LiveElements(heads[1..], out); }
  }

  // ----- one page

  /** `hasOlder == false` always means that no live head was left behind. */
  lemma NothingOlderMeansAll(heads: seq<InboxItem>, out: set<nat>, limit: Option<int>)
    requires !PageOf(heads, out, limit).hasOlder
    ensures PageOf(heads, out, limit).live == Live(heads, out)
  {
  }

  /** Heads of distinct conversations of `out`: no more than `out` has. */
  lemma {:induction false} AtMostExcluded(heads: seq<InboxItem>, out: set<nat>)
    requires OneEach(heads)
    ensures |heads| <= |Live(heads, out)| + |out|
    decreases |heads|
  {
    if heads != [] {
      var c := heads[0].conversation;
      if c in out {
        AtMostExcluded(heads[1..], out - {c});
        SameLive(heads[1..], out, c);
      } else {
        AtMostExcluded(heads[1..], out);
      }
    }
  }

  lemma {:induction false} SameLive(heads: seq<InboxItem>, out: set<nat>, c: nat)
    requires forall i :: 0 <= i < |heads| ==> heads[i].conversation != c
    ensures Live(heads, out - {c}) == Live(heads, out)
  {
    if heads != [] { SameLive(heads[1..], out, c); }
  }

  /** While the page cap does not bind, fetching more and partitioning is filtering the whole list and taking the newest. */
  lemma OverfetchIsFilterThenTake(heads: seq<InboxItem>, out: set<nat>, limit: int)
    requires limit >= 1 && OneEach(heads) && limit + |out| <= INBOX_PAGE_MAX
    ensures PageOf(heads, out, Some(limit)).live == Last(Live(heads, out), limit)
  {
    hide Heads, PageOf;
    PageParts(heads, out, limit);
    var f := limit + |out|;
    if |heads| > f {
      var i := |heads| - f;
      LiveSuffix(heads, out, i);
      AtMostExcluded(heads[i..], out);
    }
  }

  // ----- paging by nextBefore

  /** Where the live head at `k` stands. */
  function Place(heads: seq<InboxItem>, out: set<nat>, k: nat): (i: nat)
    requires k < |Live(heads, out)|
    ensures i < |heads| && heads[i] == Live(heads, out)[k]
    ensures heads[i].conversation !in out && |Live(heads[..i], out)| == k
    ensures Live(heads[..i], out) == Live(heads, out)[..k]
    ensures Live(heads[i..], out) == Live(heads, out)[k..]
  {
    if heads[0].conversation in out then
      var i := Place(heads[1..], out, k);
      assert heads[..i + 1][1..] == heads[1..][..i];
      assert heads[i + 1..] == heads[1..][i..];
      i + 1
    else if k == 0 then
      assert heads[0..] == heads && heads[..0] == [];
      0
    else
      var i := Place(heads[1..], out, k - 1);
      assert heads[..i + 1][1..] == heads[1..][..i];
      assert heads[i + 1..] == heads[1..][i..];
      i + 1
  }

  lemma {:induction false} BeforeIsPrefix(heads: seq<InboxItem>, i: nat)
    requires Ordered(heads) && i < |heads|
    ensures Before(heads, Some(heads[i].at)) == heads[..i]
  {
    hide IsAfter;
    BeforeConcat(heads[..i], heads[i..], heads[i].at);
    assert heads == heads[..i] + heads[i..];
    BeforeAll(heads[..i], heads[i].at);
    forall j | 0 <= j < |heads[i..]| ensures !IsAfter(heads[i].at, heads[i..][j].at) {
      AfterIsStrict(heads[i].at, heads[i + j].at, heads[i].at);
    }
    BeforeNone(heads[i..], heads[i].at);
  }

  lemma {:induction false} BeforeConcat(s: seq<InboxItem>, t: seq<InboxItem>, cursor: Row)
    ensures Before(s + t, Some(cursor)) == Before(s, Some(cursor)) + Before(t, Some(cursor))
  {
    hide IsAfter;
    if s == [] {
      assert s + t == t;
    } else {
      assert (s + t)[1..] == s[1..] + t;
      BeforeConcat(s[1..], t, cursor);
    }
  }

  lemma {:induction false} BeforeAll(s: seq<InboxItem>, cursor: Row)
    requires forall j :: 0 <= j < |s| ==> IsAfter(cursor, s[j].at)
    ensures Before(s, Some(cursor)) == s
  {
    hide IsAfter;
    if s != [] { BeforeAll(s[1..], cursor); }
  }

  lemma {:induction false} BeforeNone(s: seq<InboxItem>, cursor: Row)
    requires forall j :: 0 <= j < |s| ==> !IsAfter(cursor, s[j].at)
    ensures Before(s, Some(cursor)) == []
  {
    hide IsAfter;
    if s != [] { BeforeNone(s[1..], cursor); }
  }

  /** Behind a page's cursor lie exactly the live heads that the page does not hold. */
  lemma NextPageStartsBehind(heads: seq<InboxItem>, out: set<nat>, limit: int)
    requires limit >= 1 && Ordered(heads) && PageOf(heads, out, Some(limit)).nextBefore.Some?
    ensures var page := PageOf(heads, out, Some(limit)); var rest := Before(heads, page.nextBefore);
            && |rest| < |heads| && rest == heads[..|rest|] && Ordered(rest)
            && |heads| - |rest| <= FetchSize(limit, |out|) && heads[|rest|].conversation !in out
            && Live(heads, out) == Live(rest, out) + page.live
  {
    hide Heads, IsAfter, Before, Ordered, PageOf;
    PageParts(heads, out, limit);
    var page, f := PageOf(heads, out, Some(limit)), FetchSize(limit, |out|);
    var start := |heads| - |Last(heads, f)|;
    assert heads[start..] == Last(heads, f);
    CursorIsFirst(heads, out, limit);
    var i := CutAtPage(heads, out, start, page.live);
    BeforeIsPrefix(heads, i);
    PrefixOrdered(heads, i);
  }

  lemma CursorIsFirst(heads: seq<InboxItem>, out: set<nat>, limit: int)
    requires PageOf(heads, out, Some(limit)).nextBefore.Some?
    ensures var page := PageOf(heads, out, Some(limit));
            page.live != [] && page.nextBefore == Some(page.live[0].at)
  {
    hide Heads;
  }

  lemma PrefixOrdered(heads: seq<InboxItem>, i: nat)
    requires Ordered(heads) && i <= |heads|
    ensures Ordered(heads[..i])
  {
    hide IsAfter;
  }

  /** The oldest head of a page, and the live heads on both sides of it. */
  lemma CutAtPage(heads: seq<InboxItem>, out: set<nat>, start: nat, live: seq<InboxItem>) returns (i: nat)
    requires start <= |heads| && live != [] && exists n: nat :: live == Last(Live(heads[start..], out), n)
    ensures start <= i < |heads| && heads[i] == live[0] && heads[i].conversation !in out
    ensures Live(heads, out) == Live(heads[..i], out) + live
  {
    hide Heads;
    var all := Live(heads[start..], out);
    var k := |all| - |live|;
    assert live == all[k..];
    var at := Place(heads[start..], out, k);
    i := start + at;
    LiveSuffix(heads, out, i);
    assert heads[start..][at..] == heads[i..];
  }

  /** The caller's loop: ask for what is before the page while there is more and a cursor to ask with. */
  function Pages(heads: seq<InboxItem>, out: set<nat>, limit: int): seq<InboxItem>
    requires limit >= 1 && Ordered(heads)
    decreases |heads|
  {
    var page := PageOf(heads, out, Some(limit));
    if !page.hasOlder || page.nextBefore.None? then page.live
    else
      NextPageStartsBehind(heads, out, limit);
      Pages(Before(heads, page.nextBefore), out, limit) + page.live
  }

  /** No live head has `f` or more excluded ones directly above it. */
  predicate NoWall(heads: seq<InboxItem>, out: set<nat>, f: nat) {
    forall i :: 0 <= i && i + f < |heads| && heads[i].conversation !in out ==>
      exists j :: i < j <= i + f && heads[j].conversation !in out
  }

  /** Paging visits every live head exactly once exactly if no wall of excluded heads as long as a fetch stands above one. */
  lemma {:induction false} PagesAreCompleteWithoutWall(heads: seq<InboxItem>, out: set<nat>, limit: int)
    requires limit >= 1 && Ordered(heads)
    ensures Pages(heads, out, limit) == Live(heads, out) <==> NoWall(heads, out, FetchSize(limit, |out|))
    decreases |heads|
  {
    hide Heads, IsAfter, Before, Ordered, PageOf, NoWall;
    PageParts(heads, out, limit);
    var page, f := PageOf(heads, out, Some(limit)), FetchSize(limit, |out|);
    if !page.hasOlder {
      NothingOlderMeansAll(heads, out, Some(limit));
      ShortHasNoWall(heads, out, f);
    } else if page.nextBefore.None? {
      CursorNone(heads, out, limit);
      EmptyPage(heads, out, f);
    } else {
      NextPageStartsBehind(heads, out, limit);
      var rest := Before(heads, page.nextBefore);
      PagesAreCompleteWithoutWall(rest, out, limit);
      WallOfRest(heads, out, f, |rest|);
      var below := Pages(rest, out, limit);
      assert below + page.live == Live(rest, out) + page.live <==> below == Live(rest, out) by {
        SameTail(below, Live(rest, out), page.live);
      }
    }
  }

  lemma SameTail<T>(s: seq<T>, t: seq<T>, tail: seq<T>)
    ensures s + tail == t + tail <==> s == t
  {
    if s + tail == t + tail {
      assert |s| == |t|;
      assert s == (s + tail)[..|s|] && t == (t + tail)[..|t|];
    }
  }

  lemma ShortHasNoWall(heads: seq<InboxItem>, out: set<nat>, f: nat)
    requires |heads| <= f
    ensures NoWall(heads, out, f)
  {
  }

  lemma CursorNone(heads: seq<InboxItem>, out: set<nat>, limit: int)
    requires limit >= 1 && PageOf(heads, out, Some(limit)).nextBefore.None?
    ensures Live(Last(heads, FetchSize(limit, |out|)), out) == [] && PageOf(heads, out, Some(limit)).live == []
  {
    hide Heads;
  }

  /** A fetch of excluded heads only: nothing is missed exactly if no live head is below it. */
  lemma EmptyPage(heads: seq<InboxItem>, out: set<nat>, f: nat)
    requires Live(Last(heads, f), out) == []
    ensures Live(heads, out) == [] <==> NoWall(heads, out, f)
  {
    hide Heads;
    LiveElements(heads, out);
    LiveElements(Last(heads, f), out);
    if Live(heads, out) != [] {
      var k := |Live(heads, out)| - 1;
      var i := Place(heads, out, k);
      assert heads[i..][1..] == heads[i + 1..];
      LiveElements(heads[i + 1..], out);
      LiveSuffix(heads[i..], out, 1);
      assert Live(heads[i..], out) == Live(heads, out)[k..];
      OneLive(heads[i..], out);
      if i + f >= |heads| {
        InLast(heads, f, i);
        assert false;
      }
      forall j | i < j < |heads| ensures heads[j].conversation in out {
        assert heads[j] == heads[i + 1..][j - i - 1];
      }
    } else {
      forall i | 0 <= i < |heads| ensures heads[i].conversation in out {
        assert heads[i] in heads;
      }
    }
  }

  lemma InLast(heads: seq<InboxItem>, f: nat, i: nat)
    requires i < |heads| <= i + f
    ensures heads[i] in Last(heads, f)
  {
    assert |heads| > f ==> heads[i] == Last(heads, f)[i + f - |heads|];
  }

  lemma OneLive(heads: seq<InboxItem>, out: set<nat>)
    requires heads != [] && heads[0].conversation !in out && |Live(heads, out)| == 1
    ensures Live(heads[1..], out) == []
  {
  }

  /** A live head within the last `f` keeps every wall below it. */
  lemma WallOfRest(heads: seq<InboxItem>, out: set<nat>, f: nat, n: nat)
    requires n < |heads| && |heads| - n <= f && heads[n].conversation !in out
    ensures NoWall(heads, out, f) <==> NoWall(heads[..n], out, f)
  {
  }

  /** While the page cap does not bind there is no wall, and paging visits every live head once. */
  lemma PagesAreCompleteBelowTheCap(heads: seq<InboxItem>, out: set<nat>, limit: int)
    requires limit >= 1 && Ordered(heads) && OneEach(heads) && limit + |out| <= INBOX_PAGE_MAX
    ensures Pages(heads, out, limit) == Live(heads, out)
  {
    hide Heads, Ordered;
    var f := FetchSize(limit, |out|);
    forall i | 0 <= i && i + f < |heads| && heads[i].conversation !in out
      ensures exists j :: i < j <= i + f && heads[j].conversation !in out
    {
      var above := heads[i + 1..i + f + 1];
      AtMostExcluded(above, out);
      LiveElements(above, out);
      var h := Live(above, out)[0];
      assert h in above;
      var j :| 0 <= j < |above| && above[j] == h;
      assert heads[i + 1 + j] == h;
    }
    PagesAreCompleteWithoutWall(heads, out, limit);
  }

  /** At the cap a page can be empty, with older heads announced and no cursor to ask for them. */
  lemma FullOfExcludedHeadsIsStuck(heads: seq<InboxItem>, out: set<nat>, limit: int)
    requires limit >= 1 && Live(Last(heads, FetchSize(limit, |out|)), out) == [] && |heads| >= FetchSize(limit, |out|)
    ensures PageOf(heads, out, Some(limit)) == HeadsPage([], None, true)
  {
    PageParts(heads, out, limit);
  }

  /** One live head with two hundred excluded ones above it. */
  function Wall(): seq<InboxItem> {
    seq(201, i requires 0 <= i < 201 => InboxItem(Row([i as Unit], []), i))
  }

  function UpTo(n: nat): (s: set<nat>)
    ensures forall i :: i in s <==> 1 <= i <= n
  {
    if n == 0 then {} else UpTo(n - 1) + {n}
  }

  function Excluded(): set<nat> {
    UpTo(200)
  }

  /** Asking for a full page of that list gives an empty one, announces older heads, and paging never comes to the live head. */
  lemma WallHidesTheLiveHead()
    ensures Ordered(Wall()) && Live(Wall(), Excluded()) == [InboxItem(Row([0], []), 0)]
    ensures PageOf(Wall(), Excluded(), Some(200)) == HeadsPage([], None, true) && Pages(Wall(), Excluded(), 200) == []
  {
    hide Heads, Pages, PageOf, UpTo;
    forall i, j | 0 <= i < j < 201 ensures IsAfter(Wall()[j].at, Wall()[i].at) {
      assert Wall()[i].at.occurredAt == [i as Unit] && Wall()[j].at.occurredAt == [j as Unit];
      assert [i as Unit][0] != [j as Unit][0];
    }
    var top := Last(Wall(), 200);
    LiveElements(top, Excluded());
    forall h | h in top ensures h.conversation in Excluded() {
      var k :| 0 <= k < 200 && top[k] == h;
      assert top[k] == Wall()[k + 1];
    }
    FirstIsIn(Live(top, Excluded()));
    FullOfExcludedHeadsIsStuck(Wall(), Excluded(), 200);
    LiveSuffix(Wall(), Excluded(), 1);
    assert Wall()[1..] == top;
    OnlyTheFirst();
    StuckPages(Wall(), Excluded(), 200);
  }

  lemma FirstIsIn<T>(s: seq<T>)
    ensures s != [] ==> s[0] in s
  {
  }

  lemma OnlyTheFirst()
    ensures Live(Wall()[..1], Excluded()) == [InboxItem(Row([0], []), 0)]
  {
    hide UpTo;
    assert Wall()[..1] == [InboxItem(Row([0], []), 0)];
  }

  lemma StuckPages(heads: seq<InboxItem>, out: set<nat>, limit: int)
    requires limit >= 1 && Ordered(heads) && PageOf(heads, out, Some(limit)) == HeadsPage([], None, true)
    ensures Pages(heads, out, limit) == []
  {
    hide PageOf, Ordered;
  }
}
