/** The end of a thread, read backward through a store that caps its pages. */
module ThreadTail {
  import opened Wrappers
  import opened InboxScan
  import opened InboxHeads
  import opened InboxPaging

  /** The store's answer: the newest rows before the cursor, oldest first. */
  function ListInbox(thread: seq<InboxItem>, limit: int, before: Option<Row>): seq<InboxItem> {
    TakeRecent(Before(thread, before), Some(limit))
  }

  lemma {:induction false} BeforeNothing(thread: seq<InboxItem>)
    ensures Before(thread, None) == thread
  {
    if thread != [] { BeforeNothing(thread[1..]); }
  }

  lemma PageBefore(thread: seq<InboxItem>, read: nat, want: nat)
    requires Ordered(thread) && read <= |thread| && 1 <= want <= INBOX_PAGE_MAX
    ensures var before := if read == 0 then None else Some(thread[|thread| - read].at);
            ListInbox(thread, want, before) == Last(thread[..|thread| - read], want)
  {
    if read == 0 {
      BeforeNothing(thread);
      assert thread[..|thread|] == thread;
    } else {
      BeforeIsPrefix(thread, |thread| - read);
    }
  }

  /** The last `limit` rows in order, and whether the thread has more, for every length and page size. */
  method ReadThreadTail(thread: seq<InboxItem>, limit: nat) returns (rows: seq<InboxItem>, overflow: bool)
    requires Ordered(thread)
    ensures rows == Last(thread, limit)
    ensures overflow <==> |thread| > limit
  {
    hide Ordered, IsAfter, Before, TakeRecent;
    rows := [];
    var before := None;
    while |rows| <= limit
      invariant |rows| <= |thread| && |rows| <= limit + 1 && rows == thread[|thread| - |rows|..]
      invariant before == if rows == [] then None else Some(thread[|thread| - |rows|].at)
      decreases limit + 1 - |rows|
    {
      var want := if limit + 1 - |rows| <= INBOX_PAGE_MAX then limit + 1 - |rows| else INBOX_PAGE_MAX;
      var page := ListInbox(thread, want, before);
      PageBefore(thread, |rows|, want);
      ghost var rest := thread[..|thread| - |rows|];
      assert page == rest[|rest| - |page|..];
      rows := page + rows;
      assert rows == thread[|thread| - |rows|..];
      if |page| < want { break; }
      before := Some(page[0].at);
    }
    overflow := |rows| > limit;
    if overflow { rows := rows[1..]; }
  }
}
