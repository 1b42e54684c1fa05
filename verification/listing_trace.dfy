/** A description of a listing that does not follow the client's loop: it
    reads the reply script position by position and says where a listing
    must stop, which request it sends at each position and what it returns.
    ListKnownSettings meets it, and it fixes the listing's requests and
    result, so it is a complete reference for the paginated read. */
module ListingTrace {
  import opened Results
  import opened Http
  import opened Client
  import opened KnownSettings

  /** Items of the 2xx replies from reply `from` up to (not including)
      reply `to`, in order. */
  function AcceptedItems(script: seq<Reply<Page>>, from: nat, to: nat): seq<Item>
    decreases to - from
  {
    if to <= from then []
    else
      var r := ReplyAt(script, from);
      (if r.Succeeded() then r.body.items else []) + AcceptedItems(script, from + 1, to)
  }

  /** The cursor of the latest 2xx reply among the first n. */
  function LatestCursor(script: seq<Reply<Page>>, n: nat): Option<string> {
    if n == 0 then None
    else if ReplyAt(script, n - 1).Succeeded() then ReplyAt(script, n - 1).body.nextPageKey
    else LatestCursor(script, n - 1)
  }

  /** Request `q`, sent as the i-th request, carries the latest cursor. */
  predicate CarriesCursor(script: seq<Reply<Page>>, i: nat, q: Query) {
    LatestCursor(script, i).Some? && q == NextPage(LatestCursor(script, i).value)
  }

  /** How many replies in a row, ending with reply i, were not 2xx. */
  function Streak(script: seq<Reply<Page>>, i: nat): nat {
    if ReplyAt(script, i).Succeeded() then 0
    else if i == 0 then 1
    else 1 + Streak(script, i - 1)
  }

  /** Reply i ends a listing: a 2xx page without cursor, a failed first
      request, or a failed request whose retries are all spent. */
  predicate IsStop(script: seq<Reply<Page>>, maxRetries: nat, i: nat) {
    if ReplyAt(script, i).Succeeded() then ReplyAt(script, i).body.nextPageKey.None?
    else i == 0 || Streak(script, i) > maxRetries
  }

  /** `l` is what a listing of `schemaId` against `script` must look like:
      it stops at the first stopping reply, its first request asks for the
      schema, every later request carries the latest cursor, and it
      succeeds exactly when the last reply was 2xx, with every accepted
      item in the map. */
  ghost predicate IsRunOf(schemaId: string, script: seq<Reply<Page>>, maxRetries: nat, l: Listing) {
    var n := |l.queries|;
    && n >= 1
    && (forall i | 0 <= i < n - 1 :: !IsStop(script, maxRetries, i))
    && IsStop(script, maxRetries, n - 1)
    && l.queries[0] == FirstPage(schemaId)
    && (forall i | 1 <= i < n :: CarriesCursor(script, i, l.queries[i]))
    && (l.result.Success? <==> ReplyAt(script, n - 1).Succeeded())
    && (l.result.Success? ==> l.result.value == Merge(map[], AcceptedItems(script, 0, n)))
  }

  /** Adding two runs of items one after the other is adding them at once. */
  lemma {:induction false} MergeAppend(acc: Settings, a: seq<Item>, b: seq<Item>)
    ensures Merge(acc, a + b) == Merge(Merge(acc, a), b)
    decreases |a|
  {
    if |a| == 0 {
      assert a + b == b;
    } else {
      assert (a + b)[0] == a[0];
      assert (a + b)[1..] == a[1..] + b;
      MergeAppend(acc[a[0].externalId := a[0].objectId], a[1..], b);
    }
  }

  /** Failed replies after a 2xx one leave the cursor where it was and count
      up the streak. */
  lemma {:induction false} RejectedRepliesKeepCursor(script: seq<Reply<Page>>, pos: nat, m: nat)
    requires 1 <= pos && ReplyAt(script, pos - 1).Succeeded()
    requires forall k | pos <= k < pos + m :: !ReplyAt(script, k).Succeeded()
    ensures LatestCursor(script, pos + m) == LatestCursor(script, pos)
    ensures m >= 1 ==> Streak(script, pos + m - 1) == m
  {
    if m > 0 {
      RejectedRepliesKeepCursor(script, pos, m - 1);
    }
  }

  /** Failed replies add no items: from `pos` on, the accepted items start
      with the page of the first 2xx reply. */
  lemma {:induction false} AcceptedFromPage(script: seq<Reply<Page>>, pos: nat, calls: nat, end: nat)
    requires 1 <= calls && pos + calls <= end
    requires forall k | pos <= k < pos + calls - 1 :: !ReplyAt(script, k).Succeeded()
    requires ReplyAt(script, pos + calls - 1).Succeeded()
    ensures AcceptedItems(script, pos, end) == ReplyAt(script, pos + calls - 1).body.items + AcceptedItems(script, pos + calls, end)
    decreases calls
  {
    if calls > 1 {
      AcceptedFromPage(script, pos + 1, calls - 1, end);
      assert AcceptedItems(script, pos, end) == [] + AcceptedItems(script, pos + 1, end);
    }
  }

  /** One request and its retries, sent after a 2xx reply whose cursor is
      `cursor`: every attempt carries that cursor, and only the last attempt
      can stop the listing, which it does when the budget is spent. */
  lemma FetchAttempts(script: seq<Reply<Page>>, pos: nat, cursor: string, maxRetries: nat)
    requires 1 <= pos && ReplyAt(script, pos - 1).Succeeded()
    requires LatestCursor(script, pos) == Some(cursor)
    ensures var f := FetchWithRetry(script, pos, maxRetries);
      && (forall i | pos <= i < pos + f.calls :: CarriesCursor(script, i, NextPage(cursor)))
      && (forall i | pos <= i < pos + f.calls - 1 :: !IsStop(script, maxRetries, i))
      && (f.Exhausted? ==> IsStop(script, maxRetries, pos + maxRetries))
  {
    var f := FetchWithRetry(script, pos, maxRetries);
    forall i | pos <= i < pos + f.calls
      ensures CarriesCursor(script, i, NextPage(cursor))
      ensures i < pos + f.calls - 1 ==> !IsStop(script, maxRetries, i)
    {
      RejectedRepliesKeepCursor(script, pos, i - pos);
      if i < pos + f.calls - 1 {
        RejectedRepliesKeepCursor(script, pos, i - pos + 1);
      }
    }
    if f.Exhausted? {
      RejectedRepliesKeepCursor(script, pos, maxRetries + 1);
    }
  }

  /** A request and its retries that fetched `page`: every attempt carries
      the cursor, none before the last stops the listing, the last stops it
      exactly when the page has no cursor, and the replies up to `end`
      contribute the page's items and then those after it. */
  lemma FetchedFacts(script: seq<Reply<Page>>, pos: nat, cursor: string, maxRetries: nat, page: Page, calls: nat, end: nat)
    requires TailStart(script, pos, cursor)
    requires FetchWithRetry(script, pos, maxRetries) == Fetched(page, calls)
    requires pos + calls <= end
    ensures forall i | pos <= i < pos + calls :: CarriesCursor(script, i, NextPage(cursor))
    ensures forall i | pos <= i < pos + calls - 1 :: !IsStop(script, maxRetries, i)
    ensures IsStop(script, maxRetries, pos + calls - 1) <==> page.nextPageKey.None?
    ensures AcceptedItems(script, pos, end) == page.items + AcceptedItems(script, pos + calls, end)
  {
    FetchAttempts(script, pos, cursor, maxRetries);
    AcceptedFromPage(script, pos, calls, end);
  }

  /** When a request is answered 2xx after `calls` attempts, that page's
      cursor becomes the latest one. */
  lemma FetchedPage(script: seq<Reply<Page>>, pos: nat, maxRetries: nat, page: Page, calls: nat)
    requires 1 <= pos && ReplyAt(script, pos - 1).Succeeded()
    requires FetchWithRetry(script, pos, maxRetries) == Fetched(page, calls)
    ensures pos + calls <= |script|
    ensures LatestCursor(script, pos + calls) == page.nextPageKey
  {
  }

  /** What the cursor-following part of a listing started at reply `pos`
      with the map `acc` sends and returns, as the description says. */
  ghost predicate TailIsRun(script: seq<Reply<Page>>, maxRetries: nat, pos: nat, acc: Settings, l: Listing) {
    var n := pos + |l.queries|;
    && |l.queries| >= 1
    && (forall i | pos <= i < n - 1 :: !IsStop(script, maxRetries, i))
    && IsStop(script, maxRetries, n - 1)
    && (forall j | 0 <= j < |l.queries| :: CarriesCursor(script, pos + j, l.queries[j]))
    && (l.result.Success? <==> ReplyAt(script, n - 1).Succeeded())
    && (l.result.Success? ==> l.result.value == Merge(acc, AcceptedItems(script, pos, n)))
  }

  /** The cursor-following part of a listing starts right after a 2xx
      reply, with that reply's cursor. */
  ghost predicate TailStart(script: seq<Reply<Page>>, pos: nat, cursor: string) {
    && 1 <= pos && ReplyAt(script, pos - 1).Succeeded()
    && LatestCursor(script, pos) == Some(cursor)
  }

  /** A request whose attempts all carry `cursor` and whose last attempt
      stops the listing is a whole tail on its own. */
  lemma TailStops(script: seq<Reply<Page>>, maxRetries: nat, pos: nat, acc: Settings, cursor: string, calls: nat, result: Result<Settings, ListError>)
    requires calls >= 1
    requires forall i | pos <= i < pos + calls :: CarriesCursor(script, i, NextPage(cursor))
    requires forall i | pos <= i < pos + calls - 1 :: !IsStop(script, maxRetries, i)
    requires IsStop(script, maxRetries, pos + calls - 1)
    requires result.Success? <==> ReplyAt(script, pos + calls - 1).Succeeded()
    requires result.Success? ==> result.value == Merge(acc, AcceptedItems(script, pos, pos + calls))
    ensures TailIsRun(script, maxRetries, pos, acc, Listing(result, Repeat(NextPage(cursor), calls)))
  {
  }

  /** A request whose attempts all carry `cursor` and do not stop the
      listing, followed by a tail, is a tail. */
  lemma TailExtends(script: seq<Reply<Page>>, maxRetries: nat, pos: nat, acc: Settings, cursor: string, calls: nat, page: Page, rest: Listing)
    requires calls >= 1
    requires forall i | pos <= i < pos + calls :: CarriesCursor(script, i, NextPage(cursor))
    requires forall i | pos <= i < pos + calls - 1 :: !IsStop(script, maxRetries, i)
    requires !IsStop(script, maxRetries, pos + calls - 1)
    requires TailIsRun(script, maxRetries, pos + calls, Merge(acc, page.items), rest)
    requires AcceptedItems(script, pos, pos + calls + |rest.queries|)
      == page.items + AcceptedItems(script, pos + calls, pos + calls + |rest.queries|)
    ensures TailIsRun(script, maxRetries, pos, acc, Listing(rest.result, Repeat(NextPage(cursor), calls) + rest.queries))
  {
    var qs := Repeat(NextPage(cursor), calls) + rest.queries;
    assert forall i | pos <= i < pos + calls :: !IsStop(script, maxRetries, i);
    forall j | 0 <= j < |qs| ensures CarriesCursor(script, pos + j, qs[j]) {
      if j >= calls {
        assert qs[j] == rest.queries[j - calls];
        assert CarriesCursor(script, pos + calls + (j - calls), rest.queries[j - calls]);
      }
    }
    MergeAppend(acc, page.items, AcceptedItems(script, pos + calls, pos + |qs|));
  }

  /** A tail whose first request spends its retries ends there, failed. */
  lemma ExhaustedTail(script: seq<Reply<Page>>, pos: nat, cursor: string, acc: Settings, maxRetries: nat, last: Reply<Page>, calls: nat)
    requires TailStart(script, pos, cursor)
    requires FetchWithRetry(script, pos, maxRetries) == Exhausted(last, calls)
    ensures TailIsRun(script, maxRetries, pos, acc, NextPages(script, pos, cursor, acc, maxRetries))
  {
    var l := NextPages(script, pos, cursor, acc, maxRetries);
    assert l == Listing(Failure(RetriesExhausted(cursor, last)), Repeat(NextPage(cursor), calls));
    FetchAttempts(script, pos, cursor, maxRetries);
    TailStops(script, maxRetries, pos, acc, cursor, calls, l.result);
  }

  /** A tail whose first request brings a page without cursor ends there,
      with that page added. */
  lemma LastPageTail(script: seq<Reply<Page>>, pos: nat, cursor: string, acc: Settings, maxRetries: nat, page: Page, calls: nat)
    requires TailStart(script, pos, cursor)
    requires FetchWithRetry(script, pos, maxRetries) == Fetched(page, calls)
    requires page.nextPageKey.None?
    ensures TailIsRun(script, maxRetries, pos, acc, NextPages(script, pos, cursor, acc, maxRetries))
  {
    assert NextPages(script, pos, cursor, acc, maxRetries)
      == Listing(Success(Merge(acc, page.items)), Repeat(NextPage(cursor), calls));
    LastPageStops(script, pos, cursor, acc, maxRetries, page, calls);
  }

  /** The requests for a page without cursor form a whole tail. */
  lemma LastPageStops(script: seq<Reply<Page>>, pos: nat, cursor: string, acc: Settings, maxRetries: nat, page: Page, calls: nat)
    requires TailStart(script, pos, cursor)
    requires FetchWithRetry(script, pos, maxRetries) == Fetched(page, calls)
    requires page.nextPageKey.None?
    ensures TailIsRun(script, maxRetries, pos, acc, Listing(Success(Merge(acc, page.items)), Repeat(NextPage(cursor), calls)))
  {
    FetchedFacts(script, pos, cursor, maxRetries, page, calls, pos + calls);
    assert page.items + [] == page.items;
    TailStops(script, maxRetries, pos, acc, cursor, calls, Success(Merge(acc, page.items)));
  }

  /** A tail whose first request brings a page with a cursor goes on with
      the tail that follows that cursor. */
  lemma ContinuedTail(script: seq<Reply<Page>>, pos: nat, cursor: string, acc: Settings, maxRetries: nat, page: Page, calls: nat)
    requires TailStart(script, pos, cursor)
    requires FetchWithRetry(script, pos, maxRetries) == Fetched(page, calls)
    requires page.nextPageKey.Some?
    requires TailIsRun(script, maxRetries, pos + calls, Merge(acc, page.items),
      NextPages(script, pos + calls, page.nextPageKey.value, Merge(acc, page.items), maxRetries))
    ensures TailIsRun(script, maxRetries, pos, acc, NextPages(script, pos, cursor, acc, maxRetries))
  {
    var rest := NextPages(script, pos + calls, page.nextPageKey.value, Merge(acc, page.items), maxRetries);
    assert NextPages(script, pos, cursor, acc, maxRetries)
      == Listing(rest.result, Repeat(NextPage(cursor), calls) + rest.queries);
    PageThenTail(script, pos, cursor, acc, maxRetries, page, calls, rest);
  }

  /** The requests for a page with a cursor, followed by a tail from the
      reply after that page, form a tail. */
  lemma PageThenTail(script: seq<Reply<Page>>, pos: nat, cursor: string, acc: Settings, maxRetries: nat, page: Page, calls: nat, rest: Listing)
    requires TailStart(script, pos, cursor)
    requires FetchWithRetry(script, pos, maxRetries) == Fetched(page, calls)
    requires page.nextPageKey.Some?
    requires TailIsRun(script, maxRetries, pos + calls, Merge(acc, page.items), rest)
    ensures TailIsRun(script, maxRetries, pos, acc, Listing(rest.result, Repeat(NextPage(cursor), calls) + rest.queries))
  {
    FetchedFacts(script, pos, cursor, maxRetries, page, calls, pos + calls + |rest.queries|);
    TailExtends(script, maxRetries, pos, acc, cursor, calls, page, rest);
  }

  /** The cursor-following part of a listing, started after a 2xx reply
      whose cursor is `cursor`, meets the description from `pos` on. */
  lemma {:induction false} NextPagesIsRun(script: seq<Reply<Page>>, pos: nat, cursor: string, acc: Settings, maxRetries: nat)
    requires TailStart(script, pos, cursor)
    ensures TailIsRun(script, maxRetries, pos, acc, NextPages(script, pos, cursor, acc, maxRetries))
    decreases |script| - pos
  {
    match FetchWithRetry(script, pos, maxRetries)
    case Exhausted(last, calls) =>
      ExhaustedTail(script, pos, cursor, acc, maxRetries, last, calls);
    case Fetched(page, calls) =>
      if page.nextPageKey.None? {
        LastPageTail(script, pos, cursor, acc, maxRetries, page, calls);
      } else {
        FetchedPage(script, pos, maxRetries, page, calls);
        NextPagesIsRun(script, pos + calls, page.nextPageKey.value, Merge(acc, page.items), maxRetries);
        ContinuedTail(script, pos, cursor, acc, maxRetries, page, calls);
      }
  }

  /** A first page with a cursor followed by its tail is a whole run. */
  lemma HeadThenTail(schemaId: string, script: seq<Reply<Page>>, maxRetries: nat, rest: Listing)
    requires ReplyAt(script, 0).Succeeded() && ReplyAt(script, 0).body.nextPageKey.Some?
    requires TailIsRun(script, maxRetries, 1, Merge(map[], ReplyAt(script, 0).body.items), rest)
    ensures IsRunOf(schemaId, script, maxRetries, Listing(rest.result, [FirstPage(schemaId)] + rest.queries))
  {
    var qs := [FirstPage(schemaId)] + rest.queries;
    forall i | 1 <= i < |qs| ensures CarriesCursor(script, i, qs[i]) {
      assert qs[i] == rest.queries[i - 1];
      assert CarriesCursor(script, 1 + (i - 1), rest.queries[i - 1]);
    }
    var items := ReplyAt(script, 0).body.items;
    assert AcceptedItems(script, 0, |qs|) == items + AcceptedItems(script, 1, |qs|);
    MergeAppend(map[], items, AcceptedItems(script, 1, |qs|));
  }

  /** Every listing meets the description. */
  lemma ListKnownSettingsIsRun(c: DynatraceClient, schemaId: string, script: seq<Reply<Page>>)
    ensures IsRunOf(schemaId, script, c.retrySettings.maxRetries, ListKnownSettings(c, schemaId, script))
  {
    var first := ReplyAt(script, 0);
    if first.Succeeded() {
      if first.body.nextPageKey.None? {
        assert AcceptedItems(script, 0, 1) == first.body.items + [] == first.body.items;
      } else {
        var R := c.retrySettings.maxRetries;
        var acc := Merge(map[], first.body.items);
        var rest := NextPages(script, 1, first.body.nextPageKey.value, acc, R);
        assert ListKnownSettings(c, schemaId, script) == Listing(rest.result, [FirstPage(schemaId)] + rest.queries);
        NextPagesIsRun(script, 1, first.body.nextPageKey.value, acc, R);
        HeadThenTail(schemaId, script, R, rest);
      }
    }
  }

  /** The description leaves no freedom: two runs of the same listing send
      the same requests and agree on the outcome and the map. */
  lemma RunIsUnique(schemaId: string, script: seq<Reply<Page>>, maxRetries: nat, l1: Listing, l2: Listing)
    requires IsRunOf(schemaId, script, maxRetries, l1)
    requires IsRunOf(schemaId, script, maxRetries, l2)
    ensures l1.queries == l2.queries
    ensures l1.result.Success? == l2.result.Success?
    ensures l1.result.Success? ==> l1.result == l2.result
  {
  }
}
