/** Listing the known settings of one schema: the map from each settings
    object's external id to its object id, read page by page. The server is
    a script of replies; reply i answers the i-th request the client sends,
    and a request past the end of the script gets no answer. */
module KnownSettings {
  import opened Results
  import opened Http
  import opened Client

  datatype Item = Item(objectId: string, externalId: string)

  /** One decoded page: its items and the cursor of the next page, if any. */
  datatype Page = Page(items: seq<Item>, nextPageKey: Option<string>)

  /** externalId -> objectId */
  type Settings = map<string, string>

  /** The two kinds of request of a listing. */
  datatype Query = FirstPage(schemaId: string) | NextPage(cursor: string)

  const PageSize: string := "500"
  const Fields: string := "externalId,objectId"

  /** The query parameters a request carries, and no others: a next-page
      request carries only the cursor. */
  function Params(q: Query): map<string, string> {
    match q
    case FirstPage(schemaId) => map["schemaIds" := schemaId, "pageSize" := PageSize, "fields" := Fields]
    case NextPage(cursor) => map["nextPageKey" := cursor]
  }

  datatype ListError =
    | FirstRequestFailed(reply: Reply<Page>)
    | RetriesExhausted(cursor: string, last: Reply<Page>)

  /** The outcome of a listing and every request it sent, in order; a failed
      listing has no map at all, not a partial one. */
  datatype Listing = Listing(result: Result<Settings, ListError>, queries: seq<Query>)

  function ReplyAt(script: seq<Reply<Page>>, i: nat): Reply<Page> {
    if i < |script| then script[i] else NoAnswer
  }

  function ExternalIds(items: seq<Item>): set<string> {
    set i | 0 <= i < |items| :: items[i].externalId
  }

  /** No later item has the same external id as item i. */
  predicate IsLastFor(items: seq<Item>, i: int)
    requires 0 <= i < |items|
  {
    forall j | i < j < |items| :: items[j].externalId != items[i].externalId
  }

  /** Adds the items to the map in order, so a later item with the same
      external id overrides an earlier one. */
  function Merge(acc: Settings, items: seq<Item>): Settings
    decreases |items|
  {
    if |items| == 0 then acc
    else Merge(acc[items[0].externalId := items[0].objectId], items[1..])
  }

  /** What the merged map holds: the keys already there and every item's
      external id; for each external id, the object id of the last item
      carrying it; and the old value of every key no item carries. */
  lemma {:induction false} MergeContents(acc: Settings, items: seq<Item>)
    ensures Merge(acc, items).Keys == acc.Keys + ExternalIds(items)
    ensures forall i | 0 <= i < |items| && IsLastFor(items, i) :: Merge(acc, items)[items[i].externalId] == items[i].objectId
    ensures forall k | k in acc && k !in ExternalIds(items) :: Merge(acc, items)[k] == acc[k]
    decreases |items|
  {
    if |items| > 0 {
      var rest := items[1..];
      var acc' := acc[items[0].externalId := items[0].objectId];
      MergeContents(acc', rest);
      assert ExternalIds(items) == {items[0].externalId} + ExternalIds(rest) by {
        forall k | k in ExternalIds(items) ensures k in {items[0].externalId} + ExternalIds(rest) {
          var i :| 0 <= i < |items| && items[i].externalId == k;
          if i > 0 { assert rest[i - 1].externalId == k; }
        }
        forall k | k in ExternalIds(rest) ensures k in ExternalIds(items) {
          var i :| 0 <= i < |rest| && rest[i].externalId == k;
          assert items[i + 1].externalId == k;
        }
      }
      forall i | 0 <= i < |items| && IsLastFor(items, i)
        ensures Merge(acc, items)[items[i].externalId] == items[i].objectId
      {
        if i > 0 {
          assert IsLastFor(rest, i - 1) && rest[i - 1] == items[i];
        } else {
          assert items[0].externalId !in ExternalIds(rest);
        }
      }
    }
  }

  /** The outcome of one request and its retries: the page of the first 2xx
      reply, or the last reply once the budget of attempts is spent. */
  datatype Fetch = Fetched(page: Page, calls: nat) | Exhausted(last: Reply<Page>, calls: nat)

  /** Sends the same request until a 2xx reply arrives, at most
      1 + maxRetries times, starting at reply `pos` of the script. */
  function FetchWithRetry(script: seq<Reply<Page>>, pos: nat, maxRetries: nat): (f: Fetch)
    ensures 1 <= f.calls <= maxRetries + 1
    ensures forall k | pos <= k < pos + f.calls - 1 :: !ReplyAt(script, k).Succeeded()
    ensures f.Fetched? ==>
      && ReplyAt(script, pos + f.calls - 1).Succeeded()
      && f.page == ReplyAt(script, pos + f.calls - 1).body
    ensures f.Exhausted? ==>
      && f.calls == maxRetries + 1
      && f.last == ReplyAt(script, pos + maxRetries)
      && !f.last.Succeeded()
    decreases maxRetries
  {
    var reply := ReplyAt(script, pos);
    if reply.Succeeded() then Fetched(reply.body, 1)
    else if maxRetries == 0 then Exhausted(reply, 1)
    else
      match FetchWithRetry(script, pos + 1, maxRetries - 1)
      case Fetched(page, calls) => Fetched(page, calls + 1)
      case Exhausted(last, calls) => Exhausted(last, calls + 1)
  }

  /** `n` copies of the same request. */
  function Repeat(q: Query, n: nat): (s: seq<Query>)
    ensures |s| == n
    ensures forall k | 0 <= k < n :: s[k] == q
  {
    if n == 0 then [] else [q] + Repeat(q, n - 1)
  }

  /** Follows the cursor from reply `pos` on, adding each page to `acc`,
      until a page without a cursor or a request whose retries run out. */
  function NextPages(script: seq<Reply<Page>>, pos: nat, cursor: string, acc: Settings, maxRetries: nat): (l: Listing)
    ensures |l.queries| >= 1
    decreases |script| - pos
  {
    var f := FetchWithRetry(script, pos, maxRetries);
    var sent := Repeat(NextPage(cursor), f.calls);
    match f
    case Exhausted(last, _) => Listing(Failure(RetriesExhausted(cursor, last)), sent)
    case Fetched(page, calls) =>
      var merged := Merge(acc, page.items);
      match page.nextPageKey
      case None => Listing(Success(merged), sent)
      case Some(next) =>
        var rest := NextPages(script, pos + calls, next, merged, maxRetries);
        Listing(rest.result, sent + rest.queries)
  }

  /** The listing of one schema. The first request carries the schema, the
      page size and the fields and is not retried; each following request
      carries only the previous page's cursor and is retried under the
      client's retry settings. */
  function ListKnownSettings(c: DynatraceClient, schemaId: string, script: seq<Reply<Page>>): (l: Listing)
    ensures |l.queries| >= 1 && l.queries[0] == FirstPage(schemaId)
    ensures !ReplyAt(script, 0).Succeeded() ==> l == Listing(Failure(FirstRequestFailed(ReplyAt(script, 0))), [FirstPage(schemaId)])
  {
    var first := ReplyAt(script, 0);
    if !first.Succeeded() then Listing(Failure(FirstRequestFailed(first)), [FirstPage(schemaId)])
    else
      var acc := Merge(map[], first.body.items);
      match first.body.nextPageKey
      case None => Listing(Success(acc), [FirstPage(schemaId)])
      case Some(cursor) =>
        var rest := NextPages(script, 1, cursor, acc, c.retrySettings.maxRetries);
        Listing(rest.result, [FirstPage(schemaId)] + rest.queries)
  }
}
