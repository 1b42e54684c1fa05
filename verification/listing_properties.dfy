/** The properties of a listing the client's callers rely on, drawn from the
    description of a run: which parameters each request carries, what a
    complete listing returns, and how a failed one spent its attempts. */
module ListingProperties {
  import opened Http
  import opened Client
  import opened KnownSettings
  import opened ListingTrace

  /** The first request carries exactly the schema, the page size 500 and
      the two fields; every later request carries exactly one parameter,
      the cursor of the latest page. */
  lemma RequestParameters(c: DynatraceClient, schemaId: string, script: seq<Reply<Page>>)
    ensures var l := ListKnownSettings(c, schemaId, script);
      && Params(l.queries[0]) == map["schemaIds" := schemaId, "pageSize" := "500", "fields" := "externalId,objectId"]
      && forall i | 1 <= i < |l.queries| ::
           LatestCursor(script, i).Some? && Params(l.queries[i]) == map["nextPageKey" := LatestCursor(script, i).value]
  {
    var l := ListKnownSettings(c, schemaId, script);
    ListKnownSettingsIsRun(c, schemaId, script);
    forall i | 1 <= i < |l.queries|
      ensures LatestCursor(script, i).Some? && Params(l.queries[i]) == map["nextPageKey" := LatestCursor(script, i).value]
    {
      assert CarriesCursor(script, i, l.queries[i]);
    }
  }

  /** A listing that succeeds made one call per reply it read, all of them
      answered, stopped at a page without cursor, and returns a map whose
      keys are exactly the external ids of all accepted pages, each bound
      to the object id of its last occurrence. */
  lemma CompleteListing(c: DynatraceClient, schemaId: string, script: seq<Reply<Page>>)
    ensures var l := ListKnownSettings(c, schemaId, script);
      var n := |l.queries|;
      var items := AcceptedItems(script, 0, n);
      l.result.Success? ==>
        && n <= |script|
        && ReplyAt(script, n - 1).Succeeded()
        && ReplyAt(script, n - 1).body.nextPageKey.None?
        && l.result.value.Keys == ExternalIds(items)
        && forall i | 0 <= i < |items| && IsLastFor(items, i) :: l.result.value[items[i].externalId] == items[i].objectId
  {
    var l := ListKnownSettings(c, schemaId, script);
    ListKnownSettingsIsRun(c, schemaId, script);
    MergeContents(map[], AcceptedItems(script, 0, |l.queries|));
  }

  /** A streak of k failed replies ending at i means the k replies up to i
      all failed and all got the same cursor. */
  lemma {:induction false} StreakFailures(script: seq<Reply<Page>>, i: nat, k: nat)
    requires k <= Streak(script, i)
    ensures forall j | 0 <= j && i - k < j <= i :: !ReplyAt(script, j).Succeeded()
    ensures forall j | 1 <= j && i - k < j <= i :: LatestCursor(script, j) == LatestCursor(script, i)
  {
    if k > 0 {
      assert !ReplyAt(script, i).Succeeded();
      if i > 0 {
        StreakFailures(script, i - 1, k - 1);
      }
    }
  }

  /** A listing that fails either failed its first, never retried, request
      (one call in all) or sent one next-page request 1 + maxRetries times
      in a row, all failing, and stopped there. */
  lemma FailedListingSpentBudget(c: DynatraceClient, schemaId: string, script: seq<Reply<Page>>)
    ensures var l := ListKnownSettings(c, schemaId, script);
      var n := |l.queries|;
      var R := c.retrySettings.maxRetries;
      l.result.Failure? ==>
        || (n == 1 && !ReplyAt(script, 0).Succeeded())
        || (&& n >= R + 2
            && forall k | n - 1 - R <= k < n :: !ReplyAt(script, k).Succeeded() && l.queries[k] == l.queries[n - 1])
  {
    var l := ListKnownSettings(c, schemaId, script);
    var n := |l.queries|;
    var R := c.retrySettings.maxRetries;
    ListKnownSettingsIsRun(c, schemaId, script);
    if l.result.Failure? && n > 1 {
      assert !IsStop(script, R, 0);
      StreakFailures(script, n - 1, R + 1);
      forall k | n - 1 - R <= k < n
        ensures !ReplyAt(script, k).Succeeded() && l.queries[k] == l.queries[n - 1]
      {
        assert CarriesCursor(script, k, l.queries[k]);
        assert CarriesCursor(script, n - 1, l.queries[n - 1]);
      }
    }
  }

  /** No request is sent more than 1 + maxRetries times in a row: before
      the last call every failure streak is at most maxRetries long, so a
      request that fails 1 + maxRetries times is never sent again, and the
      last call ends a streak of at most 1 + maxRetries. The first request
      is sent once. */
  lemma AttemptsWithinBudget(c: DynatraceClient, schemaId: string, script: seq<Reply<Page>>)
    ensures var l := ListKnownSettings(c, schemaId, script);
      && (forall i | 0 <= i < |l.queries| - 1 :: Streak(script, i) <= c.retrySettings.maxRetries)
      && (forall i | 0 <= i < |l.queries| :: Streak(script, i) <= c.retrySettings.maxRetries + 1)
      && (|l.queries| > 1 ==> ReplyAt(script, 0).Succeeded())
  {
    var l := ListKnownSettings(c, schemaId, script);
    var R := c.retrySettings.maxRetries;
    ListKnownSettingsIsRun(c, schemaId, script);
    forall i | 0 <= i < |l.queries| ensures Streak(script, i) <= R + 1 && (i < |l.queries| - 1 ==> Streak(script, i) <= R) {
      if i < |l.queries| - 1 {
        assert !IsStop(script, R, i);
      } else if i > 0 && !ReplyAt(script, i).Succeeded() {
        assert !IsStop(script, R, i - 1);
        assert Streak(script, i) == 1 + Streak(script, i - 1);
      }
    }
  }
}
