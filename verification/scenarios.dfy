/** The client's test scenarios, checked against the model: construction,
    reads by id, and the six listing scenarios, whose request counts fit a
    retry budget of three retries per next-page request. */
module ClientScenarios {
  import opened Results
  import opened Text
  import opened Url
  import opened PathEscape
  import opened Http
  import opened Client
  import opened KnownSettings

  const Settings3 := RetrySettings(3)

  // ---- construction

  lemma NoUrlIsRejected()
    ensures NewClient("", "abc", Settings3) == Failure(NoEnvironmentUrl)
    ensures Contains(ConfigMessage(NoEnvironmentUrl), "no environment url")
  {
  }

  /** The test's `https://my-environment.live.dynatrace.com/`, for any host:
      the one trailing slash is dropped. */
  lemma TrailingSlashIsTrimmed(host: string)
    requires |host| > 0 && host[0] != '/'
    ensures NewClient("https://" + host + "/", "abc", Settings3)
      == Success(DynatraceClient("https://" + host, "abc", Settings3))
  {
    SchemeAndHostIsValid("https", host + "/");
    assert "https" + "://" + (host + "/") == "https://" + host + "/";
    assert ("https://" + host) + "/" == "https://" + host + "/";
  }

  /** An empty token is rejected, and the token is checked before the URL's
      shape: a malformed URL with an empty token also gives "no token". */
  lemma NoTokenIsRejected()
    ensures NewClient("http://my-environment.live.dynatrace.com/", "", Settings3) == Failure(NoToken)
    ensures NewClient("http//my-environment.live.dynatrace.com/", "", Settings3) == Failure(NoToken)
    ensures Contains(ConfigMessage(NoToken), "no token")
  {
  }

  /** The test's three malformed URLs (a local path and two URLs whose
      scheme lost its colon) have no colon, and any such URL is rejected. */
  lemma MalformedUrlsAreRejected(url: string)
    requires url != "" && ':' !in url
    ensures NewClient(url, "abc", Settings3) == Failure(InvalidUrl(url))
    ensures Contains(ConfigMessage(InvalidUrl(url)), "not valid")
  {
    NoColonIsInvalid(url);
  }

  // ---- read by id

  const TestClient := DynatraceClient("https://127.0.0.1:8443", "token", Settings3)
  const MockApi := Api("mock-api", "/mock-api")

  lemma ReadByIdReportsRejection()
    ensures var r := ReadById(TestClient, MockApi, [116, 101, 115, 116], _ => Answer(403, []));
      r.Failure? && Contains(ReadErrorMessage(r.error), "Response was")
  {
  }

  /** `:` is written %3A and `%` is written %25. */
  lemma EscapeSeparators()
    ensures Escape([58, 37]) == "%3A%25" && Escape([58]) == "%3A"
  {
  }

  lemma MockReadUrl(id: seq<byte>)
    ensures ReadByIdUrl(TestClient, MockApi, id) == "https://127.0.0.1:8443/mock-api/" + Escape(id)
  {
  }

  /** An id of the shape `a:%m:c` with plain a, m and c escapes to
      `a%3A%25m%3Ac`. */
  lemma EscapeSeparatedId(a: string, m: string, c: string)
    requires IsPlain(a) && IsPlain(m) && IsPlain(c)
    ensures Escape(Octets(a) + [58, 37] + Octets(m) + [58] + Octets(c)) == a + "%3A%25" + m + "%3A" + c
  {
    var sep1: seq<byte> := [58, 37];  // ":%"
    var sep2: seq<byte> := [58];      // ":"
    EscapeSeparators();
    var x1 := Octets(a) + sep1;
    assert Escape(x1) == a + "%3A%25" by {
      EscapeKeepsUnreserved(a);
      EscapeAppend(Octets(a), sep1);
    }
    var x2 := x1 + Octets(m);
    assert Escape(x2) == a + "%3A%25" + m by {
      EscapeKeepsUnreserved(m);
      EscapeAppend(x1, Octets(m));
    }
    var x3 := x2 + sep2;
    assert Escape(x3) == a + "%3A%25" + m + "%3A" by {
      EscapeAppend(x2, sep2);
    }
    EscapeKeepsUnreserved(c);
    EscapeAppend(x3, Octets(c));
  }

  /** The test's id `ruxit.perfmon.dotnetV4:%TimeInGC:time_in_gc_alert_high_generic`
      has the shape `a:%m:c` with plain a, m and c: it is requested as one
      segment with `:` sent as %3A and `%` as %25, and the read succeeds. */
  lemma ReadByIdEscapesTheId(a: string, m: string, c: string)
    requires IsPlain(a) && IsPlain(m) && IsPlain(c)
    ensures var id := Octets(a) + [58, 37] + Octets(m) + [58] + Octets(c);
      && ReadByIdUrl(TestClient, MockApi, id) == "https://127.0.0.1:8443/mock-api/" + (a + "%3A%25" + m + "%3A" + c)
      && ReadById(TestClient, MockApi, id, _ => Answer(200, [])).Success?
  {
    var id := Octets(a) + [58, 37] + Octets(m) + [58] + Octets(c);
    EscapeSeparatedId(a, m, c);
    MockReadUrl(id);
  }

  lemma ReadByIdReturnsTheBody()
    ensures ReadById(TestClient, MockApi, [116, 101, 115, 116], _ => Answer(200, [1, 3, 3, 7])) == Success([1, 3, 3, 7])
  {
  }

  // ---- listing known settings

  const Schema := "builtin:something"
  const Doctor := Item("f5823eca-4838-49d0-81d9-0514dd2c4640", "RG9jdG9yIFdobwo=")
  const Master := Item("b1d4c623-25e0-4b54-9eb5-6734f1a72041", "VGhlIE1hc3Rlcgo=")
  /** An error reply; its body is never read. */
  const Fail400: Reply<Page> := Answer(400, Page([], None))

  /** A one-item page adds that one entry. */
  lemma MergeOne(acc: Settings, item: Item)
    ensures Merge(acc, [item]) == acc[item.externalId := item.objectId]
  {
    assert [item][1..] == [];
  }

  lemma ListsOnePage()
    ensures ListKnownSettings(TestClient, Schema, [Answer(200, Page([Doctor], None))])
      == Listing(Success(map[Doctor.externalId := Doctor.objectId]), [FirstPage(Schema)])
  {
    MergeOne(map[], Doctor);
  }

  lemma FollowsTheCursor()
    ensures ListKnownSettings(TestClient, Schema,
        [Answer(200, Page([Doctor], Some("page42"))), Answer(200, Page([Master], None))])
      == Listing(
        Success(map[Doctor.externalId := Doctor.objectId, Master.externalId := Master.objectId]),
        [FirstPage(Schema), NextPage("page42")])
  {
    var script := [Answer(200, Page([Doctor], Some("page42"))), Answer(200, Page([Master], None))];
    MergeOne(map[], Doctor);
    var acc := map[Doctor.externalId := Doctor.objectId];
    MergeOne(acc, Master);
    assert FetchWithRetry(script, 1, 3) == Fetched(Page([Master], None), 1);
    assert Repeat(NextPage("page42"), 1) == [NextPage("page42")];
    assert NextPages(script, 1, "page42", acc, 3)
      == Listing(Success(acc[Master.externalId := Master.objectId]), [NextPage("page42")]);
  }

  lemma NoItemsGiveEmptyMap()
    ensures ListKnownSettings(TestClient, Schema, [Answer(200, Page([], None))])
      == Listing(Success(map[]), [FirstPage(Schema)])
  {
  }

  lemma FirstRequestErrorIsNotRetried()
    ensures var l := ListKnownSettings(TestClient, Schema, [Fail400]);
      l.result.Failure? && l.queries == [FirstPage(Schema)]
  {
  }

  lemma NextPageRecoversWithinRetries()
    ensures ListKnownSettings(TestClient, Schema,
        [Answer(200, Page([Doctor], Some("page42"))), Fail400, Fail400, Answer(200, Page([Master], None))])
      == Listing(
        Success(map[Doctor.externalId := Doctor.objectId, Master.externalId := Master.objectId]),
        [FirstPage(Schema), NextPage("page42"), NextPage("page42"), NextPage("page42")])
  {
    var script := [Answer(200, Page([Doctor], Some("page42"))), Fail400, Fail400, Answer(200, Page([Master], None))];
    MergeOne(map[], Doctor);
    var acc := map[Doctor.externalId := Doctor.objectId];
    MergeOne(acc, Master);
    assert FetchWithRetry(script, 3, 1) == Fetched(Page([Master], None), 1);
    assert FetchWithRetry(script, 2, 2) == Fetched(Page([Master], None), 2);
    assert FetchWithRetry(script, 1, 3) == Fetched(Page([Master], None), 3);
    assert Repeat(NextPage("page42"), 3) == [NextPage("page42"), NextPage("page42"), NextPage("page42")];
    assert NextPages(script, 1, "page42", acc, 3)
      == Listing(Success(acc[Master.externalId := Master.objectId]), Repeat(NextPage("page42"), 3));
  }

  lemma NextPageFailsAfterRetries()
    ensures var l := ListKnownSettings(TestClient, Schema,
        [Answer(200, Page([Doctor], Some("page42"))), Fail400, Fail400, Fail400, Fail400]);
      && l.result.Failure?
      && l.queries == [FirstPage(Schema), NextPage("page42"), NextPage("page42"), NextPage("page42"), NextPage("page42")]
  {
  }
}
