/** Worked invocations of the worker on one account, `111111111111`, whose
    `us-east-1` holds the secrets `foo/bar` and `baz` on a single page and
    whose `us-west-2` has no secrets manager endpoint. */
module Scenario {
  import opened Outcomes
  import opened Records
  import opened Pagination
  import opened Inventory

  const Id := "111111111111"
  const Target := Account(Id, "production")

  const FooBar := Secret(Some("foo/bar"), Some("arn:foo-bar"), None, map[])
  const Baz := Secret(Some("baz"), Some("arn:baz"), None, map[])

  /** No secret carries a resource policy. */
  const NoPolicy: string -> Result<PolicyResponse> := (arn: string) => Ok(PolicyResponse(None))

  const Env := Foreign((text: string) => None, (tags: seq<Tag>) => Ok(JNull), (region: string, k: nat) => "2020-01-01 00:00:00")

  const West := Region("us-west-2", Ok(Client([Raised(EndpointConnectionError)], NoPolicy)))

  const Message: Result<map<string, string>> := Ok(map["account_id" := Id])

  /** `AWSAccount` resolves the account to `regions`. */
  function Resolving(regions: seq<Region>): string -> Result<AccountInfo> {
    (id: string) => Ok(AccountInfo(Id, "production", Ok(regions)))
  }

  lemma BazId()
    ensures ResourceId(Id, "us-east-1", "baz") == "111111111111-us-east-1-baz"
  {
  }

  const EastClient := Client([Ok(Page([FooBar, Baz], None))], NoPolicy)
  const East := Region("us-east-1", Ok(EastClient))

  /** `us-east-1` answers a single token-less page, so its loop runs over
      that page's secrets. */
  lemma EastListing()
    ensures RegionTerminates(East)
    ensures TryDiscover(Target, East, Env) == ProcessAll(Target, "us-east-1", EastClient, [FooBar, Baz], Env)
  {
    DiscoverReadsEveryPage(Target, East, Env);
    assert Flatten(EastClient.listing) == [FooBar, Baz] by {
      assert EastClient.listing[1..] == [];
    }
  }

  /** Both secrets of `us-east-1` build, with the ids the scheme gives them. */
  lemma EastBuilds(k: nat)
    requires k < 2
    ensures var r := BuildRecord(Target, "us-east-1", [FooBar, Baz][k], Env.now("us-east-1", k), NoPolicy, Env);
      && r.Ok?
      && r.value.awsRegion == "us-east-1"
      && r.value.resourceId == (if k == 0 then "111111111111-us-east-1-foo-bar" else "111111111111-us-east-1-baz")
  {
    if k == 0 { ResourceIdOfPathName(); } else { BazId(); }
  }

  /** `us-east-1` saves one record per secret, in listing order. */
  lemma EastSavesBoth()
    ensures RegionTerminates(East)
    ensures var run := Discover(Target, East, Env);
      && run.escaped == None
      && |run.emitted| == 2
      && run.emitted[0].path == ResourcePath && run.emitted[1].path == ResourcePath
      && run.emitted[0].resourceId == "111111111111-us-east-1-foo-bar"
      && run.emitted[1].resourceId == "111111111111-us-east-1-baz"
      && run.emitted[0].record.awsRegion == "us-east-1" && run.emitted[1].record.awsRegion == "us-east-1"
  {
    EastListing();
    ProcessAllOneRecordPerSecret(Target, "us-east-1", EastClient, [FooBar, Baz], Env);
    EastBuilds(0);
    EastBuilds(1);
  }

  /** `us-west-2` has no endpoint: it ends quietly and saves nothing. */
  lemma WestIsSkipped()
    ensures RegionTerminates(West)
    ensures Discover(Target, West, Env) == Run([], None)
  {
    assert StopIndex(West.client.value.listing) == 0;
  }

  /** A first region that ends quietly followed by one that saves nothing
      and ends quietly: the loop amounts to the first region. */
  lemma QuietSecond(account: Account, first: Region, second: Region, foreign: Foreign)
    requires RegionTerminates(first) && RegionTerminates(second)
    requires Discover(account, first, foreign).escaped.None?
    requires Discover(account, second, foreign) == Run([], None)
    ensures AllTerminate([first, second])
    ensures RunRegions(account, [first, second], foreign) == Discover(account, first, foreign)
  {
    var runs := RegionRuns(account, [first, second], foreign);
    assert runs[1..][1..] == [];
    assert Chain(runs[1..]) == Run([], None);
    assert Discover(account, first, foreign).emitted + [] == Discover(account, first, foreign).emitted;
  }

  /** The region loop: `us-east-1`'s saves, then none from `us-west-2`. */
  lemma ScenarioRegions()
    ensures AllTerminate([East, West])
    ensures RunRegions(Target, [East, West], Env) == Discover(Target, East, Env)
  {
    EastSavesBoth();
    WestIsSkipped();
    QuietSecond(Target, East, West, Env);
  }

  /** The whole invocation: two records, both from `us-east-1`, and a
      normal return. */
  lemma TwoRegionInvocation()
    ensures HandlerTerminates(Message, Resolving([East, West]))
    ensures var inv := Handle(Message, Resolving([East, West]), Env);
      && inv.outcome == Returned
      && |inv.emitted| == 2
      && inv.emitted[0].resourceId == "111111111111-us-east-1-foo-bar"
      && inv.emitted[1].resourceId == "111111111111-us-east-1-baz"
      && inv.emitted[0].record.awsRegion == "us-east-1" && inv.emitted[1].record.awsRegion == "us-east-1"
  {
    ScenarioRegions();
    EastSavesBoth();
    assert Message.value["account_id"] == Id;
  }

  /** The role cannot be assumed: the `AssumeRoleError` clause reads the
      unbound `target_account`, so the invocation fails and saves nothing. */
  lemma AssumeRoleFailure()
    ensures var inv := Handle(Message, (id: string) => Raised(AssumeRoleError), Env);
      inv == Invocation([], Propagated(UnboundLocalError("target_account")))
  {
  }

  /** `AWSAccount` fails with a class the handler does not name: the generic
      clause reads only bound names and re-raises the exception unchanged. */
  lemma AccountLookupFailure()
    ensures var inv := Handle(Message, (id: string) => Raised(OtherError("AccountLookupError")), Env);
      inv == Invocation([], Propagated(OtherError("AccountLookupError")))
  {
  }

  /** The role cannot be assumed when `get_regions()` runs: `target_account`
      is bound by then, so the `AssumeRoleError` clause returns normally,
      having saved nothing. */
  lemma RegionsAssumeRoleFailure()
    ensures var inv := Handle(Message, (id: string) => Ok(AccountInfo(Id, "production", Raised(AssumeRoleError))), Env);
      inv == Invocation([], Returned)
  {
  }

  /** A throttled listing is a `ClientError`: the region saves nothing, the
      loop stops there and the invocation returns normally. */
  lemma ThrottledListing()
    ensures var throttled := Region("us-east-1", Ok(Client([Raised(ClientError("ThrottlingException"))], NoPolicy)));
      && HandlerTerminates(Message, Resolving([throttled, East]))
      && Handle(Message, Resolving([throttled, East]), Env) == Invocation([], Returned)
  {
    var throttled := Region("us-east-1", Ok(Client([Raised(ClientError("ThrottlingException"))], NoPolicy)));
    assert StopIndex(throttled.client.value.listing) == 0;
    assert RegionTerminates(East) by {
      assert StopIndex(EastClient.listing) == 0;
    }
    var runs := RegionRuns(Target, [throttled, East], Env);
    assert runs[0] == Discover(Target, throttled, Env) == Run([], Some(ClientError("ThrottlingException")));
  }

  /** An exception of no class the handler names propagates out of the
      invocation. */
  lemma FailingListing()
    ensures var failing := Region("us-east-1", Ok(Client([Raised(OtherError("ReadTimeoutError"))], NoPolicy)));
      && HandlerTerminates(Message, Resolving([failing]))
      && Handle(Message, Resolving([failing]), Env) == Invocation([], Propagated(OtherError("ReadTimeoutError")))
  {
    var failing := Region("us-east-1", Ok(Client([Raised(OtherError("ReadTimeoutError"))], NoPolicy)));
    assert StopIndex(failing.client.value.listing) == 0;
    var runs := RegionRuns(Target, [failing], Env);
    assert runs[0] == Run([], Some(OtherError("ReadTimeoutError")));
    assert runs[1..] == [];
  }
}
