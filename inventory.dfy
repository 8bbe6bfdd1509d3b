/** The worker itself: `process_secret` saves one record, `discover_secrets`
    drains one region's listing and processes every secret found,
    `lambda_handler` walks the account's regions in order and sorts the
    exceptions that reach it. The object store is a `Sink` that records
    every `save_resource_to_s3`; each method is proved against a function
    of its inputs. */
module Inventory {
  import opened Outcomes
  import opened Records
  import opened Pagination

  /** `RESOURCE_PATH`: the store's prefix for secrets. */
  const ResourcePath := "secretsmanager"

  /** One `save_resource_to_s3(path, resource_id, record)` call. */
  datatype Emission = Emission(path: string, resourceId: string, record: Record)

  /** The call `process_secret` makes for a record it has built. */
  function EmissionOf(record: Record): Emission {
    Emission(ResourcePath, record.resourceId, record)
  }

  /** Sequence concatenation regrouped, stated once so that the loop proofs
      below need not rediscover it in their larger contexts. */
  lemma AppendAssoc(a: seq<Emission>, b: seq<Emission>, c: seq<Emission>)
    ensures a + (b + c) == (a + b) + c
  {
  }

  /** The object store as the worker sees it: every save, in order. */
  class Sink {
    var saved: seq<Emission>

    constructor ()
      ensures saved == []
    {
      saved := [];
    }

    /** `save_resource_to_s3`. */
    method Save(path: string, resourceId: string, record: Record)
      modifies this
      ensures saved == old(saved) + [Emission(path, resourceId, record)]
    {
      saved := saved + [Emission(path, resourceId, record)];
    }
  }

  /** The region's secrets manager client: its reply to each `list_secrets`
      call in turn, and its reply to `get_resource_policy` for an ARN. */
  datatype Client = Client(listing: seq<Result<Page>>, getPolicy: string -> Result<PolicyResponse>)

  /** A region of `get_regions()`, with what `get_client` does there. */
  datatype Region = Region(name: string, client: Result<Client>)

  /** What `AWSAccount(account_id)` yields: the account's `account_id` and
      `account_name`, and what its `get_regions()` does. */
  datatype AccountInfo = AccountInfo(accountId: string, accountName: string, regions: Result<seq<Region>>)

  predicate RegionTerminates(region: Region) {
    region.client.Ok? ==> Terminates(region.client.value.listing)
  }

  predicate AllTerminate(regions: seq<Region>) {
    forall i :: 0 <= i < |regions| ==> RegionTerminates(regions[i])
  }

  /** What a stretch of the worker saves, and the exception that ends it. */
  datatype Run = Run(emitted: seq<Emission>, escaped: Option<Exception>)

  /** A `for` loop whose body may raise, given what each turn does on its
      own: the turns one after the other, up to and including the first one
      that lets an exception out, which then leaves the loop. */
  function Chain(runs: seq<Run>): (run: Run)
    ensures run.escaped.Some? ==> exists k :: 0 <= k < |runs| && runs[k].escaped == run.escaped
  {
    if runs == [] then Run([], None)
    else if runs[0].escaped.Some? then runs[0]
    else
      var rest := Chain(runs[1..]);
      assert rest.escaped.Some? ==> exists k :: 0 < k < |runs| && runs[k].escaped == rest.escaped by {
        if rest.escaped.Some? {
          var k :| 0 <= k < |runs[1..]| && runs[1..][k].escaped == rest.escaped;
          assert runs[k + 1] == runs[1..][k];
        }
      }
      Run(runs[0].emitted + rest.emitted, rest.escaped)
  }

  /** The loop has done `runs[..i]`, saving `done` without an exception, and
      has `runs[i..]` left to go, out of the whole loop's run `total`. */
  ghost predicate ChainSoFar(total: Run, done: seq<Emission>, runs: seq<Run>, i: nat)
    requires i <= |runs|
  {
    && total.emitted == done + Chain(runs[i..]).emitted
    && total.escaped == Chain(runs[i..]).escaped
  }

  /** A turn that ends quietly: the loop goes on with the next one. */
  lemma ChainAdvance(total: Run, done: seq<Emission>, runs: seq<Run>, i: nat)
    requires i < |runs| && runs[i].escaped.None?
    requires ChainSoFar(total, done, runs, i)
    ensures ChainSoFar(total, done + runs[i].emitted, runs, i + 1)
  {
    assert runs[i..][0] == runs[i];
    assert runs[i..][1..] == runs[i + 1..];
    AppendAssoc(done, runs[i].emitted, Chain(runs[i + 1..]).emitted);
  }

  /** A turn that lets an exception out: the loop ends with it. */
  lemma ChainStop(total: Run, done: seq<Emission>, runs: seq<Run>, i: nat)
    requires i < |runs| && runs[i].escaped.Some?
    requires ChainSoFar(total, done, runs, i)
    ensures total == Run(done + runs[i].emitted, runs[i].escaped)
  {
    assert runs[i..][0] == runs[i];
  }

  /** The turns happen in order: looping over `a + b` is looping over `a`,
      then, unless that let an exception out, over `b`. */
  lemma {:induction false} ChainAppend(a: seq<Run>, b: seq<Run>)
    ensures Chain(a + b)
         == if Chain(a).escaped.Some? then Chain(a) else Run(Chain(a).emitted + Chain(b).emitted, Chain(b).escaped)
  {
    if a == [] {
      assert a + b == b;
    } else {
      assert (a + b)[0] == a[0];
      assert (a + b)[1..] == a[1..] + b;
      if a[0].escaped.None? {
        ChainAppend(a[1..], b);
        AppendAssoc(a[0].emitted, Chain(a[1..]).emitted, Chain(b).emitted);
      }
    }
  }

  /** A loop whose every turn saves at most one record, exactly when it does
      not raise: the saves are those of the turns before the first
      exception, one each, in order. */
  lemma {:induction false} ChainOfSingles(runs: seq<Run>)
    requires forall k :: 0 <= k < |runs| ==> |runs[k].emitted| == (if runs[k].escaped.None? then 1 else 0)
    ensures var run := Chain(runs);
      && |run.emitted| <= |runs|
      && (forall j :: 0 <= j < |run.emitted| ==> runs[j].escaped.None? && run.emitted[j] == runs[j].emitted[0])
      && (run.escaped.None? <==> |run.emitted| == |runs|)
      && (run.escaped.Some? ==> run.escaped == runs[|run.emitted|].escaped)
  {
    if runs != [] && runs[0].escaped.None? {
      var rest := Chain(runs[1..]);
      ChainOfSingles(runs[1..]);
      var run := Chain(runs);
      assert run.emitted == runs[0].emitted + rest.emitted;
      forall j | 0 < j < |run.emitted|
        ensures runs[j].escaped.None? && run.emitted[j] == runs[j].emitted[0]
      {
        assert run.emitted[j] == rest.emitted[j - 1];
        assert runs[1..][j - 1] == runs[j];
      }
      if run.escaped.Some? {
        assert runs[1..][|rest.emitted|] == runs[|run.emitted|];
      }
    }
  }

  /** What processing one secret amounts to: its record saved, or its
      exception. */
  function SecretRun(built: Result<Record>): Run {
    match built
    case Ok(record) => Run([EmissionOf(record)], None)
    case Raised(e) => Run([], Some(e))
  }

  /** Each secret processed on its own, the k-th stamped with the k-th
      clock reading. Building has no effect of its own, so the turns past the
      first exception, which the worker never takes, change nothing in the
      `Chain` of them. The ensures only unfold the comprehension for the
      solver and state no property; what the turns amount to is stated by
      `ProcessAllOneRecordPerSecret`. */
  function SecretRuns(account: Account, region: string, client: Client, secrets: seq<Secret>,
                      foreign: Foreign): (runs: seq<Run>)
    ensures |runs| == |secrets|
    ensures forall k :: 0 <= k < |secrets| ==>
      runs[k] == SecretRun(BuildRecord(account, region, secrets[k], foreign.now(region, k), client.getPolicy, foreign))
  {
    seq(|secrets|, k requires 0 <= k < |secrets| =>
      SecretRun(BuildRecord(account, region, secrets[k], foreign.now(region, k), client.getPolicy, foreign)))
  }

  /** The `for s in secrets` loop of `discover_secrets`. */
  function ProcessAll(account: Account, region: string, client: Client, secrets: seq<Secret>,
                      foreign: Foreign): (run: Run)
    // an exception leaving the loop is one that processing some secret raised
    ensures run.escaped.Some? ==>
      exists k :: 0 <= k < |secrets| &&
        BuildRecord(account, region, secrets[k], foreign.now(region, k), client.getPolicy, foreign) == Raised(run.escaped.value)
  {
    var runs := SecretRuns(account, region, client, secrets, foreign);
    var run := Chain(runs);
    assert run.escaped.Some? ==>
      exists k :: 0 <= k < |secrets| &&
        BuildRecord(account, region, secrets[k], foreign.now(region, k), client.getPolicy, foreign) == Raised(run.escaped.value) by {
      if run.escaped.Some? {
        var k :| 0 <= k < |runs| && runs[k].escaped == run.escaped;
        assert runs[k] == SecretRun(BuildRecord(account, region, secrets[k], foreign.now(region, k), client.getPolicy, foreign));
      }
    }
    run
  }

  /** One record per secret: the k-th save is the record built for the k-th
      secret, filed under the secrets prefix and its resourceId; the loop
      stops at the first secret whose build raises, with that exception, and
      at no other. */
  lemma ProcessAllOneRecordPerSecret(account: Account, region: string, client: Client, secrets: seq<Secret>,
                                     foreign: Foreign)
    ensures var run := ProcessAll(account, region, client, secrets, foreign);
      && |run.emitted| <= |secrets|
      && (run.escaped.None? <==> |run.emitted| == |secrets|)
      && (forall j :: 0 <= j < |run.emitted| ==>
            var r := BuildRecord(account, region, secrets[j], foreign.now(region, j), client.getPolicy, foreign);
            && r.Ok? && run.emitted[j] == EmissionOf(r.value)
            && run.emitted[j].path == ResourcePath
            && secrets[j].name.Some?
            && run.emitted[j].resourceId == ResourceId(account.accountId, region, secrets[j].name.value)
            && run.emitted[j].record.configuration == secrets[j])
      && (run.escaped.Some? ==>
            BuildRecord(account, region, secrets[|run.emitted|], foreign.now(region, |run.emitted|), client.getPolicy, foreign)
              == Raised(run.escaped.value))
  {
    ChainOfSingles(SecretRuns(account, region, client, secrets, foreign));
  }

  /** The `try` block of `discover_secrets`. */
  function TryDiscover(account: Account, region: Region, foreign: Foreign): (run: Run)
    requires RegionTerminates(region)
    // no secret is processed unless the client was made and the whole listing drained
    ensures run.emitted != [] ==> region.client.Ok? && Drained(region.client.value.listing).Ok?
    ensures region.client.Raised? ==> run == Run([], Some(region.client.exc))
    ensures region.client.Ok? && Drained(region.client.value.listing).Raised? ==>
      run == Run([], Some(Drained(region.client.value.listing).exc))
  {
    match region.client
    case Raised(e) => Run([], Some(e))
    case Ok(client) =>
      match Drained(client.listing)
      case Raised(e) => Run([], Some(e))
      case Ok(secrets) => ProcessAll(account, region.name, client, secrets, foreign)
  }

  /** `discover_secrets`: an `EndpointConnectionError` ends the region
      quietly, keeping what was saved; every other exception leaves. */
  function Discover(account: Account, region: Region, foreign: Foreign): (run: Run)
    requires RegionTerminates(region)
    ensures run.emitted == TryDiscover(account, region, foreign).emitted
    ensures run.escaped != Some(EndpointConnectionError)
    ensures run.escaped.Some? ==> run.escaped == TryDiscover(account, region, foreign).escaped
    ensures run.escaped.None? ==> TryDiscover(account, region, foreign).escaped in {None, Some(EndpointConnectionError)}
  {
    var attempt := TryDiscover(account, region, foreign);
    if attempt.escaped == Some(EndpointConnectionError) then Run(attempt.emitted, None) else attempt
  }

  /** A region whose client answers well-formed pages: every secret of every
      page goes through the loop, in provider order. */
  lemma DiscoverReadsEveryPage(account: Account, region: Region, foreign: Foreign)
    requires region.client.Ok? && WellFormedPages(region.client.value.listing)
    ensures RegionTerminates(region)
    ensures TryDiscover(account, region, foreign)
         == ProcessAll(account, region.name, region.client.value, Flatten(region.client.value.listing), foreign)
  {
    DrainReadsEveryPage(region.client.value.listing);
  }

  /** Each region discovered on its own, as a sequence comprehension. The
      ensures only unfold the comprehension for the solver and state no
      property; the order of the turns is stated by `RunRegionsAppend`. */
  function RegionRuns(account: Account, regions: seq<Region>, foreign: Foreign): (runs: seq<Run>)
    requires AllTerminate(regions)
    ensures |runs| == |regions|
    ensures forall k :: 0 <= k < |regions| ==> runs[k] == Discover(account, regions[k], foreign)
  {
    seq(|regions|, k requires 0 <= k < |regions| => Discover(account, regions[k], foreign))
  }

  /** The `for r in target_account.get_regions()` loop: regions one after
      the other, until one lets an exception out; an
      `EndpointConnectionError` never does. */
  function RunRegions(account: Account, regions: seq<Region>, foreign: Foreign): (run: Run)
    requires AllTerminate(regions)
    ensures run.escaped != Some(EndpointConnectionError)
  {
    Chain(RegionRuns(account, regions, foreign))
  }

  lemma AllTerminateAppend(first: seq<Region>, later: seq<Region>)
    requires AllTerminate(first) && AllTerminate(later)
    ensures AllTerminate(first + later)
  {
    forall i | 0 <= i < |first + later| ensures RegionTerminates((first + later)[i]) {
      if i < |first| {
        assert (first + later)[i] == first[i];
      } else {
        assert (first + later)[i] == later[i - |first|];
      }
    }
  }

  lemma RegionRunsAppend(account: Account, first: seq<Region>, later: seq<Region>, foreign: Foreign)
    requires AllTerminate(first) && AllTerminate(later) && AllTerminate(first + later)
    ensures RegionRuns(account, first + later, foreign)
         == RegionRuns(account, first, foreign) + RegionRuns(account, later, foreign)
  {
    var a, b := RegionRuns(account, first, foreign), RegionRuns(account, later, foreign);
    forall i | 0 <= i < |first + later| ensures RegionRuns(account, first + later, foreign)[i] == (a + b)[i] {
      if i < |first| {
        assert (first + later)[i] == first[i];
      } else {
        assert (first + later)[i] == later[i - |first|];
      }
    }
  }

  /** Regions are visited in order: the run over `first + later` is the run
      over `first`, then, unless that let an exception out, the run over
      `later`. */
  lemma RunRegionsAppend(account: Account, first: seq<Region>, later: seq<Region>, foreign: Foreign)
    requires AllTerminate(first) && AllTerminate(later)
    ensures AllTerminate(first + later)
    ensures var head := RunRegions(account, first, foreign);
      var tail := RunRegions(account, later, foreign);
      RunRegions(account, first + later, foreign)
        == if head.escaped.Some? then head else Run(head.emitted + tail.emitted, tail.escaped)
  {
    AllTerminateAppend(first, later);
    RegionRunsAppend(account, first, later, foreign);
    ChainAppend(RegionRuns(account, first, foreign), RegionRuns(account, later, foreign));
  }

  /** How an invocation ends: it returns, or an exception propagates. */
  datatype Outcome = Returned | Propagated(exc: Exception)

  predicate Stopping(e: Exception) {
    e.AssumeRoleError? || e.ClientError?
  }

  /** The `except` clauses of `lambda_handler` applied to what left its `try`
      block. `bound` says whether `target_account` was assigned: the
      `AssumeRoleError` and `ClientError` clauses both read it. */
  function Except(escaped: Option<Exception>, bound: bool): (out: Outcome)
    ensures out == Returned <==> escaped.None? || (bound && Stopping(escaped.value))
    ensures escaped.Some? && !Stopping(escaped.value) ==> out == Propagated(escaped.value)
    ensures escaped.Some? && Stopping(escaped.value) && !bound ==>
      out == Propagated(UnboundLocalError("target_account"))
  {
    match escaped
    case None => Returned
    case Some(e) =>
      if Stopping(e) then
        if bound then Returned else Propagated(UnboundLocalError("target_account"))
      else Propagated(e)
  }

  /** What an invocation saves, and how it ends. */
  datatype Invocation = Invocation(emitted: seq<Emission>, outcome: Outcome)

  /** Every listing the handler may drain ends within the modelled replies. */
  predicate HandlerTerminates(message: Result<map<string, string>>, resolve: string -> Result<AccountInfo>) {
    (message.Ok? && "account_id" in message.value &&
     resolve(message.value["account_id"]).Ok? && resolve(message.value["account_id"]).value.regions.Ok?) ==>
      AllTerminate(resolve(message.value["account_id"]).value.regions.value)
  }

  /** `lambda_handler`. `message` is the outcome of decoding the SNS
      envelope and `resolve` what `AWSAccount` does for an account id. */
  function Handle(message: Result<map<string, string>>, resolve: string -> Result<AccountInfo>,
                  foreign: Foreign): (inv: Invocation)
    requires HandlerTerminates(message, resolve)
    // a malformed envelope fails before the try block
    ensures message.Raised? ==> inv == Invocation([], Propagated(message.exc))
    // nothing is saved unless the account and its regions were resolved
    ensures inv.emitted != [] ==>
      message.Ok? && "account_id" in message.value &&
      resolve(message.value["account_id"]).Ok? && resolve(message.value["account_id"]).value.regions.Ok?
    // a message without an account id fails with the KeyError of line 28
    ensures message.Ok? && "account_id" !in message.value ==>
      inv == Invocation([], Propagated(KeyError("account_id")))
    // a failing AWSAccount(...) never ends in a normal return
    ensures message.Ok? && "account_id" in message.value && resolve(message.value["account_id"]).Raised? ==>
      inv.emitted == [] && inv.outcome.Propagated?
    // ... it goes to the except clauses with target_account unbound
    ensures message.Ok? && "account_id" in message.value && resolve(message.value["account_id"]).Raised? ==>
      inv == Invocation([], Except(Some(resolve(message.value["account_id"]).exc), false))
    // get_regions() raising after target_account is bound goes to the except clauses
    ensures (message.Ok? && "account_id" in message.value &&
             resolve(message.value["account_id"]).Ok? && resolve(message.value["account_id"]).value.regions.Raised?) ==>
      inv == Invocation([], Except(Some(resolve(message.value["account_id"]).value.regions.exc), true))
    // once the regions are known, the region loop decides
    ensures (message.Ok? && "account_id" in message.value &&
             resolve(message.value["account_id"]).Ok? && resolve(message.value["account_id"]).value.regions.Ok?) ==>
      var id := message.value["account_id"];
      var info := resolve(id).value;
      var run := RunRegions(Account(info.accountId, info.accountName), info.regions.value, foreign);
      && inv.emitted == run.emitted
      && (inv.outcome == Returned <==> run.escaped.None? || Stopping(run.escaped.value))
      && (inv.outcome.Propagated? ==> inv.outcome.exc == run.escaped.value && inv.outcome.exc != EndpointConnectionError)
  {
    match message
    case Raised(e) => Invocation([], Propagated(e))
    case Ok(m) =>
      if "account_id" !in m then Invocation([], Except(Some(KeyError("account_id")), false))
      else
        match resolve(m["account_id"])
        case Raised(e) => Invocation([], Except(Some(e), false))
        case Ok(info) =>
          match info.regions
          case Raised(e) => Invocation([], Except(Some(e), true))
          case Ok(regions) =>
            var run := RunRegions(Account(info.accountId, info.accountName), regions, foreign);
            Invocation(run.emitted, Except(run.escaped, true))
  }

  /** `process_secret`: builds the record field by field and saves it. */
  method ProcessSecret(sink: Sink, client: Client, secret: Secret, account: Account, region: string,
                       captureTime: string, foreign: Foreign) returns (raised: Option<Exception>)
    modifies sink
    ensures var run := SecretRun(BuildRecord(account, region, secret, captureTime, client.getPolicy, foreign));
      raised == run.escaped && sink.saved == old(sink.saved) + run.emitted
  {
    if secret.name.None? {
      return Some(KeyError("Name"));
    }
    var name := secret.name.value;
    var resourceId := ResourceId(account.accountId, region, name);
    if secret.arn.None? {
      return Some(KeyError("ARN"));
    }
    var arn := secret.arn.value;
    var item := Record(account.accountId, account.accountName, ResourceType, Source, region,
                       captureTime, secret, map[], resourceId, name, map[], arn, None);
    var response := client.getPolicy(arn);
    if response.Raised? {
      return Some(response.exc);
    }
    if response.value.resourcePolicy.Some? {
      var decoded := foreign.jsonLoads(response.value.resourcePolicy.value);
      if decoded.None? {
        return Some(DecodeError);
      }
      item := item.(supplementaryConfiguration := item.supplementaryConfiguration[PolicyKey := decoded.value]);
    }
    if secret.tags.Some? {
      var parsed := foreign.parseTags(secret.tags.value);
      if parsed.Raised? {
        return Some(parsed.exc);
      }
      item := item.(tags := Some(parsed.value));
    }
    sink.Save(ResourcePath, item.resourceId, item);
    raised := None;
  }

  /** The `for s in secrets` loop of `discover_secrets`. */
  method ProcessSecrets(sink: Sink, client: Client, secrets: seq<Secret>, account: Account, region: string,
                        foreign: Foreign) returns (raised: Option<Exception>)
    modifies sink
    ensures sink.saved == old(sink.saved) + ProcessAll(account, region, client, secrets, foreign).emitted
    ensures raised == ProcessAll(account, region, client, secrets, foreign).escaped
  {
    ghost var runs := SecretRuns(account, region, client, secrets, foreign);
    ghost var total := Chain(runs);
    ghost var done: seq<Emission> := [];
    raised := None;
    var i := 0;
    while i < |secrets| && raised.None?
      invariant 0 <= i <= |secrets|
      invariant sink.saved == old(sink.saved) + done
      invariant raised.None? ==> ChainSoFar(total, done, runs, i)
      invariant raised.Some? ==> total == Run(done, raised)
    {
      var captureTime := foreign.now(region, i);
      assert runs[i] == SecretRun(BuildRecord(account, region, secrets[i], captureTime, client.getPolicy, foreign));
      raised := ProcessSecret(sink, client, secrets[i], account, region, captureTime, foreign);
      if raised.None? {
        ChainAdvance(total, done, runs, i);
      } else {
        ChainStop(total, done, runs, i);
      }
      AppendAssoc(old(sink.saved), done, runs[i].emitted);
      done := done + runs[i].emitted;
      i := i + 1;
    }
    assert raised.None? ==> runs[i..] == [];
  }

  /** `discover_secrets`: drains the listing, then processes the secrets in
      the order received. */
  method DiscoverSecrets(sink: Sink, account: Account, region: Region, foreign: Foreign)
    returns (escaped: Option<Exception>)
    requires RegionTerminates(region)
    modifies sink
    ensures var run := Discover(account, region, foreign);
      escaped == run.escaped && sink.saved == old(sink.saved) + run.emitted
  {
    var raised: Option<Exception> := None;
    match region.client {
      case Raised(e) =>
        raised := Some(e);
      case Ok(client) =>
        var listed, tokens := DrainListing(client.listing);
        if listed.Raised? {
          raised := Some(listed.exc);
        } else {
          raised := ProcessSecrets(sink, client, listed.value, account, region.name, foreign);
        }
    }
    escaped := if raised == Some(EndpointConnectionError) then None else raised;
  }

  /** The `for r in target_account.get_regions()` loop of `lambda_handler`. */
  method DiscoverRegions(sink: Sink, account: Account, regions: seq<Region>, foreign: Foreign)
    returns (raised: Option<Exception>)
    requires AllTerminate(regions)
    modifies sink
    ensures sink.saved == old(sink.saved) + RunRegions(account, regions, foreign).emitted
    ensures raised == RunRegions(account, regions, foreign).escaped
  {
    ghost var runs := RegionRuns(account, regions, foreign);
    ghost var total := Chain(runs);
    ghost var done: seq<Emission> := [];
    raised := None;
    var i := 0;
    while i < |regions| && raised.None?
      invariant 0 <= i <= |regions|
      invariant sink.saved == old(sink.saved) + done
      invariant raised.None? ==> ChainSoFar(total, done, runs, i)
      invariant raised.Some? ==> total == Run(done, raised)
    {
      raised := DiscoverSecrets(sink, account, regions[i], foreign);
      if raised.None? {
        ChainAdvance(total, done, runs, i);
      } else {
        ChainStop(total, done, runs, i);
      }
      AppendAssoc(old(sink.saved), done, runs[i].emitted);
      done := done + runs[i].emitted;
      i := i + 1;
    }
    assert raised.None? ==> runs[i..] == [];
  }

  /** `lambda_handler`. */
  method LambdaHandler(sink: Sink, message: Result<map<string, string>>,
                       resolve: string -> Result<AccountInfo>, foreign: Foreign) returns (outcome: Outcome)
    requires HandlerTerminates(message, resolve)
    modifies sink
    ensures sink.saved == old(sink.saved) + Handle(message, resolve, foreign).emitted
    ensures outcome == Handle(message, resolve, foreign).outcome
  {
    if message.Raised? {
      return Propagated(message.exc);
    }
    var m := message.value;
    var raised: Option<Exception> := None;  // what leaves the try block
    var bound := false;                     // whether target_account is assigned
    if "account_id" !in m {
      raised := Some(KeyError("account_id"));
    } else {
      match resolve(m["account_id"]) {
        case Raised(e) =>
          raised := Some(e);
        case Ok(info) =>
          var account := Account(info.accountId, info.accountName);
          bound := true;
          match info.regions {
            case Raised(e) =>
              raised := Some(e);
            case Ok(regions) =>
              raised := DiscoverRegions(sink, account, regions, foreign);
          }
      }
    }
    outcome := Except(raised, bound);
  }
}
