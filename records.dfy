/** The canonical inventory record that `process_secret` builds for one
    secret, and the `resourceId` it files the record under. */
module Records {
  import opened Outcomes

  /** A JSON value, as `json.loads` and the boto3 responses produce them. */
  datatype Json =
    | JNull
    | JBool(b: bool)
    | JNumber(n: int)
    | JString(s: string)
    | JArray(items: seq<Json>)
    | JObject(fields: map<string, Json>)

  /** One `{Key, Value}` pair of a secret's raw `Tags` list. */
  datatype Tag = Tag(key: string, value: string)

  /** One entry of a `list_secrets` page's `SecretList`. `Name` and `ARN` are
      looked up with `[]`, so the model keeps them optional; every other
      field the provider sends is carried along untouched. */
  datatype Secret = Secret(
    name: Option<string>,
    arn: Option<string>,
    tags: Option<seq<Tag>>,
    otherFields: map<string, Json>)

  /** The identity of the target account. */
  datatype Account = Account(accountId: string, accountName: string)

  /** The response of `get_resource_policy`: only whether it has a
      `ResourcePolicy` key, and that key's JSON text, matter. */
  datatype PolicyResponse = PolicyResponse(resourcePolicy: Option<string>)

  /** The calls into code that is not part of this model: `json.loads`
      (`None` when the text does not decode), `parse_tags` (which may raise),
      and the clock read by `datetime.datetime.now()`: `now(region, k)` is
      the reading taken for the k-th secret listed in that region. */
  datatype Foreign = Foreign(
    jsonLoads: string -> Option<Json>,
    parseTags: seq<Tag> -> Result<Json>,
    now: (string, nat) -> string)

  /** The inventory record: one field per key of the source's `resource_item`
      dict; `tags` is `None` when the dict has no `tags` key. */
  datatype Record = Record(
    awsAccountId: string,
    awsAccountName: string,
    resourceType: string,
    source: string,
    awsRegion: string,
    configurationItemCaptureTime: string,
    configuration: Secret,
    supplementaryConfiguration: map<string, Json>,
    resourceId: string,
    resourceName: string,
    errors: map<string, Json>,
    arn: string,
    tags: Option<Json>)

  const ResourceType := "AWS::SecretsManager::Secret"
  const Source := "Antiope"
  const PolicyKey := "ResourcePolicy"

  /** What `json.loads` raises on text that is not JSON. */
  const DecodeError := OtherError("JSONDecodeError")

  /** `name.replace("/", "-")`: every slash becomes a dash, nothing else moves. */
  function ReplaceSlashes(name: string): (r: string)
    ensures |r| == |name|
    ensures forall i :: 0 <= i < |name| ==> r[i] == (if name[i] == '/' then '-' else name[i])
    ensures '/' !in r
  {
    if name == [] then []
    else [if name[0] == '/' then '-' else name[0]] + ReplaceSlashes(name[1..])
  }

  /** `"{}-{}-{}".format(account_id, region, name.replace("/", "-"))`. */
  function ResourceId(accountId: string, region: string, name: string): (id: string)
    ensures |id| == |accountId| + |region| + |name| + 2
    ensures '/' !in accountId && '/' !in region ==> '/' !in id
  {
    accountId + "-" + region + "-" + ReplaceSlashes(name)
  }

  /** The id is the account id, a dash, the region, a dash, and the name with
      its slashes turned into dashes. */
  lemma ResourceIdLayout(accountId: string, region: string, name: string)
    ensures var id := ResourceId(accountId, region, name);
      && |id| == |accountId| + |region| + |name| + 2
      && id[..|accountId|] == accountId
      && id[|accountId|] == '-'
      && id[|accountId| + 1..|accountId| + 1 + |region|] == region
      && id[|accountId| + 1 + |region|] == '-'
      && (forall i :: 0 <= i < |name| ==>
            id[|accountId| + |region| + 2 + i] == (if name[i] == '/' then '-' else name[i]))
      && ('/' !in accountId && '/' !in region ==> '/' !in id)
  {
    var prefix := accountId + "-" + region + "-";
    var suffix := ReplaceSlashes(name);
    assert ResourceId(accountId, region, name) == prefix + suffix;
    assert forall i :: 0 <= i < |name| ==> (prefix + suffix)[|prefix| + i] == suffix[i];
  }

  /** The id for secret `foo/bar` in `us-east-1` of account `111111111111`. */
  lemma ResourceIdOfPathName()
    ensures ResourceId("111111111111", "us-east-1", "foo/bar") == "111111111111-us-east-1-foo-bar"
  {
    assert "111111111111" + "-" + "us-east-1" + "-" + "foo-bar" == "111111111111-us-east-1-foo-bar" by {
      assert "111111111111" + "-" == "111111111111-";
      assert "111111111111-" + "us-east-1" == "111111111111-us-east-1";
      assert "111111111111-us-east-1" + "-" == "111111111111-us-east-1-";
      assert "111111111111-us-east-1-" + "foo-bar" == "111111111111-us-east-1-foo-bar";
    }
    assert ReplaceSlashes("foo/bar") == "foo-bar" by {
      var s := ReplaceSlashes("foo/bar");
      assert |s| == 7;
      assert s[0] == 'f' && s[1] == 'o' && s[2] == 'o' && s[3] == '-';
      assert s[4] == 'b' && s[5] == 'a' && s[6] == 'r';
    }
  }

  /** The id is not injective in the name: a slash and a dash collide. */
  lemma ResourceIdSlashDashCollide(accountId: string, region: string, before: string, after: string)
    ensures ResourceId(accountId, region, before + "/" + after)
         == ResourceId(accountId, region, before + "-" + after)
  {
    var n1, n2 := before + "/" + after, before + "-" + after;
    assert ReplaceSlashes(n1) == ReplaceSlashes(n2) by {
      var r1, r2 := ReplaceSlashes(n1), ReplaceSlashes(n2);
      forall i | 0 <= i < |n1| ensures r1[i] == r2[i] {
        if i != |before| { assert n1[i] == n2[i]; }
      }
    }
  }

  /** `process_secret` up to, but not including, `save_resource_to_s3`:
      the record built for `secret`, or the exception raised on the way.
      `getPolicy` answers `get_resource_policy` for a secret ARN. */
  function BuildRecord(account: Account, region: string, secret: Secret, captureTime: string,
                       getPolicy: string -> Result<PolicyResponse>, foreign: Foreign): (r: Result<Record>)
    // the exceptions, in the order the source can raise them
    ensures secret.name.None? ==> r == Raised(KeyError("Name"))
    ensures secret.name.Some? && secret.arn.None? ==> r == Raised(KeyError("ARN"))
    ensures secret.name.Some? && secret.arn.Some? && getPolicy(secret.arn.value).Raised? ==>
      r == Raised(getPolicy(secret.arn.value).exc)
    ensures secret.name.Some? && secret.arn.Some? && getPolicy(secret.arn.value).Ok? ==>
      var policy := getPolicy(secret.arn.value).value.resourcePolicy;
      var decodes := policy.None? || foreign.jsonLoads(policy.value).Some?;
      var parses := secret.tags.None? || foreign.parseTags(secret.tags.value).Ok?;
      && (!decodes ==> r == Raised(DecodeError))
      && (decodes && !parses ==> r == Raised(foreign.parseTags(secret.tags.value).exc))
      && (r.Ok? <==> decodes && parses)
    ensures r == Raised(EndpointConnectionError) ==>
      && secret.arn.Some?
      && (getPolicy(secret.arn.value) == Raised(EndpointConnectionError) ||
          (secret.tags.Some? && foreign.parseTags(secret.tags.value) == Raised(EndpointConnectionError)))
    // the record, when one is built
    ensures r.Ok? ==>
      && secret.name.Some? && secret.arn.Some? && getPolicy(secret.arn.value).Ok?
      && r.value.awsAccountId == account.accountId
      && r.value.awsAccountName == account.accountName
      && r.value.resourceType == ResourceType
      && r.value.source == Source
      && r.value.awsRegion == region
      && r.value.configurationItemCaptureTime == captureTime
      && r.value.configuration == secret
      && r.value.resourceId == ResourceId(account.accountId, region, secret.name.value)
      && r.value.resourceName == secret.name.value
      && r.value.errors == map[]
      && r.value.arn == secret.arn.value
    ensures r.Ok? ==>
      var policy := getPolicy(secret.arn.value).value.resourcePolicy;
      && (PolicyKey in r.value.supplementaryConfiguration <==> policy.Some?)
      && r.value.supplementaryConfiguration.Keys <= {PolicyKey}
      && (policy.Some? ==> r.value.supplementaryConfiguration[PolicyKey] == foreign.jsonLoads(policy.value).value)
    ensures r.Ok? ==>
      && (r.value.tags.Some? <==> secret.tags.Some?)
      && (secret.tags.Some? ==> r.value.tags.value == foreign.parseTags(secret.tags.value).value)
  {
    match secret.name
    case None => Raised(KeyError("Name"))
    case Some(name) =>
      match secret.arn
      case None => Raised(KeyError("ARN"))
      case Some(arn) =>
        match getPolicy(arn)
        case Raised(e) => Raised(e)
        case Ok(response) =>
          var supplementary: Result<map<string, Json>> :=
            match response.resourcePolicy
            case None => Ok(map[])
            case Some(text) =>
              match foreign.jsonLoads(text)
              case None => Raised(DecodeError)
              case Some(doc) => Ok(map[PolicyKey := doc]);
          var tags: Result<Option<Json>> :=
            match secret.tags
            case None => Ok(None)
            case Some(raw) =>
              match foreign.parseTags(raw)
              case Raised(e) => Raised(e)
              case Ok(parsed) => Ok(Some(parsed));
          match supplementary
          case Raised(e) => Raised(e)
          case Ok(config) =>
            match tags
            case Raised(e) => Raised(e)
            case Ok(tagged) =>
              Ok(Record(account.accountId, account.accountName, ResourceType, Source, region,
                        captureTime, secret, config, ResourceId(account.accountId, region, name),
                        name, map[], arn, tagged))
  }

  /** The `resourceId` of a record depends on the account id, the region and
      the secret's name alone, so a secret saved again overwrites its
      earlier record whatever else changed. */
  lemma RecordIdDependsOnNameOnly(account1: Account, account2: Account, region: string,
                                  secret1: Secret, secret2: Secret, time1: string, time2: string,
                                  getPolicy1: string -> Result<PolicyResponse>,
                                  getPolicy2: string -> Result<PolicyResponse>,
                                  foreign1: Foreign, foreign2: Foreign)
    requires account1.accountId == account2.accountId && secret1.name == secret2.name
    requires BuildRecord(account1, region, secret1, time1, getPolicy1, foreign1).Ok?
    requires BuildRecord(account2, region, secret2, time2, getPolicy2, foreign2).Ok?
    ensures BuildRecord(account1, region, secret1, time1, getPolicy1, foreign1).value.resourceId
         == BuildRecord(account2, region, secret2, time2, getPolicy2, foreign2).value.resourceId
  {
  }
}
