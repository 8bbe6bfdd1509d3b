# Secrets Manager inventory worker, modelled in Dafny

A model of the Antiope secrets inventory Lambda,
`aws-inventory/lambda/inventory-secrets.py`. It covers the three pieces of logic
the worker contains:

- `discover_secrets` drains `list_secrets` page by page, following `NextToken`.
  It then processes every secret in the order received. An
  `EndpointConnectionError` ends the region quietly.
- `process_secret` builds one inventory record per secret and calls
  `save_resource_to_s3` with path `secretsmanager` and the `resourceId`. The `resourceId` is
  `<account id>-<region>-<name with "/" turned into "-">`.
- `lambda_handler` visits the account's regions in order and sorts what leaves
  its `try` block:
  - `AssumeRoleError` and `ClientError` raised after `target_account` is
    bound return normally;
  - every other exception propagates.

The boto3 clients, `AWSAccount`, `json.loads`, `parse_tags` and the clock are
inputs. The object store is a `Sink` object whose `saved` sequence grows by one
`(path, resourceId, record)` emission per `save_resource_to_s3`.

Each imperative method is proved against a function of its inputs:

| method | function |
|---|---|
| `ProcessSecret` | `BuildRecord` |
| `ProcessSecrets` | `ProcessAll` |
| `DiscoverSecrets` | `Discover` |
| `DiscoverRegions` | `RunRegions` |
| `LambdaHandler` | `Handle` |
| `DrainListing` | `Drained` |

The properties the worker promises are then lemmas about those functions.

Files:

- `outcomes.dfy` holds the `Option`/`Result` wrappers and the exception classes.
- `records.dfy` holds the record, `resourceId` and the record builder.
- `pagination.dfy` holds the `list_secrets` drain.
- `inventory.dfy` holds the `Sink`, the per-secret, per-region and handler loops, and the dispatch.
- `scenario.dfy` holds worked invocations on concrete accounts.

How the model represents the source:

- **Exceptions.** A raise is a `Raised(e)` result. A loop turn that raises is a
  `Run` whose `escaped` field holds the exception. Each `Exception` constructor
  stands for that class and all its subclasses, since a Python `except` clause
  matches those too. The service-specific botocore errors are all
  `ClientError`s.
- **`Chain(runs)`** is a `for` loop whose body may raise. It takes the turns in
  order up to and including the first one that raises.
- **The provider.** It is the sequence of its replies to successive
  `list_secrets` calls. Each reply is a page or an exception.
- **The clock.** `datetime.datetime.now()` for the k-th secret of a region is
  `foreign.now(region, k)`.

Two consequences of the code as written, which the model keeps:

- **`AWSAccount(...)` raising `AssumeRoleError` does not return normally.** The
  `AssumeRoleError` and `ClientError` clauses evidently mean to return (the
  `return()` at lines 34 and 37), but each first logs a message that reads
  `target_account` (lines 33 and 36). When `AWSAccount(...)` itself raised, that
  name was never assigned, so an `UnboundLocalError` propagates instead. See
  `Inventory.Except` and `Scenario.AssumeRoleFailure`.
- **A throttled `list_secrets` does not propagate.** botocore raises it as a
  `ClientError`, so the handler stops at that region and returns normally. See
  `Scenario.ThrottledListing`. Only exceptions of other classes propagate; see
  `Scenario.FailingListing`.

## Model

| member | source | states |
|---|---|---|
| Records.ReplaceSlashes | aws-inventory/lambda/inventory-secrets.py:71 | `name.replace("/", "-")` keeps the length, turns each `/` into `-`, leaves every other character in place, and leaves no `/` |
| Records.ResourceId | aws-inventory/lambda/inventory-secrets.py:71 | the id is two characters longer than the account id, region and name together, and contains no `/` when the account id and region contain none |
| Records.ResourceIdLayout | aws-inventory/lambda/inventory-secrets.py:71 | the id is the account id, `-`, the region, `-`, then the name character by character with slashes as dashes; it contains no `/` when the account id and region contain none |
| Records.ResourceIdOfPathName | aws-inventory/lambda/inventory-secrets.py:71 | secret `foo/bar` in `us-east-1` of account `111111111111` is filed as `111111111111-us-east-1-foo-bar` |
| Records.ResourceIdSlashDashCollide | aws-inventory/lambda/inventory-secrets.py:71 | the id is not injective: names that differ only by a `/` versus a `-` get the same id |
| Records.BuildRecord | aws-inventory/lambda/inventory-secrets.py:60-81 | the errors come in source order: a missing `Name`, a missing `ARN`, a failing `get_resource_policy`, an undecodable policy, a failing `parse_tags`. Otherwise the record is built. Its fields are the account's id and name, the two constants, the region, the capture time, the raw secret unchanged, the id, `Name`, empty `errors` and `ARN`. `ResourcePolicy` is present iff the response has it, and then holds the decoded text; `supplementaryConfiguration` has no other key. `tags` is present iff the secret has `Tags`, and then holds the parsed tags |
| Records.RecordIdDependsOnNameOnly | aws-inventory/lambda/inventory-secrets.py:71-72 | two records built for one account and region from secrets with the same `Name` get the same id, so the later save overwrites the earlier one |
| Pagination.StopIndex | aws-inventory/lambda/inventory-secrets.py:48-51 | the first reply that raises or has no `NextToken`: every reply before it has a token |
| Pagination.FlattenSplit | aws-inventory/lambda/inventory-secrets.py:50-52 | each page's `SecretList` appears once in the concatenation, in order, between the pages before it and the pages after it |
| Pagination.Drained | aws-inventory/lambda/inventory-secrets.py:46-52 | the drain raises exactly when the stopping call raised, with that call's exception; a result means every call up to the stopping one answered a page and the stopping page had no `NextToken` |
| Pagination.DrainListing | aws-inventory/lambda/inventory-secrets.py:46-52 | `list_secrets` is called `StopIndex + 1` times. The first call has no token; each later call passes the previous page's `NextToken`. The result is the exception of the last call, or the concatenated `SecretList` of every page read, the token-less one included |
| Pagination.DrainReadsEveryPage | aws-inventory/lambda/inventory-secrets.py:48-52 | when every page but the last has a token and the last has none, every page is read and the drain yields all their secrets in provider order |
| Pagination.DrainIgnoresLaterReplies | aws-inventory/lambda/inventory-secrets.py:49-51 | no call is made past the stopping reply: appending further replies changes neither the number of calls nor the result |
| Inventory.Sink.Save | aws-inventory/lambda/inventory-secrets.py:82 | `save_resource_to_s3` appends exactly one `(path, id, record)` emission |
| Inventory.Chain | aws-inventory/lambda/inventory-secrets.py:54-55 | a loop's escaping exception is one that one of its turns raised |
| Inventory.ChainAppend | aws-inventory/lambda/inventory-secrets.py:29-30 | looping over `a + b` is looping over `a`, then, unless that raised, over `b` |
| Inventory.ChainOfSingles | aws-inventory/lambda/inventory-secrets.py:54-55 | when each turn saves one record exactly when it does not raise: the k-th save is the k-th turn's, every turn before the first exception saves, and the exception is that of the turn just after the last save |
| Inventory.ProcessAll | aws-inventory/lambda/inventory-secrets.py:54-55 | an exception leaving the `for s in secrets` loop is one that processing some listed secret raised |
| Inventory.ProcessAllOneRecordPerSecret | aws-inventory/lambda/inventory-secrets.py:54-55 | one record per secret in list order: the j-th save is the j-th secret's record, filed under `secretsmanager` and its id. Every secret is saved iff nothing raised; otherwise the exception is the one raised for the first unsaved secret |
| Inventory.TryDiscover | aws-inventory/lambda/inventory-secrets.py:45-55 | no secret is saved unless the client was made and the whole listing drained; a failing `get_client` or listing call saves nothing and raises that exception |
| Inventory.Discover | aws-inventory/lambda/inventory-secrets.py:45-58 | a region keeps what its `try` block saved; `EndpointConnectionError` is absorbed and never leaves; every other exception leaves unchanged |
| Inventory.DiscoverReadsEveryPage | aws-inventory/lambda/inventory-secrets.py:47-55 | with well-formed pages, the region's loop runs over every secret of every page, in provider order |
| Inventory.RunRegions | aws-inventory/lambda/inventory-secrets.py:29-30 | an `EndpointConnectionError` never ends the region loop |
| Inventory.RunRegionsAppend | aws-inventory/lambda/inventory-secrets.py:29-30 | regions are visited strictly in order: regions `first + later` are `first`'s run, then, unless an exception left it, `later`'s |
| Inventory.Except | aws-inventory/lambda/inventory-secrets.py:32-40 | the handler returns normally iff nothing escaped, or an `AssumeRoleError`/`ClientError` escaped after `target_account` was bound. Any other exception propagates unchanged. A stopping one raised before the binding becomes `UnboundLocalError` |
| Inventory.Handle | aws-inventory/lambda/inventory-secrets.py:22-40 | a malformed envelope propagates. A message without `account_id` propagates its `KeyError`. Nothing is saved unless the account and its regions resolved. A failing `AWSAccount` saves nothing and goes to the `except` clauses with `target_account` unbound: a class the handler does not name propagates unchanged, and `AssumeRoleError`/`ClientError` become `UnboundLocalError`, so it never returns normally. A failing `get_regions()` saves nothing and goes to the `except` clauses with `target_account` bound, so `AssumeRoleError`/`ClientError` return normally and the rest propagate. Once the regions are known, the saves are the region loop's for the account id and name `AWSAccount` reports, and the handler returns normally iff the loop ended or stopped on `AssumeRoleError`/`ClientError`; otherwise the loop's exception, never `EndpointConnectionError`, propagates |
| Inventory.ProcessSecret | aws-inventory/lambda/inventory-secrets.py:60-82 | building and saving one secret appends exactly the `BuildRecord` emission, or returns its exception and saves nothing |
| Inventory.ProcessSecrets | aws-inventory/lambda/inventory-secrets.py:54-55 | the `for s in secrets` loop saves exactly what `ProcessAll` describes and lets out its exception |
| Inventory.DiscoverSecrets | aws-inventory/lambda/inventory-secrets.py:42-58 | `discover_secrets` saves exactly `Discover`'s emissions and lets out its exception |
| Inventory.DiscoverRegions | aws-inventory/lambda/inventory-secrets.py:29-30 | the region loop saves exactly `RunRegions`'s emissions and lets out its exception |
| Inventory.LambdaHandler | aws-inventory/lambda/inventory-secrets.py:22-40 | `lambda_handler` saves exactly `Handle`'s emissions and ends with its outcome |
| Scenario.BazId | aws-inventory/lambda/inventory-secrets.py:71 | secret `baz` in `us-east-1` of account `111111111111` is filed as `111111111111-us-east-1-baz` |
| Scenario.EastListing | aws-inventory/lambda/inventory-secrets.py:48-55 | a single token-less page hands its two secrets to the loop |
| Scenario.EastBuilds | aws-inventory/lambda/inventory-secrets.py:60-81 | both `us-east-1` secrets build, in `us-east-1`, with their expected ids |
| Scenario.EastSavesBoth | aws-inventory/lambda/inventory-secrets.py:42-58 | `us-east-1` saves two records, `foo/bar`'s and then `baz`'s, under `secretsmanager`, and ends quietly |
| Scenario.WestIsSkipped | aws-inventory/lambda/inventory-secrets.py:57-58 | `us-west-2`, whose listing raises `EndpointConnectionError`, saves nothing and ends quietly |
| Scenario.QuietSecond | aws-inventory/lambda/inventory-secrets.py:29-30 | a quiet region followed by one that saves nothing and ends quietly amounts to the first region |
| Scenario.ScenarioRegions | aws-inventory/lambda/inventory-secrets.py:29-30 | the loop over `[us-east-1, us-west-2]` amounts to `us-east-1` alone |
| Scenario.TwoRegionInvocation | aws-inventory/lambda/inventory-secrets.py:22-40 | the invocation for account `111111111111` saves exactly two records, both from `us-east-1`, with ids `111111111111-us-east-1-foo-bar` and `111111111111-us-east-1-baz`, and returns normally |
| Scenario.AssumeRoleFailure | aws-inventory/lambda/inventory-secrets.py:27-34 | an `AssumeRoleError` from `AWSAccount` saves nothing and ends in `UnboundLocalError("target_account")` |
| Scenario.AccountLookupFailure | aws-inventory/lambda/inventory-secrets.py:38-40 | `AWSAccount` failing with `OtherError("AccountLookupError")`, a class the handler does not name, saves nothing and propagates that exception unchanged |
| Scenario.RegionsAssumeRoleFailure | aws-inventory/lambda/inventory-secrets.py:29-34 | an `AssumeRoleError` from `get_regions()`, raised after `target_account` is bound, saves nothing and returns normally |
| Scenario.ThrottledListing | aws-inventory/lambda/inventory-secrets.py:35-37 | a throttled listing (`ClientError`) saves nothing, leaves the next region unvisited and returns normally |
| Scenario.FailingListing | aws-inventory/lambda/inventory-secrets.py:38-40 | a listing failing with `OtherError("ReadTimeoutError")`, a class the handler does not name, saves nothing and propagates that exception unchanged |

## Left out

- Logging is left out, except the reads of `target_account` in the messages of the `AssumeRoleError` and `ClientError` clauses (lines 33 and 36), which are modelled because an unbound `target_account` turns them into `UnboundLocalError`. The other messages are assumed not to raise; in particular `vars(context)` (line 39) is assumed to succeed, although it raises `TypeError` for a context without a `__dict__`, which would replace the re-raise of the caught exception.
- Decoding the SNS envelope (line 24): it is an input, either the decoded message or the exception raised before the `try` block.
- `AWSAccount`, `get_regions` and `get_client`: their code is not part of this model. They are inputs giving the account's `account_id` and `account_name`, the region list and a client per region, or an exception. The record's `awsAccountId` is the `account_id` that `AWSAccount` reports (line 63); the model does not relate it to the `account_id` of the message.
- `parse_tags` and `json.loads`: opaque parameters. `parse_tags` returns a result, so it may raise any exception. `json.loads` yields `None` for text that does not decode, and the model raises `JSONDecodeError` in its place; it cannot raise any other exception in the model.
- `datetime.datetime.now()`: a parameter `now(region, k)`, the reading for the k-th secret of a region. The model does not relate the readings to each other.
- `save_resource_to_s3` failures are not modelled: a save always succeeds.
- boto3 retries, timeouts and concurrency are not modelled.
- Pagination.DrainListing, Inventory.Discover, Inventory.Handle require that every listing ends within the modelled replies. A provider that returns a `NextToken` forever, which would make the source loop forever, is not modelled.
- A `list_secrets` page without a `SecretList` key is not modelled: every page has a (possibly empty) list.
