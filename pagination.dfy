/** The pagination drain of `discover_secrets`: `list_secrets` is called
    again and again, each time with the previous page's `NextToken`, until a
    page comes back without one. The provider is a sequence of replies: the
    i-th call returns `listing[i]`, a page or an exception. */
module Pagination {
  import opened Outcomes
  import opened Records

  /** One `list_secrets` response: its `SecretList` and its `NextToken`. */
  datatype Page = Page(secretList: seq<Secret>, nextToken: Option<string>)

  /** A reply after which the loop makes no further call. */
  predicate Stops(reply: Result<Page>) {
    reply.Raised? || reply.value.nextToken.None?
  }

  /** The index of the first reply after which the loop stops, or `|listing|`
      when the listing has none. */
  function StopIndex(listing: seq<Result<Page>>): (k: nat)
    ensures k <= |listing|
    ensures forall j :: 0 <= j < k ==> !Stops(listing[j])
    ensures k < |listing| ==> Stops(listing[k])
  {
    if listing == [] then 0
    else if Stops(listing[0]) then 0
    else 1 + StopIndex(listing[1..])
  }

  /** The provider eventually answers without a token, or raises, so the
      loop ends within the modelled replies. */
  predicate Terminates(listing: seq<Result<Page>>) {
    StopIndex(listing) < |listing|
  }

  /** The secrets a reply carries (none when the call raised). */
  function Items(reply: Result<Page>): seq<Secret> {
    if reply.Ok? then reply.value.secretList else []
  }

  /** Every reply's `SecretList`, concatenated in order. */
  function Flatten(replies: seq<Result<Page>>): seq<Secret> {
    if replies == [] then [] else Items(replies[0]) + Flatten(replies[1..])
  }

  lemma {:induction false} FlattenAppend(a: seq<Result<Page>>, b: seq<Result<Page>>)
    ensures Flatten(a + b) == Flatten(a) + Flatten(b)
  {
    if a == [] {
      assert a + b == b;
    } else {
      assert (a + b)[1..] == a[1..] + b;
      FlattenAppend(a[1..], b);
    }
  }

  /** Each page's items sit, once and in order, between those of the pages
      before it and those of the pages after it. */
  lemma {:induction false} FlattenSplit(replies: seq<Result<Page>>, j: nat)
    requires j < |replies|
    ensures Flatten(replies) == Flatten(replies[..j]) + Items(replies[j]) + Flatten(replies[j + 1..])
  {
    var pre, here, post := replies[..j], [replies[j]], replies[j + 1..];
    assert replies == pre + here + post;
    FlattenAppend(pre + here, post);
    FlattenAppend(pre, here);
    assert Flatten(here) == Items(replies[j]) by {
      assert here[1..] == [];
    }
  }

  /** What the drain hands on: the concatenated secrets of every page up to
      and including the token-less one, or the exception of the call that
      raised. */
  function Drained(listing: seq<Result<Page>>): (r: Result<seq<Secret>>)
    requires Terminates(listing)
    ensures r.Raised? <==> listing[StopIndex(listing)].Raised?
    ensures r.Raised? ==> r.exc == listing[StopIndex(listing)].exc
    // a result means every call up to the last answered a page, and the last had no token
    ensures r.Ok? ==> forall j :: 0 <= j <= StopIndex(listing) ==> listing[j].Ok?
    ensures r.Ok? ==> listing[StopIndex(listing)].value.nextToken.None?
  {
    var k := StopIndex(listing);
    if listing[k].Raised? then Raised(listing[k].exc) else Ok(Flatten(listing[..k + 1]))
  }

  /** The drain loop of `discover_secrets`. `tokens[i]` is the `NextToken`
      argument of the i-th `list_secrets` call (`None`: no argument). */
  method DrainListing(listing: seq<Result<Page>>) returns (r: Result<seq<Secret>>, tokens: seq<Option<string>>)
    requires Terminates(listing)
    ensures |tokens| == StopIndex(listing) + 1
    ensures tokens[0] == None
    ensures forall j :: 0 < j < |tokens| ==>
      listing[j - 1].Ok? && listing[j - 1].value.nextToken.Some? && tokens[j] == listing[j - 1].value.nextToken
    ensures listing[|tokens| - 1].Raised? ==> r == Raised(listing[|tokens| - 1].exc)
    ensures listing[|tokens| - 1].Ok? ==> r == Ok(Flatten(listing[..|tokens|]))
    ensures r == Drained(listing)
  {
    var secrets: seq<Secret> := [];
    tokens := [None];
    var i := 0;
    var response := listing[0];
    if response.Raised? {
      return Raised(response.exc), tokens;
    }
    while response.value.nextToken.Some?
      invariant i < |listing| && response == listing[i] && response.Ok?
      invariant forall j :: 0 <= j < i ==> !Stops(listing[j])
      invariant |tokens| == i + 1 && tokens[0] == None
      invariant forall j :: 0 < j < |tokens| ==>
        listing[j - 1].Ok? && listing[j - 1].value.nextToken.Some? && tokens[j] == listing[j - 1].value.nextToken
      invariant secrets == Flatten(listing[..i])
      decreases StopIndex(listing) - i
    {
      FlattenAppend(listing[..i], [response]);
      assert listing[..i] + [response] == listing[..i + 1];
      assert [response][1..] == [];
      secrets := secrets + response.value.secretList;
      tokens := tokens + [response.value.nextToken];
      i := i + 1;
      response := listing[i];
      if response.Raised? {
        return Raised(response.exc), tokens;
      }
    }
    FlattenAppend(listing[..i], [response]);
    assert listing[..i] + [response] == listing[..i + 1];
    assert [response][1..] == [];
    secrets := secrets + response.value.secretList;
    assert StopIndex(listing) == i;
    assert secrets == Flatten(listing[..i + 1]);
    assert |tokens| == i + 1;
    r := Ok(secrets);
  }

  /** A listing shaped as the provider promises: pages only, each one but
      the last with a token, the last without. */
  predicate WellFormedPages(listing: seq<Result<Page>>) {
    && |listing| > 0
    && (forall j :: 0 <= j < |listing| ==> listing[j].Ok?)
    && (forall j :: 0 <= j < |listing| - 1 ==> listing[j].value.nextToken.Some?)
    && listing[|listing| - 1].value.nextToken.None?
  }

  /** On such a listing every page is read, the last one included, and the
      drain yields all of their secrets in provider order. */
  lemma DrainReadsEveryPage(listing: seq<Result<Page>>)
    requires WellFormedPages(listing)
    ensures Terminates(listing) && StopIndex(listing) == |listing| - 1
    ensures Drained(listing) == Ok(Flatten(listing))
  {
    var k := StopIndex(listing);
    assert forall j :: 0 <= j < |listing| - 1 ==> !Stops(listing[j]);
    assert k == |listing| - 1;
    assert listing[..|listing|] == listing;
  }

  /** Replies past the stopping one are never requested. */
  lemma DrainIgnoresLaterReplies(listing: seq<Result<Page>>, later: seq<Result<Page>>)
    requires Terminates(listing)
    ensures Terminates(listing + later)
    ensures StopIndex(listing + later) == StopIndex(listing)
    ensures Drained(listing + later) == Drained(listing)
  {
    var k := StopIndex(listing);
    assert forall j :: 0 <= j < |listing| ==> (listing + later)[j] == listing[j];
    assert (listing + later)[..k + 1] == listing[..k + 1];
  }
}
