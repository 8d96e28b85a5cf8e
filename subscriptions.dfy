/** The subscriptions resource: `list` with offset pagination (`limit`, `skip`) plus filters; no cursors. */
module Subscriptions {
  import opened Wrappers
  import opened Json
  import opened Client

  const CollectionPath: string := "/v1/subscriptions/"

  /** The `list` parameters; the default `{}` is the record with every field absent. */
  datatype SubscriptionListParams = SubscriptionListParams(
    search: Option<string>,
    pageId: Option<string>,
    status: Option<string>,
    limit: Option<int>,
    skip: Option<int>)

  /** The query record literal of `list`. */
  function ListQuery(args: SubscriptionListParams): (q: Query)
    ensures Keys(q) == ["search", "pageId", "status", "limit", "skip"]
  {
    [ ("search", Given(args.search)),
      ("pageId", Given(args.pageId)),
      ("status", Given(args.status)),
      ("limit", GivenNumber(args.limit)),
      ("skip", GivenNumber(args.skip)) ]
  }

  /** The sent query holds exactly the supplied parameters, in declaration order; `limit` and `skip` in decimal. */
  lemma ListSearchParams(args: SubscriptionListParams)
    ensures SearchParams(ListQuery(args)) ==
      Present("search", args.search) + Present("pageId", args.pageId) + Present("status", args.status)
      + Present("limit", ShowNumber(args.limit)) + Present("skip", ShowNumber(args.skip))
  {
    SearchParamsOf5(("search", Given(args.search)), ("pageId", Given(args.pageId)), ("status", Given(args.status)), ("limit", GivenNumber(args.limit)), ("skip", GivenNumber(args.skip)));
    EntryParamsOfGiven("search", args.search);
    EntryParamsOfGiven("pageId", args.pageId);
    EntryParamsOfGiven("status", args.status);
    EntryParamsOfGivenNumber("limit", args.limit);
    EntryParamsOfGivenNumber("skip", args.skip);
  }

  /** `list(args)`: one GET on the collection path carrying the supplied parameters; the response is returned as handled. */
  function List(client: CheckoutPageClient, args: SubscriptionListParams, server: FetchRequest -> Response): (c: Call<JVal>)
    ensures |c.sent| == 1
    ensures c.sent[0].httpMethod == GET && c.sent[0].url.path == "/v1/subscriptions/" && c.sent[0].body == None
    ensures c.sent[0].url.searchParams ==
      Present("search", args.search) + Present("pageId", args.pageId) + Present("status", args.status)
      + Present("limit", ShowNumber(args.limit)) + Present("skip", ShowNumber(args.skip))
    ensures c.outcome == HandleResponse(server(c.sent[0]))
  {
    ListSearchParams(args);
    Perform(client, RequestOptions(GET, CollectionPath, None, Some(ListQuery(args))), server)
  }

  /** No parameter outside the five declared keys is ever sent; in particular no cursor. */
  lemma ListNeverSendsCursors(client: CheckoutPageClient, args: SubscriptionListParams, server: FetchRequest -> Response)
    ensures forall p :: p in List(client, args, server).sent[0].url.searchParams ==>
      p.0 in {"search", "pageId", "status", "limit", "skip"}
  {
    var c := List(client, args, server);
    forall p | p in c.sent[0].url.searchParams
      ensures p.0 in {"search", "pageId", "status", "limit", "skip"}
    {
      SearchParamsMember(ListQuery(args), p.0, p.1);
      var i :| 0 <= i < |ListQuery(args)| && ListQuery(args)[i].0 == p.0;
      assert Keys(ListQuery(args))[i] == p.0;
    }
  }
}
