/** The payments resource: `list` with offset pagination (`limit`, `skip`) plus filters. */
module Payments {
  import opened Wrappers
  import opened Json
  import opened Client

  const CollectionPath: string := "/v1/payments/"

  /** The `list` parameters; the default `{}` is the record with every field absent. */
  datatype PaymentListParams = PaymentListParams(
    search: Option<string>,
    status: Option<string>,
    pageId: Option<string>,
    limit: Option<int>,
    skip: Option<int>)

  /** The query record literal of `list`. */
  function ListQuery(args: PaymentListParams): (q: Query)
    ensures Keys(q) == ["search", "status", "pageId", "limit", "skip"]
  {
    [ ("search", Given(args.search)),
      ("status", Given(args.status)),
      ("pageId", Given(args.pageId)),
      ("limit", GivenNumber(args.limit)),
      ("skip", GivenNumber(args.skip)) ]
  }

  /** The sent query holds exactly the supplied parameters, in declaration order; `limit` and `skip` in decimal. */
  lemma ListSearchParams(args: PaymentListParams)
    ensures SearchParams(ListQuery(args)) ==
      Present("search", args.search) + Present("status", args.status) + Present("pageId", args.pageId)
      + Present("limit", ShowNumber(args.limit)) + Present("skip", ShowNumber(args.skip))
  {
    SearchParamsOf5(("search", Given(args.search)), ("status", Given(args.status)), ("pageId", Given(args.pageId)), ("limit", GivenNumber(args.limit)), ("skip", GivenNumber(args.skip)));
    EntryParamsOfGiven("search", args.search);
    EntryParamsOfGiven("status", args.status);
    EntryParamsOfGiven("pageId", args.pageId);
    EntryParamsOfGivenNumber("limit", args.limit);
    EntryParamsOfGivenNumber("skip", args.skip);
  }

  /** `list(args)`: one GET on the collection path carrying the supplied parameters; the response is returned as handled. */
  function List(client: CheckoutPageClient, args: PaymentListParams, server: FetchRequest -> Response): (c: Call<JVal>)
    ensures |c.sent| == 1
    ensures c.sent[0].httpMethod == GET && c.sent[0].url.path == "/v1/payments/" && c.sent[0].body == None
    ensures c.sent[0].url.searchParams ==
      Present("search", args.search) + Present("status", args.status) + Present("pageId", args.pageId)
      + Present("limit", ShowNumber(args.limit)) + Present("skip", ShowNumber(args.skip))
    ensures c.outcome == HandleResponse(server(c.sent[0]))
  {
    ListSearchParams(args);
    Perform(client, RequestOptions(GET, CollectionPath, None, Some(ListQuery(args))), server)
  }

  /** `skip: 0` is sent as "0", not dropped: only an absent value is omitted. */
  lemma ListSendsZeroSkip(client: CheckoutPageClient, args: PaymentListParams, server: FetchRequest -> Response)
    requires args.skip == Some(0)
    ensures ("skip", "0") in List(client, args, server).sent[0].url.searchParams
  {
    assert ShowNumber(args.skip) == Some("0");
  }
}
