/** The bookings resource: `list` with cursor pagination plus `status` and `pageId` filters. */
module Bookings {
  import opened Wrappers
  import opened Json
  import opened Client

  const CollectionPath: string := "/v1/bookings/"

  /** The `list` parameters; the default `{}` is the record with every field absent. */
  datatype BookingListParams = BookingListParams(
    search: Option<string>,
    limit: Option<int>,
    startingAfter: Option<string>,
    endingBefore: Option<string>,
    status: Option<string>,
    pageId: Option<string>)

  /** The query record literal of `list`. */
  function ListQuery(args: BookingListParams): (q: Query)
    ensures Keys(q) == ["search", "limit", "starting_after", "ending_before", "status", "pageId"]
  {
    [ ("search", Given(args.search)),
      ("limit", GivenNumber(args.limit)),
      ("starting_after", Given(args.startingAfter)),
      ("ending_before", Given(args.endingBefore)),
      ("status", Given(args.status)),
      ("pageId", Given(args.pageId)) ]
  }

  /** The sent query holds exactly the supplied parameters, in declaration order; strings unchanged, `limit` in decimal. */
  lemma ListSearchParams(args: BookingListParams)
    ensures SearchParams(ListQuery(args)) ==
      Present("search", args.search) + Present("limit", ShowNumber(args.limit))
      + Present("starting_after", args.startingAfter) + Present("ending_before", args.endingBefore)
      + Present("status", args.status) + Present("pageId", args.pageId)
  {
    SearchParamsOf6(("search", Given(args.search)), ("limit", GivenNumber(args.limit)), ("starting_after", Given(args.startingAfter)), ("ending_before", Given(args.endingBefore)), ("status", Given(args.status)), ("pageId", Given(args.pageId)));
    EntryParamsOfGiven("search", args.search);
    EntryParamsOfGivenNumber("limit", args.limit);
    EntryParamsOfGiven("starting_after", args.startingAfter);
    EntryParamsOfGiven("ending_before", args.endingBefore);
    EntryParamsOfGiven("status", args.status);
    EntryParamsOfGiven("pageId", args.pageId);
  }

  /** `list(args)`: one GET on the collection path carrying the supplied parameters; the response is returned as handled. */
  function List(client: CheckoutPageClient, args: BookingListParams, server: FetchRequest -> Response): (c: Call<JVal>)
    ensures |c.sent| == 1
    ensures c.sent[0].httpMethod == GET && c.sent[0].url.path == "/v1/bookings/" && c.sent[0].body == None
    ensures c.sent[0].url.searchParams ==
      Present("search", args.search) + Present("limit", ShowNumber(args.limit))
      + Present("starting_after", args.startingAfter) + Present("ending_before", args.endingBefore)
      + Present("status", args.status) + Present("pageId", args.pageId)
    ensures c.outcome == HandleResponse(server(c.sent[0]))
  {
    ListSearchParams(args);
    Perform(client, RequestOptions(GET, CollectionPath, None, Some(ListQuery(args))), server)
  }

  /** With no arguments, `list` sends the bare collection URL. */
  lemma ListWithoutArgumentsSendsNoQuery(client: CheckoutPageClient, server: FetchRequest -> Response)
    ensures List(client, BookingListParams(None, None, None, None, None, None), server).sent[0].url.searchParams == []
  {
  }
}
