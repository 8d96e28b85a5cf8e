/**
 * The coupons resource: a cursor-paginated `list`, and `create`, whose
 * body holds only the fields the discount type, the duration and the
 * supplied options call for.
 */
module Coupons {
  import opened Wrappers
  import opened Json
  import opened Client

  const CollectionPath: string := "/v1/coupons/"

  /** The `list` parameters; the default `{}` is the record with every field absent. */
  datatype CouponListParams = CouponListParams(
    search: Option<string>,
    limit: Option<int>,
    startingAfter: Option<string>,
    endingBefore: Option<string>)

  /** The query record literal of `list`. */
  function ListQuery(args: CouponListParams): (q: Query)
    ensures Keys(q) == ["search", "limit", "starting_after", "ending_before"]
  {
    [ ("search", Given(args.search)),
      ("limit", GivenNumber(args.limit)),
      ("starting_after", Given(args.startingAfter)),
      ("ending_before", Given(args.endingBefore)) ]
  }

  /** The sent query holds exactly the supplied parameters, in declaration order, `limit` in decimal. */
  lemma ListSearchParams(args: CouponListParams)
    ensures SearchParams(ListQuery(args)) ==
      Present("search", args.search) + Present("limit", ShowNumber(args.limit))
      + Present("starting_after", args.startingAfter) + Present("ending_before", args.endingBefore)
  {
    SearchParamsOf4(("search", Given(args.search)), ("limit", GivenNumber(args.limit)), ("starting_after", Given(args.startingAfter)), ("ending_before", Given(args.endingBefore)));
    EntryParamsOfGiven("search", args.search);
    EntryParamsOfGivenNumber("limit", args.limit);
    EntryParamsOfGiven("starting_after", args.startingAfter);
    EntryParamsOfGiven("ending_before", args.endingBefore);
  }

  /** `list(args)`: one GET on the collection path carrying the supplied parameters; the response is returned as handled. */
  function List(client: CheckoutPageClient, args: CouponListParams, server: FetchRequest -> Response): (c: Call<JVal>)
    ensures |c.sent| == 1
    ensures c.sent[0].httpMethod == GET && c.sent[0].url.path == "/v1/coupons/" && c.sent[0].body == None
    ensures c.sent[0].url.searchParams ==
      Present("search", args.search) + Present("limit", ShowNumber(args.limit))
      + Present("starting_after", args.startingAfter) + Present("ending_before", args.endingBefore)
    ensures c.outcome == HandleResponse(server(c.sent[0]))
  {
    ListSearchParams(args);
    Perform(client, RequestOptions(GET, CollectionPath, None, Some(ListQuery(args))), server)
  }

  /** With no arguments, `list` sends GET on the bare collection path: every query value is `undefined` and omitted. */
  lemma ListWithoutArgumentsSendsNoQuery(client: CheckoutPageClient, server: FetchRequest -> Response)
    ensures List(client, CouponListParams(None, None, None, None), server).sent[0].url.searchParams == []
    ensures List(client, CouponListParams(None, None, None, None), server).sent[0].url.path == "/v1/coupons/"
  {
  }

  /** The discount: `type: 'amount'` with an amount and a currency, or `type: 'percent'` with a percentage. */
  datatype Discount = Amount(amountOff: int, currency: string) | Percent(percentOff: int)

  /** The duration; only a repeating coupon has a number of months. */
  datatype Duration = Once | Forever | Repeating(durationInMonths: int)

  datatype CreateCouponParams = CreateCouponParams(
    discount: Discount,
    couponLabel: string,
    code: string,
    duration: Duration,
    appliesToSetupFee: Option<bool>,
    pageIds: Option<seq<string>>,
    maxRedemptions: Option<int>,
    redeemBy: Option<string>)

  /** The wire name of a duration. */
  function DurationName(d: Duration): string {
    match d
    case Once => "once"
    case Forever => "forever"
    case Repeating(_) => "repeating"
  }

  /** A list of strings as a JSON array. */
  function StringArray(ss: seq<string>): JVal {
    JArr(Strings(ss))
  }

  function Strings(ss: seq<string>): seq<JVal> {
    if ss == [] then [] else [JStr(ss[0])] + Strings(ss[1..])
  }

  /** `body` holds `key` exactly when `v` is a value, and then holds that value. */
  predicate Agrees(body: map<string, JVal>, key: string, v: Option<JVal>) {
    (key in body <==> v.Some?) && (v.Some? ==> body[key] == v.value)
  }

  function MonthsOf(d: Duration): Option<JVal> {
    if d.Repeating? then Some(JNum(d.durationInMonths)) else None
  }

  function AmountOf(d: Discount): Option<JVal> {
    if d.Amount? then Some(JNum(d.amountOff)) else None
  }

  function CurrencyOf(d: Discount): Option<JVal> {
    if d.Amount? then Some(JStr(d.currency)) else None
  }

  function PercentOf(d: Discount): Option<JVal> {
    if d.Percent? then Some(JNum(d.percentOff)) else None
  }

  function BoolOf(v: Option<bool>): Option<JVal> {
    if v.Some? then Some(JBool(v.value)) else None
  }

  function NumberOf(v: Option<int>): Option<JVal> {
    if v.Some? then Some(JNum(v.value)) else None
  }

  function StringOf(v: Option<string>): Option<JVal> {
    if v.Some? then Some(JStr(v.value)) else None
  }

  function StringsOf(v: Option<seq<string>>): Option<JVal> {
    if v.Some? then Some(StringArray(v.value)) else None
  }

  const CoreKeys: set<string> := {"label", "code", "duration", "durationInMonths"}
  const OptionalKeys: set<string> := {"appliesToSetupFee", "pageIds", "maxRedemptions", "redeemBy"}
  const DiscountKeys: set<string> := {"amountOff", "currency", "percentOff"}

  /** Label, code and duration always; `durationInMonths` exactly for a repeating coupon. */
  predicate HasCoreFields(p: CreateCouponParams, body: map<string, JVal>) {
    && Agrees(body, "label", Some(JStr(p.couponLabel)))
    && Agrees(body, "code", Some(JStr(p.code)))
    && Agrees(body, "duration", Some(JStr(DurationName(p.duration))))
    && Agrees(body, "durationInMonths", MonthsOf(p.duration))
  }

  /** Each optional field exactly when the caller supplied it, with the supplied value. */
  predicate HasOptionalFields(p: CreateCouponParams, body: map<string, JVal>) {
    && Agrees(body, "appliesToSetupFee", BoolOf(p.appliesToSetupFee))
    && Agrees(body, "pageIds", StringsOf(p.pageIds))
    && Agrees(body, "maxRedemptions", NumberOf(p.maxRedemptions))
    && Agrees(body, "redeemBy", StringOf(p.redeemBy))
  }

  /** `amountOff` and `currency` exactly for an amount discount, `percentOff` exactly for a percent discount. */
  predicate HasDiscountFields(p: CreateCouponParams, body: map<string, JVal>) {
    && Agrees(body, "amountOff", AmountOf(p.discount))
    && Agrees(body, "currency", CurrencyOf(p.discount))
    && Agrees(body, "percentOff", PercentOf(p.discount))
  }

  /** The body `create` must send for `p`: the three groups of fields above, and no other key. */
  predicate IsCreateBody(p: CreateCouponParams, body: map<string, JVal>) {
    && body.Keys <= CoreKeys + OptionalKeys + DiscountKeys
    && HasCoreFields(p, body)
    && HasOptionalFields(p, body)
    && HasDiscountFields(p, body)
  }

  /** The record literal of `create`, with `durationInMonths` added for a repeating coupon. */
  method CoreBody(params: CreateCouponParams) returns (body: map<string, JVal>)
    ensures body.Keys <= CoreKeys && HasCoreFields(params, body)
  {
    body := map["label" := JStr(params.couponLabel), "code" := JStr(params.code), "duration" := JStr(DurationName(params.duration))];
    if params.duration.Repeating? {
      body := body["durationInMonths" := JNum(params.duration.durationInMonths)];
    }
  }

  /** Adds each optional field the caller supplied. */
  method AddOptionalFields(params: CreateCouponParams, core: map<string, JVal>) returns (body: map<string, JVal>)
    requires core.Keys <= CoreKeys && HasCoreFields(params, core)
    ensures body.Keys <= CoreKeys + OptionalKeys && HasCoreFields(params, body) && HasOptionalFields(params, body)
  {
    body := core;
    if params.appliesToSetupFee.Some? {
      body := body["appliesToSetupFee" := JBool(params.appliesToSetupFee.value)];
    }
    if params.pageIds.Some? {
      body := body["pageIds" := StringArray(params.pageIds.value)];
    }
    if params.maxRedemptions.Some? {
      body := body["maxRedemptions" := JNum(params.maxRedemptions.value)];
    }
    if params.redeemBy.Some? {
      body := body["redeemBy" := JStr(params.redeemBy.value)];
    }
  }

  /** Adds the discount fields of the coupon's type. */
  method AddDiscountFields(params: CreateCouponParams, partial: map<string, JVal>) returns (body: map<string, JVal>)
    requires partial.Keys <= CoreKeys + OptionalKeys && HasCoreFields(params, partial) && HasOptionalFields(params, partial)
    ensures IsCreateBody(params, body)
  {
    body := partial;
    if params.discount.Amount? {
      body := body["amountOff" := JNum(params.discount.amountOff)];
      body := body["currency" := JStr(params.discount.currency)];
    } else {
      body := body["percentOff" := JNum(params.discount.percentOff)];
    }
  }

  /** The body of `create`: the record literal, then the duration, optional and discount fields in the source's order. */
  method CreateBody(params: CreateCouponParams) returns (body: map<string, JVal>)
    ensures IsCreateBody(params, body)
  {
    body := CoreBody(params);
    body := AddOptionalFields(params, body);
    body := AddDiscountFields(params, body);
  }

  /** `create(params)`: one POST on the collection path whose body is the create body; the response is returned as handled. */
  method Create(client: CheckoutPageClient, params: CreateCouponParams, server: FetchRequest -> Response) returns (c: Call<JVal>)
    ensures |c.sent| == 1
    ensures c.sent[0].httpMethod == POST && c.sent[0].url.path == "/v1/coupons/" && c.sent[0].url.searchParams == []
    ensures c.sent[0].body.Some? && c.sent[0].body.value.JObj? && IsCreateBody(params, c.sent[0].body.value.fields)
    ensures c.sent[0] == Dispatch(client, RequestOptions(POST, CollectionPath, c.sent[0].body, None))
    ensures c.sent[0].headers == Headers(client.apiKey) && c.sent[0].url.base == client.baseUrl
    ensures c.outcome == HandleResponse(server(c.sent[0]))
  {
    var body := CreateBody(params);
    c := Request(client, RequestOptions(POST, CollectionPath, Some(JObj(body)), None), server);
  }

  /** The create body is determined by the parameters: two bodies that both meet `IsCreateBody` are equal. */
  lemma CreateBodyDetermined(p: CreateCouponParams, b1: map<string, JVal>, b2: map<string, JVal>)
    requires IsCreateBody(p, b1) && IsCreateBody(p, b2)
    ensures b1 == b2
  {
    forall k | k in CoreKeys + OptionalKeys + DiscountKeys
      ensures (k in b1 <==> k in b2) && (k in b1 ==> b1[k] == b2[k])
    {
    }
    assert b1.Keys == b2.Keys;
  }

  /** An amount coupon used once: the body has no `percentOff` and no `durationInMonths`. */
  lemma AmountOnceBody(p: CreateCouponParams, body: map<string, JVal>)
    requires p.discount.Amount? && p.duration.Once? && IsCreateBody(p, body)
    requires p.appliesToSetupFee.None? && p.pageIds.None? && p.maxRedemptions.None? && p.redeemBy.None?
    ensures body == map[
      "label" := JStr(p.couponLabel), "code" := JStr(p.code), "duration" := JStr("once"),
      "amountOff" := JNum(p.discount.amountOff), "currency" := JStr(p.discount.currency)]
  {
    var expected := map[
      "label" := JStr(p.couponLabel), "code" := JStr(p.code), "duration" := JStr("once"),
      "amountOff" := JNum(p.discount.amountOff), "currency" := JStr(p.discount.currency)];
    assert IsCreateBody(p, expected);
    CreateBodyDetermined(p, body, expected);
  }

  /** A repeating percent coupon: the body has `durationInMonths` and `percentOff`, and no `amountOff` or `currency`. */
  lemma PercentRepeatingBody(p: CreateCouponParams, body: map<string, JVal>)
    requires p.discount.Percent? && p.duration.Repeating? && IsCreateBody(p, body)
    requires p.appliesToSetupFee.None? && p.pageIds.None? && p.maxRedemptions.None? && p.redeemBy.None?
    ensures body == map[
      "label" := JStr(p.couponLabel), "code" := JStr(p.code), "duration" := JStr("repeating"),
      "durationInMonths" := JNum(p.duration.durationInMonths), "percentOff" := JNum(p.discount.percentOff)]
  {
    var expected := map[
      "label" := JStr(p.couponLabel), "code" := JStr(p.code), "duration" := JStr("repeating"),
      "durationInMonths" := JNum(p.duration.durationInMonths), "percentOff" := JNum(p.discount.percentOff)];
    assert IsCreateBody(p, expected);
    CreateBodyDetermined(p, body, expected);
  }
}
