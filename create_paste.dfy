/**
 * The create endpoint, `POST /api/pastes`: decode the JSON body, validate
 * `content`, `ttl_seconds` and `max_views` in that order (the first failing
 * check answers 400 with its own message), build the record to store
 * (the view budget starts full), and answer 201 with the new paste's id and
 * share link `origin/p/id`.
 *
 * The store that assigns the id and the URL parser that yields the origin
 * are outside the model: both arrive as parameters.
 */
module CreatePaste {
  import opened Wrappers
  import opened JsValues
  import opened JsTrim

  const InvalidJsonMessage: string := "Invalid JSON body"
  const ContentMessage: string := "content is required and must be a non-empty string"
  const TtlMessage: string := "ttl_seconds must be an integer >= 1 when provided"
  const MaxViewsMessage: string := "max_views must be an integer >= 1 when provided"

  const BadRequest: int := 400
  const Created: int := 201

  /** The request body as `request.json()` sees it: not JSON at all, or a JSON object. */
  datatype Body = Unparseable | Object(properties: map<string, Json>)

  /** Reading a property of the body object; `None` is `undefined`, distinct from an explicit `null`. */
  function Property(properties: map<string, Json>, key: string): (v: Option<Json>)
    ensures v.Some? <==> key in properties
    ensures v.Some? ==> v.value == properties[key]
  {
    if key in properties then Some(properties[key]) else None
  }

  /** The row handed to the store; a missing limit is stored as no value. */
  datatype PasteRecord = PasteRecord(
    content: string,
    ttlSeconds: Option<int>,
    maxViews: Option<int>,
    remainingViews: Option<int>)

  /** What the client sends back in the 400 or 201 response. */
  datatype Payload = ErrorPayload(error: string) | CreatedPayload(id: string, url: string)

  datatype Response = Response(status: int, payload: Payload)

  /** The effect of one create request: the record stored (if any) and the response. */
  datatype CreateOutcome = CreateOutcome(stored: Option<PasteRecord>, response: Response)

  // ---------------------------------------------------------------------------
  // What the checks are meant to accept, stated without the checks' own tests.

  /** `content` is present, a string, and has at least one visible character. */
  ghost predicate AcceptableContent(v: Option<Json>) {
    v.Some? && v.value.JString? && !Blank(v.value.text)
  }

  /** `v` is exactly the JSON number holding the integer `n`, and `n` is at least one. */
  ghost predicate HoldsPositive(v: Option<Json>, n: int) {
    n >= 1 && v == Some(JNumber(FromInt(n)))
  }

  /** An optional limit is either absent or a positive integer; an explicit `null` is neither. */
  ghost predicate AcceptableLimit(v: Option<Json>) {
    v.None? || exists n: int :: HoldsPositive(v, n)
  }

  // ---------------------------------------------------------------------------
  // The checks as the handler writes them.

  /** `typeof content !== "string" || content.trim().length === 0` rejects. */
  function CheckContent(v: Option<Json>): (r: Result<string, string>)
    ensures r.Success? <==> AcceptableContent(v)
    ensures r.Success? ==> v == Some(JString(r.value))
    ensures r.Failure? ==> r.error == ContentMessage
  {
    if v.None? || TypeOf(v.value) != "string" then Failure(ContentMessage)
    else
      TrimEmptyIffBlank(v.value.text);
      if |Trim(v.value.text)| == 0 then Failure(ContentMessage) else Success(v.value.text)
  }

  /**
   * `ttl_seconds` and `max_views`: `undefined` means no limit; anything else
   * must have `typeof` "number", pass `Number.isInteger` and not be `< 1`.
   */
  function CheckLimit(v: Option<Json>, message: string): (r: Result<Option<int>, string>)
    ensures r.Success? <==> AcceptableLimit(v)
    ensures r == Success(None) <==> v.None?
    ensures r.Success? && r.value.Some? ==> HoldsPositive(v, r.value.value)
    ensures r.Failure? ==> r.error == message
  {
    if v.None? then Success(None)
    else if TypeOf(v.value) != "number" || !IsInteger(v.value.number) || LessThan(v.value.number, 1.0) then
      assert !AcceptableLimit(v) by {
        if n: int :| HoldsPositive(v, n) {
          assert v.value.number == Finite(n as real);
        }
      }
      Failure(message)
    else
      var n := ToInt(v.value.number);
      IntegerNotBelowOne(v.value.number);
      assert HoldsPositive(v, n);
      Success(Some(n))
  }

  /** The whole validation: body, then content, then `ttl_seconds`, then `max_views`; the first failure wins. */
  function Validate(body: Body): (r: Result<PasteRecord, string>)
    ensures body.Unparseable? <==> r == Failure(InvalidJsonMessage)
    ensures r.Success? ==> body.Object?
    ensures r.Success? ==> Property(body.properties, "content") == Some(JString(r.value.content))
    ensures r.Success? ==> !Blank(r.value.content)
    ensures r.Success? ==> r.value.remainingViews == r.value.maxViews
    ensures r.Success? ==> (r.value.ttlSeconds.None? <==> "ttl_seconds" !in body.properties)
    ensures r.Success? && r.value.ttlSeconds.Some? ==>
              HoldsPositive(Property(body.properties, "ttl_seconds"), r.value.ttlSeconds.value)
    ensures r.Success? ==> (r.value.maxViews.None? <==> "max_views" !in body.properties)
    ensures r.Success? && r.value.maxViews.Some? ==>
              HoldsPositive(Property(body.properties, "max_views"), r.value.maxViews.value)
  {
    match body
    case Unparseable => Failure(InvalidJsonMessage)
    case Object(properties) =>
      match CheckContent(Property(properties, "content"))
      case Failure(e) => Failure(e)
      case Success(content) =>
        match CheckLimit(Property(properties, "ttl_seconds"), TtlMessage)
        case Failure(e) => Failure(e)
        case Success(ttlSeconds) =>
          match CheckLimit(Property(properties, "max_views"), MaxViewsMessage)
          case Failure(e) => Failure(e)
          case Success(maxViews) => Success(PasteRecord(content, ttlSeconds, maxViews, maxViews))
  }

  /**
   * The checks run in the order content, `ttl_seconds`, `max_views`: each message
   * is returned exactly when every earlier check passed and its own check failed,
   * and the body is accepted exactly when all three pass.
   */
  lemma ValidateFirstFailureWins(properties: map<string, Json>)
    ensures var r := Validate(Object(properties));
      var content := Property(properties, "content");
      var ttl := Property(properties, "ttl_seconds");
      var views := Property(properties, "max_views");
      && (r == Failure(ContentMessage) <==> !AcceptableContent(content))
      && (r == Failure(TtlMessage) <==> AcceptableContent(content) && !AcceptableLimit(ttl))
      && (r == Failure(MaxViewsMessage) <==>
            AcceptableContent(content) && AcceptableLimit(ttl) && !AcceptableLimit(views))
      && (r.Success? <==> AcceptableContent(content) && AcceptableLimit(ttl) && AcceptableLimit(views))
  {
    assert |ContentMessage| != |TtlMessage|;
    assert |ContentMessage| != |MaxViewsMessage|;
    assert |TtlMessage| != |MaxViewsMessage|;
  }

  /** An explicit `null` limit is rejected, while leaving the property out means "no limit". */
  lemma NullLimitIsNotAbsent(message: string)
    ensures CheckLimit(Some(JNull), message) == Failure(message)
    ensures CheckLimit(None, message) == Success(None)
  {
  }

  /** A fractional, string or infinite limit is rejected, as is zero. */
  lemma NonPositiveOrNonIntegerLimitRejected(message: string)
    ensures CheckLimit(Some(JNumber(Finite(1.5))), message) == Failure(message)
    ensures CheckLimit(Some(JNumber(FromInt(0))), message) == Failure(message)
    ensures CheckLimit(Some(JNumber(PositiveInfinity)), message) == Failure(message)
    ensures CheckLimit(Some(JString("10")), message) == Failure(message)
  {
  }

  /** The trim only decides blankness: padded content is stored with its padding. */
  lemma PaddedContentStoredVerbatim()
    ensures var r := Validate(Object(map["content" := JString(" hi\n")]));
      r.Success? && r.value.content == " hi\n" && r.value.content != Trim(" hi\n")
  {
    var s := " hi\n";
    assert !IsTrimmable(s[1]);
    assert !Blank(s);
    assert TrimStart(s) == s[1..];
    assert TrimEnd(s[1..]) == "hi";
  }

  // ---------------------------------------------------------------------------
  // Share link.

  const PastePath: string := "/p/"

  /** The share link `origin + "/p/" + id`. */
  function Url(origin: string, id: string): (u: string)
    ensures |u| == |origin| + |PastePath| + |id|
    ensures u[..|origin|] == origin
    ensures u[|origin|..|origin| + |PastePath|] == PastePath
    ensures u[|origin| + |PastePath|..] == id
  {
    origin + PastePath + id
  }

  /**
   * The inverse of `Url` for one origin: the text after `origin + "/p/"`, when the
   * link starts with it. Routing and percent-decoding are not modelled, so this
   * agrees with the id the paste page receives only for ids without `/`, `?`,
   * `#` or `%`.
   */
  function IdOfUrl(origin: string, u: string): (id: Option<string>)
    ensures id.Some? <==> |u| >= |origin| + |PastePath| && u[..|origin| + |PastePath|] == origin + PastePath
  {
    var prefix := origin + PastePath;
    if |u| >= |prefix| && u[..|prefix|] == prefix then Some(u[|prefix|..]) else None
  }

  /** Reading the id back from a share link gives the id it was built from. */
  lemma IdOfUrlRoundTrip(origin: string, id: string)
    ensures IdOfUrl(origin, Url(origin, id)) == Some(id)
  {
    var u := Url(origin, id);
    assert u[..|origin| + |PastePath|] == origin + PastePath;
  }

  /** Every link `IdOfUrl` accepts is the share link of the id it reads. */
  lemma UrlOfIdRoundTrip(origin: string, u: string)
    requires IdOfUrl(origin, u).Some?
    ensures Url(origin, IdOfUrl(origin, u).value) == u
  {
    var k := |origin| + |PastePath|;
    assert u == u[..k] + u[k..];
  }

  /** Distinct pastes of one origin get distinct links. */
  lemma {:induction false} UrlInjective(origin: string, id1: string, id2: string)
    requires Url(origin, id1) == Url(origin, id2)
    ensures id1 == id2
  {
    IdOfUrlRoundTrip(origin, id1);
    IdOfUrlRoundTrip(origin, id2);
  }

  // ---------------------------------------------------------------------------
  // The handler.

  /**
   * One `POST`: a rejected body stores nothing and answers 400 with the failing
   * check's message; an accepted one stores the record, which the store names
   * `id`, and answers 201 with the id and its share link.
   */
  function Create(body: Body, origin: string, id: string): (o: CreateOutcome)
    ensures o.response.status == Created <==> o.stored.Some?
    ensures o.response.status in {Created, BadRequest}
    ensures o.stored.Some? ==> Validate(body) == Success(o.stored.value)
    ensures o.stored.Some? ==> o.response.payload == CreatedPayload(id, Url(origin, id))
    ensures o.stored.None? ==> Validate(body).Failure? && o.response.payload == ErrorPayload(Validate(body).error)
  {
    match Validate(body)
    case Failure(message) => CreateOutcome(None, Response(BadRequest, ErrorPayload(message)))
    case Success(paste) =>
      CreateOutcome(Some(paste), Response(Created, CreatedPayload(id, Url(origin, id))))
  }

  /** A body that is not JSON is answered before any property is looked at, and nothing is stored. */
  lemma UnparseableBodyRejected(origin: string, id: string)
    ensures Create(Unparseable, origin, id)
         == CreateOutcome(None, Response(BadRequest, ErrorPayload(InvalidJsonMessage)))
  {
  }

  /** A created paste's link leads back to its id. */
  lemma CreatedLinkLeadsToPaste(body: Body, origin: string, id: string)
    requires Create(body, origin, id).response.status == Created
    ensures var p := Create(body, origin, id).response.payload;
      p.CreatedPayload? && IdOfUrl(origin, p.url) == Some(p.id) && p.id == id
  {
    IdOfUrlRoundTrip(origin, id);
  }
}
