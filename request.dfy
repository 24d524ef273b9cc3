/** The request and response shapes of the collection API, the decoding of
    a page (including the RFC 2822 `added` timestamp), the query builder and
    the clock-derived first continuation token (src/client/request.rs). */
module Request {
  import opened Prelude
  import Decimal

  // ---------------------------------------------------------------------
  // Request & response data

  /** The page size the website itself uses; larger values upset the server. */
  const DEFAULT_COUNT: u32 := 20

  /** The JSON body of one page request; `token` travels as `older_than_token`. */
  datatype QueryRequestData = QueryRequestData(fanId: u32, token: string, count: u32)

  /** `QueryRequestData::new`: the page size is never the caller's choice. */
  function NewRequestData(fanId: u32, token: string): (r: QueryRequestData)
    ensures r.count == DEFAULT_COUNT == 20
    ensures r.fanId == fanId && r.token == token
  {
    QueryRequestData(fanId, token, DEFAULT_COUNT)
  }

  /** One HTTP POST: the endpoint and the JSON body sent to it. */
  datatype Post = Post(url: string, body: QueryRequestData)

  // ---------------------------------------------------------------------
  // Timestamps

  /** A date-time as an RFC 2822 string writes it: the wall-clock reading in
      seconds since the epoch, and the zone's offset east of UTC in seconds. */
  datatype OffsetDateTime = OffsetDateTime(local: int, offset: int)

  /** An instant in UTC, in seconds since the epoch. */
  datatype UtcDateTime = UtcDateTime(timestamp: int)

  /** `with_timezone(&Utc)`: the same instant, read on the UTC clock. */
  function ToUtc(dt: OffsetDateTime): (u: UtcDateTime)
    ensures u.timestamp + dt.offset == dt.local
  {
    UtcDateTime(dt.local - dt.offset)
  }

  /** The instant does not depend on the zone it was written in: moving the
      wall-clock reading and the offset together changes nothing. */
  lemma ToUtcZoneIndependent(local: int, offset: int, shift: int)
    ensures ToUtc(OffsetDateTime(local + shift, offset + shift)) == ToUtc(OffsetDateTime(local, offset))
  {
  }

  /** A date written at `+0000` is already in UTC. */
  lemma ToUtcAtZeroOffset(local: int)
    ensures ToUtc(OffsetDateTime(local, 0)).timestamp == local
  {
  }

  /** chrono's `DateTime::parse_from_rfc2822`, which is not part of this
      model: `None` for a string that is not an RFC 2822 date-time. */
  type Rfc2822Parser = string -> Option<OffsetDateTime>

  // ---------------------------------------------------------------------
  // Items and pages

  /** One item as the JSON body carries it, before its date is decoded. */
  datatype RawItem = RawItem(added: string, bandName: string, albumId: u32, albumTitle: string)

  /** One page as the JSON body carries it. */
  datatype RawResponse = RawResponse(items: seq<RawItem>, lastToken: string, moreAvailable: bool)

  /** One album (sometimes a track) of a collection or wishlist. */
  datatype QueryItem = QueryItem(added: UtcDateTime, bandName: string, albumId: u32, albumTitle: string)

  /** One decoded page of results. */
  datatype QueryResponseData = QueryResponseData(items: seq<QueryItem>, lastToken: string, moreAvailable: bool)

  /** `deserialize_rfc2822_datetime`: parse, then convert to UTC.  A string
      that does not parse is fatal (the source unwraps); no default instant
      is ever substituted. */
  function DecodeAdded(text: string, parse: Rfc2822Parser): (r: Result<UtcDateTime>)
    ensures r.Ok? <==> parse(text).Some?
    ensures r.Ok? ==> r.value.timestamp == parse(text).value.local - parse(text).value.offset
    ensures r.Err? ==> r.error == BadDate(text)
  {
    match parse(text)
    case Some(dt) => Ok(ToUtc(dt))
    case None => Err(BadDate(text))
  }

  function DecodeItem(raw: RawItem, parse: Rfc2822Parser): (r: Result<QueryItem>)
    ensures r.Ok? <==> parse(raw.added).Some?
    ensures r.Ok? ==> r.value == QueryItem(ToUtc(parse(raw.added).value), raw.bandName, raw.albumId, raw.albumTitle)
    ensures r.Err? ==> r.error == BadDate(raw.added)
  {
    match DecodeAdded(raw.added, parse)
    case Ok(added) => Ok(QueryItem(added, raw.bandName, raw.albumId, raw.albumTitle))
    case Err(e) => Err(e)
  }

  /** Decodes the items of a page in order; the first malformed date fails
      the whole page. */
  function DecodeItems(raws: seq<RawItem>, parse: Rfc2822Parser): (r: Result<seq<QueryItem>>)
    ensures r.Ok? <==> forall i :: 0 <= i < |raws| ==> parse(raws[i].added).Some?
    ensures r.Ok? ==> |r.value| == |raws|
    ensures r.Ok? ==> forall i :: 0 <= i < |raws| ==> r.value[i] == DecodeItem(raws[i], parse).value
    ensures r.Err? ==> exists i :: 0 <= i < |raws| && parse(raws[i].added).None? && r.error == BadDate(raws[i].added)
                                 && (forall j :: 0 <= j < i ==> parse(raws[j].added).Some?)
  {
    if raws == [] then Ok([])
    else
      match DecodeItem(raws[0], parse)
      case Err(e) => Err(e)
      case Ok(item) =>
        match DecodeItems(raws[1..], parse)
        case Err(e) => Err(e)
        case Ok(rest) => Ok([item] + rest)
  }

  /** Decoding a whole response body into a page. */
  function DecodeResponse(raw: RawResponse, parse: Rfc2822Parser): (r: Result<QueryResponseData>)
    ensures r.Ok? <==> DecodeItems(raw.items, parse).Ok?
    ensures r.Ok? ==> r.value.items == DecodeItems(raw.items, parse).value
    ensures r.Ok? ==> r.value.lastToken == raw.lastToken && r.value.moreAvailable == raw.moreAvailable
  {
    match DecodeItems(raw.items, parse)
    case Ok(items) => Ok(QueryResponseData(items, raw.lastToken, raw.moreAvailable))
    case Err(e) => Err(e)
  }

  /** A malformed `added` anywhere in a page makes the page fail. */
  lemma MalformedDateFailsPage(raw: RawResponse, parse: Rfc2822Parser, i: nat)
    requires i < |raw.items| && parse(raw.items[i].added).None?
    ensures DecodeResponse(raw, parse).Err?
    ensures DecodeResponse(raw, parse).error.BadDate?
  {
  }

  // ---------------------------------------------------------------------
  // Transport

  /** The remote service together with the HTTP and JSON layers: the answer
      to one POST, or a connection error or a body that does not decode as a
      page.  No status check is made, so an error status fails only through
      its body. */
  type Server = Post -> Result<RawResponse>

  /** One page fetch: send the POST, then decode the body. */
  function Fetch(server: Server, parse: Rfc2822Parser, post: Post): Result<QueryResponseData> {
    match server(post)
    case Err(e) => Err(e)
    case Ok(raw) => DecodeResponse(raw, parse)
  }

  // ---------------------------------------------------------------------
  // The clock-derived token

  const TOKEN_SUFFIX := ":0:a::"

  /** `utc_now_token`, with the clock reading `now` (seconds since the
      epoch) passed in. */
  function UtcNowToken(now: i64): (t: string)
    ensures |t| > |TOKEN_SUFFIX| && t[|t| - |TOKEN_SUFFIX|..] == TOKEN_SUFFIX
    ensures t[..|t| - |TOKEN_SUFFIX|] == Decimal.Render(now)
  {
    Decimal.Render(now) + TOKEN_SUFFIX
  }

  /** The first field of the synthetic token reads back as the clock value,
      so two different clock readings never give the same token. */
  lemma UtcNowTokenTimestamp(now: i64)
    ensures Decimal.Parse(Before(UtcNowToken(now), ':')) == Some(now)
  {
    var digits := Decimal.Render(now);
    BeforeOfJoin(digits, TOKEN_SUFFIX, ':');
    Decimal.RenderRoundTrip(now);
  }

  // ---------------------------------------------------------------------
  // Query builder

  /** The token a query sends: the one that was set, else a fresh one from
      the clock. */
  function ChooseToken(token: Option<string>, now: i64): (t: string)
    ensures token.Some? ==> t == token.value
    ensures token.None? ==> t == UtcNowToken(now)
  {
    match token
    case Some(t) => t
    case None => UtcNowToken(now)
  }

  /** `QueryBuilder`: assembles one page request and sends it. */
  class QueryBuilder {
    var url: string
    var fanId: u32
    var token: Option<string>

    /** `QueryBuilder::new`: the derived default with the url set. */
    constructor (url: string)
      ensures this.url == url && fanId == 0 && token == None
    {
      this.url := url;
      fanId := 0;
      token := None;
    }

    /** Sets the fan id only; returns the same builder for chaining. */
    method FanId(fanId: u32) returns (me: QueryBuilder)
      modifies this
      ensures me == this
      ensures this.fanId == fanId && url == old(url) && token == old(token)
    {
      this.fanId := fanId;
      me := this;
    }

    /** Sets the token only; returns the same builder for chaining. */
    method Token(token: string) returns (me: QueryBuilder)
      modifies this
      ensures me == this
      ensures this.token == Some(token) && url == old(url) && fanId == old(fanId)
    {
      this.token := Some(token);
      me := this;
    }

    /** `query`: one POST to `url` with the fan id, the chosen token and the
        fixed page size, then the decoded page. */
    method Query(server: Server, parse: Rfc2822Parser, now: i64) returns (r: Result<QueryResponseData>)
      ensures r == Fetch(server, parse, Post(url, NewRequestData(fanId, ChooseToken(token, now))))
    {
      var t := match token case Some(t) => t case None => UtcNowToken(now);
      var post := Post(url, NewRequestData(fanId, t));
      r := match server(post) case Err(e) => Err(e) case Ok(raw) => DecodeResponse(raw, parse);
    }
  }
}
