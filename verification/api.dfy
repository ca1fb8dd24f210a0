/**
 * The client of the block-provisioning API (client.go) and its blocks service
 * (blocks.go). One module holds both classes because a client points at its
 * blocks service and the service points back at its client.
 *
 * Each service call takes the network's reply to the request it sends as a
 * parameter, and the JSON decoder for its result type as another; it returns
 * the request it would send and what the caller gets back.
 */
module Api {
  import opened Http
  import opened Params

  /** The errors a call can return. */
  datatype Error =
    | Invalid(rule: Violation)   // the creation parameters broke a rule
    | Transport(reason: string)  // the round trip itself failed
    | Status(code: int)          // a response outside 2xx: "Expected status 2xx, got <code>"
    | Decode(reason: string)     // the body did not decode into the target

  datatype BlockIp = BlockIp(address: string)

  /** A provisioned virtual machine, as the API reports it. */
  datatype Block = Block(id: string, hostname: string, ips: seq<BlockIp>, status: string)

  const DefaultBaseUrl: Origin := Origin("https", "boxpanel.bluebox.net")
  const FormContentType: string := "application/x-www-form-urlencoded"
  const JsonAccept: string := "application/json; charset=utf-8"

  /** The methods whose requests carry a form body. */
  predicate IsFormMethod(verb: string)
  {
    verb == "POST" || verb == "PUT"
  }

  predicate IsSuccessStatus(code: int)
  {
    200 <= code < 300
  }

  /** The URL path the relative reference "api<path>.json" resolves to against
      a base URL with an empty path. */
  function ApiPath(path: string): string
  {
    "/api" + path + ".json"
  }

  /** The logical path a URL path stands for, when it has the "/api...json" form. */
  function LogicalPath(urlPath: string): Option<string>
  {
    if |urlPath| >= 9 && urlPath[..4] == "/api" && urlPath[|urlPath| - 5..] == ".json"
    then Some(urlPath[4..|urlPath| - 5])
    else None
  }

  /** The logical path is recovered from the URL path it is sent to. */
  lemma LogicalPathOfApiPath(path: string)
    ensures LogicalPath(ApiPath(path)) == Some(path)
  {
  }

  /** A character that URL parsing of "api<path>.json" treats specially: a
      query or fragment delimiter, a percent escape, or a control character
      (which makes url.Parse fail). */
  predicate IsSpecialChar(c: char)
  {
    c == '?' || c == '#' || c == '%' || (c as int) < 0x20 || (c as int) == 0x7F
  }

  /** The segment of `path` starting at `j` is "." or "..", followed by a slash. */
  predicate DotSegmentAt(path: string, j: int)
  {
    || (0 <= j && j + 1 < |path| && path[j] == '.' && path[j + 1] == '/')
    || (0 <= j && j + 2 < |path| && path[j] == '.' && path[j + 1] == '.' && path[j + 2] == '/')
  }

  /** A logical path that ResolveReference turns into exactly ApiPath(path):
      it starts with a slash (so "api" is the first segment and no scheme is
      parsed), has no special character, and no "." or ".." segment between two
      slashes (the last segment ends in ".json", so it is never one). */
  predicate PlainPath(path: string)
  {
    && |path| > 0 && path[0] == '/'
    && (forall i :: 0 <= i < |path| ==> !IsSpecialChar(path[i]))
    && (forall i :: 0 <= i < |path| && path[i] == '/' ==> !DotSegmentAt(path, i + 1))
  }

  /** Distinct logical paths are sent to distinct URL paths. The join is
      injective on every string. The requires does not help the proof: it
      keeps the lemma to the paths on which ApiPath is also the path Go's
      ResolveReference gives. */
  lemma ApiPathInjective(p: string, q: string)
    requires PlainPath(p) && PlainPath(q)
    ensures ApiPath(p) == ApiPath(q) ==> p == q
  {
    LogicalPathOfApiPath(p);
    LogicalPathOfApiPath(q);
  }

  /** The logical path of one block. */
  function BlockPath(uuid: string): string
  {
    "/blocks/" + uuid
  }

  /** A block id that stays one plain path segment: no slash and no special
      character. */
  predicate PlainUuid(uuid: string)
  {
    forall i :: 0 <= i < |uuid| ==> uuid[i] != '/' && !IsSpecialChar(uuid[i])
  }

  /** The path of a plain block id is plain. */
  lemma BlockPathPlain(uuid: string)
    requires PlainUuid(uuid)
    ensures PlainPath(BlockPath(uuid))
  {
  }

  class Client {
    var baseUrl: Origin
    var customerId: string
    var apiKey: string
    var blocks: BlocksService?

    /** NewClient: the given credentials, the fixed base URL and a fresh blocks
        service bound to this client. */
    constructor (customerId: string, apiKey: string)
      ensures this.customerId == customerId && this.apiKey == apiKey
      ensures baseUrl == DefaultBaseUrl
      ensures blocks != null && fresh(blocks) && blocks.client == this
    {
      baseUrl := DefaultBaseUrl;
      this.customerId := customerId;
      this.apiKey := apiKey;
      blocks := null;
      new;
      blocks := new BlocksService(this);
    }

    /** The absolute URL of a logical path: on the base URL's scheme and host,
        at a URL path from which the logical path is recovered. Every caller
        passes a path that starts with a slash. */
    function UrlForPath(path: string): (u: Url)
      requires |path| > 0 && path[0] == '/'
      reads this
      ensures u.scheme == baseUrl.scheme && u.host == baseUrl.host
      ensures LogicalPath(u.path) == Some(path)
    {
      LogicalPathOfApiPath(path);
      Url(baseUrl.scheme, baseUrl.host, ApiPath(path))
    }

    /** The request carries this client's Basic credentials, the JSON Accept
        header, and the form Content-Type exactly when its method sends a form;
        it has no other header. */
    predicate Prepared(req: Request)
      reads this
    {
      && req.basicAuth == Some(Credentials(customerId, apiKey))
      && req.header.Keys == (if IsFormMethod(req.verb) then {"Accept", "Content-Type"} else {"Accept"})
      && req.header["Accept"] == [JsonAccept]
      && (IsFormMethod(req.verb) ==> req.header["Content-Type"] == [FormContentType])
    }

    /** Builds an authenticated request for a logical path. */
    method NewRequest(verb: string, path: string, body: Option<Form>) returns (req: Request)
      requires |path| > 0 && path[0] == '/'
      ensures req.verb == verb && req.url == UrlForPath(path) && req.body == body
      ensures Prepared(req)
    {
      var url := UrlForPath(path);
      var header: Header := map[];
      if verb == "POST" || verb == "PUT" {
        header := Add(header, "Content-Type", FormContentType);
      }
      var auth := Some(Credentials(customerId, apiKey));
      header := Add(header, "Accept", JsonAccept);
      req := Request(verb, url, header, auth, body);
    }

    /** The outcome of sending a request, given the network's reply and the
        decoder of the target if there is one: a transport failure or a status
        outside 2xx is an error, and only a 2xx reply with a target is decoded. */
    static function Do<T>(reply: Reply, target: Option<Decoder<T>>): (r: Result<Option<T>, Error>)
      ensures reply.TransportError? ==> r == Failure(Transport(reply.reason))
      ensures reply.Response? ==>
        (r.Failure? && r.error.Status? <==> !IsSuccessStatus(reply.status))
      ensures r.Failure? && r.error.Status? ==> r.error.code == reply.status
      ensures r.Success? <==>
        reply.Response? && IsSuccessStatus(reply.status)
        && (target.Some? ==> target.value(reply.body).Success?)
      ensures r.Success? ==> (r.value.Some? <==> target.Some?)
      ensures r.Success? && target.Some? ==> r.value.value == target.value(reply.body).value
      ensures r.Failure? && r.error.Decode? ==>
        target.Some? && target.value(reply.body) == Failure(r.error.reason)
      ensures (reply.Response? && IsSuccessStatus(reply.status) && target.Some? &&
               target.value(reply.body).Failure?) ==>
        r == Failure(Decode(target.value(reply.body).error))
    {
      match reply
      case TransportError(reason) => Failure(Transport(reason))
      case Response(status, body) =>
        if status < 200 || status >= 300 then Failure(Status(status))
        else if target.None? then Success(None)
        else
          match target.value(body)
          case Failure(message) => Failure(Decode(message))
          case Success(x) => Success(Some(x))
    }
  }

  /** The result of a call that decodes into a target, once the target is known
      to be filled on success. */
  function Decoded<T>(d: Result<Option<T>, Error>): Result<T, Error>
    requires d.Success? ==> d.value.Some?
  {
    match d
    case Success(x) => Success(x.value)
    case Failure(e) => Failure(e)
  }

  /** `r` is what a call that decodes its reply with `decode` returns: success
      exactly on a 2xx reply whose body decodes, with the decoded value, and
      otherwise the error Do reports. */
  ghost predicate Delivers<T>(reply: Reply, decode: Decoder<T>, r: Result<T, Error>)
  {
    && (r.Success? <==>
          reply.Response? && IsSuccessStatus(reply.status) && decode(reply.body).Success?)
    && (r.Success? ==> r.value == decode(reply.body).value)
    && (r.Failure? ==> Client.Do(reply, Some(decode)) == Failure(r.error))
  }

  class BlocksService {
    const client: Client

    constructor (client: Client)
      ensures this.client == client
    {
      this.client := client;
    }

    /** Lists the blocks: GET /blocks, decoding a sequence of blocks. */
    method List(reply: Reply, decode: Decoder<seq<Block>>) returns (sent: Request, r: Result<seq<Block>, Error>)
      ensures sent.verb == "GET" && sent.url == client.UrlForPath("/blocks") && sent.body == None
      ensures client.Prepared(sent)
      ensures Delivers(reply, decode, r)
    {
      sent := client.NewRequest("GET", "/blocks", None);
      r := Decoded(Client.Do(reply, Some(decode)));
    }

    /** Fetches one block: GET /blocks/<uuid>, decoding a block. */
    method Get(uuid: string, reply: Reply, decode: Decoder<Block>) returns (sent: Request, r: Result<Block, Error>)
      ensures sent.verb == "GET" && sent.url == client.UrlForPath(BlockPath(uuid)) && sent.body == None
      ensures client.Prepared(sent)
      ensures Delivers(reply, decode, r)
    {
      sent := client.NewRequest("GET", BlockPath(uuid), None);
      r := Decoded(Client.Do(reply, Some(decode)));
    }

    /** Creates a block. Parameters that fail validation are reported without
        any request being built; otherwise the encoded parameters are POSTed to
        /blocks and the reply decoded as a block. */
    method Create(p: BlockParams, reply: Reply, decode: Decoder<Block>) returns (sent: Option<Request>, r: Result<Block, Error>)
      ensures p.Validates().Some? ==> sent == None && r == Failure(Invalid(p.Validates().value))
      ensures p.Validates().None? ==>
        && sent.Some?
        && sent.value.verb == "POST" && sent.value.url == client.UrlForPath("/blocks")
        && sent.value.body.Some? && p.Encodes(sent.value.body.value)
        && client.Prepared(sent.value)
        && Delivers(reply, decode, r)
    {
      var invalid := p.Validates();
      if invalid.Some? {
        return None, Failure(Invalid(invalid.value));
      }
      var form := p.ToValues();
      var req := client.NewRequest("POST", "/blocks", Some(form));
      sent := Some(req);
      r := Decoded(Client.Do(reply, Some(decode)));
    }

    /** Destroys a block: DELETE /blocks/<uuid> with no decode target, so the
        status alone decides success. */
    method Destroy(uuid: string, reply: Reply) returns (sent: Request, err: Option<Error>)
      ensures sent.verb == "DELETE" && sent.url == client.UrlForPath(BlockPath(uuid)) && sent.body == None
      ensures client.Prepared(sent)
      ensures err.None? <==> reply.Response? && IsSuccessStatus(reply.status)
      ensures err.Some? ==> Client.Do<()>(reply, None) == Failure(err.value)
    {
      sent := client.NewRequest("DELETE", BlockPath(uuid), None);
      var d := Client.Do<()>(reply, None);
      err := if d.Failure? then Some(d.error) else None;
    }
  }

  /** Fetching or destroying two different plain blocks targets two different
      URLs. */
  lemma BlockUrlsDistinct(c: Client, a: string, b: string)
    requires a != b && PlainUuid(a) && PlainUuid(b)
    ensures c.UrlForPath(BlockPath(a)) != c.UrlForPath(BlockPath(b))
  {
    assert BlockPath(a)[8..] == a && BlockPath(b)[8..] == b;
    BlockPathPlain(a);
    BlockPathPlain(b);
    ApiPathInjective(BlockPath(a), BlockPath(b));
  }

  /** The list URL is never the URL of a single plain block. */
  lemma ListUrlIsNoBlockUrl(c: Client, uuid: string)
    requires PlainUuid(uuid)
    ensures c.UrlForPath("/blocks") != c.UrlForPath(BlockPath(uuid))
  {
    BlockPathPlain(uuid);
    ApiPathInjective("/blocks", BlockPath(uuid));
  }

  /** On the default base URL, block "abcdef" lives at
      https://boxpanel.bluebox.net/api/blocks/abcdef.json. */
  lemma ExampleBlockUrl(c: Client)
    requires c.baseUrl == DefaultBaseUrl
    ensures c.UrlForPath(BlockPath("abcdef"))
      == Url("https", "boxpanel.bluebox.net", "/api/blocks/abcdef.json")
  {
  }

  /** A reply outside 2xx gives the same status error whatever the target:
      its body is never decoded. */
  lemma StatusErrorIgnoresTarget<T, U>(reply: Reply, t: Option<Decoder<T>>, u: Option<Decoder<U>>)
    requires reply.Response? && !IsSuccessStatus(reply.status)
    ensures Client.Do(reply, t) == Failure(Status(reply.status))
    ensures Client.Do(reply, u) == Failure(Status(reply.status))
  {
  }
}
