/**
 * The short-link store and the two handlers: `createLink`, which writes a record under
 * a fresh identifier, and `redirect`, which looks an identifier up and redirects.
 */
module Links {
  import opened Http
  import opened Cors
  import opened ShortId

  /** The server time recorded as `createdAt`; opaque to the handlers. */
  type Timestamp = nat

  /** A stored link. Records written elsewhere may lack `targetUrl`. */
  datatype Record = Record(targetUrl: Option<string>, createdAt: Timestamp)

  /** The `shortlinks` collection: document identifier to record. */
  type Store = map<string, Record>

  /** The outcome of reading one document. */
  datatype Lookup = Unavailable | Missing | Found(record: Record)

  /** The parts of an inbound create request the handler reads. */
  datatype CreateRequest = CreateRequest(
    httpMethod: string,
    origin: Option<string>,    // the Origin header, absent when not sent
    targetUrl: Option<string>) // the `targetUrl` field of the JSON body

  const MethodNotAllowed := "Method Not Allowed"
  const TargetUrlRequired := "El campo 'targetUrl' es requerido."
  const CreateFailed := "Error interno al crear el enlace."
  const WelcomeMessage := "Bienvenido a redirección Smartics. Agrega una URL corta para redirigir."
  const ResolveFailed := "Error interno del servidor."
  const FallbackUrl := "https://smartics.com.mx"

  /**
   * The keys this model's store accepts: the non-empty strings. Firestore's further
   * path rules for identifiers containing '/' are not part of this model.
   */
  predicate ValidKey(id: string)
  {
    id != ""
  }

  /** The identifier a resolve request names: its path without the first character. */
  function RequestedId(path: string): (id: string)
    ensures |path| > 0 ==> [path[0]] + id == path
    ensures |path| == 0 ==> id == ""
  {
    var id := Substring(path, 1, |path|);
    assert |path| > 0 ==> id == path[1..];
    id
  }

  /** The store holds a record for `id` whose target is a non-empty string. */
  predicate HasTarget(links: Store, id: string)
  {
    id in links && Truthy(links[id].targetUrl)
  }

  /**
   * The decision of the `redirect` handler on a snapshot of the store: the welcome text
   * for "/", otherwise a lookup of the path minus its first character, exactly as written.
   */
  function ResolveLink(links: Store, path: string, lookupFails: bool): (r: Response)
    ensures r.headers == map[]
    ensures path == "/" ==> r == Response(200, map[], Text(WelcomeMessage), None)
    ensures r.status == 200 <==> path == "/"
    ensures r.status == 302 <==>
      path != "/" && !lookupFails && ValidKey(RequestedId(path)) && HasTarget(links, RequestedId(path))
    ensures r.status == 302 ==> r.location == links[RequestedId(path)].targetUrl && r.body == NoBody
    ensures r.status == 404 <==>
      path != "/" && !lookupFails && ValidKey(RequestedId(path)) && !HasTarget(links, RequestedId(path))
    ensures r.status == 404 ==> r.location == Some(FallbackUrl) && r.body == NoBody
    ensures r.status == 500 <==> path != "/" && (lookupFails || !ValidKey(RequestedId(path)))
    ensures r.status == 500 ==> r.body == Text(ResolveFailed) && r.location == None
  {
    if path == "/" then
      Response(200, map[], Text(WelcomeMessage), None)
    else
      var id := RequestedId(path);
      if lookupFails || !ValidKey(id) then
        Response(500, map[], Text(ResolveFailed), None)
      else if HasTarget(links, id) then
        Response(302, map[], NoBody, links[id].targetUrl)
      else
        Response(404, map[], NoBody, Some(FallbackUrl))
  }

  /** The record the create handler writes for a target URL: one that resolves to it. */
  function NewRecord(targetUrl: string, now: Timestamp): (r: Record)
    requires targetUrl != ""
    ensures Truthy(r.targetUrl) && r.targetUrl.value == targetUrl && r.createdAt == now
  {
    Record(Some(targetUrl), now)
  }

  class LinkStore {
    var links: Store

    /** An empty collection. */
    constructor ()
      ensures links == map[]
    {
      links := map[];
    }

    /** Reads the document `id`; nothing is written. */
    method Get(id: string, fails: bool) returns (r: Lookup)
      ensures r.Unavailable? <==> fails || !ValidKey(id)
      ensures r.Found? <==> !fails && ValidKey(id) && id in links
      ensures r.Found? ==> r.record == links[id]
    {
      if fails || !ValidKey(id) {
        r := Unavailable;
      } else if id in links {
        r := Found(links[id]);
      } else {
        r := Missing;
      }
    }

    /**
     * `doc(id).set(rec)`: replaces whatever is stored under `id`, with no existence
     * check; a failed write leaves the store as it was.
     */
    method Put(id: string, rec: Record, fails: bool) returns (ok: bool)
      modifies this
      ensures ok <==> !fails && ValidKey(id)
      ensures links == if ok then old(links)[id := rec] else old(links)
    {
      ok := !fails && ValidKey(id);
      if ok {
        links := links[id := rec];
      }
    }

    /**
     * The `createLink` handler. `allowedOrigins` is the configured comma-separated
     * allow-list, `shortId` the identifier drawn at random, `now` the server time
     * and `writeFails` whether the store write raises.
     */
    method CreateLink(allowedOrigins: string, req: CreateRequest, shortId: string,
                      now: Timestamp, writeFails: bool) returns (resp: Response)
      requires IsShortId(shortId)
      modifies this
      ensures resp.headers == CorsHeaders(ParseAllowList(allowedOrigins), req.origin)
      ensures resp.location == None
      ensures req.httpMethod == "OPTIONS" ==>
        resp.status == 204 && resp.body == Text("") && links == old(links)
      ensures req.httpMethod != "OPTIONS" && req.httpMethod != "POST" ==>
        resp.status == 405 && resp.body == Text(MethodNotAllowed) && links == old(links)
      ensures req.httpMethod == "POST" && !Truthy(req.targetUrl) ==>
        resp.status == 400 && resp.body == Text(TargetUrlRequired) && links == old(links)
      ensures req.httpMethod == "POST" && Truthy(req.targetUrl) && (writeFails || !ValidKey(shortId)) ==>
        resp.status == 500 && resp.body == Text(CreateFailed) && links == old(links)
      ensures req.httpMethod == "POST" && Truthy(req.targetUrl) && !writeFails && ValidKey(shortId) ==>
        resp.status == 201 && resp.body == ShortIdJson(shortId)
        && links == old(links)[shortId := NewRecord(req.targetUrl.value, now)]
    {
      var headers: map<string, string> := map[];
      if OriginAllowed(ParseAllowList(allowedOrigins), req.origin) {
        headers := headers[AllowOriginHeader := req.origin.value];
      }
      headers := headers[AllowMethodsHeader := AllowMethodsValue];
      headers := headers[AllowHeadersHeader := AllowHeadersValue];
      headers := headers[MaxAgeHeader := MaxAgeValue];

      if req.httpMethod == "OPTIONS" {
        return Response(204, headers, Text(""), None);
      }
      if req.httpMethod != "POST" {
        return Response(405, headers, Text(MethodNotAllowed), None);
      }
      if !Truthy(req.targetUrl) {
        return Response(400, headers, Text(TargetUrlRequired), None);
      }
      var ok := Put(shortId, NewRecord(req.targetUrl.value, now), writeFails);
      if !ok {
        return Response(500, headers, Text(CreateFailed), None);
      }
      resp := Response(201, headers, ShortIdJson(shortId), None);
    }

    /** The `redirect` handler: one lookup at most, and the store is not written. */
    method Resolve(path: string, lookupFails: bool) returns (resp: Response)
      ensures resp == ResolveLink(links, path, lookupFails)
    {
      if path == "/" {
        return Response(200, map[], Text(WelcomeMessage), None);
      }
      var id := RequestedId(path);
      var found := Get(id, lookupFails);
      match found
      case Unavailable =>
        resp := Response(500, map[], Text(ResolveFailed), None);
      case Missing =>
        resp := Response(404, map[], NoBody, Some(FallbackUrl));
      case Found(rec) =>
        if Truthy(rec.targetUrl) {
          resp := Response(302, map[], NoBody, rec.targetUrl);
        } else {
          resp := Response(404, map[], NoBody, Some(FallbackUrl));
        }
    }
  }

  /** The path "/" + id names the identifier `id`. */
  lemma PathOfId(id: string)
    ensures RequestedId("/" + id) == id
  {
  }

  /** After a successful create of `id` for `url`, resolving "/" + id redirects to `url`. */
  lemma CreateThenResolve(links: Store, id: string, url: string, now: Timestamp)
    requires ValidKey(id) && url != ""
    ensures ResolveLink(links[id := NewRecord(url, now)], "/" + id, false)
      == Response(302, map[], NoBody, Some(url))
  {
    PathOfId(id);
  }

  /** A second create under the same identifier wins: the link now resolves to its URL. */
  lemma LastWriteWins(links: Store, id: string, url1: string, url2: string, t1: Timestamp, t2: Timestamp)
    requires ValidKey(id) && url1 != "" && url2 != ""
    ensures ResolveLink(links[id := NewRecord(url1, t1)][id := NewRecord(url2, t2)], "/" + id, false)
      == Response(302, map[], NoBody, Some(url2))
  {
    CreateThenResolve(links[id := NewRecord(url1, t1)], id, url2, t2);
  }

  /**
   * An identifier with no record, or whose record has no usable target, resolves to
   * the fallback redirect.
   */
  lemma UnknownIdFallsBack(links: Store, id: string)
    requires ValidKey(id) && !HasTarget(links, id)
    ensures ResolveLink(links, "/" + id, false) == Response(404, map[], NoBody, Some(FallbackUrl))
  {
    PathOfId(id);
  }

  /**
   * The lookup is case-sensitive: a record under "abc" is not found through "/ABC",
   * an instance of UnknownIdFallsBack.
   */
  lemma ExactCaseLookup(now: Timestamp)
    ensures ResolveLink(map["abc" := NewRecord("https://example.com/x", now)], "/ABC", false)
      == Response(404, map[], NoBody, Some(FallbackUrl))
  {
    assert "ABC"[0] != "abc"[0];
    assert "/" + "ABC" == "/ABC";
    UnknownIdFallsBack(map["abc" := NewRecord("https://example.com/x", now)], "ABC");
  }

  /**
   * The handlers in sequence: create `id` for `url1`, resolve it, create `id` again for
   * `url2`, resolve it again. Both creates return `id`. Each resolve follows the latest write. The proof uses the
   * handlers' contracts together with CreateThenResolve and LastWriteWins.
   */
  method OverwriteRoundTrip(store: LinkStore, config: string, origin: Option<string>, id: string,
                            url1: string, url2: string, t1: Timestamp, t2: Timestamp)
    returns (created: Response, first: Response, again: Response, second: Response)
    requires IsShortId(id) && ValidKey(id) && url1 != "" && url2 != ""
    modifies store
    ensures created.status == 201 && created.body == ShortIdJson(id)
    ensures again.status == 201 && again.body == ShortIdJson(id)
    ensures first == Response(302, map[], NoBody, Some(url1))
    ensures second == Response(302, map[], NoBody, Some(url2))
    ensures store.links == old(store.links)[id := NewRecord(url2, t2)]
  {
    ghost var before := store.links;
    created := store.CreateLink(config, CreateRequest("POST", origin, Some(url1)), id, t1, false);
    assert store.links == before[id := NewRecord(url1, t1)];
    first := store.Resolve("/" + id, false);
    CreateThenResolve(before, id, url1, t1);

    again := store.CreateLink(config, CreateRequest("POST", origin, Some(url2)), id, t2, false);
    assert store.links == before[id := NewRecord(url1, t1)][id := NewRecord(url2, t2)];
    second := store.Resolve("/" + id, false);
    LastWriteWins(before, id, url1, url2, t1, t2);
  }
}
