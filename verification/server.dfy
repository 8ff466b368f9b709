/** The request decision of internal/server/server.go: the credential check
    (`auth`) and the order in which `ServeHTTP` turns a configuration load, the
    basic-auth credentials and the render into a status and a body. The HTTP
    plumbing itself (listening, header and body writes, `http.Error`, logging)
    is not modelled. */
module Server {
  import opened Wrappers
  import opened ConfigTypes
  import opened Renderer

  const StatusOK := 200
  const StatusForbidden := 403
  const StatusInternalServerError := 500

  /** What `config.Load` returned for this request. */
  datatype LoadResult = Loaded(cfg: Config) | LoadFailed(cause: string)

  /** The basic-auth user and password, when the request carried them. */
  datatype Credentials = Credentials(user: string, pass: string)

  datatype Response =
    | ErrorResponse(status: int)
    | Served(contentType: string, data: string)
  {
    function Status(): int
    {
      if ErrorResponse? then status else StatusOK
    }
  }

  /** `Hang` stands for a render loop that has not stopped within the fuel. */
  datatype Reply = Respond(response: Response) | Hang

  /** The meaning of `auth`: the user names a device whose password is the
      one given, compared exactly. */
  predicate Authenticated(cfg: Config, user: string, pass: string)
  {
    user in cfg.devices && cfg.devices[user].password == pass
  }

  /** `auth` as written: a scan over the device map. Each turn takes an
      arbitrary remaining key, as Go's map iteration order is unspecified;
      the answer does not depend on that order. */
  method Auth(cfg: Config, user: string, pass: string) returns (ok: bool)
    ensures ok <==> Authenticated(cfg, user, pass)
  {
    var remaining := cfg.devices.Keys;
    while remaining != {}
      invariant remaining <= cfg.devices.Keys
      invariant forall k :: k in cfg.devices.Keys - remaining ==>
        !(k == user && cfg.devices[k].password == pass)
      decreases remaining
    {
      var k :| k in remaining;
      if k == user && cfg.devices[k].password == pass {
        return true;
      }
      remaining := remaining - {k};
    }
    return false;
  }

  /** `ServeHTTP`: a load error first (500), then missing or wrong
      credentials (403), then a construction or render error (500), and
      otherwise the rendered body with its content type. */
  function Serve(load: LoadResult, creds: Option<Credentials>, workDir: string,
                 engine: Engine, json: JsonCodec, fuel: nat): (reply: Reply)
    ensures load.LoadFailed? ==> reply == Respond(ErrorResponse(StatusInternalServerError))
    ensures load.Loaded? && (creds.None? || !Authenticated(load.cfg, creds.value.user, creds.value.pass)) ==>
      reply == Respond(ErrorResponse(StatusForbidden))
    ensures load.Loaded? && creds.Some? && Authenticated(load.cfg, creds.value.user, creds.value.pass) ==>
      match New(load.cfg, workDir, creds.value.user)
      case Failure(_) => reply == Respond(ErrorResponse(StatusInternalServerError))
      case Success(rd) =>
        match Render(rd, engine, json, fuel)
        case RenderFailed(_) => reply == Respond(ErrorResponse(StatusInternalServerError))
        case RenderOutOfFuel => reply == Hang
        case Rendered(res) => reply == Respond(Served(res.contentType, res.data))
  {
    match load
    case LoadFailed(_) => Respond(ErrorResponse(StatusInternalServerError))
    case Loaded(cfg) =>
      if creds.None? || !Authenticated(cfg, creds.value.user, creds.value.pass) then
        Respond(ErrorResponse(StatusForbidden))
      else
        match New(cfg, workDir, creds.value.user)
        case Failure(_) => Respond(ErrorResponse(StatusInternalServerError))
        case Success(rd) =>
          match Render(rd, engine, json, fuel)
          case RenderFailed(_) => Respond(ErrorResponse(StatusInternalServerError))
          case RenderOutOfFuel => Hang
          case Rendered(res) => Respond(Served(res.contentType, res.data))
  }

  /** A 200 reply happens exactly when the configuration loaded, the
      credentials match a device, its renderer was built and its render
      succeeded; the reply then carries that render's content type and data. */
  lemma ServedIff(load: LoadResult, creds: Option<Credentials>, workDir: string,
                  engine: Engine, json: JsonCodec, fuel: nat, contentType: string, data: string)
    ensures Serve(load, creds, workDir, engine, json, fuel) == Respond(Served(contentType, data)) <==>
      && load.Loaded?
      && creds.Some?
      && Authenticated(load.cfg, creds.value.user, creds.value.pass)
      && New(load.cfg, workDir, creds.value.user).Success?
      && Render(New(load.cfg, workDir, creds.value.user).value, engine, json, fuel)
           == Rendered(RenderResult(data, contentType))
  {
  }

  /** An authenticated user always names an existing device, so the only
      construction error left after authentication is a missing template. */
  lemma AuthenticatedDeviceExists(cfg: Config, workDir: string, user: string, pass: string)
    requires Authenticated(cfg, user, pass)
    ensures New(cfg, workDir, user).Failure? ==>
      New(cfg, workDir, user).error
        == TemplateNotFound(EffectiveTemplateName(cfg.devices[user].templateName))
  {
  }

  /** A replied request has status 200, 403 or 500, and 200 only for a
      served body. */
  lemma StatusCodes(load: LoadResult, creds: Option<Credentials>, workDir: string,
                    engine: Engine, json: JsonCodec, fuel: nat)
    requires Serve(load, creds, workDir, engine, json, fuel).Respond?
    ensures var resp := Serve(load, creds, workDir, engine, json, fuel).response;
      && resp.Status() in {StatusOK, StatusForbidden, StatusInternalServerError}
      && (resp.Status() == StatusOK <==> resp.Served?)
  {
  }
}
