/** `farhyn_webhook` (routers/webhook.py): verify the request, read
    `repository_url` and `folder_name` from the JSON payload, and schedule the
    three deploy steps as background tasks. */
module Webhook {
  import opened Wrappers
  import opened Text
  import opened Signature

  /** A JSON value as `request.json()` returns it. */
  datatype Json =
    | JNull
    | JBool(b: bool)
    | JNumber(n: real)
    | JString(s: string)
    | JArray(items: seq<Json>)
    | JObject(fields: map<string, Json>)

  /** Python truthiness of a decoded JSON value: every value is true except
      `None`, `False`, zero and the empty string, list and dict. */
  predicate Truthy(j: Json)
    ensures Truthy(j) <==> j !in {JNull, JBool(false), JNumber(0.0), JString([]), JArray([]), JObject(map[])}
  {
    match j
    case JNull => false
    case JBool(b) => b
    case JNumber(n) => n != 0.0
    case JString(s) => s != []
    case JArray(items) => items != []
    case JObject(fields) => fields != map[]
  }

  /** `dict.get(key)`: the value, or `None` (here `JNull`) when absent. */
  function Get(fields: map<string, Json>, key: string): (j: Json)
    ensures key in fields ==> j == fields[key]
    ensures key !in fields ==> j == JNull && !Truthy(j)
  {
    if key in fields then fields[key] else JNull
  }

  /** Turns the raw body into JSON, or fails with the decoder's message. */
  type JsonParser = seq<byte> -> Result<Json, string>

  /** What the handler sees of an inbound request. */
  datatype Request = Request(signature: Option<string>, body: Result<seq<byte>, string>)

  /** A scheduled background call, with the arguments it was given. */
  datatype Task = GitClone(repoUrl: Json, folderName: Json) | DockerCompose(folderName: Json) | DockerPrune

  const ScheduledMessage: string := "Signature verified successfully and tasks scheduled"
  const MissingFieldsDetail: string := "Missing repository URL or folder name in payload"
  const InternalErrorDetail: string := "Internal Server Error"

  /** The three ways the handler ends: it returns the success dict, it returns
      `{"error": detail}` for a caught `HTTPException`, or it raises
      `HTTPException(500)` for any other exception. */
  datatype Response =
    | Scheduled(message: string, data: Json)
    | ErrorResult(error: string)
    | ServerError(detail: string)

  /** The HTTP status each response is sent with: a returned dict is a 200. */
  function StatusCode(r: Response): (code: int)
    ensures code == 500 <==> r.ServerError?
    ensures code == 200 <==> !r.ServerError?
  {
    if r.ServerError? then 500 else 200
  }

  /** The response of one call and the tasks it appends. */
  datatype Decision = Decision(response: Response, tasks: seq<Task>)

  /** The tasks a successful request schedules, in order: the clone of the
      repository into the folder, the compose of that same folder, then the
      prune, which takes no argument. */
  function DeployTasks(repoUrl: Json, folderName: Json): (t: seq<Task>)
    ensures |t| == 3
    ensures t[0].GitClone? && t[0].repoUrl == repoUrl && t[0].folderName == folderName
    ensures t[1].DockerCompose? && t[1].folderName == t[0].folderName
    ensures t[2] == DockerPrune
  {
    [GitClone(repoUrl, folderName), DockerCompose(folderName), DockerPrune]
  }

  /** No verification detail reads like the payload-fields detail, so the two
      kinds of error dict can be told apart. */
  lemma DetailIsNotMissingFields(e: AuthError)
    ensures Detail(e) != MissingFieldsDetail
  {
    assert MissingFieldsDetail[8] == 'r';
    if e.MissingHeader? {
      assert Detail(e)[8] == 'X';
    } else {
      assert Detail(e)[0] != 'M';
    }
  }

  /** What the handler decides for a request. */
  function Decide(req: Request, secret: string, mac: Mac, parse: JsonParser): (d: Decision)
    // Nothing is scheduled unless the response is the success dict.
    ensures d.tasks != [] <==> d.response.Scheduled?
    // A rejected signature becomes a returned error dict with its detail.
    ensures VerifySignature(req.signature, req.body, secret, mac).Rejected? ==>
              d == Decision(ErrorResult(Detail(VerifySignature(req.signature, req.body, secret, mac).error)), [])
    // The success dict: verified, an object payload, both fields truthy,
    // exactly three tasks with the payload's own values, the payload echoed.
    ensures d.response.Scheduled? <==>
              && VerifySignature(req.signature, req.body, secret, mac).Verified?
              && parse(req.body.value).Success?
              && parse(req.body.value).value.JObject?
              && Truthy(Get(parse(req.body.value).value.fields, "repository_url"))
              && Truthy(Get(parse(req.body.value).value.fields, "folder_name"))
    ensures d.response.Scheduled? ==>
              var payload := parse(req.body.value).value;
              && d.response == Scheduled(ScheduledMessage, payload)
              && d.tasks == DeployTasks(Get(payload.fields, "repository_url"), Get(payload.fields, "folder_name"))
    // A verified request with an object payload missing either field.
    ensures d.response == ErrorResult(MissingFieldsDetail) <==>
              && VerifySignature(req.signature, req.body, secret, mac).Verified?
              && parse(req.body.value).Success?
              && parse(req.body.value).value.JObject?
              && !(Truthy(Get(parse(req.body.value).value.fields, "repository_url"))
                   && Truthy(Get(parse(req.body.value).value.fields, "folder_name")))
    // Only exceptions other than HTTPException give the 500.
    ensures d.response.ServerError? <==>
              || VerifySignature(req.signature, req.body, secret, mac).CompareRaised?
              || (&& VerifySignature(req.signature, req.body, secret, mac).Verified?
                  && !(parse(req.body.value).Success? && parse(req.body.value).value.JObject?))
    ensures d.response.ServerError? ==> d.response.detail == InternalErrorDetail
  {
    match VerifySignature(req.signature, req.body, secret, mac)
    case Rejected(e) =>
      DetailIsNotMissingFields(e);
      Decision(ErrorResult(Detail(e)), [])
    case CompareRaised => Decision(ServerError(InternalErrorDetail), [])
    case Verified =>
      match parse(req.body.value)
      case Failure(_) => Decision(ServerError(InternalErrorDetail), [])
      case Success(payload) =>
        if !payload.JObject? then Decision(ServerError(InternalErrorDetail), [])
        else
          var repoUrl := Get(payload.fields, "repository_url");
          var folderName := Get(payload.fields, "folder_name");
          if !Truthy(repoUrl) || !Truthy(folderName) then Decision(ErrorResult(MissingFieldsDetail), [])
          else Decision(Scheduled(ScheduledMessage, payload), DeployTasks(repoUrl, folderName))
  }

  /** The framework's `BackgroundTasks`: the list of calls to run after the
      response is sent. */
  class BackgroundTasks {
    var tasks: seq<Task>

    constructor()
      ensures tasks == []
    {
      tasks := [];
    }

    method AddTask(t: Task)
      modifies this
      ensures tasks == old(tasks) + [t]
    {
      tasks := tasks + [t];
    }
  }

  /** Every error dict the handler returns, for a rejected signature or for
      missing fields, is sent with status 200; the only 500 is the re-raised
      unexpected exception. */
  lemma ErrorDictIsOk(req: Request, secret: string, mac: Mac, parse: JsonParser)
    ensures Decide(req, secret, mac, parse).response.ErrorResult? ==> StatusCode(Decide(req, secret, mac, parse).response) == 200
    ensures VerifySignature(req.signature, req.body, secret, mac).Rejected? ==>
              StatusCode(Decide(req, secret, mac, parse).response) == 200
    ensures StatusCode(Decide(req, secret, mac, parse).response) == 500 <==>
              || VerifySignature(req.signature, req.body, secret, mac).CompareRaised?
              || (&& VerifySignature(req.signature, req.body, secret, mac).Verified?
                  && !(parse(req.body.value).Success? && parse(req.body.value).value.JObject?))
  {
  }

  /** The request handler: the checks in source order, then three `add_task`
      calls. `HTTPException`s become error dicts; other exceptions the 500. */
  method FarhynWebhook(req: Request, secret: string, mac: Mac, parse: JsonParser,
                       background: BackgroundTasks) returns (response: Response)
    modifies background
    ensures response == Decide(req, secret, mac, parse).response
    ensures background.tasks == old(background.tasks) + Decide(req, secret, mac, parse).tasks
  {
    var verdict := VerifySignature(req.signature, req.body, secret, mac);
    if verdict.Rejected? {
      return ErrorResult(Detail(verdict.error));
    } else if verdict.CompareRaised? {
      return ServerError(InternalErrorDetail);
    }
    var parsed := parse(req.body.value);
    if parsed.Failure? || !parsed.value.JObject? {
      return ServerError(InternalErrorDetail);
    }
    var payload := parsed.value;
    var repoUrl := Get(payload.fields, "repository_url");
    var folderName := Get(payload.fields, "folder_name");
    if !Truthy(repoUrl) || !Truthy(folderName) {
      return ErrorResult(MissingFieldsDetail);
    }
    background.AddTask(GitClone(repoUrl, folderName));
    background.AddTask(DockerCompose(folderName));
    background.AddTask(DockerPrune);
    response := Scheduled(ScheduledMessage, payload);
  }

  /** A correctly signed deploy request for `proj` is acknowledged and
      schedules clone, compose and prune with exactly those arguments. */
  lemma SignedDeployScheduled(body: seq<byte>, secret: string, mac: Mac, parse: JsonParser)
    requires parse(body) == Success(JObject(map["repository_url" := JString("https://example/repo.git"),
                                                "folder_name" := JString("proj")]))
    ensures Decide(Request(Some(Sha256Prefix + HexDigest(mac(secret, body))), Success(body)), secret, mac, parse)
         == Decision(Scheduled(ScheduledMessage, parse(body).value),
                     [GitClone(JString("https://example/repo.git"), JString("proj")),
                      DockerCompose(JString("proj")), DockerPrune])
  {
    SignedRequestVerifies(body, secret, mac);
  }

  /** A header tagged `sha1` gets the unsupported-algorithm error dict and
      schedules nothing, whatever the digest, body or payload. */
  lemma Sha1Rejected(digest: seq<byte>, body: Result<seq<byte>, string>, secret: string, mac: Mac,
                     parse: JsonParser)
    ensures Decide(Request(Some("sha1=" + HexDigest(digest)), body), secret, mac, parse)
         == Decision(ErrorResult("Unsupported signature algorithm"), [])
  {
    var header := "sha1=" + HexDigest(digest);
    HexDigestPlain(digest);
    CountAppend("sha1=", HexDigest(digest), '=');
    assert header[4] == '=';
    UnsupportedIff(header, body, secret, mac);
  }

  /** A correctly signed request whose payload has no `folder_name` gets the
      missing-fields error dict and schedules nothing. */
  lemma MissingFolderRejected(body: seq<byte>, secret: string, mac: Mac, parse: JsonParser)
    requires parse(body).Success? && parse(body).value.JObject?
    requires "folder_name" !in parse(body).value.fields
    ensures Decide(Request(Some(Sha256Prefix + HexDigest(mac(secret, body))), Success(body)), secret, mac, parse)
         == Decision(ErrorResult(MissingFieldsDetail), [])
  {
    SignedRequestVerifies(body, secret, mac);
  }
}
