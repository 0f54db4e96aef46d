/**
 * The CircleCI API v2 client: how a call on the `CircleCI` class becomes one
 * HTTP request (verb, URL, headers, body) and how the reply becomes the
 * call's result or an error.
 *
 * The network is an oracle: each call is handed the `Reply` that `fetch`
 * and `response.json()` would produce, and the client keeps a ghost log of
 * the requests it sent and of the warnings it printed.
 */
module Client {
  import opened Wrappers
  import opened Json
  import Query
  import Percent

  const BaseUrl: string := "https://circleci.com/api/v2"

  const CircleToken: string := "Circle-Token"
  const ClientHeader: string := "X-Circle-Client"
  const ContentType: string := "Content-Type"
  const JsonMediaType: string := "application/json"

  const DefaultErrorMessage: string := "An API error occurred"
  const ProjectSlugMessage: string := "A project slug is required to call this method"
  const OwnerMessage: string := "One of ownerId or ownerSlug must be supplied"
  const PreviewMessage: string := "Warning: you are using a preview API endpoint that may change without warning."

  datatype Verb = Post | Get | Put | Delete

  /** The verbs whose parameters go into the query string. */
  predicate InQuery(verb: Verb) {
    verb == Get || verb == Delete
  }

  /** The verbs whose parameters go into a JSON body. */
  predicate InBody(verb: Verb) {
    verb == Post || verb == Put
  }

  // ---------------------------------------------------------------------
  // Replies and errors

  /**
   * What `fetch` and `response.json()` produce: the status code, and the
   * parsed body, or None when the body is not JSON and `response.json()`
   * rejects.
   */
  datatype Reply = Reply(status: int, body: Option<Json>)

  datatype ClientError =
    | APIError(message: string, status: int, response: Reply)
    | ArgumentError(message: string)
    | ProjectSlugError(message: string)
    | InvalidJsonBody(status: int)
    | NullBodyTypeError

  /** Property k of a parsed object; `JSON.parse` keeps the last of duplicate names. */
  function Property(fields: seq<Field>, k: string): Option<Json>
  {
    if fields == [] then None
    else if fields[|fields| - 1].key == k then Some(fields[|fields| - 1].value)
    else Property(fields[..|fields| - 1], k)
  }

  /** `data.message` on any JSON value other than null: only objects have the property. */
  function MessageProperty(data: Json): Option<Json>
  {
    if data.JObj? then Property(data.fields, "message") else None
  }

  /**
   * The message an APIError gets: `String(data.message)`, or the default
   * when the body has no `message`.
   */
  function ErrorMessage(data: Json): string
  {
    match MessageProperty(data)
    case None => DefaultErrorMessage
    case Some(m) => ToDisplayString(m)
  }

  /**
   * The status check after `response.json()`: the body unchanged when the
   * status is the expected one, an APIError otherwise. A `null` body with an
   * unexpected status also gives an APIError with the default message.
   */
  function CheckReply(reply: Reply, successStatus: int): Result<Json, ClientError>
  {
    match reply.body
    case None => Failure(InvalidJsonBody(reply.status))
    case Some(data) =>
      if reply.status != successStatus then Failure(APIError(ErrorMessage(data), reply.status, reply))
      else Success(data)
  }

  /**
   * The status check as written: `(data as ErrorResponse).message` is read
   * before the APIError is built, so a `null` body throws a TypeError.
   */
  function CheckReplyAsWritten(reply: Reply, successStatus: int): Result<Json, ClientError>
  {
    match reply.body
    case None => Failure(InvalidJsonBody(reply.status))
    case Some(data) =>
      if reply.status != successStatus then
        if data.JNull? then Failure(NullBodyTypeError)
        else Failure(APIError(ErrorMessage(data), reply.status, reply))
      else Success(data)
  }

  /** The reply is accepted exactly when it is JSON with the expected status, and then returned unchanged. */
  lemma ReplyAccepted(reply: Reply, successStatus: int)
    ensures CheckReply(reply, successStatus).Success? <==> reply.body.Some? && reply.status == successStatus
    ensures CheckReply(reply, successStatus).Success? ==> CheckReply(reply, successStatus).value == reply.body.value
  {
  }

  /**
   * Any other status raises APIError carrying the actual status and the
   * body's message, or the default message when the body has none.
   */
  lemma ReplyRejected(reply: Reply, successStatus: int)
    requires reply.body.Some? && reply.status != successStatus
    ensures CheckReply(reply, successStatus).Failure?
    ensures var e := CheckReply(reply, successStatus).error;
      e.APIError? && e.status == reply.status && e.response == reply
      && (MessageProperty(reply.body.value).None? ==> e.message == DefaultErrorMessage)
      && (var m := MessageProperty(reply.body.value); m.Some? && m.value.JStr? ==> e.message == m.value.s)
  {
  }

  /** A string `message` property becomes the error's message. */
  lemma MessageOfObject(fields: seq<Field>, m: string)
    requires Property(fields, "message") == Some(JStr(m))
    ensures ErrorMessage(JObj(fields)) == m
  {
  }

  /** The code as written and the corrected check differ on exactly one kind of reply. */
  lemma AsWrittenDiffers(reply: Reply, successStatus: int)
    ensures CheckReplyAsWritten(reply, successStatus) != CheckReply(reply, successStatus)
      <==> reply.body == Some(JNull) && reply.status != successStatus
  {
  }

  /** A reply that shows it: status 500 with the JSON body `null` when 200 was expected. */
  lemma NullBodyCounterexample()
    ensures CheckReplyAsWritten(Reply(500, Some(JNull)), 200) == Failure(NullBodyTypeError)
    ensures CheckReply(Reply(500, Some(JNull)), 200) == Failure(APIError(DefaultErrorMessage, 500, Reply(500, Some(JNull))))
  {
  }

  // ---------------------------------------------------------------------
  // The request

  /** One call of `fetch(url, { method, headers, body })`. */
  datatype HttpRequest = HttpRequest(verb: Verb, url: string, headers: map<string, string>, body: Option<string>)

  /** The URL: base, `/`, path, and the query string for GET and DELETE with parameters. */
  function RequestUrl(verb: Verb, path: string, params: Query.Params): string
  {
    if params != [] && InQuery(verb) then BaseUrl + "/" + path + "?" + Query.SerializeQuery(params)
    else BaseUrl + "/" + path
  }

  /** The body: the JSON of the parameters for POST and PUT with parameters. */
  function RequestBody(verb: Verb, params: Query.Params): Option<string>
  {
    if params != [] && InBody(verb) then Some(Stringify(JObj(params))) else None
  }

  /**
   * The client's header map after `Object.assign(this.headers, ...)` and the
   * Content-Type assignment, which is also the map the request carries.
   */
  function SentHeaders(h: map<string, string>, apiKey: string, version: string, verb: Verb, params: Query.Params): map<string, string>
  {
    var h' := h[CircleToken := apiKey][ClientHeader := "v" + version];
    if params != [] && InBody(verb) then h'[ContentType := JsonMediaType] else h'
  }

  /**
   * The URL reads back as the base, `/` and the path, then, for GET and
   * DELETE with parameters, `?` and a query string that parses back to every
   * parameter's name and string value in insertion order.
   */
  lemma UrlReadsBack(verb: Verb, path: string, params: Query.Params)
    ensures var url := RequestUrl(verb, path, params);
      var prefix := BaseUrl + "/" + path;
      |url| >= |prefix| && url[..|prefix|] == prefix
      && (params != [] && InQuery(verb) ==>
            |url| > |prefix| && url[|prefix|] == '?'
            && Query.ParseQuery(url[|prefix| + 1..]) == Some(Query.Pairs(params)))
      && (params == [] || !InQuery(verb) ==> url == prefix)
  {
    var prefix := BaseUrl + "/" + path;
    if params != [] && InQuery(verb) {
      var q := Query.SerializeQuery(params);
      var url := prefix + "?" + q;
      assert url[..|prefix|] == prefix;
      assert url[|prefix| + 1..] == q;
      Query.QueryRoundTrip(params);
    }
  }

  /**
   * There is a body exactly for POST and PUT with parameters, and it parses
   * back to the parameters object.
   */
  lemma BodyReadsBack(verb: Verb, params: Query.Params)
    ensures RequestBody(verb, params).Some? <==> params != [] && InBody(verb)
    ensures RequestBody(verb, params).Some? ==> Parse(RequestBody(verb, params).value) == Some(JObj(params))
  {
    StringifyRoundTrip(JObj(params));
  }

  /**
   * Every request carries the API token and the client version; a body
   * brings `Content-Type: application/json`; every other header of the
   * client's map is kept as it was.
   */
  lemma HeadersOfRequest(h: map<string, string>, apiKey: string, version: string, verb: Verb, params: Query.Params)
    ensures var h' := SentHeaders(h, apiKey, version, verb, params);
      && CircleToken in h' && h'[CircleToken] == apiKey
      && ClientHeader in h' && h'[ClientHeader] == "v" + version
      && (params != [] && InBody(verb) ==> ContentType in h' && h'[ContentType] == JsonMediaType)
      && (forall k :: k in h' <==> k in h || k == CircleToken || k == ClientHeader
                                   || (k == ContentType && params != [] && InBody(verb)))
      && (forall k :: (k in h && k != CircleToken && k != ClientHeader
                       && !(k == ContentType && params != [] && InBody(verb))) ==> h'[k] == h[k])
  {
  }

  /**
   * The header map only grows, so a Content-Type written by a POST or PUT
   * stays for every later request, GET and DELETE included.
   */
  lemma ContentTypePersists(h: map<string, string>, apiKey: string, version: string, verb: Verb, params: Query.Params)
    requires ContentType in h && h[ContentType] == JsonMediaType
    ensures ContentType in SentHeaders(h, apiKey, version, verb, params)
    ensures SentHeaders(h, apiKey, version, verb, params)[ContentType] == JsonMediaType
  {
  }

  // ---------------------------------------------------------------------
  // The project slug

  datatype Vcs = GitHub | Bitbucket

  function VcsName(v: Vcs): string
  {
    match v
    case GitHub => "github"
    case Bitbucket => "bitbucket"
  }

  /** A project slug: the tuple `[vcs, org, repo]` or a string such as "gh/org/repo". */
  datatype Slug = Triple(vcs: Vcs, org: string, repo: string) | Text(text: string)

  /** `slug.join('/')` for a tuple, the string itself otherwise. */
  function SlugText(s: Slug): string
  {
    match s
    case Triple(v, org, repo) => VcsName(v) + "/" + org + "/" + repo
    case Text(t) => t
  }

  /** JavaScript truthiness of the slug field: undefined and "" are falsy, every tuple is truthy. */
  predicate Truthy(slug: Option<Slug>) {
    slug.Some? && (slug.value.Triple? || slug.value.text != "")
  }

  /**
   * `getProjectSlug()`: ProjectSlugError when no slug is set, otherwise the
   * slug's text through `encodeURIComponent`, a single path segment that
   * decodes back to the text.
   */
  function SlugSegment(slug: Option<Slug>): (r: Result<string, ClientError>)
    ensures r.Failure? <==> !Truthy(slug)
    ensures r.Failure? ==> r.error == ProjectSlugError(ProjectSlugMessage)
    ensures r.Success? ==> Percent.DecodeURIComponent(r.value) == Some(SlugText(slug.value))
    ensures r.Success? ==> forall i :: 0 <= i < |r.value| ==> r.value[i] !in "/?#&=+"
  {
    if !Truthy(slug) then Failure(ProjectSlugError(ProjectSlugMessage))
    else
      var text := SlugText(slug.value);
      Percent.URIComponentRoundTrip(text);
      Percent.URIComponentHasNoDelimiters(text);
      Success(Percent.EncodeURIComponent(text))
  }

  // ---------------------------------------------------------------------
  // What a façade method asks of `request`

  /** The request a façade call makes: verb, path below the base URL, expected status and parameters. */
  datatype Call = Call(verb: Verb, path: string, status: int, params: Query.Params)

  /**
   * The call of a method whose path is `prefix${this.getProjectSlug()}suffix`:
   * the slug's error when there is no slug, the request otherwise.
   */
  function WithSlug(slug: Result<string, ClientError>, verb: Verb, prefix: string, suffix: string,
                    status: int, params: Query.Params): Result<Call, ClientError>
  {
    if slug.Failure? then Failure(slug.error) else Success(Call(verb, prefix + slug.value + suffix, status, params))
  }

  /**
   * A project-scoped method fails with ProjectSlugError exactly when the
   * client has no usable slug; otherwise its path holds the encoded slug,
   * which decodes back to the slug's text and cannot be mistaken for a path
   * separator, a query or a fragment.
   */
  lemma SlugScopedCall(slug: Option<Slug>, verb: Verb, prefix: string, suffix: string, status: int, params: Query.Params)
    ensures var c := WithSlug(SlugSegment(slug), verb, prefix, suffix, status, params);
      && (c.Failure? <==> !Truthy(slug))
      && (c.Failure? ==> c.error == ProjectSlugError(ProjectSlugMessage))
      && (c.Success? ==>
            var seg := c.value.path[|prefix|..|c.value.path| - |suffix|];
            && c.value.path == prefix + seg + suffix
            && Percent.DecodeURIComponent(seg) == Some(SlugText(slug.value))
            && (forall i :: 0 <= i < |seg| ==> seg[i] !in "/?#&=+")
            && c.value.verb == verb && c.value.status == status && c.value.params == params)
  {
    var c := WithSlug(SlugSegment(slug), verb, prefix, suffix, status, params);
    if c.Success? {
      var seg := SlugSegment(slug).value;
      var path := prefix + seg + suffix;
      assert path[|prefix|..|path| - |suffix|] == seg;
    }
  }

  /** `branch || this.branch`: the argument when given, else the client's default. */
  function BranchOr(arg: string, clientBranch: string): string
  {
    if arg != "" then arg else clientBranch
  }

  /** `listContexts` accepts exactly one of ownerId and ownerSlug. */
  predicate OneOwner(ownerId: string, ownerSlug: string) {
    (ownerId != "") != (ownerSlug != "")
  }

  /** `{ 'page-token': pageToken }` when a page token is given. */
  function PageParams(pageToken: string): Query.Params
  {
    Query.SetIfGiven([], "page-token", Query.OptStr(pageToken))
  }

  /** The page token, then the branch with its fallback. */
  function BranchParams(pageToken: string, branch: string, clientBranch: string): Query.Params
  {
    Query.SetIfGiven(PageParams(pageToken), "branch", Query.OptStr(BranchOr(branch, clientBranch)))
  }

  /** The start date, then the end date, each set on p when given. */
  function DateRange(p: Query.Params, startDate: string, endDate: string): Query.Params
  {
    Query.SetIfGiven(Query.SetIfGiven(p, "start-date", Query.OptStr(startDate)), "end-date", Query.OptStr(endDate))
  }

  /** The page token, the branch, then the start and end dates. */
  function RunsParams(pageToken: string, branch: string, clientBranch: string, startDate: string, endDate: string): Query.Params
  {
    DateRange(BranchParams(pageToken, branch, clientBranch), startDate, endDate)
  }

  /** The organization slug, always, then the page token and the `mine` flag. */
  function PipelinesParams(orgSlug: string, pageToken: string, onlyMine: bool): Query.Params
  {
    Query.SetIfGiven(Query.SetIfGiven([Field("org-slug", JStr(orgSlug))], "page-token", Query.OptStr(pageToken)),
      "mine", Query.OptFlag(onlyMine))
  }

  /** The job names as a JSON array; an empty array is still given. */
  function JobsJson(jobs: Option<seq<string>>): Option<Json>
  {
    match jobs
    case None => None
    case Some(js) => Some(JArr(seq(|js|, i requires 0 <= i < |js| => JStr(js[i]))))
  }

  function RerunParams(jobs: Option<seq<string>>, fromFailed: bool): Query.Params
  {
    Query.SetIfGiven(Query.SetIfGiven([], "jobs", JobsJson(jobs)), "fromFailed", Query.OptFlag(fromFailed))
  }

  function TriggerParams(branch: string, clientBranch: string, tag: string, parameters: Option<Query.Params>): Query.Params
  {
    var ps := if parameters.Some? then Some(JObj(parameters.value)) else None;
    Query.SetIfGiven(Query.SetIfGiven(Query.SetIfGiven([], "branch", Query.OptStr(BranchOr(branch, clientBranch))),
      "tag", Query.OptStr(tag)), "parameters", ps)
  }

  /** The page token and the owner's id, slug and type, each when given. */
  function ContextsParams(ownerId: string, ownerSlug: string, ownerType: string, pageToken: string): Query.Params
  {
    Query.SetIfGiven(Query.SetIfGiven(Query.SetIfGiven(PageParams(pageToken), "owner-id", Query.OptStr(ownerId)),
      "owner-slug", Query.OptStr(ownerSlug)), "owner-type", Query.OptStr(ownerType))
  }

  /** What `listContexts` does after its warning: the owner check, then the request. */
  function ContextsCall(ownerId: string, ownerSlug: string, ownerType: string, pageToken: string): Result<Call, ClientError>
  {
    if !OneOwner(ownerId, ownerSlug) then Failure(ArgumentError(OwnerMessage))
    else Success(Call(Get, "context", 200, ContextsParams(ownerId, ownerSlug, ownerType, pageToken)))
  }

  // ---------------------------------------------------------------------
  // Properties of the parameter objects

  /** The name k when the string argument s is given, as a one-name list. */
  function Given(k: string, s: string): seq<string>
  {
    if s != "" then [k] else []
  }

  /** A page token is sent under `page-token` exactly when it is given. */
  lemma PageParamsSent(pageToken: string)
    ensures Query.Keys(PageParams(pageToken)) == Given("page-token", pageToken)
    ensures Query.Lookup(PageParams(pageToken), "page-token") == Query.OptStr(pageToken)
  {
    Query.SetIfGivenNew([], "page-token", Query.OptStr(pageToken));
  }

  /**
   * The branch argument wins over the client's default branch, the default
   * is used when the argument is omitted, and no branch is sent when
   * neither is set; the page token keeps its place before it.
   */
  lemma BranchFallback(pageToken: string, branch: string, clientBranch: string)
    ensures var p := BranchParams(pageToken, branch, clientBranch);
      && Query.Keys(p) == Given("page-token", pageToken) + Given("branch", BranchOr(branch, clientBranch))
      && Query.Lookup(p, "page-token") == Query.OptStr(pageToken)
      && Query.Lookup(p, "branch") == (if branch != "" then Some(JStr(branch))
                                       else if clientBranch != "" then Some(JStr(clientBranch))
                                       else None)
  {
    PageParamsSent(pageToken);
    Query.SetIfGivenNew(PageParams(pageToken), "branch", Query.OptStr(BranchOr(branch, clientBranch)));
  }

  /** The query names of the insights and pipeline-trigger calls are pairwise distinct. */
  lemma RunKeysDistinct()
    ensures "end-date" != "page-token" && "end-date" != "branch" && "end-date" != "start-date"
    ensures "start-date" != "page-token" && "start-date" != "branch" && "branch" != "page-token"
  {
    assert "end-date"[0] == 'e';
    assert "start-date"[0] == 's';
  }

  /** The query names of the pipeline and context listings are pairwise distinct. */
  lemma OwnerKeysDistinct()
    ensures "org-slug" != "page-token" && "mine" != "org-slug" && "mine" != "page-token"
    ensures "owner-id" != "page-token" && "owner-slug" != "page-token" && "owner-slug" != "owner-id"
    ensures "owner-type" != "page-token" && "owner-type" != "owner-id" && "owner-type" != "owner-slug"
  {
    assert "org-slug"[0] == 'o' && "owner-id"[6] == 'i' && "owner-slug"[6] == 's' && "owner-type"[6] == 't';
  }

  /**
   * The date range adds the start date, then the end date, each only when
   * given and each under its own name, after whatever the query already
   * holds, and changes no other parameter.
   */
  lemma DateRangeSent(p: Query.Params, startDate: string, endDate: string)
    requires "start-date" !in Query.Keys(p) && "end-date" !in Query.Keys(p)
    ensures Query.Keys(DateRange(p, startDate, endDate)) == Query.Keys(p) + Given("start-date", startDate) + Given("end-date", endDate)
    ensures Query.Lookup(DateRange(p, startDate, endDate), "start-date") == Query.OptStr(startDate)
    ensures Query.Lookup(DateRange(p, startDate, endDate), "end-date") == Query.OptStr(endDate)
    ensures forall k :: k != "start-date" && k != "end-date" ==> Query.Lookup(DateRange(p, startDate, endDate), k) == Query.Lookup(p, k)
  {
    RunKeysDistinct();
    Query.SetIfGivenNew(p, "start-date", Query.OptStr(startDate));
    var p1 := Query.SetIfGiven(p, "start-date", Query.OptStr(startDate));
    Query.SetIfGivenNew(p1, "end-date", Query.OptStr(endDate));
  }

  /**
   * The runs queries send the page token, the branch, the start date and
   * the end date, each only when given, in that order, each with its own
   * value.
   */
  lemma RunsParamsSent(pageToken: string, branch: string, clientBranch: string, startDate: string, endDate: string)
    ensures var p := RunsParams(pageToken, branch, clientBranch, startDate, endDate);
      && Query.Keys(p) == Given("page-token", pageToken) + Given("branch", BranchOr(branch, clientBranch))
                          + Given("start-date", startDate) + Given("end-date", endDate)
      && Query.Lookup(p, "page-token") == Query.OptStr(pageToken)
      && Query.Lookup(p, "branch") == Query.OptStr(BranchOr(branch, clientBranch))
      && Query.Lookup(p, "start-date") == Query.OptStr(startDate)
      && Query.Lookup(p, "end-date") == Query.OptStr(endDate)
  {
    RunKeysDistinct();
    BranchFallback(pageToken, branch, clientBranch);
    var p1 := BranchParams(pageToken, branch, clientBranch);
    DateRangeSent(p1, startDate, endDate);
  }

  /**
   * `listPipelines` always sends the organization slug first, then the page
   * token when given, then `mine=true` when only the caller's pipelines are
   * asked for.
   */
  lemma PipelinesParamsSent(orgSlug: string, pageToken: string, onlyMine: bool)
    ensures var p := PipelinesParams(orgSlug, pageToken, onlyMine);
      && Query.Keys(p) == ["org-slug"] + Given("page-token", pageToken) + (if onlyMine then ["mine"] else [])
      && Query.Lookup(p, "org-slug") == Some(JStr(orgSlug))
      && Query.Lookup(p, "page-token") == Query.OptStr(pageToken)
      && Query.Lookup(p, "mine") == Query.OptFlag(onlyMine)
  {
    OwnerKeysDistinct();
    var p0: Query.Params := [Field("org-slug", JStr(orgSlug))];
    assert Query.Keys(p0) == ["org-slug"];
    Query.SetIfGivenNew(p0, "page-token", Query.OptStr(pageToken));
    Query.SetIfGivenNew(Query.SetIfGiven(p0, "page-token", Query.OptStr(pageToken)), "mine", Query.OptFlag(onlyMine));
  }

  /**
   * A rerun sends the job list whenever one is given, even an empty one,
   * and `fromFailed` only when it is true.
   */
  lemma RerunParamsSent(jobs: Option<seq<string>>, fromFailed: bool)
    ensures var p := RerunParams(jobs, fromFailed);
      && Query.Keys(p) == (if jobs.Some? then ["jobs"] else []) + (if fromFailed then ["fromFailed"] else [])
      && (Query.Lookup(p, "jobs").Some? <==> jobs.Some?)
      && (jobs.Some? ==> Query.Lookup(p, "jobs") == Some(JArr(seq(|jobs.value|, i requires 0 <= i < |jobs.value| => JStr(jobs.value[i])))))
      && Query.Lookup(p, "fromFailed") == Query.OptFlag(fromFailed)
  {
    Query.SetIfGivenNew([], "jobs", JobsJson(jobs));
    Query.SetIfGivenNew(Query.SetIfGiven([], "jobs", JobsJson(jobs)), "fromFailed", Query.OptFlag(fromFailed));
  }

  /** The branch (with the client's default as fallback), then the tag, each only when given. */
  lemma BranchTagSent(branch: string, clientBranch: string, tag: string)
    ensures var p := Query.SetIfGiven(Query.SetIfGiven([], "branch", Query.OptStr(BranchOr(branch, clientBranch))),
                                      "tag", Query.OptStr(tag));
      && Query.Keys(p) == Given("branch", BranchOr(branch, clientBranch)) + Given("tag", tag)
      && Query.Lookup(p, "branch") == Query.OptStr(BranchOr(branch, clientBranch))
      && Query.Lookup(p, "tag") == Query.OptStr(tag)
  {
    Query.SetIfGivenNew([], "branch", Query.OptStr(BranchOr(branch, clientBranch)));
    Query.SetIfGivenNew(Query.SetIfGiven([], "branch", Query.OptStr(BranchOr(branch, clientBranch))), "tag", Query.OptStr(tag));
  }

  /**
   * Triggering a pipeline sends the branch (with the client's default as
   * fallback), the tag and the pipeline parameters, each only when given,
   * in that order.
   */
  lemma TriggerParamsSent(branch: string, clientBranch: string, tag: string, parameters: Option<Query.Params>)
    ensures var p := TriggerParams(branch, clientBranch, tag, parameters);
      && Query.Keys(p) == Given("branch", BranchOr(branch, clientBranch)) + Given("tag", tag)
                          + (if parameters.Some? then ["parameters"] else [])
      && Query.Lookup(p, "branch") == Query.OptStr(BranchOr(branch, clientBranch))
      && Query.Lookup(p, "tag") == Query.OptStr(tag)
      && (parameters.Some? ==> Query.Lookup(p, "parameters") == Some(JObj(parameters.value)))
  {
    BranchTagSent(branch, clientBranch, tag);
    var p2 := Query.SetIfGiven(Query.SetIfGiven([], "branch", Query.OptStr(BranchOr(branch, clientBranch))),
                               "tag", Query.OptStr(tag));
    Query.SetIfGivenNew(p2, "parameters", if parameters.Some? then Some(JObj(parameters.value)) else None);
  }

  /** The page token and the owner's id and slug, each when given, in that order. */
  lemma OwnerParamsSent(ownerId: string, ownerSlug: string, pageToken: string)
    ensures var p := Query.SetIfGiven(Query.SetIfGiven(PageParams(pageToken), "owner-id", Query.OptStr(ownerId)),
                                      "owner-slug", Query.OptStr(ownerSlug));
      && Query.Keys(p) == Given("page-token", pageToken) + Given("owner-id", ownerId) + Given("owner-slug", ownerSlug)
      && Query.Lookup(p, "page-token") == Query.OptStr(pageToken)
      && Query.Lookup(p, "owner-id") == Query.OptStr(ownerId)
      && Query.Lookup(p, "owner-slug") == Query.OptStr(ownerSlug)
  {
    OwnerKeysDistinct();
    PageParamsSent(pageToken);
    Query.SetIfGivenNew(PageParams(pageToken), "owner-id", Query.OptStr(ownerId));
    Query.SetIfGivenNew(Query.SetIfGiven(PageParams(pageToken), "owner-id", Query.OptStr(ownerId)),
                        "owner-slug", Query.OptStr(ownerSlug));
  }

  /**
   * `listContexts` refuses the call unless exactly one of ownerId and
   * ownerSlug is given; an accepted call sends exactly one owner parameter,
   * after the page token and before the owner type.
   */
  lemma ContextsOwner(ownerId: string, ownerSlug: string, ownerType: string, pageToken: string)
    ensures var c := ContextsCall(ownerId, ownerSlug, ownerType, pageToken);
      && (c.Failure? <==> !OneOwner(ownerId, ownerSlug))
      && (c.Failure? ==> c.error == ArgumentError(OwnerMessage))
      && (c.Success? ==>
            var ks := Query.Keys(c.value.params);
            && ks == Given("page-token", pageToken) + Given("owner-id", ownerId)
                     + Given("owner-slug", ownerSlug) + Given("owner-type", ownerType)
            && ("owner-id" in ks <==> "owner-slug" !in ks)
            && Query.Lookup(c.value.params, "owner-id") == Query.OptStr(ownerId)
            && Query.Lookup(c.value.params, "owner-slug") == Query.OptStr(ownerSlug)
            && Query.Lookup(c.value.params, "page-token") == Query.OptStr(pageToken)
            && Query.Lookup(c.value.params, "owner-type") == Query.OptStr(ownerType))
  {
    OwnerKeysDistinct();
    OwnerParamsSent(ownerId, ownerSlug, pageToken);
    var p2 := Query.SetIfGiven(Query.SetIfGiven(PageParams(pageToken), "owner-id", Query.OptStr(ownerId)),
                               "owner-slug", Query.OptStr(ownerSlug));
    Query.SetIfGivenNew(p2, "owner-type", Query.OptStr(ownerType));
  }

  // ---------------------------------------------------------------------
  // The client

  class CircleCI {
    const apiKey: string
    /** The package version, sent as `X-Circle-Client: v<version>`. */
    const version: string
    var projectSlug: Option<Slug>
    /** The default branch; "" when none was given. */
    var branch: string
    var headers: map<string, string>
    var previewWarned: bool
    /** What `console.warn` printed. */
    ghost var warnings: seq<string>
    /** Every request handed to `fetch`, in order. */
    ghost var sent: seq<HttpRequest>

    /** The preview warning has been printed exactly when the flag is set, and only once. */
    ghost predicate Valid()
      reads this
    {
      warnings == (if previewWarned then [PreviewMessage] else [])
    }

    constructor(apiKey: string, version: string, projectSlug: Option<Slug>, branch: string, headers: map<string, string>)
      ensures this.apiKey == apiKey && this.version == version
      ensures this.projectSlug == projectSlug && this.branch == branch && this.headers == headers
      ensures !previewWarned && warnings == [] && sent == []
      ensures Valid()
    {
      this.apiKey := apiKey;
      this.version := version;
      this.projectSlug := projectSlug;
      this.branch := branch;
      this.headers := headers;
      previewWarned := false;
      warnings := [];
      sent := [];
    }

    /**
     * Sends one request and checks the reply. The identity headers, and the
     * Content-Type of a body, are written into the client's own header map.
     */
    method Request(verb: Verb, path: string, successStatus: int, params: Query.Params, reply: Reply)
      returns (r: Result<Json, ClientError>)
      modifies this`headers, this`sent
      ensures headers == SentHeaders(old(headers), apiKey, version, verb, params)
      ensures sent == old(sent) + [HttpRequest(verb, RequestUrl(verb, path, params), headers, RequestBody(verb, params))]
      ensures r == CheckReply(reply, successStatus)
    {
      var fullPath := BaseUrl + "/" + path;
      var body: Option<string> := None;
      headers := headers[CircleToken := apiKey][ClientHeader := "v" + version];
      if |params| > 0 {
        if verb == Get || verb == Delete {
          fullPath := fullPath + "?" + Query.SerializeQuery(params);
        }
        if verb == Post || verb == Put {
          body := Some(Stringify(JObj(params)));
          headers := headers[ContentType := JsonMediaType];
        }
      }
      sent := sent + [HttpRequest(verb, fullPath, headers, body)];
      r := CheckReply(reply, successStatus);
    }

    /** Prints the preview warning the first time only. */
    method PreviewWarn()
      requires Valid()
      modifies this`previewWarned, this`warnings
      ensures Valid() && previewWarned
      ensures warnings == if old(previewWarned) then old(warnings) else old(warnings) + [PreviewMessage]
    {
      if previewWarned {
        return;
      }
      warnings := warnings + [PreviewMessage];
      previewWarned := true;
    }

    /** The request of call c went out with the client's header map and gave r. */
    twostate predicate Sent(c: Call, reply: Reply, new r: Result<Json, ClientError>)
      reads this
    {
      && headers == SentHeaders(old(headers), apiKey, version, c.verb, c.params)
      && sent == old(sent) + [HttpRequest(c.verb, RequestUrl(c.verb, c.path, c.params), headers, RequestBody(c.verb, c.params))]
      && r == CheckReply(reply, c.status)
    }

    /**
     * The effect of a façade call: the preview warning when the method is a
     * preview endpoint, then either the error of its call with nothing sent
     * and no header touched, or its request.
     */
    twostate predicate Performed(preview: bool, call: Result<Call, ClientError>, reply: Reply, new r: Result<Json, ClientError>)
      reads this
    {
      && previewWarned == (old(previewWarned) || preview)
      && warnings == (if preview && !old(previewWarned) then old(warnings) + [PreviewMessage] else old(warnings))
      && (call.Failure? ==> r == Failure(call.error) && headers == old(headers) && sent == old(sent))
      && (call.Success? ==> Sent(call.value, reply, r))
    }

    // The façade. Each method builds its parameters by conditional
    // assignments and then calls Request; a project-scoped method goes
    // through ProjectRequest, since the source evaluates the slug among
    // the request's arguments, after the parameters are built.

    /**
     * Evaluates the project slug, then sends the request on the path the
     * slug completes; a missing slug stops the call before anything is sent.
     */
    method ProjectRequest(verb: Verb, prefix: string, suffix: string, successStatus: int, params: Query.Params, reply: Reply)
      returns (r: Result<Json, ClientError>)
      modifies this`headers, this`sent
      ensures Performed(false, WithSlug(SlugSegment(old(projectSlug)), verb, prefix, suffix, successStatus, params), reply, r)
    {
      var slug :- SlugSegment(projectSlug);  // getProjectSlug
      r := Request(verb, prefix + slug + suffix, successStatus, params, reply);
    }

    method GetProject(reply: Reply) returns (r: Result<Json, ClientError>)
      modifies this`headers, this`sent
      ensures Performed(false, WithSlug(SlugSegment(old(projectSlug)), Get, "project/", "", 200, []), reply, r)
    {
      r := ProjectRequest(Get, "project/", "", 200, [], reply);
    }

    method ListCheckoutKeys(pageToken: string, reply: Reply) returns (r: Result<Json, ClientError>)
      modifies this`headers, this`sent
      ensures Performed(false, WithSlug(SlugSegment(old(projectSlug)), Get, "project/", "/checkout-key", 200, PageParams(pageToken)), reply, r)
    {
      var params: Query.Params := [];
      if pageToken != "" {
        params := Query.Put(params, "page-token", JStr(pageToken));
      }
      assert params == PageParams(pageToken);
      r := ProjectRequest(Get, "project/", "/checkout-key", 200, params, reply);
    }

    method CreateCheckoutKey(keyType: string, reply: Reply) returns (r: Result<Json, ClientError>)
      modifies this`headers, this`sent
      ensures Performed(false, WithSlug(SlugSegment(old(projectSlug)), Post, "project/", "/checkout-key", 201, [Field("type", JStr(keyType))]), reply, r)
    {
      r := ProjectRequest(Post, "project/", "/checkout-key", 201, [Field("type", JStr(keyType))], reply);
    }

    method DeleteCheckoutKey(fingerprint: string, reply: Reply) returns (r: Result<Json, ClientError>)
      modifies this`headers, this`sent
      ensures Performed(false, WithSlug(SlugSegment(old(projectSlug)), Delete, "project/", "/checkout-key/" + fingerprint, 200, []), reply, r)
    {
      r := ProjectRequest(Delete, "project/", "/checkout-key/" + fingerprint, 200, [], reply);
    }

    method GetCheckoutKey(fingerprint: string, reply: Reply) returns (r: Result<Json, ClientError>)
      modifies this`headers, this`sent
      ensures Performed(false, WithSlug(SlugSegment(old(projectSlug)), Get, "project/", "/checkout-key/" + fingerprint, 200, []), reply, r)
    {
      r := ProjectRequest(Get, "project/", "/checkout-key/" + fingerprint, 200, [], reply);
    }

    method ListEnvVars(pageToken: string, reply: Reply) returns (r: Result<Json, ClientError>)
      modifies this`headers, this`sent
      ensures Performed(false, WithSlug(SlugSegment(old(projectSlug)), Get, "project/", "/envvar", 200, PageParams(pageToken)), reply, r)
    {
      var params: Query.Params := [];
      if pageToken != "" {
        params := Query.Put(params, "page-token", JStr(pageToken));
      }
      assert params == PageParams(pageToken);
      r := ProjectRequest(Get, "project/", "/envvar", 200, params, reply);
    }

    method GetEnvVar(name: string, reply: Reply) returns (r: Result<Json, ClientError>)
      modifies this`headers, this`sent
      ensures Performed(false, WithSlug(SlugSegment(old(projectSlug)), Get, "project/", "/envvar/" + Percent.EncodeURIComponent(name), 200, []), reply, r)
    {
      r := ProjectRequest(Get, "project/", "/envvar/" + Percent.EncodeURIComponent(name), 200, [], reply);
    }

    method CreateEnvVar(name: string, value: string, reply: Reply) returns (r: Result<Json, ClientError>)
      modifies this`headers, this`sent
      ensures Performed(false, WithSlug(SlugSegment(old(projectSlug)), Post, "project/", "/envvar", 201, [Field("name", JStr(name)), Field("value", JStr(value))]), reply, r)
    {
      r := ProjectRequest(Post, "project/", "/envvar", 201, [Field("name", JStr(name)), Field("value", JStr(value))], reply);
    }

    method DeleteEnvVar(name: string, reply: Reply) returns (r: Result<Json, ClientError>)
      modifies this`headers, this`sent
      ensures Performed(false, WithSlug(SlugSegment(old(projectSlug)), Delete, "project/", "/envvar/" + Percent.EncodeURIComponent(name), 200, []), reply, r)
    {
      r := ProjectRequest(Delete, "project/", "/envvar/" + Percent.EncodeURIComponent(name), 200, [], reply);
    }

    method GetWorkflow(id: string, reply: Reply) returns (r: Result<Json, ClientError>)
      modifies this`headers, this`sent
      ensures Performed(false, Success(Call(Get, "workflow/" + Percent.EncodeURIComponent(id), 200, [])), reply, r)
    {
      r := Request(Get, "workflow/" + Percent.EncodeURIComponent(id), 200, [], reply);
    }

    method CancelWorkflow(id: string, reply: Reply) returns (r: Result<Json, ClientError>)
      modifies this`headers, this`sent
      ensures Performed(false, Success(Call(Post, "workflow/" + Percent.EncodeURIComponent(id) + "/cancel", 202, [])), reply, r)
    {
      r := Request(Post, "workflow/" + Percent.EncodeURIComponent(id) + "/cancel", 202, [], reply);
    }

    method RerunWorkflow(workflowId: string, jobs: Option<seq<string>>, fromFailed: bool, reply: Reply) returns (r: Result<Json, ClientError>)
      modifies this`headers, this`sent
      ensures Performed(false, Success(Call(Post, "workflow/" + Percent.EncodeURIComponent(workflowId) + "/rerun", 202, RerunParams(jobs, fromFailed))), reply, r)
    {
      var params: Query.Params := [];
      if jobs.Some? {
        params := Query.Put(params, "jobs", JobsJson(jobs).value);
      }
      assert params == Query.SetIfGiven([], "jobs", JobsJson(jobs));
      if fromFailed {
        params := Query.Put(params, "fromFailed", JBool(fromFailed));
      }
      assert params == RerunParams(jobs, fromFailed);
      r := Request(Post, "workflow/" + Percent.EncodeURIComponent(workflowId) + "/rerun", 202, params, reply);
    }

    method ApproveWorkflowJob(workflowId: string, requestId: string, reply: Reply) returns (r: Result<Json, ClientError>)
      modifies this`headers, this`sent
      ensures Performed(false, Success(Call(Post, "workflow/" + Percent.EncodeURIComponent(workflowId) + "/approve/" + requestId, 202, [])), reply, r)
    {
      r := Request(Post, "workflow/" + Percent.EncodeURIComponent(workflowId) + "/approve/" + requestId, 202, [], reply);
    }

    method ListWorkflowJobs(id: string, pageToken: string, reply: Reply) returns (r: Result<Json, ClientError>)
      modifies this`headers, this`sent
      ensures Performed(false, Success(Call(Get, "workflow/" + Percent.EncodeURIComponent(id) + "/job", 200, PageParams(pageToken))), reply, r)
    {
      var params: Query.Params := [];
      if pageToken != "" {
        params := Query.Put(params, "page-token", JStr(pageToken));
      }
      assert params == PageParams(pageToken);
      r := Request(Get, "workflow/" + Percent.EncodeURIComponent(id) + "/job", 200, params, reply);
    }

    method ListWorkflowMetrics(pageToken: string, branch: string, reply: Reply) returns (r: Result<Json, ClientError>)
      modifies this`headers, this`sent
      ensures Performed(false, WithSlug(SlugSegment(old(projectSlug)), Get, "insights/", "/workflows", 200, BranchParams(pageToken, branch, old(this.branch))), reply, r)
    {
      var params: Query.Params := [];
      if pageToken != "" {
        params := Query.Put(params, "page-token", JStr(pageToken));
      }
      assert params == PageParams(pageToken);
      if branch != "" || this.branch != "" {
        params := Query.Put(params, "branch", JStr(if branch != "" then branch else this.branch));
      }
      assert params == BranchParams(pageToken, branch, this.branch);
      r := ProjectRequest(Get, "insights/", "/workflows", 200, params, reply);
    }

    method ListWorkflowJobMetrics(workflowName: string, pageToken: string, branch: string, reply: Reply) returns (r: Result<Json, ClientError>)
      modifies this`headers, this`sent
      ensures Performed(false, WithSlug(SlugSegment(old(projectSlug)), Get, "insights/", "/workflows/" + workflowName + "/jobs", 200, BranchParams(pageToken, branch, old(this.branch))), reply, r)
    {
      var params: Query.Params := [];
      if pageToken != "" {
        params := Query.Put(params, "page-token", JStr(pageToken));
      }
      assert params == PageParams(pageToken);
      if branch != "" || this.branch != "" {
        params := Query.Put(params, "branch", JStr(if branch != "" then branch else this.branch));
      }
      assert params == BranchParams(pageToken, branch, this.branch);
      r := ProjectRequest(Get, "insights/", "/workflows/" + workflowName + "/jobs", 200, params, reply);
    }

    method ListWorkflowRuns(workflowName: string, pageToken: string, branch: string, startDate: string, endDate: string, reply: Reply) returns (r: Result<Json, ClientError>)
      modifies this`headers, this`sent
      ensures Performed(false, WithSlug(SlugSegment(old(projectSlug)), Get, "insights/", "/workflows/" + workflowName, 200, RunsParams(pageToken, branch, old(this.branch), startDate, endDate)), reply, r)
    {
      var params: Query.Params := [];
      if pageToken != "" {
        params := Query.Put(params, "page-token", JStr(pageToken));
      }
      assert params == PageParams(pageToken);
      if branch != "" || this.branch != "" {
        params := Query.Put(params, "branch", JStr(if branch != "" then branch else this.branch));
      }
      assert params == BranchParams(pageToken, branch, this.branch);
      if startDate != "" {
        params := Query.Put(params, "start-date", JStr(startDate));
      }
      assert params == Query.SetIfGiven(BranchParams(pageToken, branch, this.branch), "start-date", Query.OptStr(startDate));
      if endDate != "" {
        params := Query.Put(params, "end-date", JStr(endDate));
      }
      assert params == RunsParams(pageToken, branch, this.branch, startDate, endDate);
      r := ProjectRequest(Get, "insights/", "/workflows/" + workflowName, 200, params, reply);
    }

    method ListWorkflowJobRuns(workflowName: string, jobName: string, pageToken: string, branch: string, startDate: string, endDate: string, reply: Reply) returns (r: Result<Json, ClientError>)
      modifies this`headers, this`sent
      ensures Performed(false, WithSlug(SlugSegment(old(projectSlug)), Get, "insights/", "/workflows/" + workflowName + "/jobs/" + jobName, 200, RunsParams(pageToken, branch, old(this.branch), startDate, endDate)), reply, r)
    {
      var params: Query.Params := [];
      if pageToken != "" {
        params := Query.Put(params, "page-token", JStr(pageToken));
      }
      assert params == PageParams(pageToken);
      if branch != "" || this.branch != "" {
        params := Query.Put(params, "branch", JStr(if branch != "" then branch else this.branch));
      }
      assert params == BranchParams(pageToken, branch, this.branch);
      if startDate != "" {
        params := Query.Put(params, "start-date", JStr(startDate));
      }
      assert params == Query.SetIfGiven(BranchParams(pageToken, branch, this.branch), "start-date", Query.OptStr(startDate));
      if endDate != "" {
        params := Query.Put(params, "end-date", JStr(endDate));
      }
      assert params == RunsParams(pageToken, branch, this.branch, startDate, endDate);
      r := ProjectRequest(Get, "insights/", "/workflows/" + workflowName + "/jobs/" + jobName, 200, params, reply);
    }

    method ListPipelines(orgSlug: string, pageToken: string, onlyMine: bool, reply: Reply) returns (r: Result<Json, ClientError>)
      modifies this`headers, this`sent
      ensures Performed(false, Success(Call(Get, "pipeline", 200, PipelinesParams(orgSlug, pageToken, onlyMine))), reply, r)
    {
      var params: Query.Params := [Field("org-slug", JStr(orgSlug))];
      if pageToken != "" {
        params := Query.Put(params, "page-token", JStr(pageToken));
      }
      assert params == Query.SetIfGiven([Field("org-slug", JStr(orgSlug))], "page-token", Query.OptStr(pageToken));
      if onlyMine {
        params := Query.Put(params, "mine", JBool(onlyMine));
      }
      assert params == PipelinesParams(orgSlug, pageToken, onlyMine);
      r := Request(Get, "pipeline", 200, params, reply);
    }

    method GetPipeline(pipelineId: string, reply: Reply) returns (r: Result<Json, ClientError>)
      modifies this`headers, this`sent
      ensures Performed(false, Success(Call(Get, "pipeline/" + pipelineId, 200, [])), reply, r)
    {
      r := Request(Get, "pipeline/" + pipelineId, 200, [], reply);
    }

    method GetPipelineConfig(pipelineId: string, reply: Reply) returns (r: Result<Json, ClientError>)
      modifies this`headers, this`sent
      ensures Performed(false, Success(Call(Get, "pipeline/" + pipelineId + "/config", 200, [])), reply, r)
    {
      r := Request(Get, "pipeline/" + pipelineId + "/config", 200, [], reply);
    }

    method ListPipelineWorkflows(pipelineId: string, pageToken: string, reply: Reply) returns (r: Result<Json, ClientError>)
      modifies this`headers, this`sent
      ensures Performed(false, Success(Call(Get, "pipeline/" + pipelineId + "/workflow", 200, PageParams(pageToken))), reply, r)
    {
      var params: Query.Params := [];
      if pageToken != "" {
        params := Query.Put(params, "page-token", JStr(pageToken));
      }
      assert params == PageParams(pageToken);
      r := Request(Get, "pipeline/" + pipelineId + "/workflow", 200, params, reply);
    }

    method TriggerProjectPipeline(branch: string, tag: string, parameters: Option<Query.Params>, reply: Reply) returns (r: Result<Json, ClientError>)
      requires parameters.Some? ==> Query.UniqueKeys(parameters.value)
      modifies this`headers, this`sent
      ensures Performed(false, WithSlug(SlugSegment(old(projectSlug)), Post, "project/", "/pipeline", 201, TriggerParams(branch, old(this.branch), tag, parameters)), reply, r)
    {
      var params: Query.Params := [];
      if branch != "" || this.branch != "" {
        params := Query.Put(params, "branch", JStr(if branch != "" then branch else this.branch));
      }
      assert params == Query.SetIfGiven([], "branch", Query.OptStr(BranchOr(branch, this.branch)));
      if tag != "" {
        params := Query.Put(params, "tag", JStr(tag));
      }
      assert params == Query.SetIfGiven(Query.SetIfGiven([], "branch", Query.OptStr(BranchOr(branch, this.branch))),
        "tag", Query.OptStr(tag));
      if parameters.Some? {
        params := Query.Put(params, "parameters", JObj(parameters.value));
      }
      assert params == TriggerParams(branch, this.branch, tag, parameters);
      r := ProjectRequest(Post, "project/", "/pipeline", 201, params, reply);
    }

    method ListProjectPipelines(pageToken: string, branch: string, reply: Reply) returns (r: Result<Json, ClientError>)
      modifies this`headers, this`sent
      ensures Performed(false, WithSlug(SlugSegment(old(projectSlug)), Get, "project/", "/pipeline", 200, BranchParams(pageToken, branch, old(this.branch))), reply, r)
    {
      var params: Query.Params := [];
      if pageToken != "" {
        params := Query.Put(params, "page-token", JStr(pageToken));
      }
      assert params == PageParams(pageToken);
      if branch != "" || this.branch != "" {
        params := Query.Put(params, "branch", JStr(if branch != "" then branch else this.branch));
      }
      assert params == BranchParams(pageToken, branch, this.branch);
      r := ProjectRequest(Get, "project/", "/pipeline", 200, params, reply);
    }

    method ListOwnProjectPipelines(pageToken: string, reply: Reply) returns (r: Result<Json, ClientError>)
      modifies this`headers, this`sent
      ensures Performed(false, WithSlug(SlugSegment(old(projectSlug)), Get, "project/", "/pipeline/mine", 200, PageParams(pageToken)), reply, r)
    {
      var params: Query.Params := [];
      if pageToken != "" {
        params := Query.Put(params, "page-token", JStr(pageToken));
      }
      assert params == PageParams(pageToken);
      r := ProjectRequest(Get, "project/", "/pipeline/mine", 200, params, reply);
    }

    method GetProjectPipeline(pipelineNumber: string, reply: Reply) returns (r: Result<Json, ClientError>)
      modifies this`headers, this`sent
      ensures Performed(false, WithSlug(SlugSegment(old(projectSlug)), Get, "project/", "/pipeline/" + pipelineNumber, 200, []), reply, r)
    {
      r := ProjectRequest(Get, "project/", "/pipeline/" + pipelineNumber, 200, [], reply);
    }

    method GetJob(jobNumber: string, reply: Reply) returns (r: Result<Json, ClientError>)
      requires Valid()
      modifies this`headers, this`sent, this`previewWarned, this`warnings
      ensures Valid()
      ensures Performed(true, WithSlug(SlugSegment(old(projectSlug)), Get, "project/", "/job/" + jobNumber, 200, []), reply, r)
    {
      PreviewWarn();
      r := ProjectRequest(Get, "project/", "/job/" + jobNumber, 200, [], reply);
    }

    method CancelJob(jobNumber: string, reply: Reply) returns (r: Result<Json, ClientError>)
      requires Valid()
      modifies this`headers, this`sent, this`previewWarned, this`warnings
      ensures Valid()
      ensures Performed(true, WithSlug(SlugSegment(old(projectSlug)), Post, "project/", "/job/" + jobNumber + "/cancel", 202, []), reply, r)
    {
      PreviewWarn();
      r := ProjectRequest(Post, "project/", "/job/" + jobNumber + "/cancel", 202, [], reply);
    }

    method ListJobArtifacts(jobNumber: string, pageToken: string, reply: Reply) returns (r: Result<Json, ClientError>)
      requires Valid()
      modifies this`headers, this`sent, this`previewWarned, this`warnings
      ensures Valid()
      ensures Performed(true, WithSlug(SlugSegment(old(projectSlug)), Get, "project/", "/" + jobNumber + "/artifacts", 200, PageParams(pageToken)), reply, r)
    {
      PreviewWarn();
      var params: Query.Params := [];
      if pageToken != "" {
        params := Query.Put(params, "page-token", JStr(pageToken));
      }
      assert params == PageParams(pageToken);
      r := ProjectRequest(Get, "project/", "/" + jobNumber + "/artifacts", 200, params, reply);
    }

    method ListJobTests(jobNumber: string, pageToken: string, reply: Reply) returns (r: Result<Json, ClientError>)
      requires Valid()
      modifies this`headers, this`sent, this`previewWarned, this`warnings
      ensures Valid()
      ensures Performed(true, WithSlug(SlugSegment(old(projectSlug)), Get, "project/", "/" + jobNumber + "/tests", 200, PageParams(pageToken)), reply, r)
    {
      PreviewWarn();
      var params: Query.Params := [];
      if pageToken != "" {
        params := Query.Put(params, "page-token", JStr(pageToken));
      }
      assert params == PageParams(pageToken);
      r := ProjectRequest(Get, "project/", "/" + jobNumber + "/tests", 200, params, reply);
    }

    method GetMe(reply: Reply) returns (r: Result<Json, ClientError>)
      requires Valid()
      modifies this`headers, this`sent, this`previewWarned, this`warnings
      ensures Valid()
      ensures Performed(true, Success(Call(Get, "me", 200, [])), reply, r)
    {
      PreviewWarn();
      r := Request(Get, "me", 200, [], reply);
    }

    method GetCollaborations(reply: Reply) returns (r: Result<Json, ClientError>)
      requires Valid()
      modifies this`headers, this`sent, this`previewWarned, this`warnings
      ensures Valid()
      ensures Performed(true, Success(Call(Get, "me/collaborations", 200, [])), reply, r)
    {
      PreviewWarn();
      r := Request(Get, "me/collaborations", 200, [], reply);
    }

    method GetUser(userId: string, reply: Reply) returns (r: Result<Json, ClientError>)
      requires Valid()
      modifies this`headers, this`sent, this`previewWarned, this`warnings
      ensures Valid()
      ensures Performed(true, Success(Call(Get, "user/" + userId, 200, [])), reply, r)
    {
      PreviewWarn();
      r := Request(Get, "user/" + userId, 200, [], reply);
    }

    method ListContexts(ownerId: string, ownerSlug: string, ownerType: string, pageToken: string, reply: Reply) returns (r: Result<Json, ClientError>)
      requires Valid()
      modifies this`headers, this`sent, this`previewWarned, this`warnings
      ensures Valid()
      ensures Performed(true, ContextsCall(ownerId, ownerSlug, ownerType, pageToken), reply, r)
    {
      PreviewWarn();
      if (ownerId == "" && ownerSlug == "") || (ownerId != "" && ownerSlug != "") {
        return Failure(ArgumentError(OwnerMessage));
      }
      var params: Query.Params := [];
      if pageToken != "" {
        params := Query.Put(params, "page-token", JStr(pageToken));
      }
      assert params == PageParams(pageToken);
      if ownerId != "" {
        params := Query.Put(params, "owner-id", JStr(ownerId));
      }
      assert params == Query.SetIfGiven(PageParams(pageToken), "owner-id", Query.OptStr(ownerId));
      if ownerSlug != "" {
        params := Query.Put(params, "owner-slug", JStr(ownerSlug));
      }
      assert params == Query.SetIfGiven(Query.SetIfGiven(PageParams(pageToken), "owner-id", Query.OptStr(ownerId)),
        "owner-slug", Query.OptStr(ownerSlug));
      if ownerType != "" {
        params := Query.Put(params, "owner-type", JStr(ownerType));
      }
      assert params == ContextsParams(ownerId, ownerSlug, ownerType, pageToken);
      r := Request(Get, "context", 200, params, reply);
    }

    /** The caller's owner object (`id` and, optionally, `type`) is sent as given, in its own property order. */
    method CreateContext(name: string, owner: Query.Params, reply: Reply) returns (r: Result<Json, ClientError>)
      requires Query.UniqueKeys(owner)
      modifies this`headers, this`sent
      ensures Performed(false, Success(Call(Post, "context", 200, [Field("name", JStr(name)), Field("owner", JObj(owner))])), reply, r)
    {
      r := Request(Post, "context", 200, [Field("name", JStr(name)), Field("owner", JObj(owner))], reply);
    }

    method DeleteContext(contextId: string, reply: Reply) returns (r: Result<Json, ClientError>)
      modifies this`headers, this`sent
      ensures Performed(false, Success(Call(Delete, "context/" + contextId, 200, [])), reply, r)
    {
      r := Request(Delete, "context/" + contextId, 200, [], reply);
    }

    method GetContext(contextId: string, reply: Reply) returns (r: Result<Json, ClientError>)
      requires Valid()
      modifies this`headers, this`sent, this`previewWarned, this`warnings
      ensures Valid()
      ensures Performed(true, Success(Call(Get, "context/" + contextId, 200, [])), reply, r)
    {
      PreviewWarn();
      r := Request(Get, "context/" + contextId, 200, [], reply);
    }

    method ListContextEnvVars(contextId: string, pageToken: string, reply: Reply) returns (r: Result<Json, ClientError>)
      modifies this`headers, this`sent
      ensures Performed(false, Success(Call(Get, "context/" + contextId + "/environment-variable", 200, PageParams(pageToken))), reply, r)
    {
      var params: Query.Params := [];
      if pageToken != "" {
        params := Query.Put(params, "page-token", JStr(pageToken));
      }
      assert params == PageParams(pageToken);
      r := Request(Get, "context/" + contextId + "/environment-variable", 200, params, reply);
    }

    method CreateContextEnvVar(contextId: string, name: string, value: string, reply: Reply) returns (r: Result<Json, ClientError>)
      modifies this`headers, this`sent
      ensures Performed(false, Success(Call(Put, "context/" + contextId + "/environment-variable/" + name, 200, [Field("value", JStr(value))])), reply, r)
    {
      r := Request(Put, "context/" + contextId + "/environment-variable/" + name, 200, [Field("value", JStr(value))], reply);
    }

    method DeleteContextEnvVar(contextId: string, name: string, reply: Reply) returns (r: Result<Json, ClientError>)
      modifies this`headers, this`sent
      ensures Performed(false, Success(Call(Delete, "context/" + contextId + "/environment-variable/" + name, 200, [])), reply, r)
    {
      r := Request(Delete, "context/" + contextId + "/environment-variable/" + name, 200, [], reply);
    }
  }
}
