/**
 The `BitBucket` issue-tracker adapter: whether linking test cases to issues
 is available, reporting a failed test execution as a new issue (with the
 fall-back link for filing it by hand), commenting on an issue, and reading
 an issue's details. Every answer of the remote API is an input value: `None`
 stands for a request that raised.
 */
module BitBucketTracker {
  import opened Wrappers
  import opened Text
  import opened Newlines
  import opened BitBucketApi

  /** The adapter's configuration: `bug_system.base_url` and the API credentials. */
  datatype Config = Config(baseUrl: Option<string>, apiUsername: Option<string>,
                           apiPassword: Option<string>)

  /** Python truthiness of an optional string: present and non-empty. */
  predicate Truthy(v: Option<string>) {
    v.Some? && |v.value| > 0
  }

  /** `is_adding_testcase_to_issue_disabled`: disabled unless all three settings are filled in. */
  function AddingTestcaseDisabled(c: Config): (r: bool)
    ensures r <==> (|| c.baseUrl == None || c.baseUrl == Some("")
                    || c.apiUsername == None || c.apiUsername == Some("")
                    || c.apiPassword == None || c.apiPassword == Some(""))
    ensures !r <==> (&& c.baseUrl.Some? && |c.baseUrl.value| > 0
                     && c.apiUsername.Some? && |c.apiUsername.value| > 0
                     && c.apiPassword.Some? && |c.apiPassword.value| > 0)
  {
    assert Truthy(c.baseUrl) <==> !(c.baseUrl == None || c.baseUrl == Some(""));
    assert Truthy(c.apiUsername) <==> !(c.apiUsername == None || c.apiUsername == Some(""));
    assert Truthy(c.apiPassword) <==> !(c.apiPassword == None || c.apiPassword == Some(""));
    !(Truthy(c.baseUrl) && Truthy(c.apiUsername) && Truthy(c.apiPassword))
  }

  /**
   `_rpc_connection`: the REST client for this configuration, built from the
   base URL and the API credentials.
   */
  function Connect(c: Config): (r: Result<Client, Error>)
    ensures r.Success? <==> c.baseUrl.Some? && Count(ReplaceAll(c.baseUrl.value, Scheme, ""), '/') >= 2
    ensures r.Success? ==> r.value.endpoint == EndpointUrl(ApiVersion, c.baseUrl).value
    ensures r.Success? ==> r.value.auth == Credentials(c.apiUsername, c.apiPassword)
    ensures r.Failure? ==> r.error == (if c.baseUrl.None? then AttributeError else IndexError)
  {
    NewClient(c.baseUrl, c.apiUsername, c.apiPassword)
  }

  /** A key of a JSON object in a reply: absent, `null`, or holding a value. */
  datatype Field<+T> = Missing | Null | Present(value: T)

  /** The `content` object of an issue as the API returns it. */
  datatype Content = Content(raw: Field<string>)

  /** The fields of an issue reply that the adapter reads. */
  datatype IssueRecord = IssueRecord(id: Field<string>, content: Field<Content>,
                                     state: Field<string>, title: Field<string>)

  /** Subscripting a reply, `obj[key]`: `KeyError` when absent, `None` for `null`. */
  function Lookup(f: Field<string>): (r: Result<Option<string>, Error>)
    ensures r.Failure? <==> f.Missing?
    ensures r.Failure? ==> r.error == KeyError
    ensures r.Success? ==> Shows(r.value, f)
  {
    match f
    case Missing => Failure(KeyError)
    case Null => Success(None)
    case Present(v) => Success(Some(v))
  }

  /** `v` is how Python holds the value of field `f`: `None` for `null`. */
  predicate Shows(v: Option<string>, f: Field<string>) {
    match f
    case Missing => false
    case Null => v == None
    case Present(x) => v == Some(x)
  }

  /** How an f-string renders a field's value: `null` becomes `None`. */
  function Rendered(f: Field<string>): string
    requires !f.Missing?
  {
    if f.Null? then "None" else f.value
  }

  const TitlePrefix: string := "Failed test: "

  /** The body `_report_issue` sends to create the issue. */
  function ReportPayload(summary: string, report: string): (p: Payload)
    ensures p.NewIssue? && p.kind == "bug" && p.priority == "major"
    ensures TitlePrefix <= p.title && p.title[|TitlePrefix|..] == summary
    ensures |p.raw| == |report| + Count(report, '\n')
    ensures ReplaceAll(p.raw, "\r\n", "\n") == report
  {
    CrlfRoundTrip(report);
    NewIssue(TitlePrefix + summary, "bug", "major", ToCrlf(report))
  }

  /** The `create_issue` request `_report_issue` makes, or the error raised building the client. */
  function ReportRequest(c: Config, summary: string, report: string): (r: Result<Request, Error>)
    ensures r.Success? <==> Connect(c).Success?
    ensures Connect(c).Failure? ==> r == Failure(Connect(c).error)
    ensures r.Success? ==> r.value.verb == Post
                           && r.value.url == Connect(c).value.endpoint + "/issues"
                           && r.value.body == Some(ReportPayload(summary, report))
                           && r.value.decodesJson
  {
    match Connect(c)
    case Failure(e) => Failure(e)
    case Success(client) => Success(RequestFor(client, CreateIssue(ReportPayload(summary, report))))
  }

  /** The display URL of a created issue: no slash normalisation. */
  function IssueDisplayUrl(baseUrl: string, id: string): (r: string)
    ensures baseUrl + "/issues/" <= r
    ensures r[|baseUrl| + |"/issues/"|..] == id
  {
    baseUrl + "/issues/" + id
  }

  /** The URL where an issue can be filed by hand: the base URL with one slash, then `issues/new`. */
  function FallbackUrl(baseUrl: string): (r: string)
    ensures baseUrl <= r
    ensures EndsWith(r, "/issues/new")
    ensures |r| == |baseUrl| + |"issues/new"| + (if EndsWith(baseUrl, "/") then 0 else 1)
  {
    var u := if EndsWith(baseUrl, "/") then baseUrl else baseUrl + "/";
    assert |u| == |baseUrl| + (if EndsWith(baseUrl, "/") then 0 else 1);
    assert EndsWith(u + "issues/new", "/issues/new") by {
      assert (u + "issues/new")[|u| - 1..] == "/issues/new";
    }
    u + "issues/new"
  }

  /** A link record the adapter asks the host to create for the execution. */
  datatype LinkRequest = LinkRequest(url: string, isDefect: bool)

  /** What `_report_issue` returns, `(issue or None, url)`, with the link record it requested. */
  datatype ReportResult = ReportResult(issue: Option<IssueRecord>, url: string, link: Option<LinkRequest>)

  /**
   `_report_issue` given the reply to `ReportRequest`. Any failure inside the
   guarded block (client construction, the request, a reply without `id`)
   gives the fall-back URL; only a missing base URL escapes, because the
   fall-back itself then fails. An `id` of `null` is rendered as `None`.
   */
  function ReportIssue(c: Config, summary: string, report: string,
                       reply: Option<IssueRecord>): (r: Result<ReportResult, Error>)
    ensures r.Failure? <==> c.baseUrl.None?
    ensures r.Failure? ==> r.error == AttributeError
    ensures r.Success? ==> (r.value.issue.Some? <==> r.value.link.Some?)
    ensures r.Success? && r.value.issue.Some? <==>
              Connect(c).Success? && reply.Some? && !reply.value.id.Missing?
    ensures r.Success? && r.value.issue.Some? ==>
              && r.value.issue == reply
              && r.value.url == IssueDisplayUrl(c.baseUrl.value, Rendered(reply.value.id))
              && r.value.link == Some(LinkRequest(r.value.url, true))
    ensures r.Success? && r.value.issue.None? ==>
              r.value.url == FallbackUrl(c.baseUrl.value) && r.value.link.None?
  {
    var created :=
      if Connect(c).Success? && reply.Some? && !reply.value.id.Missing? then Some(reply.value) else None;
    match created
    case Some(issue) =>
      var url := IssueDisplayUrl(c.baseUrl.value, Rendered(issue.id));
      Success(ReportResult(Some(issue), url, Some(LinkRequest(url, true))))
    case None =>
      if c.baseUrl.None? then Failure(AttributeError)
      else Success(ReportResult(None, FallbackUrl(c.baseUrl.value), None))
  }

  /**
   `post_comment`: the comment request, or the error it raises. `delivered`
   says that sending the request did not raise; an error reply whose body is
   JSON counts as delivered, since no status check is made.
   */
  function PostComment(c: Config, bugId: string, text: string, delivered: bool): (r: Result<Request, Error>)
    ensures r.Success? <==> Connect(c).Success? && delivered
    ensures Connect(c).Failure? ==> r == Failure(Connect(c).error)
    ensures r.Failure? && Connect(c).Success? ==> r.error == RequestFailed
    ensures r.Success? ==> && r.value.verb == Post
                           && r.value.url == Connect(c).value.endpoint + "/issues/" + bugId + "/comments/"
                           && r.value.body.Some? && r.value.body.value.NewComment?
    ensures r.Success? ==> ReplaceAll(r.value.body.value.raw, "\n\n", "\n") == text
    ensures r.Success? ==> |r.value.body.value.raw| == |text| + Count(text, '\n')
  {
    match Connect(c)
    case Failure(e) => Failure(e)
    case Success(client) =>
      if !delivered then Failure(RequestFailed)
      else
        DoubledRoundTrip(text);
        Success(RequestFor(client, AddComment(bugId, NewComment(DoubleNewlines(text)))))
  }

  /** Every key `details` reads is there, and `content` is an object. */
  predicate Complete(issue: IssueRecord) {
    && !issue.id.Missing?
    && issue.content.Present? && !issue.content.value.raw.Missing?
    && !issue.state.Missing?
    && !issue.title.Missing?
  }

  /** `issue["content"]["raw"]`: subscripting a `null` content is a `TypeError`. */
  function Description(content: Field<Content>): (r: Result<Option<string>, Error>)
    ensures r.Success? <==> content.Present? && !content.value.raw.Missing?
    ensures r.Failure? ==> (r.error == TypeError <==> content.Null?)
    ensures r.Failure? ==> r.error == TypeError || r.error == KeyError
    ensures r.Success? ==> Shows(r.value, content.value.raw)
  {
    match content
    case Missing => Failure(KeyError)
    case Null => Failure(TypeError)
    case Present(obj) => Lookup(obj.raw)
  }

  /** The `get_issue` request `details` makes for the id taken from the URL. */
  function DetailsRequest(c: Config, bugId: string): (r: Result<Request, Error>)
    ensures r.Success? <==> Connect(c).Success?
    ensures Connect(c).Failure? ==> r == Failure(Connect(c).error)
    ensures r.Success? ==> r.value.verb == Get && r.value.body.None?
                           && r.value.url == Connect(c).value.endpoint + "/issues/" + bugId
  {
    match Connect(c)
    case Failure(e) => Failure(e)
    case Success(client) => Success(RequestFor(client, GetIssue(bugId)))
  }

  /**
   `details`: reshape the reply to `DetailsRequest` into the five fields the
   UI shows; `bugId` is what the shared URL parser extracted from `url`. The
   dictionary's values are read in order: id, content's raw, state, title, so
   the first unreadable one decides the error. A `null` value shows as `None`.
   */
  function Details(c: Config, url: string, bugId: string,
                   reply: Option<IssueRecord>): (r: Result<map<string, Option<string>>, Error>)
    ensures r.Success? <==> Connect(c).Success? && reply.Some? && Complete(reply.value)
    ensures Connect(c).Failure? ==> r == Failure(Connect(c).error)
    ensures r.Failure? && Connect(c).Success? && reply.None? ==> r.error == RequestFailed
    ensures r.Failure? && Connect(c).Success? && reply.Some? ==>
              (r.error == TypeError <==> !reply.value.id.Missing? && reply.value.content.Null?)
              && (r.error == TypeError || r.error == KeyError)
    ensures r.Success? ==> r.value.Keys == {"id", "description", "status", "title", "url"}
    ensures r.Success? ==> && Shows(r.value["id"], reply.value.id)
                           && Shows(r.value["description"], reply.value.content.value.raw)
                           && Shows(r.value["status"], reply.value.state)
                           && Shows(r.value["title"], reply.value.title)
                           && r.value["url"] == Some(url)
  {
    match Connect(c)
    case Failure(e) => Failure(e)
    case Success(_) =>
      match reply
      case None => Failure(RequestFailed)
      case Some(issue) =>
        match Lookup(issue.id)
        case Failure(e) => Failure(e)
        case Success(id) =>
          match Description(issue.content)
          case Failure(e) => Failure(e)
          case Success(description) =>
            match Lookup(issue.state)
            case Failure(e) => Failure(e)
            case Success(status) =>
              match Lookup(issue.title)
              case Failure(e) => Failure(e)
              case Success(title) =>
                Success(map["id" := id, "description" := description, "status" := status,
                            "title" := title, "url" := Some(url)])
  }

  /** The field a value read from a reply came from. */
  function FieldOf(v: Option<string>): (f: Field<string>)
    ensures Shows(v, f)
  {
    if v.None? then Null else Present(v.value)
  }

  /** Reads an issue record back from the details view. */
  function RecordOfDetails(view: map<string, Option<string>>): IssueRecord
    requires "id" in view && "description" in view && "status" in view && "title" in view
  {
    IssueRecord(FieldOf(view["id"]), Present(Content(FieldOf(view["description"]))),
                FieldOf(view["status"]), FieldOf(view["title"]))
  }

  /** The details view drops nothing of the fields it reads: the reply can be rebuilt from it. */
  lemma DetailsKeepsRecord(c: Config, url: string, bugId: string, reply: Option<IssueRecord>)
    requires Details(c, url, bugId, reply).Success?
    ensures RecordOfDetails(Details(c, url, bugId, reply).value) == reply.value
  {
  }

  /** Adding the missing trailing slash to the base URL beforehand changes nothing. */
  lemma {:induction false} FallbackUrlSlashInsensitive(baseUrl: string)
    requires !EndsWith(baseUrl, "/")
    ensures FallbackUrl(baseUrl + "/") == FallbackUrl(baseUrl)
  {
    assert EndsWith(baseUrl + "/", "/");
  }

  /** The display URL keeps a trailing slash of the base URL, giving a doubled slash. */
  lemma DisplayUrlDoublesSlash(baseUrl: string, id: string)
    requires EndsWith(baseUrl, "/")
    ensures IssueDisplayUrl(baseUrl, id) == baseUrl[..|baseUrl| - 1] + "//issues/" + id
  {
    assert baseUrl == baseUrl[..|baseUrl| - 1] + "/";
  }

  /** A created issue is returned with `{base_url}/issues/{id}` and one defect link for that URL. */
  lemma ReportSuccess(c: Config, summary: string, report: string, issue: IssueRecord, id: string)
    requires Connect(c).Success? && issue.id == Present(id)
    ensures c.baseUrl.Some?
    ensures ReportIssue(c, summary, report, Some(issue))
         == Success(ReportResult(Some(issue), c.baseUrl.value + "/issues/" + id,
                                 Some(LinkRequest(c.baseUrl.value + "/issues/" + id, true))))
  {
  }

  /** A failed request with a base URL lacking the trailing slash falls back to `{base_url}/issues/new`. */
  lemma FallbackOnFailedRequest(c: Config, summary: string, report: string)
    requires c.baseUrl.Some? && !EndsWith(c.baseUrl.value, "/")
    ensures ReportIssue(c, summary, report, None)
         == Success(ReportResult(None, c.baseUrl.value + "/issues/new", None))
  {
    assert c.baseUrl.value + "/" + "issues/new" == c.baseUrl.value + "/issues/new";
  }

  /** An issue reply whose `id` is `null` is still accepted, at `{base_url}/issues/None`. */
  lemma ReportNullId(c: Config, summary: string, report: string, issue: IssueRecord)
    requires Connect(c).Success? && issue.id == Null
    ensures c.baseUrl.Some?
    ensures ReportIssue(c, summary, report, Some(issue))
         == Success(ReportResult(Some(issue), c.baseUrl.value + "/issues/None",
                                 Some(LinkRequest(c.baseUrl.value + "/issues/None", true))))
  {
    assert c.baseUrl.value + "/issues/" + "None" == c.baseUrl.value + "/issues/None";
  }
}
