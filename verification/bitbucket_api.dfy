/**
 The Bitbucket Cloud v2 REST client (`BitBucketAPI`): how the API endpoint is
 derived from the human repository URL, and which request each of the six
 issue operations sends. The network itself is not modelled: a request is a
 value, and what the server answers is an input of the adapter functions.
 */
module BitBucketApi {
  import opened Wrappers
  import opened Text

  /** The exception kinds that can leave the adapter. */
  datatype Error =
    | AttributeError  // the configured base URL is `None`
    | IndexError      // the base URL has fewer than three path segments
    | KeyError        // a reply lacks a field the adapter reads
    | TypeError       // a reply's `content` is `null`, so it has no `raw`
    | RequestFailed   // transport failure, or a reply that is not JSON

  const ApiVersion: string := "2.0"
  const Scheme: string := "https://"
  const ApiHost: string := "https://api.bitbucket.org"

  /** The `/`-separated pieces of `url` once every `https://` in it is deleted. */
  function Segments(url: string): seq<string> {
    Split(ReplaceAll(url, Scheme, ""), '/')
  }

  /**
   `_construct_endpoint_url`: pieces 1 and 2 of the URL are the workspace and
   the repository; piece 0 (the host) and anything after piece 2 are ignored.
   Fewer than three pieces is the `IndexError` of the unchecked indexing.
   */
  function EndpointUrl(apiVersion: string, url: Option<string>): (r: Result<string, Error>)
    ensures r.Success? <==> url.Some? && Count(ReplaceAll(url.value, Scheme, ""), '/') >= 2
    ensures r.Failure? ==> (r.error == AttributeError <==> url.None?)
    ensures r.Failure? ==> r.error == AttributeError || r.error == IndexError
    ensures r.Success? ==> ApiHost + "/" + apiVersion + "/repositories/" <= r.value
    ensures r.Success? ==> |Segments(url.value)| >= 3
    ensures r.Success? ==> r.value == ApiHost + "/" + apiVersion + "/repositories/"
                                      + Segments(url.value)[1] + "/" + Segments(url.value)[2]
  {
    if url.None? then Failure(AttributeError)
    else
      SplitCount(ReplaceAll(url.value, Scheme, ""), '/');
      var segments := Segments(url.value);
      if |segments| < 3 then Failure(IndexError)
      else Success(ApiHost + "/" + apiVersion + "/repositories/" + segments[1] + "/" + segments[2])
  }

  /** What may follow the repository name: nothing, or a further path. */
  predicate RepositoryTail(tail: string) {
    tail == "" || tail[0] == '/'
  }

  /** A single path piece: no separator. */
  predicate IsPathPiece(s: string) {
    '/' !in s
  }

  /** The URL `https://{host}/{workspace}/{repository}{tail}`, without its scheme. */
  function RepositoryRest(host: string, workspace: string, repository: string, tail: string): string {
    host + "/" + workspace + "/" + repository + tail
  }

  /** Deleting `https://` leaves alone a remainder in which it does not occur again. */
  lemma SchemeStripped(rest: string)
    requires !Occurs(Scheme, rest)
    ensures ReplaceAll(Scheme + rest, Scheme, "") == rest
  {
    var url := Scheme + rest;
    assert Scheme <= url;
    assert url[|Scheme|..] == rest;
    ReplaceAllNoMatch(rest, Scheme, "");
  }

  /** The pieces of `repository[/...]`: the repository comes first. */
  lemma RepositoryFirst(repository: string, tail: string)
    requires '/' !in repository
    requires RepositoryTail(tail)
    ensures Split(repository + tail, '/')[0] == repository
  {
    if tail == "" {
      assert repository + tail == repository;
      SplitNoSeparator(repository, '/');
    } else {
      assert tail == ['/'] + tail[1..];
      assert repository + tail == repository + ['/'] + tail[1..];
      SplitAtSeparator(repository, '/', tail[1..]);
    }
  }

  /** The pieces of `host/workspace/repository[/...]`. */
  lemma RepositoryPieces(host: string, workspace: string, repository: string, tail: string)
    requires IsPathPiece(host) && IsPathPiece(workspace) && IsPathPiece(repository)
    requires RepositoryTail(tail)
    ensures var pieces := Split(RepositoryRest(host, workspace, repository, tail), '/');
      |pieces| >= 3 && pieces[0] == host && pieces[1] == workspace && pieces[2] == repository
  {
    var t1 := repository + tail;
    var t2 := workspace + ['/'] + t1;
    var t3 := host + ['/'] + t2;
    RepositoryFirst(repository, tail);
    SplitAtSeparator(workspace, '/', t1);
    SplitAtSeparator(host, '/', t2);
    assert Split(t3, '/') == [host] + ([workspace] + Split(t1, '/'));
    assert RepositoryRest(host, workspace, repository, tail) == t3;
  }

  /**
   For `https://{host}/{workspace}/{repository}[/...]` the endpoint is the v2
   repositories resource of that workspace and repository, whatever the
   trailing path is, provided `https://` does not occur again after the scheme.
   */
  lemma EndpointOfRepositoryUrl(apiVersion: string, host: string, workspace: string,
                                repository: string, tail: string)
    requires IsPathPiece(host) && IsPathPiece(workspace) && IsPathPiece(repository)
    requires RepositoryTail(tail)
    requires !Occurs(Scheme, RepositoryRest(host, workspace, repository, tail))
    ensures EndpointUrl(apiVersion, Some(Scheme + RepositoryRest(host, workspace, repository, tail)))
         == Success(ApiHost + "/" + apiVersion + "/repositories/" + workspace + "/" + repository)
  {
    var url := Scheme + RepositoryRest(host, workspace, repository, tail);
    SegmentsOfRepositoryUrl(url, host, workspace, repository, tail);
  }

  /** The pieces of a repository URL are its host, workspace and repository, then the rest. */
  lemma SegmentsOfRepositoryUrl(url: string, host: string, workspace: string,
                                repository: string, tail: string)
    requires IsPathPiece(host) && IsPathPiece(workspace) && IsPathPiece(repository)
    requires RepositoryTail(tail)
    requires !Occurs(Scheme, RepositoryRest(host, workspace, repository, tail))
    requires url == Scheme + RepositoryRest(host, workspace, repository, tail)
    ensures |Segments(url)| >= 3
    ensures Segments(url)[0] == host && Segments(url)[1] == workspace && Segments(url)[2] == repository
  {
    SchemeStripped(RepositoryRest(host, workspace, repository, tail));
    RepositoryPieces(host, workspace, repository, tail);
  }

  /** A concrete repository URL and its endpoint: the workspace and repository carry over. */
  lemma EndpointExample(url: string, endpoint: string)
    requires url == "https://bitbucket.org/ws1/repo1"
    requires endpoint == "https://api.bitbucket.org/2.0/repositories/ws1/repo1"
    ensures EndpointUrl(ApiVersion, Some(url)) == Success(endpoint)
  {
    var host, workspace, repository := "bitbucket.org", "ws1", "repo1";
    ExampleSpelling(url, host, workspace, repository, "");
    AbsentCharNoMatch(RepositoryRest(host, workspace, repository, ""), Scheme, 0);
    ExampleEndpointSpelling(endpoint, workspace, repository);
    EndpointOfRepositoryUrl(ApiVersion, host, workspace, repository, "");
  }

  /** A host with a port and a path below the repository: neither disturbs the derivation. */
  lemma EndpointWithPortExample(url: string, endpoint: string)
    requires url == "https://bitbucket.org:443/ws1/repo1/src"
    requires endpoint == "https://api.bitbucket.org/2.0/repositories/ws1/repo1"
    ensures EndpointUrl(ApiVersion, Some(url)) == Success(endpoint)
  {
    var host, workspace, repository, tail := "bitbucket.org:443", "ws1", "repo1", "/src";
    ExampleSpelling(url, host, workspace, repository, tail);
    AbsentCharNoMatch(RepositoryRest(host, workspace, repository, tail), Scheme, 0);
    ExampleEndpointSpelling(endpoint, workspace, repository);
    EndpointOfRepositoryUrl(ApiVersion, host, workspace, repository, tail);
  }

  lemma ExampleSpelling(url: string, host: string, workspace: string, repository: string, tail: string)
    requires (host == "bitbucket.org" && tail == "") || (host == "bitbucket.org:443" && tail == "/src")
    requires workspace == "ws1" && repository == "repo1"
    requires url == "https://" + host + "/ws1/repo1" + tail
    ensures IsPathPiece(host) && IsPathPiece(workspace) && IsPathPiece(repository)
    ensures RepositoryTail(tail)
    ensures Scheme[0] !in RepositoryRest(host, workspace, repository, tail)
    ensures url == Scheme + RepositoryRest(host, workspace, repository, tail)
  {
  }

  lemma ExampleEndpointSpelling(endpoint: string, workspace: string, repository: string)
    requires workspace == "ws1" && repository == "repo1"
    requires endpoint == "https://api.bitbucket.org/2.0/repositories/ws1/repo1"
    ensures endpoint == ApiHost + "/" + ApiVersion + "/repositories/" + workspace + "/" + repository
  {
  }

  /** A URL naming a workspace but no repository is rejected. */
  lemma EndpointWithoutRepository(host: string, workspace: string)
    requires IsPathPiece(host) && IsPathPiece(workspace)
    requires !Occurs(Scheme, host + "/" + workspace)
    ensures EndpointUrl(ApiVersion, Some(Scheme + host + "/" + workspace)) == Failure(IndexError)
  {
    var rest := host + "/" + workspace;
    SchemeStripped(rest);
    SplitAtSeparator(host, '/', workspace);
    SplitNoSeparator(workspace, '/');
    assert Scheme + host + "/" + workspace == Scheme + rest;
  }

  /** The credentials attached (as HTTP Basic authentication) to every request. */
  datatype Credentials = Credentials(username: Option<string>, password: Option<string>)

  /** A configured client: the derived endpoint plus the credentials. */
  datatype Client = Client(endpoint: string, auth: Credentials)

  /** `BitBucketAPI.__init__`: derive the endpoint for API version 2.0. */
  function NewClient(baseUrl: Option<string>, username: Option<string>,
                     password: Option<string>): (r: Result<Client, Error>)
    ensures r.Success? <==> EndpointUrl(ApiVersion, baseUrl).Success?
    ensures r.Success? ==> r.value.auth == Credentials(username, password)
    ensures r.Success? ==> r.value.endpoint == EndpointUrl(ApiVersion, baseUrl).value
    ensures r.Failure? ==> r.error == EndpointUrl(ApiVersion, baseUrl).error
  {
    match EndpointUrl(ApiVersion, baseUrl)
    case Success(endpoint) => Success(Client(endpoint, Credentials(username, password)))
    case Failure(e) => Failure(e)
  }

  /** JSON bodies the adapter sends; `Changes` stands for the free-form body of `update_issue`. */
  datatype Payload =
    | NewIssue(title: string, kind: string, priority: string, raw: string)
    | NewComment(raw: string)
    | Changes(fields: map<string, string>)

  /** The six operations of the client. */
  datatype Operation =
    | CreateIssue(data: Payload)
    | GetIssue(issueId: string)
    | UpdateIssue(issueId: string, data: Payload)
    | AddComment(issueId: string, comment: Payload)
    | GetComments(issueId: string)
    | DeleteComment(issueId: string, commentId: string)

  datatype Method = Get | Post | Delete

  /**
   An outgoing HTTP request; `decodesJson` says whether the reply is decoded
   as JSON (every method except DELETE) or handed back raw.
   */
  datatype Request = Request(verb: Method, url: string, body: Option<Payload>,
                             auth: Credentials, decodesJson: bool)

  const CommentsSorted: string := "comments?sort=-updated_on"

  /** The part of each operation's URL below `{endpoint}/issues`. */
  function IssuePath(op: Operation): string {
    match op
    case CreateIssue(_) => ""
    case GetIssue(id) => "/" + id
    case UpdateIssue(id, _) => "/" + id + "/changes"
    case AddComment(id, _) => "/" + id + "/comments/"
    case GetComments(id) => "/" + id + "/" + CommentsSorted
    case DeleteComment(id, cid) => "/" + id + "/comments/" + cid
  }

  /** The URL each operation addresses, under the endpoint. */
  function OperationUrl(endpoint: string, op: Operation): string {
    endpoint + "/issues" + IssuePath(op)
  }

  /** The issue an operation acts on; creation names none. */
  function IssueOf(op: Operation): Option<string> {
    if op.CreateIssue? then None else Some(op.issueId)
  }

  function VerbOf(op: Operation): Method {
    match op
    case GetIssue(_) => Get
    case GetComments(_) => Get
    case DeleteComment(_, _) => Delete
    case _ => Post
  }

  function BodyOf(op: Operation): Option<Payload> {
    match op
    case CreateIssue(data) => Some(data)
    case UpdateIssue(_, data) => Some(data)
    case AddComment(_, comment) => Some(comment)
    case _ => None
  }

  /** The request `BitBucketAPI` sends for `op`, through `_request`. */
  function RequestFor(client: Client, op: Operation): (r: Request)
    ensures client.endpoint + "/issues" <= r.url
    ensures r.auth == client.auth
    ensures r.body.Some? <==> r.verb == Post
    ensures r.decodesJson <==> !op.DeleteComment?
    ensures r.verb == Get <==> op.GetIssue? || op.GetComments?
  {
    Request(VerbOf(op), OperationUrl(client.endpoint, op), BodyOf(op), client.auth, VerbOf(op) != Delete)
  }

  /** Recovers the operation from the path below `/issues`, the verb and the body. */
  function ParseIssuePath(verb: Method, body: Option<Payload>, t: string): Option<Operation> {
    if t == "" then
      (if verb == Post && body.Some? then Some(CreateIssue(body.value)) else None)
    else if t[0] != '/' then None
    else
      var parts := Split(t[1..], '/');
      match verb
      case Get =>
        if |parts| == 1 then Some(GetIssue(parts[0]))
        else if |parts| == 2 && parts[1] == CommentsSorted then Some(GetComments(parts[0]))
        else None
      case Post =>
        if body.None? then None
        else if |parts| == 2 && parts[1] == "changes" then Some(UpdateIssue(parts[0], body.value))
        else if |parts| == 3 && parts[1] == "comments" && parts[2] == "" then
          Some(AddComment(parts[0], body.value))
        else None
      case Delete =>
        if |parts| == 3 && parts[1] == "comments" then Some(DeleteComment(parts[0], parts[2]))
        else None
  }

  /**
   Recovers the operation from a request under `endpoint`; the inverse of
   `RequestFor`, used to show that distinct operations whose ids contain no `/`
   never share a request.
   */
  function ParseRequest(endpoint: string, req: Request): Option<Operation> {
    var issues := endpoint + "/issues";
    if !(issues <= req.url) then None
    else ParseIssuePath(req.verb, req.body, req.url[|issues|..])
  }

  /** Issue and comment ids are single path pieces. */
  predicate WellFormedIds(op: Operation) {
    (IssueOf(op).Some? ==> '/' !in IssueOf(op).value)
    && (op.DeleteComment? ==> '/' !in op.commentId)
  }

  /** The pieces below `/issues/` of each operation's path. */
  function PathPieces(op: Operation): seq<string>
    requires !op.CreateIssue?
  {
    match op
    case GetIssue(id) => [id]
    case UpdateIssue(id, _) => [id, "changes"]
    case AddComment(id, _) => [id, "comments", ""]
    case GetComments(id) => [id, CommentsSorted]
    case DeleteComment(id, cid) => [id, "comments", cid]
  }

  lemma IssuePathPieces(op: Operation)
    requires !op.CreateIssue?
    ensures IssuePath(op) == "/" + Join(PathPieces(op), '/')
  {
    match op
    case GetIssue(id) =>
    case UpdateIssue(id, _) => ChangesPathPieces(id);
    case AddComment(id, _) => CommentPathPieces(id, "");
    case GetComments(id) => SortedCommentsPathPieces(id);
    case DeleteComment(id, cid) => CommentPathPieces(id, cid);
  }

  lemma ChangesPathPieces(id: string)
    ensures "/" + id + "/changes" == "/" + Join([id, "changes"], '/')
  {
    JoinTwo(id, "changes", '/');
  }

  lemma SortedCommentsPathPieces(id: string)
    ensures "/" + id + "/" + CommentsSorted == "/" + Join([id, CommentsSorted], '/')
  {
    JoinTwo(id, CommentsSorted, '/');
  }

  lemma CommentPathPieces(id: string, cid: string)
    ensures "/" + id + "/comments/" + cid == "/" + Join([id, "comments", cid], '/')
  {
    JoinThree(id, "comments", cid, '/');
  }

  lemma ParseIssuePathOf(op: Operation)
    requires WellFormedIds(op)
    ensures ParseIssuePath(VerbOf(op), BodyOf(op), IssuePath(op)) == Some(op)
  {
    if !op.CreateIssue? {
      var t := IssuePath(op);
      IssuePathPieces(op);
      assert t[1..] == Join(PathPieces(op), '/');
      assert forall i :: 0 <= i < |PathPieces(op)| ==> '/' !in PathPieces(op)[i];
      SplitJoin(PathPieces(op), '/');
    }
  }

  /** Every operation's request can be parsed back into that operation. */
  lemma ParseRequestFor(client: Client, op: Operation)
    requires WellFormedIds(op)
    ensures ParseRequest(client.endpoint, RequestFor(client, op)) == Some(op)
  {
    var issues := client.endpoint + "/issues";
    var req := RequestFor(client, op);
    assert req.url == issues + IssuePath(op);
    assert req.url[|issues|..] == IssuePath(op);
    ParseIssuePathOf(op);
  }

  /** Two operations with well-formed ids that send the same request are the same operation. */
  lemma RequestForInjective(client: Client, op1: Operation, op2: Operation)
    requires WellFormedIds(op1) && WellFormedIds(op2)
    requires RequestFor(client, op1) == RequestFor(client, op2)
    ensures op1 == op2
  {
    ParseRequestFor(client, op1);
    ParseRequestFor(client, op2);
  }

  /**
   The condition on ids is needed: an issue id holding `/` makes `get_issue`
   send exactly the request of `get_comments`, which is how it is read back.
   */
  lemma SlashInIdCollides(client: Client, id: string, issueId: string)
    requires '/' !in id
    requires issueId == id + "/" + CommentsSorted
    ensures RequestFor(client, GetIssue(issueId)) == RequestFor(client, GetComments(id))
    ensures ParseRequest(client.endpoint, RequestFor(client, GetIssue(issueId))) == Some(GetComments(id))
  {
    assert IssuePath(GetIssue(issueId)) == IssuePath(GetComments(id));
    assert RequestFor(client, GetIssue(issueId)) == RequestFor(client, GetComments(id));
    ParseRequestFor(client, GetComments(id));
  }
}
