# Bitbucket issue-tracker adapter, modelled in Dafny

This project models the Bitbucket Cloud integration of the Kiwi TCMS test-case
management system (`tcms/issuetracker/bitbucket.py`). The file holds two pieces:

- `BitBucketAPI` is a small REST client. It derives the v2 API endpoint
  `https://api.bitbucket.org/2.0/repositories/{workspace}/{repository}` from the
  human repository URL `https://bitbucket.org/{workspace}/{repository}`. It then
  sends six issue operations under that endpoint.
- `BitBucket` is the issue-tracker adapter. It decides whether linking test cases
  to issues is available. It reports a failed test execution as a new issue,
  falling back to a "file it by hand" link when anything goes wrong. It posts
  comments and reshapes an issue's details for the UI.

The model is functional. Requests are values and the server's replies are
inputs. Python exceptions are the `Failure` side of a `Result`. A reply of `None`
stands for a request that raised.

Files:

- `wrappers.dfy`: `Option` and `Result`.
- `text.dfy`: Python's `str.replace` (non-empty pattern), `str.split` (one-character
  separator), `str.endswith`, and `Join`, the inverse of `split`. It also holds the
  lemmas that split and join are inverse.
- `newlines.dfy`: the two newline rewritings (LF to CR LF for reports, LF to LF LF
  for comments) with their shape properties and round trips.
- `bitbucket_api.dfy`: endpoint derivation, the client and the six operation
  requests. It includes a parser that recovers an operation from its request,
  which shows that distinct operations whose ids contain no `/` never share a
  request.
- `bitbucket_tracker.dfy`: the adapter's operations.

## Model

| member | source | states |
|---|---|---|
| `Text.JoinSplit` | tcms/issuetracker/bitbucket.py:63 | joining the pieces of `url.split("/")` with `/` gives the URL back |
| `Text.SplitCount` | tcms/issuetracker/bitbucket.py:63 | `split("/")` yields one more piece than the string has separators |
| `Text.SplitPiecesFree` | tcms/issuetracker/bitbucket.py:63 | no piece of `split("/")` contains `/` |
| `Text.SplitJoin` | tcms/issuetracker/bitbucket.py:63 | splitting a join of separator-free pieces returns exactly those pieces |
| `Text.ReplaceAllAbsent` | tcms/issuetracker/bitbucket.py:63 | `replace` changes nothing when the pattern holds a character the string lacks |
| `Text.ReplaceAllNoMatch` | tcms/issuetracker/bitbucket.py:63 | `replace` changes nothing when the pattern occurs nowhere in the string |
| `Text.AbsentCharNoMatch` | tcms/issuetracker/bitbucket.py:63 | a pattern holding a character the string lacks occurs nowhere in it |
| `BitBucketApi.EndpointUrl` | tcms/issuetracker/bitbucket.py:62-68 | derivation succeeds exactly when the URL, with every `https://` removed, has at least two `/`; otherwise `IndexError`, or `AttributeError` for a `None` URL; a success is `https://api.bitbucket.org/{version}/repositories/` followed by pieces 1 and 2 joined by `/` |
| `BitBucketApi.SegmentsOfRepositoryUrl` | tcms/issuetracker/bitbucket.py:63 | the pieces of `https://{host}/{workspace}/{repository}[/...]` start with host, workspace and repository, when `https://` does not occur again after the scheme |
| `BitBucketApi.EndpointOfRepositoryUrl` | tcms/issuetracker/bitbucket.py:62-68 | for `https://{host}/{workspace}/{repository}[/...]` with no further `https://` after the scheme, the endpoint is `https://api.bitbucket.org/{version}/repositories/{workspace}/{repository}`, whatever the trailing path |
| `BitBucketApi.EndpointExample` | tcms/issuetracker/bitbucket.py:63-67 | `https://bitbucket.org/ws1/repo1` gives `https://api.bitbucket.org/2.0/repositories/ws1/repo1` |
| `BitBucketApi.EndpointWithPortExample` | tcms/issuetracker/bitbucket.py:63-67 | a host with a port and a further path, `https://bitbucket.org:443/ws1/repo1/src`, gives the same endpoint |
| `BitBucketApi.EndpointWithoutRepository` | tcms/issuetracker/bitbucket.py:65-66 | `https://{host}/{workspace}` with no further `https://` has no repository piece and fails with `IndexError` |
| `BitBucketApi.NewClient` | tcms/issuetracker/bitbucket.py:16-23 | the client exists exactly when the endpoint can be derived for API version 2.0, and it carries the given credentials |
| `BitBucketApi.RequestFor` | tcms/issuetracker/bitbucket.py:25-59 | every request lies under `{endpoint}/issues` and carries the client's credentials; only POST requests have a body; GET is used for reading an issue or its comments; only the DELETE reply is not decoded as JSON |
| `BitBucketApi.IssuePathPieces` | tcms/issuetracker/bitbucket.py:32-52 | below `/issues`, each per-issue operation's path is `/` followed by its pieces joined with `/`: `[id]`, `[id, changes]`, `[id, comments, ""]`, `[id, comments?sort=-updated_on]`, `[id, comments, comment_id]` |
| `BitBucketApi.ParseRequestFor` | tcms/issuetracker/bitbucket.py:25-53 | each of the six operations can be read back from its method, URL and body when ids contain no `/` |
| `BitBucketApi.RequestForInjective` | tcms/issuetracker/bitbucket.py:25-53 | two operations whose ids contain no `/` and that send the same request are the same operation |
| `BitBucketApi.SlashInIdCollides` | tcms/issuetracker/bitbucket.py:31-49 | without that condition it fails: `get_issue("{id}/comments?sort=-updated_on")` sends the same request as `get_comments(id)`, and that request reads back as `get_comments(id)` |
| `Newlines.ToCrlf` | tcms/issuetracker/bitbucket.py:119 | the report text grows by one character per LF, keeps its LF count, every LF is preceded by CR, and removing CRs gives the same text as removing them from the input |
| `Newlines.CrlfRoundTrip` | tcms/issuetracker/bitbucket.py:119 | replacing CR LF by LF in the rewritten report recovers the original text |
| `Newlines.DoubleNewlines` | tcms/issuetracker/bitbucket.py:145 | the comment text grows by one character per LF, its LF count doubles, and the text without LFs is unchanged |
| `Newlines.DoubledRoundTrip` | tcms/issuetracker/bitbucket.py:145 | replacing LF LF by LF in the rewritten comment recovers the original text |
| `Newlines.NoNewlinesUnchanged` | tcms/issuetracker/bitbucket.py:119 | text without line breaks is sent unchanged by both rewritings |
| `BitBucketTracker.Connect` | tcms/issuetracker/bitbucket.py:95-102 | the client exists exactly when the base URL is given and, with every `https://` removed, has at least two `/`; it carries the API username and password; otherwise `AttributeError` for a `None` base URL and `IndexError` for a short one |
| `BitBucketTracker.AddingTestcaseDisabled` | tcms/issuetracker/bitbucket.py:104-107 | disabled exactly when the base URL, the username or the password is `None` or empty |
| `BitBucketTracker.ReportPayload` | tcms/issuetracker/bitbucket.py:114-121 | a bug of major priority titled `Failed test: {summary}` whose description is the report with CR LF line ends, from which the report can be recovered |
| `BitBucketTracker.ReportRequest` | tcms/issuetracker/bitbucket.py:114-124 | the report is sent as a POST to `{endpoint}/issues` exactly when the client can be built; otherwise the client's error |
| `BitBucketTracker.IssueDisplayUrl` | tcms/issuetracker/bitbucket.py:126 | the issue URL is the base URL followed by `/issues/` and then exactly the id |
| `BitBucketTracker.FallbackUrl` | tcms/issuetracker/bitbucket.py:138-142 | the fall-back URL starts with the base URL, ends with `/issues/new`, and adds a slash only when the base URL lacks one |
| `BitBucketTracker.ReportIssue` | tcms/issuetracker/bitbucket.py:109-142 | reporting raises only when the base URL is `None`; it returns the issue exactly when the client was built and the reply has an `id` key, together with URL `{base_url}/issues/{id}` (`None` for a `null` id) and one defect link for that URL; otherwise it returns no issue, the fall-back URL and no link |
| `BitBucketTracker.ReportSuccess` | tcms/issuetracker/bitbucket.py:124-134 | a reply with id `i` gives `(reply, {base_url}/issues/{i})` and one defect link keyed by that URL |
| `BitBucketTracker.ReportNullId` | tcms/issuetracker/bitbucket.py:126-134 | a reply whose id is `null` is still returned, with URL `{base_url}/issues/None` and a defect link for it |
| `BitBucketTracker.FallbackUrlSlashInsensitive` | tcms/issuetracker/bitbucket.py:138-142 | adding the missing trailing slash to the base URL beforehand does not change the fall-back URL |
| `BitBucketTracker.FallbackOnFailedRequest` | tcms/issuetracker/bitbucket.py:135-142 | a failed request with a base URL lacking the trailing slash returns `(None, {base_url}/issues/new)` and requests no link |
| `BitBucketTracker.DisplayUrlDoublesSlash` | tcms/issuetracker/bitbucket.py:126 | unlike the fall-back, the issue URL keeps a trailing slash of the base URL, giving `//issues/` |
| `BitBucketTracker.PostComment` | tcms/issuetracker/bitbucket.py:144-146 | the comment is a POST to `{endpoint}/issues/{bug_id}/comments/` whose raw text has every LF doubled and collapses back to the text; the client's error and a request that raised propagate |
| `BitBucketTracker.DetailsRequest` | tcms/issuetracker/bitbucket.py:152 | details issues a body-less GET of `{endpoint}/issues/{bug_id}` exactly when the client can be built; otherwise the client's error |
| `BitBucketTracker.Lookup` | tcms/issuetracker/bitbucket.py:154 | subscripting a reply fails with `KeyError` exactly when the key is absent, and gives `None` for `null` |
| `BitBucketTracker.Description` | tcms/issuetracker/bitbucket.py:155 | `issue["content"]["raw"]` succeeds exactly when `content` is an object holding `raw`; a `null` content is `TypeError`, a missing key `KeyError` |
| `BitBucketTracker.Details` | tcms/issuetracker/bitbucket.py:148-159 | details succeed exactly when the reply has the keys id, content (an object with raw), state and title; the result has exactly the keys id, description, status, title and url, filled from those fields (`None` for `null`) and the given URL; a `null` content read after a present id is `TypeError`, any other unreadable field `KeyError`; the client's error and a failed request propagate |
| `BitBucketTracker.DetailsKeepsRecord` | tcms/issuetracker/bitbucket.py:153-159 | the fields read from the reply can be rebuilt from the details view |

## Left out

- HTTP transport: `requests.request`, the 30-second timeout, the JSON headers and
  Basic authentication (tcms/issuetracker/bitbucket.py:19-23, 55-59) are not
  modelled. A request is a value that records its credentials. The server's
  reply is an input: `Option<IssueRecord>` for `create_issue` and `get_issue`, a
  `delivered` flag for `add_comment`.
- HTTP status codes: `_request` (tcms/issuetracker/bitbucket.py:56-59) never
  checks the status, so an error reply does not raise by itself. An error reply
  with a JSON body is an ordinary reply in the model: it usually lacks `id`, so
  `_report_issue` falls back and `details` raises `KeyError`, and for
  `add_comment` it counts as delivered.
- JSON values: an issue reply is reduced to the four fields the adapter reads,
  each absent, `null` or a value. Ids are kept in their rendered text form, as
  they appear in URLs.
- `LinkReference.objects.get_or_create` is ORM persistence. The model records the
  requested link (URL, `is_defect = true`) in the result and assumes the
  database call succeeds. A failure there would also reach the fall-back.
- Base-class helpers `_report_comment`, `text`, `bug_id_from_url`,
  `rpc_credentials` and `rpc` (tcms/issuetracker/base.py) are not part of this
  model. Their results are parameters: the report text, the comment text, the
  bug id and the credentials. `rpc` is taken to build the client lazily inside
  the guarded block of `_report_issue`.
- Exception kinds are collapsed into the five the adapter can surface. A reply
  that is not JSON, or is JSON but not an object, is treated like a failed
  request.
- `get_comments`, `update_issue` and `delete_comment` are never called by the
  adapter. They are modelled as requests only. The body of `update_issue` is an
  opaque string map.
