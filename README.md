# Request shaping of the ferinth user and version calls

ferinth is a typed Rust client for the Modrinth REST API. Each of its API methods
first decides what to send, and only then sends it. It checks its identifier
arguments with `check_id_slug`. If a check fails, it returns that error and sends
nothing. Otherwise it hands exactly one request to the dispatcher:

- `get(url)`;
- `get_with_query(url, query)`;
- `post(url, body)`.

The URL is built by `join_all` from an ordered list of path segments. Query
values that are lists or booleans are compact JSON text produced by
`serde_json::to_string`.

This project models that decision for the calls of `src/api_calls/user.rs` and
`src/api_calls/version.rs`. Each call that can fail is a function or a method that
returns `Result<Request, E>`; `GetCurrentUser`, which checks nothing, returns a
`Request`. A `Request` records:

- which dispatcher entry is called (`Get`, `GetWithQuery`, `Post`);
- the path segments handed to `join_all`;
- the query pairs;
- the report body, when there is one.

Modules:

- `Wrappers` (`wrappers.dfy`): `Option`, `Result`, and `Outcome` (the `Result<()>`
  of a check).
- `Json` (`json.dfy`): the compact encoding of `&[&str]` and `bool`, using
  serde_json's escape table. It comes with a strict decoder of the same form, and
  round-trip lemmas tie the two together.
- `Requests` (`requests.dfy`): shared by the call modules. Holds the request
  datatype, the route grammar (`CheckedRoute`), the first-failure search used by
  the batch calls (`FirstFailure`), the optional-filter query builder (`Present`)
  and the batch request (`IdsRequest`).
- `UserCalls` (`user_calls.dfy`), `VersionCalls` (`version_calls.dfy`): one member
  per API method.

`check_id_slug` is not part of this model. Every call that checks an identifier
takes the check as a parameter, `check: string -> Outcome<E>`. So nothing proved
here depends on which identifiers the check accepts, or on what its error holds. `join_all` is not part
of this model either: the model stops at the segment sequence.

The straight-line methods are functions. The two batch calls contain a `for` loop
with an early return, so they are methods with a `while` loop. The loop's result is
proved equal to the first-failure search. A ghost out-parameter lists the
identifiers handed to the check, in order. A failed batch returns
`check_id_slug`'s error for the first rejected identifier, unchanged; the model
claims nothing about what that error holds. `list_versions_filtered` builds its query by
conditional pushes onto a vector, so it is a method too. It is proved equal to a
uniform definition: the list of `(name, optional value)` filters, keeping the
present ones. The filter pairs are always sent in the order `loaders`,
`game_versions`, `featured`.

## Model

| member | source | states |
|---|---|---|
| `Json.EscapeRoundTrip` | src/api_calls/user.rs:68 | the escaped body of any string, followed by a closing quote, decodes back to that string and leaves the text after the quote |
| `Json.StringArrayRoundTrip` | src/api_calls/user.rs:68 | the compact JSON array of any list of strings decodes back to exactly that list, in order |
| `Json.StringArrayInjective` | src/api_calls/version.rs:108 | two lists of identifiers get the same JSON text only if they are equal |
| `Json.StringArraySingleExample` | src/api_calls/version.rs:50 | `["forge"]` is encoded as `["forge"]` |
| `Json.StringArrayPairExample` | src/api_calls/user.rs:68 | `["A","B"]` is encoded without spaces, comma-separated |
| `Json.StringArrayEscapeExample` | src/api_calls/user.rs:68 | `"` and `\` inside an element are backslash-escaped |
| `Json.BoolRoundTrip` | src/api_calls/version.rs:56 | the JSON text of a bool (`true` / `false`) decodes back to it |
| `Requests.FirstFailure` | src/api_calls/user.rs:63-65 | result is None exactly when every identifier passes the check; otherwise it gives the least index whose check fails, and that check's own error |
| `Requests.FirstFailureIgnoresSuffix` | src/api_calls/version.rs:103-105 | once identifier k is the first rejected one, any identifiers after it may be replaced without changing the outcome: they are never examined |
| `Requests.IdsRequestCarriesIds` | src/api_calls/user.rs:66-70 | the batch request is a GET with no body and exactly one query pair, named `ids`, whose value decodes to all the identifiers in input order |
| `Requests.PresentEmpty` | src/api_calls/version.rs:48-57 | the query built from optional filters is empty exactly when every filter is absent |
| `Requests.PresentPairs` | src/api_calls/version.rs:48-57 | a (name, value) pair is in the query exactly when the filter list has that name with that value present |
| `UserCalls.GetUser` | src/api_calls/user.rs:22-25 | fails exactly when the check of `user_id` fails, with the check's error; otherwise a plain `get` to segments `["user", user_id]`, no query, no body, on a checked route |
| `UserCalls.GetCurrentUser` | src/api_calls/user.rs:46-48 | no check at all; always a plain `get` to segments `["user"]`, no query, no body |
| `UserCalls.GetMultipleUsers` | src/api_calls/user.rs:62-71 | if some identifier is rejected, returns the first rejected one's error, having handed exactly the identifiers up to and including it to the check, in order; otherwise one GET to `["users"]` with the single pair `ids` = JSON array of all identifiers, all of them handed to the check |
| `UserCalls.ListProjects` | src/api_calls/user.rs:84-88 | fails exactly when the check of `user_id` fails, with its error; otherwise a plain `get` to `["user", user_id, "projects"]`, no query, no body, on a checked route |
| `UserCalls.GetNotifications` | src/api_calls/user.rs:108-112 | fails exactly when the check of `user_id` fails, with its error; otherwise a plain `get` to `["user", user_id, "notifications"]`, no query, no body, on a checked route |
| `UserCalls.FollowedProjects` | src/api_calls/user.rs:132-136 | fails exactly when the check of `user_id` fails, with its error; otherwise a plain `get` to `["user", user_id, "follows"]`, no query, no body, on a checked route |
| `UserCalls.SubmitReport` | src/api_calls/user.rs:160-178 | fails exactly when the check of `item_id` fails; report type and text are never checked; otherwise a POST to `["report"]` whose body holds the four arguments unchanged |
| `VersionCalls.ListVersions` | src/api_calls/version.rs:19-23 | fails exactly when the check of `project_id` fails, with its error; otherwise a plain `get` to `["project", project_id, "version"]`, no query, no body, on a checked route |
| `VersionCalls.ListVersionsFiltered` | src/api_calls/version.rs:40-67 | fails exactly when the check of `project_id` fails, before any query is built; otherwise a `get_with_query` to the same path as `list_versions`. The query is the uniform optional-filter query: the pushes and the identity re-collection (lines 58-61) leave it unchanged |
| `VersionCalls.FilterQueryInOrder` | src/api_calls/version.rs:48-57 | the filter query is the `loaders`, then `game_versions`, then `featured` contribution, each one pair when present and none when absent |
| `VersionCalls.FilterQueryEmpty` | src/api_calls/version.rs:48-57 | the query is empty if and only if all three filters are absent |
| `VersionCalls.FilterQueryLength` | src/api_calls/version.rs:48-57 | the query has exactly one pair per present filter |
| `VersionCalls.FilterQueryValues` | src/api_calls/version.rs:49-57 | a pair named `loaders` / `game_versions` / `featured` is sent exactly when that filter is present, with its compact JSON text as value |
| `VersionCalls.FilterQueryOrder` | src/api_calls/version.rs:49-61 | only the three filter names occur, in strictly increasing fixed order (so none twice) |
| `VersionCalls.FilterQueryDecodes` | src/api_calls/version.rs:50-56 | every value sent decodes back to the filter value given: lists in order, and the bool |
| `VersionCalls.FilterQueryExample` | src/api_calls/version.rs:48-51 | with only `loaders = ["forge"]` given, the query is exactly `[("loaders", "[\"forge\"]")]` |
| `VersionCalls.GetVersion` | src/api_calls/version.rs:80-84 | fails exactly when the check of `version_id` fails, with its error; otherwise a plain `get` to `["version", version_id]`, no query, no body, on a checked route |
| `VersionCalls.GetMultipleVersions` | src/api_calls/version.rs:102-111 | if some identifier is rejected, returns the first rejected one's error, having handed exactly the identifiers up to and including it to the check, in order; otherwise one GET to `["versions"]` with the single pair `ids` = JSON array of all identifiers, all of them handed to the check |

"On a checked route" (`Requests.CheckedRoute`) means three things:

- the path follows the service's route grammar: `/{collection}`,
  `/{collection}/{id}` or `/{collection}/{id}/{subcollection}`;
- its collection and subcollection segments are fixed names (true by
  construction, since the name sets list exactly the literals the calls write);
- its identifier segment has passed the check.

## Left out

- The dispatcher (`self.get`, `self.get_with_query`, `self.post`): headers, the
  network call, status mapping and response decoding, and `async`/`.await`. Those
  are I/O in files that are not part of this model. A `Request` value stands for
  the call handed to it.
- `check_id_slug`: its character set and length rules are not part of this model.
  The check is a parameter, so the model makes no claim about which identifiers
  it accepts.
- `join_all` and URL percent-escaping are not part of this model. Paths are the
  segment sequences handed to `join_all`.
- The error path of `serde_json::to_string` (the `?` at src/api_calls/user.rs:68
  and src/api_calls/version.rs:50, 53, 56, 108). Serializing string slices and
  bools cannot fail, so the encoder is total.
- `Json.ParseStringArray` is a partner for the proofs, not a full JSON parser. It
  accepts only the compact form (no whitespace between tokens). It refuses `\u`
  escapes that name surrogate halves, so it does not decode surrogate pairs.
- `ReportItemType` and `ReportSubmission` are defined in the user schema, which is
  not part of this model. The four fields of `ReportSubmission` are the ones named
  at src/api_calls/user.rs:170-175. Of the variants of `ReportItemType`, only
  `User` is named in the source (src/api_calls/user.rs:155); `Project`, `Version`
  and `Unknown` are assumed. The model only carries the value through unchanged. The body is recorded as a
  value, not as its JSON serialization.
- The doc-test assertions about live data: the user's role, that the current
  user's email is visible (src/api_calls/user.rs:43), the number of projects, the
  number of users returned, that the forge-filtered version list is empty
  (src/api_calls/version.rs:37), and the versions' `project_id`. These depend on
  the remote service.
- Decoding of the response types (`User`, `Project`, `Version`, `Notification`),
  and the type aliases in `src/structures/mod.rs`. They contain no logic.

`get_with_query` with an empty query and plain `get` are kept as different
request kinds, exactly as the source calls them; the contracts of the plain-`get`
calls say that the plain entry is used.
