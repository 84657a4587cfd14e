# Power BI REST client: token and credential state machine

This project models the authentication core of `pbirest`, a Python client for the Power BI
REST API. The model covers:

- the two module-level dictionaries, `token` (bearer value and expiry) and `credentials`
  (client id, username, password, tenant, optional client secret);
- `set_token` and `set_credentials`, which write those dictionaries;
- `connect`, which builds the form-encoded login body, posts it to the tenant's token
  endpoint and rewrites both dictionaries from the answer;
- `verify_token`, which every resource operation calls first. It has three outcomes: not
  connected, still fresh, or expired and renewed by one more login with the stored
  credentials;
- the decisions each resource operation makes after `verify_token`:
  - the `in [...]` guard on the access right (`add_user_to_workspace`,
    `update_user_in_workspace`) and on the name-conflict mode (`import_report`);
  - the single success status (202 for an import, 200 otherwise);
  - `get_workspace`'s selection of the first workspace with a given id.

Layout:

- `values.dfy` (module `Values`): optional values, with Python's rendering of `None` as the
  text "None" and Python's truthiness of strings.
- `auth.dfy` (module `Auth`): the state as a value (`Store`) and the login body. It also
  defines what `set_token`, `connect` and `verify_token` do, as functions of the old state
  (`Issue`, `AfterLogin`, `Verify`).
- `api.dfy` (module `Api`): the operations. `Dispatch` is one call of any operation:
  token check, guard, request, classification. This module also holds the id filter of
  `get_workspace`.
- `client.dfy` (module `Client`): class `Session`. Its fields are the entries of the two
  dictionaries. Its methods change them in place, and each method is proved against the
  function above that specifies it.
- `traces.dfy` (module `Traces`): runs of many calls, and what holds after any of them.

The clock, the network and the JSON decoding are parameters. Each call takes the current
time `now` as a whole number of seconds. The token endpoint's answer is given as a status
code and an access-token string, and the answer to an operation's own request as a status
code (plus the listed records for `get_workspace`).

A reader of the library's function names and messages might expect some behaviours the
code does not have. The model follows the code:

- `set_token(None)` stores the string "Bearer None", not `None`. So a failed `connect`
  clears the credentials but leaves a bearer and a fresh one-hour expiry. `verify_token`
  then keeps returning true and never reports "not connected" again
  (`Auth.FailedLoginStaysConnected`, `Traces.ConnectedAfterAnyConnect`).
- The enumerated-value guards run after `verify_token`, not before it. A rejected value can
  still trigger a renewal login (`Api.OwnerRejectedAfterRenewal`).
- `refresh_dataset` validates no notification option and counts only 200 as success, not
  202 (`Api.RefreshIsUnvalidated`).
- An expired token whose renewal fails still makes `verify_token` return true.

## Model

| member | source | states |
|---|---|---|
| `Auth.LoginBody` | pbirest/core.py:14-30 | the login form always carries grant_type "password", the fixed resource URI, client_id, username and password with the given values; it has a client_secret field exactly when the secret is truthy (not None, not empty), then with that value; it has no tenant field, no name twice, and nothing else (5 or 6 fields) |
| `Values.Show` | pbirest/core.py:62 | formatting an optional string gives the string itself, and gives "None" exactly for None or the string "None" |
| `Values.Truthy` | pbirest/core.py:14 | an optional string is falsy exactly when it is None or empty |
| `Auth.TokenEndpoint` | pbirest/core.py:33 | the login URL is the Microsoft login host, then the formatted tenant (recoverable from the URL), then "/oauth2/token" |
| `Auth.LoginRequestFor` | pbirest/core.py:33 | connect posts to the tenant's endpoint, and the tenant has no effect on the form body |
| `Auth.Issue` | pbirest/core.py:60-63 | set_token always stores a bearer, which starts with "Bearer " followed by the formatted argument ("None" for None), and an expiry exactly one hour after now |
| `Auth.AfterLogin` | pbirest/core.py:35-42 | after connect, the state is always connected and expires one hour after now; status 200 stores exactly the given credentials and "Bearer " + access token; any other status sets all five credentials to None and the bearer to "Bearer None" |
| `Auth.Verify` | pbirest/core.py:44-54 | verify_token is false exactly when no bearer is stored, and then changes nothing; it sends a login exactly when connected and the expiry is strictly before now, and that login uses the stored credentials and leaves the state connect produces; otherwise the state is unchanged; after a true result the token has not expired |
| `Auth.FailedLoginStaysConnected` | pbirest/core.py:39-52 | after a failed connect, verify_token returns true at any later time; once the hour has passed it renews with the cleared (all-None) credentials |
| `Auth.SecondCheckIsCacheHit` | pbirest/core.py:50-54 | a second verify_token before the expiry left by the first sends no login and changes nothing |
| `Api.ExpectedStatus` | pbirest/core.py:7-8 | each operation has one success status: 202 for import_report, 200 for every other operation |
| `Api.Dispatch` | pbirest/core.py:148-160 | an operation changes the state exactly as verify_token does, whatever its parameter; it reports not-connected exactly when no bearer is stored; it rejects the value exactly when connected and the guard refuses it; it sends one request exactly when connected and the value is admitted, carrying the bearer stored after the check, which has not expired; it succeeds exactly when that request got the expected status, and otherwise fails with the received status |
| `Api.OwnerRejectedAfterRenewal` | pbirest/core.py:172-184 | with an expired token, access "Owner" on add/update user sends no request and reports an invalid value, yet the renewal login has already been sent; "Admin" does send the request |
| `Api.AllowedValues` | pbirest/core.py:152 | only add/update user and import_report check their parameter; the user operations against the three access rights, import against the four name-conflict modes |
| `Api.Admits` | pbirest/core.py:238 | the guard admits exactly Admin, Contributor and Member for the user operations and exactly CreateOrOverwrite, GenerateUniqueName, Ignore and Overwrite for an import; every other operation admits any value |
| `Api.DefaultsAdmitted` | pbirest/core.py:148 | the default arguments "Member", "CreateOrOverwrite" and "NoNotification" each pass their operation's guard |
| `Api.RefreshIsUnvalidated` | pbirest/core.py:298-307 | refresh_dataset admits every notification option and expects status 200 |
| `Api.MatchingId` | pbirest/core.py:94 | the comprehension keeps exactly the listed workspaces whose id equals the requested one, and nothing else |
| `Api.MatchingIdSingle` | pbirest/core.py:94 | a single record is kept exactly when its id matches |
| `Api.MatchingIdAppend` | pbirest/core.py:94 | filtering a concatenation is the concatenation of the filtered parts, so the result keeps the listing's order and its repeats |
| `Api.FirstWithId` | pbirest/core.py:94-96 | get_workspace's selection is None exactly when no listed workspace has the id; otherwise it is a listed workspace with that id |
| `Api.FirstWithIdIsFirstMatch` | pbirest/core.py:95 | the selected workspace is the one at the smallest index whose id matches |
| `Client.Session.constructor` | pbirest/core.py:4-5 | at load time every token and credential field is None |
| `Client.Session.GetToken` | pbirest/core.py:56-58 | get_token returns the stored bearer and expiry |
| `Client.Session.SetToken` | pbirest/core.py:60-63 | set_token replaces the token by `Issue(b, now)` and leaves the credentials unchanged |
| `Client.Session.SetCredentials` | pbirest/core.py:65-71 | set_credentials replaces all five credential fields together and leaves the token unchanged |
| `Client.Session.Connect` | pbirest/core.py:10-42 | connect sends `LoginBody` to the tenant's token endpoint (tenant defaults to "common", secret to None) and leaves exactly the state `AfterLogin` describes |
| `Client.Session.VerifyToken` | pbirest/core.py:44-54 | the verdict, the renewal login sent and the new state are exactly those of `Verify` on the old state |
| `Client.Session.Call` | pbirest/core.py:234-248 | a resource operation sends, reports and leaves exactly what `Dispatch` describes; an import is guarded by the four name-conflict modes and succeeds only on 202 |
| `Client.Session.GetWorkspace` | pbirest/core.py:86-98 | get_workspace does what `Dispatch` describes for a groups listing; it returns the first workspace with the id when the listing succeeded, and None otherwise |
| `Traces.Next` | pbirest/core.py:39-52 | after a connect the client is connected whatever the status; an operation never changes whether it is connected, and leaves an unconnected state unchanged |
| `Traces.Run` | pbirest/core.py:60-63 | after any sequence of calls, the bearer and the expiry are either both set or both None |
| `Traces.StaysConnected` | pbirest/core.py:46-52 | once a bearer is stored, no sequence of calls removes it |
| `Traces.OperationsNeverConnect` | pbirest/core.py:44-48 | before any connect, every resource operation in a run meets the initial state, sends neither a login nor a request, reports not-connected, and leaves the state unchanged |
| `Traces.ConnectedAfterAnyConnect` | pbirest/core.py:39-41 | after any connect call in a run, successful or not, the state stays connected, so no later operation reports not-connected |
| `Traces.CredentialsComeFromConnect` | pbirest/core.py:35-42 | after any run, the credentials are the initial ones, all None, or exactly the tuple passed to some connect call; they are never partly updated |

## Left out

- HTTP calls, URLs of resource endpoints, request bodies and JSON decoding. A request is
  reduced to the operation, its Authorization header and its enumerated parameter. A
  response is reduced to its status code, the access token, or the list of workspaces.
  So a 200 login answer always carries an access token here. In the source, an answer
  without `access_token` raises after `set_credentials` has already stored the new
  credentials, leaving the old token in place; that path is not modelled, and on it
  `Auth.AfterLogin`'s "nothing of the old state survives" would not hold. Exceptions
  raised by the HTTP library or by opening a file propagate out of the call; those paths
  are not modelled either. `connect`'s own failed POST leaves the state unchanged, while a
  resource operation whose request or file access raises keeps whatever `verify_token`
  already wrote, including a renewal that stored "Bearer None" and cleared credentials.
- Api.Dispatch: the request it describes leaves out each operation's URL, identifiers and
  body, because those are per-resource plumbing with no decision in them.
- `datetime.datetime.now()`. Time is an integer number of seconds passed in. Within one
  `connect`, the stored expiry uses the same `now` as the call, whereas the source reads
  the clock again inside `set_token`.
- How `requests` form-encodes the body. In particular it omits fields whose value is None.
  The model keeps the body as `connect` builds it.
- `get_token` returns the live dictionary, so a caller could mutate the token through it.
  The model returns the token as a value, so that aliasing is not captured.
- `print` diagnostics. The source reports failures through a printed message and, for
  `verify_token` and the operations that return a value, through a `False` or `None`
  result; the model returns an `Outcome` value instead.
- The default arguments of the resource operations are constants (`DEFAULT_ACCESS`,
  `DEFAULT_NAME_CONFLICT`, `DEFAULT_NOTIFY_OPTION`) rather than defaults of `Session.Call`,
  whose parameter is shared by all operations. `clone_report`'s optional target workspace
  only shapes its request body, which is not modelled.
- File I/O in `export_report` and `import_report`. `export_report` writes the response body
  to its file before it checks the status, and that write is not modelled.
- The failure branches of `create_workspace`, which name an undefined variable and would
  raise at run time. The model treats `create_workspace` like every other 200 operation.
- The result payloads of the listing and creation operations. Only `get_workspace`'s
  selection is modelled.
- Audit-log retrieval, pagination and date-format validation: the library has no such code.
- Concurrent use of the module-level state. The source has no locking.
- Packaging metadata (`setup.py`) and the re-exports in `pbirest/__init__.py`.
