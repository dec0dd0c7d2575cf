# wazo-auth-cli, modelled in Dafny

`wazo-auth-cli` is a command-line client for the wazo-auth service. It builds
an authenticated client at start-up (adopting `--token`, or asking the
service for a one-hour token that it then owns), runs one `user` sub-command
(create, delete, list, show, add or remove a policy). When it owns the token,
it calls revoke at teardown, though with `_current_token` (None) rather than
the owned token (see Findings).

This project models the pure logic of that client:

- `wrappers.dfy` (`Wrappers`): `Option` and `Result`.
- `pyjson.dfy` (`PyJson`): the decoded JSON values the client library hands
  back (Python's None, bool, int, str, list, dict). It also defines the
  Python semantics the commands rely on: truthiness, `d[key]` (KeyError or
  TypeError), `d[key] = v`, and iteration.
- `client.dfy` (`Client`): the calls made on the client object, as a log of
  `Call` events. The remote side is an oracle `Server = Call -> Result<Json, Error>`.
  The identifier resolvers appear as two calls, `ResolveUser` and
  `ResolvePolicy`, that the oracle answers.
- `user.dfy` (`UserCommands`): `wazo_auth_cli/commands/user.py`. It covers
  the email column of `user list` and the empty-listing branch, the request
  body and UUID line of `user create`, and `user delete`. It also covers
  the four-call merge of `user show` and the call order of `user add` and
  `user remove`.
- `cli.dfy` (`Cli`): `wazo_auth_cli/main.py`. It covers `--verify`
  classification, the client's keyword arguments, token adoption or
  issuance, the two-state teardown, and the older `user create`.

## Model

| member | source | states |
|---|---|---|
| `UserCommands.MainEmailPicksFirstMain` | wazo_auth_cli/commands/user.py:100-105 | On well-formed email records, `_main_email` (modelled by `UserCommands.MainEmail`) answers the address of the first email whose `main` is truthy, in list order. It answers "" when no email is main. |
| `UserCommands.DerivedEmailCases` | wazo_auth_cli/commands/user.py:96-111 | The email column (`UserCommands.DerivedEmail`, built from `MainEmail` and `FirstEmail`) is the first main email's address when that address is truthy. A main email with an empty address, or no main email, falls through to the first email's address. No emails gives "". |
| `UserCommands.DerivedEmailIsPreferred` | wazo_auth_cli/commands/user.py:94-111 | For emails with string addresses, the derived column equals an independent statement of the tie-break: prefer the main address, else the first address, else "". |
| `UserCommands.DerivedEmailExamples` | wazo_auth_cli/commands/user.py:96-111 | `[a, b(main)]` gives "b"; `[a]` gives "a"; `[]` gives ""; `[a, ""(main)]` gives "a". |
| `UserCommands.WithEmail` | wazo_auth_cli/commands/user.py:95-97 | Succeeds exactly when the record is a dict with `emails` whose email can be derived. The result has the record's keys plus `email`. Every other key keeps its value, and `email` holds the derived address. A non-dict raises TypeError and a missing `emails` raises KeyError. An email that cannot be derived ends annotation with that error. |
| `UserCommands.AddEmailColumn` | wazo_auth_cli/commands/user.py:94-98 | Succeeds exactly when every record can be annotated. It then keeps length and order, and item `i` is record `i` annotated. Otherwise the error is that of the first record that fails. |
| `UserCommands.ListUsers` | wazo_auth_cli/commands/user.py:84-92 | Makes exactly one listing call. Empty or falsy `items` gives empty headers and rows, not an error. A non-empty list gives headers from the first annotated record and rows from all of them. Other truthy `items` raise TypeError. A failed listing passes its error on. |
| `UserCommands.CreateBody` | wazo_auth_cli/commands/user.py:47-58 | The body always holds `username` and `password`. It holds `uuid`, `email_address`, `firstname` and `lastname` exactly when the option is non-empty, each with the option's value. It holds no other key. |
| `UserCommands.CreateBodyMinimal` | wazo_auth_cli/commands/user.py:47-58 | With only username and password supplied, the body is exactly those two keys. |
| `UserCommands.CreateUser` | wazo_auth_cli/commands/user.py:45-63 | Makes one creation call with that body. Its output is the reply's `uuid` followed by a newline, A failed call passes its error on. A reply without `uuid` raises the subscript's KeyError or TypeError, and a non-string `uuid` raises TypeError. |
| `UserCommands.DeleteUser` | wazo_auth_cli/commands/user.py:73-76 | Resolves the user first. It deletes only the resolved UUID, and only when resolution succeeds. A failed resolution or delete ends the command with that call's own error. It succeeds exactly when every call it made succeeded. |
| `UserCommands.ShowUser` | wazo_auth_cli/commands/user.py:142-148 | Calls resolve, get, policies, tenants and groups in that order. A step that fails ends the log there and its error is the outcome, verbatim: resolve (1 call), get (2), policies or a user record that is not a dict (3, the latter TypeError), tenants (4), groups (5). It succeeds exactly when every reply has the shape it needs. The result is the user dict with `policies`, `tenants` and `groups` set to the three `items` lists, and every other key unchanged. |
| `UserCommands.Relate` | wazo_auth_cli/commands/user.py:22-30 | The user is resolved first. A failed user resolution ends the command with its error. When it succeeds and `--policy` is non-empty, the policy is resolved second, at position 1, and a failed policy resolution ends the command with its error. Otherwise the mutation is third, and its error, if any, is the outcome. At most one mutation is made, at position 2, with the resolved user and policy UUIDs. A mutation happens exactly when both resolve and `--policy` is non-empty. An absent or empty `--policy` makes only the user resolution. |
| `UserCommands.UserAdd` | wazo_auth_cli/commands/user.py:22-30 | The only mutation `user add` makes is adding a policy. |
| `UserCommands.UserRemove` | wazo_auth_cli/commands/user.py:124-132 | The only mutation `user remove` makes is removing a policy. |
| `UserCommands.UnresolvedPolicyMutatesNothing` | wazo_auth_cli/commands/user.py:25-30 | A policy that fails to resolve (unknown or ambiguous) means no mutation call and a failed command. |
| `Cli.ClassifyVerify` | wazo_auth_cli/main.py:77-83 | "true"/"True" gives verify and "false"/"False" gives skip. Any other non-empty string is a bundle path holding that string. Absent or empty sets nothing. Every direction is an if-and-only-if. |
| `Cli.ClassifyVerifyRoundTrip` | wazo_auth_cli/main.py:77-83 | Every mode can be requested from the command line. The one exception is a bundle path that is empty or spelled like a keyword. |
| `Cli.ClientKwargs` | wazo_auth_cli/main.py:68-83 | `host` is always present, None without a hostname. `username`, `password`, `port` and `verify_certificate` are present exactly when the option is non-empty, with the option's value or the verify mode's value. No other key is present. |
| `Cli.Fresh` | wazo_auth_cli/main.py:46-47 | A new application owns no token and has no current token. |
| `Cli.Initialize` | wazo_auth_cli/main.py:86-97 | The client is built first. A non-empty `--token` is adopted as-is and the ownership flag is left alone. Otherwise exactly one token request is made, with the backend and 3600, and the issued token is adopted and owned. The client is always given the adopted token, last. Without `--token` the log is exactly client, token request and `set_token`, or only the first two when start-up fails. Start-up fails exactly when the token request or its `token` key fails, with that error. |
| `Cli.CleanUp` | wazo_auth_cli/main.py:99-109 | As written: revokes `_current_token` only when the token is owned, and clears the flag unless the revoke raises. A revoke that raises lets its own error escape. Otherwise the result comes back unchanged. |
| `Cli.CleanUpIgnoresError` | wazo_auth_cli/main.py:99-103 | The error argument of `clean_up` changes nothing it does. |
| `Cli.CleanUpIdempotent` | wazo_auth_cli/main.py:105-107 | After a teardown that went through, a second teardown makes no call and changes nothing. |
| `Cli.RevokesUnsetToken` | wazo_auth_cli/main.py:105-106 | As written, after start-up issues a token, teardown revokes None, whatever token was issued. |
| `Cli.RevokesUnsetTokenExample` | wazo_auth_cli/main.py:91-106 | The service issues "abc", which is owned, and teardown revokes None rather than "abc". |
| `Cli.CleanUpIntended` | wazo_auth_cli/main.py:105-107 | The corrected teardown has the same contract as `CleanUp`, but revokes the token the application adopted. |
| `Cli.RevokesIssuedToken` | wazo_auth_cli/main.py:91-107 | With the corrected teardown, the token revoked is the one the service issued at start-up. |
| `Cli.Invocation` | wazo_auth_cli/main.py:65-109 | With the corrected teardown `CleanUpIntended`: a failed start-up runs nothing else and reports its error. Otherwise the log is start-up's calls, then the command's, then at most the one revoke, and the run reports the command's outcome. A caller-supplied token is never revoked. An issued token is revoked exactly once, as the last call. |
| `Cli.InvocationAsWritten` | wazo_auth_cli/main.py:65-109 | The same run with the teardown as written: a failed start-up runs nothing else; otherwise the log is start-up's calls, then the command's, then at most the one revoke, the command's outcome is reported, and a caller-supplied token is never revoked. When a token was issued, exactly one revoke is made, as the last call, and its argument is None. |
| `Cli.LegacyCreateBody` | wazo_auth_cli/main.py:25-30 | The older body has exactly `username`, `email_address` and `password`. The password is None when `--passwd` is absent. |
| `Cli.LegacyCreateUser` | wazo_auth_cli/main.py:25-33 | The older command makes exactly one call, a user creation. Its body has exactly `username`, `email_address` and `password`, taken from the name, the email and `--passwd` (None when absent). The outcome is that call's reply or error. |
| `Cli.CreateBodiesAgree` | wazo_auth_cli/main.py:26-30 | The two create commands send the same body for the same username, password and non-empty email. They differ for an empty email, which only the older one sends, and for a missing password, which the older one sends as None. |

## Findings

| source | as written | input that shows it | evidently intended | confidence | as-written member | corrected member |
|---|---|---|---|---|---|---|
| wazo_auth_cli/main.py:105-107 | `clean_up` revokes `_current_token`. Only the constructor assigns it (None, line 46). | No `--token`, and the service issues "abc". The token is owned, and teardown calls revoke(None). | Revoke `_auth_token`, the token the run was issued. | high; not executed | `Cli.RevokesUnsetTokenExample` | `Cli.RevokesIssuedToken` |

`Cli.CleanUp` and `Cli.RevokesUnsetToken` model the code as written.
`Cli.CleanUpIntended` is the corrected teardown. `Cli.Invocation`, the
whole process run, uses it. `Cli.InvocationAsWritten` is the same run with
the teardown as written.

## Notes on the code

- An owned token is not the one revoked at teardown: `clean_up` revokes
  `_current_token`, which is always None (see Findings).
- An empty `--policy` skips both the policy resolution and the mutation in
  `user add` and `user remove`.
- Without `--token`, a token is requested with whatever backend is set, None
  included. Nothing checks that a username, password or backend was given.
- A revoke that raises leaves the ownership flag set.

## Left out

- The argument-parsing framework is not modelled. This covers parser construction, the required mutually-exclusive `--policy` group, help text, command dispatch, `main` and the exit code. Options arrive already parsed, as `Option<string>` values.
- The identifier resolvers and the list helpers (`extract_column_headers`, `extract_items`) live in `wazo_auth_cli/helpers.py`, which is not part of this model. The resolvers are the oracle's answers to `ResolveUser`/`ResolvePolicy`. The list helpers are the function parameters of `ListUsers`.
- The HTTP client and the service are an oracle that is a function of the call. A command never repeats a call, so replies that depend on history are not needed. Building the client object and `set_token` are logged calls that never reach the service, so they cannot fail.
- JSON serialisation (`json.dumps` with indent and sorted keys), logging and writes to stdout are not modelled. `user show` and the older `user create` stop at the value that would be printed. `user create` stops at the line it would write.
- JSON floats are not modelled (integers only).
- Iterating a non-empty dict reports TypeError at once. Python would yield its keys, but every loop here subscripts the first element with a string key, which raises TypeError on a string. The key order is not modelled.
- In-place mutation and aliasing are not modelled. `_add_email_column` mutates the records and returns the same list. The model returns new values. A record object that appears twice in the list is not modelled.
- When `clean_up` raises, the framework catches and logs the error. `Cli.Invocation` models this only as "the command's outcome is reported".
- `Cli.Invocation`: it uses the corrected teardown, so its last-call clause (the issued token is revoked) does not hold of the code as written, which revokes None. `Cli.InvocationAsWritten` states what the code does.
- `Cli.LegacyCreateUser`: the printed JSON text is not modelled; the contract is about the reply it would print.
