# auto_deploy webhook receiver — Dafny model

This project models the authenticated deploy pipeline of `routers/webhook.py`:

- the check of the `X-Hub-Signature-256` header in `verify_signature`;
- the request handler `farhyn_webhook`, which turns each request into a response and a list of scheduled background tasks;
- the ordered side effects of the background steps `git_clone`, `docker_compose` and `docker_prune`.

Modules:

- `Wrappers`: `Option`, `Result` and `Outcome`.
- `Text`: Python's `str.split` on one character, with its inverse `Join`; occurrence counting; `hexdigest()` encoding, with a decoder as its inverse; the ASCII test.
- `Signature`: `verify_signature`. It is a pure function of the header, the body-read result, the secret and an HMAC parameter `mac`. It returns one of three verdicts: the request verified, it was rejected with an `AuthError`, or `hmac.compare_digest` raised.
- `Webhook`: the JSON payload, Python truthiness, the `BackgroundTasks` list as a class, the handler as a method, and `Decide`, the function that specifies the handler.
- `Deploy`: a `Host` class. It holds the set of existing paths and a trace of removals and commands. `GitClone`, `DockerCompose` and `DockerPrune` are methods on it, and each external command is answered by a `Runner` parameter.

Behaviour of the code that the model keeps:

- A rejected signature or payload is caught and *returned* as `{"error": detail}`. A returned dict is sent with status 200, although the `HTTPException` carries 400 (`Webhook.ErrorDictIsOk`). Only other exceptions become the 500.
- `folder_name` is used without sanitisation. It is pasted verbatim into `/var/www/<folder_name>` (`Deploy.ClonePath`) and passed to `git clone` as is.
- The payload fields are tested for Python truthiness (`Webhook.Truthy`). Any truthy JSON value, a number or a list included, is scheduled as given.
- A header whose digest part holds a non-ASCII character makes `hmac.compare_digest` raise `TypeError`. That error is not an `HTTPException`, so the handler answers with the 500 (`Signature.CompareRaisedIff`).
- A JSON payload that is not an object makes `payload.get` raise `AttributeError`, which becomes the 500. A body that is not valid JSON does the same.

## Model

| member | source | states |
|---|---|---|
| `Text.Split` | routers/webhook.py:27 | `str.split('=')` always yields at least one piece |
| `Text.SplitLength` | routers/webhook.py:27 | splitting yields exactly one more piece than there are `=` in the header, so unpacking into two names succeeds iff there is exactly one `=` |
| `Text.SplitPiecesFree` | routers/webhook.py:27 | no piece of the split contains the separator |
| `Text.SplitJoin` | routers/webhook.py:27 | joining the pieces with `=` gives back the header (split and join are inverses) |
| `Text.SplitOnce` | routers/webhook.py:27 | a header with exactly one `=` splits into the text before it (the tag) and the text after it (the digest) |
| `Text.HexDigest` | routers/webhook.py:40 | `hexdigest()` gives two lower-case hex digits per digest byte |
| `Text.UnHexHexDigest` | routers/webhook.py:40 | decoding the hex digest recovers the digest bytes |
| `Text.HexDigestInjective` | routers/webhook.py:40 | two digests have the same hex rendering iff they are equal |
| `Text.IsAscii` | routers/webhook.py:42 | the ASCII test `compare_digest` applies to `str` arguments: every character has a code point below 128 |
| `Text.HexDigestPlain` | routers/webhook.py:40 | a hex digest is ASCII and contains no `=` |
| `Signature.Detail` | routers/webhook.py:24-43 | the five `detail` strings; only the body-read detail starts with "Failed to read request body: ", and it ends with the exception's text |
| `Signature.DetailInjective` | routers/webhook.py:24-43 | two rejections have the same detail iff they are the same error |
| `Signature.VerifySignature` | routers/webhook.py:21-43 | rejected with "Missing X-Hub-Signature-256 header" iff the header is absent or empty; a verified request had its body read |
| `Signature.TagIsSha256` | routers/webhook.py:27-32 | for a header with one `=`, the tag is `sha256` iff the header starts with `sha256=`, and the received digest is the rest |
| `Signature.BadFormatIff` | routers/webhook.py:26-29 | a non-empty header is rejected as "Invalid X-Hub-Signature-256 header format" iff it does not contain exactly one `=` |
| `Signature.UnsupportedIff` | routers/webhook.py:31-32 | rejected as "Unsupported signature algorithm" iff the header has one `=` but the tag is not `sha256` (e.g. `=abc`, `sha1=...`) |
| `Signature.BodyUnreadableIff` | routers/webhook.py:34-37 | a failed body read is reported, with the exception text, iff the header passed the three header checks |
| `Signature.VerifiedIff` | routers/webhook.py:39-43 | verification succeeds iff the body was read and the header is exactly `sha256=` plus the hex HMAC of the body under the secret |
| `Signature.SignedRequestVerifies` | routers/webhook.py:39-43 | round trip: `sha256=` plus the hex HMAC of a body always verifies for that body and secret |
| `Signature.MismatchIff` | routers/webhook.py:42-43 | "Invalid signature" iff the header is well formed, the body was read, and the ASCII digest differs from the expected one |
| `Signature.CompareRaisedIff` | routers/webhook.py:42 | `compare_digest` raises iff the header is well formed, the body was read, and the digest part holds a non-ASCII character |
| `Signature.ForgedDigestRejected` | routers/webhook.py:39-43 | the hex of any digest other than the body's MAC is rejected as "Invalid signature" |
| `Signature.HeaderChecksIgnoreBody` | routers/webhook.py:22-35 | when a header check rejects, the verdict is one of the three header errors, and the body, secret and MAC do not affect it, so the body is not read first |
| `Webhook.Truthy` | routers/webhook.py:109 | a JSON value is truthy iff it is none of `None`, `False`, zero, `""`, `[]`, `{}` |
| `Webhook.Get` | routers/webhook.py:106-107 | a present key reads as its value; an absent key reads as `None` (`JNull`), which is falsy |
| `Webhook.StatusCode` | routers/webhook.py:118-126 | returned dicts (success or caught `HTTPException`) are 200; only the re-raised exception is 500 |
| `Webhook.ErrorDictIsOk` | routers/webhook.py:120-126 | every error dict the handler returns, including each signature rejection, is sent with 200; the handler answers 500 iff `compare_digest` raised, or the request verified and the payload did not parse to an object |
| `Webhook.DeployTasks` | routers/webhook.py:113-115 | exactly three tasks: clone of the given url into the given folder, compose of that same folder, then prune |
| `Webhook.DetailIsNotMissingFields` | routers/webhook.py:110 | no signature detail equals the payload-fields detail |
| `Webhook.Decide` | routers/webhook.py:95-126 | tasks are scheduled iff the response is the success dict. That happens iff the request verified, the payload is an object, and both fields are truthy. The tasks are then exactly clone(url, folder), compose(folder), prune() with the payload's values, and the payload is echoed. A signature rejection returns `{"error": detail}` with nothing scheduled. Missing fields give the payload-fields error. Only a non-`HTTPException` error gives the 500 |
| `Webhook.BackgroundTasks.constructor` | routers/webhook.py:96 | the task list starts empty |
| `Webhook.BackgroundTasks.AddTask` | routers/webhook.py:113-115 | `add_task` appends one task at the end |
| `Webhook.FarhynWebhook` | routers/webhook.py:95-126 | the handler returns `Decide`'s response and appends exactly `Decide`'s tasks to the background list, leaving it unchanged on every error |
| `Webhook.SignedDeployScheduled` | routers/webhook.py:102-118 | a correctly signed `{"repository_url": "https://example/repo.git", "folder_name": "proj"}` is acknowledged and schedules clone, compose, prune with exactly those values |
| `Webhook.Sha1Rejected` | routers/webhook.py:31-32 | a `sha1=` header gets the "Unsupported signature algorithm" error dict and schedules nothing, whatever the body or payload |
| `Webhook.MissingFolderRejected` | routers/webhook.py:106-110 | a correctly signed payload without `folder_name` gets the missing-fields error dict and schedules nothing |
| `Deploy.ClonePath` | routers/webhook.py:48 | the clone path is `/var/www/` followed by the folder name verbatim |
| `Deploy.CloneCommand` | routers/webhook.py:56 | `git clone <url> <folder>` with working directory `/var/www`: git receives the folder name itself, and that directory joined with the name is the clone path |
| `Deploy.BuildCommand` | routers/webhook.py:67 | `docker compose build --no-cache` runs inside the clone path |
| `Deploy.UpCommand` | routers/webhook.py:73 | `docker compose up -d` runs inside the clone path and is a different command from the build |
| `Deploy.PruneCommand` | routers/webhook.py:85 | `docker system prune --volumes -f` runs in no project directory |
| `Deploy.Checked` | routers/webhook.py:56-60 | with `check=True`, a step fails iff the command exits non-zero, with a `RuntimeError` carrying the step's prefix and the captured stderr |
| `Deploy.WithoutTree` | routers/webhook.py:52 | `rmtree` removes the root and everything below it and keeps every other path |
| `Deploy.Host.constructor` | routers/webhook.py:47 | a host starts with the given paths and an empty trace |
| `Deploy.Host.RemoveTree` | routers/webhook.py:52 | removes the tree and records the removal |
| `Deploy.Host.Run` | routers/webhook.py:56 | a command is answered by the runner for the current paths and recorded together with those paths |
| `Deploy.Host.GitClone` | routers/webhook.py:47-60 | an existing `/var/www/<folder>` is removed (with everything below it) before `git clone <url> <folder>` runs in `/var/www`. The recorded clone saw paths without the target, and its exit status is the runner's answer for those paths. A non-zero exit is "Failed to clone repository: " plus stderr |
| `Deploy.Host.DockerCompose` | routers/webhook.py:64-79 | `build --no-cache` runs first; `up -d` runs iff the build exited 0; a failing step gives "Failed to docker compose: " plus that step's stderr |
| `Deploy.Host.DockerPrune` | routers/webhook.py:83-91 | exactly one `docker system prune --volumes -f`; a non-zero exit gives "Failed to prune Docker resources: " plus stderr |

## Left out

- HMAC-SHA256 (RFC 2104 over FIPS 180-4 SHA-256) is the parameter `mac`, and `secret_key.encode()` is folded into it.
- The constant-time property of `hmac.compare_digest` is not modelled; timing cannot be expressed, so it is string equality plus its ASCII check.
- Reading the body and parsing JSON are framework I/O. The body read is a `Result` given with the request, and the JSON decoder is a parameter. JSON `NaN`/`Infinity`, which Python decodes as truthy floats, are not modelled.
- The `X-Hub-Signature-256` lookup is taken as already done. Header-name case-insensitivity and the latin-1 decoding of header bytes are not modelled.
- How the framework runs the scheduled tasks, including whether later tasks run after one raises, is not modelled. Only the scheduled list is.
- The background steps are modelled for string arguments only. What `git_clone` does with a truthy non-string JSON value (`str()` in the path, a `TypeError` from `subprocess`) is not modelled.
- The external commands do not change the path set in the model; in particular the directory a successful `git clone` creates is not added, so `Host.paths` after `GitClone` is the state the clone started from. Their effect on the filesystem, on containers and on images belongs to git and docker, which the `Runner` abstracts.
- Deploy.Host.GitClone: paths are compared as written. `os.path.exists` normalisation (`//`, `..`) is not modelled. The removal at the clone path always succeeds in the model. None of the exceptions `rmtree` can raise is modelled: a plain file, a symbolic link, a permission error. Each of these would end `git_clone` before the clone runs, because the removal sits outside the `try`.
- Exceptions from `subprocess.run` other than a non-zero exit (a missing executable) are not modelled.
- Logging, deleting the log file at the start of each request, and loading `SECRET_KEY` from configuration are I/O and configuration. An `os.remove` failure on the log file, which would give the 500, is therefore not modelled.
- `routers/track_log.py`, `main.py` and `generate_secrect.py` hold no stateable logic (a logging decorator, app wiring, random key printing) and are not part of this model.
