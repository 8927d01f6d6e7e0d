# Stale-session cleanup for an identity provider — a verified model

`automation.py` removes orphaned sessions from a Keycloak-style identity provider. It
gets an access token by a client-credentials exchange and caches it with its expiry.
It lists the enabled users, lists each user's sessions, and sends a DELETE for every
session whose `clients` mapping is empty.

This project models that core in Dafny:

- `Tokens` holds the token cache. The globals `access_token` and `access_token_expiry` become the
  class `TokenCache`, with the methods `GetAccessToken` and `GetValidAccessToken`. The pure
  functions `AccessToken` and `ValidAccessToken` specify them.
- `Readers` holds the fail-open reads `get_users` and `get_user_sessions`, as methods and
  as specifying functions.
- `Reconcile` holds the pass `delete_inactive_user_sessions`. The method
  `DeleteInactiveUserSessions` has the source's nested loops. It is proved equal to the
  fold `Pass`, which is built from one step per user (`VisitUser`) and one step per
  session (`VisitSession`).
- `ReconcileProofs` proves what a pass guarantees. `Scenarios` proves what a pass does
  against two concrete scripted servers.

The outside world is `Http`. The class `Network` keeps the log of requests sent and
counts the clock readings. The datatype `Script` gives the answers: the k-th clock reading,
and each server answer as a function of the request log with the new request last. The
program is deterministic, so every real run is the run against some script.

Exceptions are modelled as follows. A transport or HTTP-status failure (`RequestException`)
is an answer: `Refused`, `Failed`, or `false` for a DELETE. Any other exception is
`Outcome.Raised`. For example, a `KeyError` from a record without `id`, `username`
or `clients`, or a 2xx token answer without `access_token` or `expires_in`
(`Grant.Malformed`). A raised exception ends the pass, and the outermost handler
swallows it. The report records this as `aborted`.

Two properties of the code are worth stating outright:

- Isolation between users holds only for request failures. Any other exception ends the
  whole pass (`ReconcileProofs.AbortInUserEndsThePass`, `Scenarios.KeyErrorEndsThePass`).
- `get_valid_access_token` checks only the clock. Without a token the expiry is still 0
  (`Tokens.Consistent`), so at any clock reading of 0 or more an empty cache is refreshed
  (`Tokens.NoTokenForcesExchange`).

## Model

| member | source | states |
|---|---|---|
| `Tokens.TokenCache.constructor` | automation.py:21-22 | the cache starts with no token and expiry 0 |
| `Tokens.AccessToken` | automation.py:25-42 | exactly one token request is sent; a returned token is the stored one; the expiry moves only on a granted exchange; the call raises only on a malformed answer; cache consistency is kept |
| `Tokens.ValidAccessToken` | automation.py:45-48 | the clock is read; at most one token request and nothing else is sent; a returned token is the cached one; the call raises only when the exchange it made was malformed; consistency is kept |
| `Tokens.ReuseWhileFresh` | automation.py:45-48 | while the clock is below the expiry, the cached token is returned, no request is sent and the cache is unchanged |
| `Tokens.RefreshWhenExpired` | automation.py:46-47 | once the clock reaches the expiry (no margin), exactly one exchange is sent |
| `Tokens.FirstCallExchanges` | automation.py:22-48 | from the initial cache, the first call at a non-negative time exchanges |
| `Tokens.GrantIsStored` | automation.py:36-39 | a grant stores the token with expiry = clock reading after the answer + `expires_in`, and returns it |
| `Tokens.RefusalKeepsCache` | automation.py:33-42 | a refused exchange returns None and leaves token and expiry unchanged, so the next call at the same or a later time exchanges again |
| `Tokens.MalformedKeepsExpiry` | automation.py:35-38 | a 2xx answer missing a key raises, never moves the expiry, and may already have stored the token |
| `Tokens.NoTokenForcesExchange` | automation.py:21-48 | with a consistent cache and a non-negative clock, holding no token forces an exchange |
| `Tokens.TokenAvailableWhenGranted` | automation.py:33-48 | with a consistent cache and a non-negative clock, when the exchange would be granted, the call returns a token |
| `Tokens.TokenCache.GetAccessToken` | automation.py:25-42 | the imperative exchange updates the fields and the network exactly as `AccessToken` says |
| `Tokens.TokenCache.GetValidAccessToken` | automation.py:45-48 | the imperative check-then-refresh acts exactly as `ValidAccessToken` says |
| `Readers.OrEmpty` | automation.py:61-65 | a failed read yields the empty list; a successful one yields the body unchanged |
| `Readers.ListUsers` | automation.py:51-65 | raises only when the exchange was malformed; yields [] or the fetched list unchanged; sends no DELETE; keeps consistency |
| `Readers.ListUserSessions` | automation.py:68-82 | the same for one user's sessions; a non-empty answer comes from a sessions request for that user, sent last |
| `Readers.ListUsersFailsOpen` | automation.py:51-65 | without a token: [] and no listing request; with one: exactly one request carrying it, and the body unchanged or [] on failure; exchange exceptions propagate |
| `Readers.ListUserSessionsFailsOpen` | automation.py:68-82 | the same for `get_user_sessions`, whose request names the user |
| `Readers.GetUsers` | automation.py:51-65 | the imperative read acts exactly as `ListUsers` says |
| `Readers.GetUserSessions` | automation.py:68-82 | the imperative read acts exactly as `ListUserSessions` says |
| `Reconcile.Orphaned` | automation.py:96 | a session is orphaned iff it has a `clients` mapping and that mapping is empty |
| `Reconcile.Decide` | automation.py:96-109 | kept iff bound to a client; skipped iff orphaned and the token call returned None; raises iff `clients` is missing, or an orphan lacks `id`, or the token call raised; a bound session, a missing `clients` or a missing `id` costs nothing (world unchanged: no clock read, no request); an orphan skipped or raising at the token call leaves exactly the token call's world; an orphan with an id and a token gets exactly one DELETE naming that id and token, sent last |
| `Reconcile.VisitSession` | automation.py:95-109 | the step records the session with its decision, or ends the pass exactly when the decision raised; the listings are untouched |
| `Reconcile.SessionsFrom` | automation.py:95-109 | the inner loop never changes the listings, and does nothing once the pass is cut short |
| `Reconcile.VisitUser` | automation.py:90-94 | a user without `id` or `username` ends the pass before any request; a raising session listing ends it with the listing's world; otherwise the user is listed with exactly the list `get_user_sessions` returned, and a step that does not end the pass always lists its user |
| `Reconcile.UsersFrom` | automation.py:90-109 | the outer loop only appends to the listings, and does nothing once the pass is cut short |
| `Reconcile.Pass` | automation.py:85-111 | a raising user listing ends the pass with the listing's world and nothing done; an empty listing completes it with nothing done |
| `Reconcile.DeleteInactiveUserSessions` | automation.py:85-111 | the nested loops, with `continue` and early exit on an exception, end in the state and report of `Pass` |
| `ReconcileProofs.DecideDeletions` | automation.py:96-109 | one decision sends at most one DELETE, the one it records, and only appends to the log |
| `ReconcileProofs.VisitSessionDeletions` | automation.py:95-109 | one inner iteration adds to the DELETE log exactly the attempt it records |
| `ReconcileProofs.VisitSessionDecided` | automation.py:96-100 | the recorded decision follows the orphan rule; when every exchange is granted and the clock is non-negative, it is never a skip |
| `ReconcileProofs.VisitSessionContinues` | automation.py:96-109 | a session with `clients`, and with `id` when orphaned, never ends the pass unless the token answer is malformed |
| `ReconcileProofs.VisitSessionSound` | automation.py:95-109 | one inner iteration keeps the invariant (decisions, DELETE log, cache consistency, anchored listings, no skips when granting) |
| `ReconcileProofs.SessionsFromOrder` | automation.py:95-109 | the inner loop visits a prefix of the remaining sessions in list order, all of them unless cut short |
| `ReconcileProofs.SessionsFromSound` | automation.py:95-109 | the inner loop keeps the invariant and, on well-formed sessions against a server that only fails requests, is never cut short |
| `ReconcileProofs.ListedSessionsWellFormed` | automation.py:68-82 | against a server that only fails requests, listing sessions does not raise and yields well-formed records |
| `ReconcileProofs.ListingIsAnswered` | automation.py:93 | the listing recorded for a user is the server's answer to a sessions request for that user |
| `ReconcileProofs.ListingKeepsInv` | automation.py:93 | listing a user's sessions sends no DELETE and keeps the invariant |
| `ReconcileProofs.ListingRecordedKeepsInv` | automation.py:93-94 | recording the listed sessions as that user's listing keeps the invariant |
| `ReconcileProofs.VisitUserLists` | automation.py:90-94 | one outer iteration adds its user to the listed users or nothing, and always adds it unless the pass is cut short |
| `ReconcileProofs.VisitUserVisits` | automation.py:93-109 | one outer iteration visits a prefix of its user's listing, all of it unless cut short |
| `ReconcileProofs.VisitUserSound` | automation.py:90-109 | one outer iteration keeps the invariant and, for a user with `id` and `username` against a server that only fails requests, does not end the pass |
| `ReconcileProofs.UsersFromLists` | automation.py:90-94 | the outer loop lists a prefix of the directory, all of it unless cut short |
| `ReconcileProofs.UsersFromVisits` | automation.py:90-109 | the outer loop visits a prefix of the listed sessions, all of them unless cut short |
| `ReconcileProofs.UsersFromSound` | automation.py:90-109 | the outer loop keeps the invariant and, on well-formed users against a server that only fails requests, is never cut short |
| `ReconcileProofs.StartKeepsInv` | automation.py:87 | listing the users sends no DELETE and establishes the invariant |
| `ReconcileProofs.PassSound` | automation.py:85-111 | the invariant holds at the end of every pass, and a server that only fails requests never cuts a pass short |
| `ReconcileProofs.VisitsFollowDirectoryOrder` | automation.py:87-100 | the listed users are a prefix of the directory listing; sessions are visited user by user, then in list order, each listed session at most once; an uninterrupted pass lists every user and visits every listed session, skips included |
| `ReconcileProofs.ListingsAreServerAnswers` | automation.py:93 | every listing in the report is the server's answer to a sessions request for that user, found in the request log |
| `ReconcileProofs.OnlyOrphansAreDeleted` | automation.py:96-106 | a visited session is kept iff it has a client binding; every DELETE attempt names the id of an orphaned session |
| `ReconcileProofs.OrphansAreDeletedWhenGranted` | automation.py:96-106 | when every exchange is granted and the clock is non-negative, a visited session is sent to DELETE iff it is orphaned |
| `ReconcileProofs.AttemptsAreTheOrphans` | automation.py:96-106 | without skips, the ids of the DELETE attempts are the ids of the orphaned visited sessions, in order |
| `ReconcileProofs.DeletesExactlyTheOrphans` | automation.py:85-111 | when every exchange is granted and only requests fail: the pass completes, lists every user, anchors every listing in the log, and sends DELETE for exactly the orphaned listed sessions, in order, and nothing else |
| `ReconcileProofs.DeletesAreTheAttempts` | automation.py:96-109 | the DELETE requests of a pass are exactly the report's attempts, in order |
| `ReconcileProofs.RequestFailuresNeverAbort` | automation.py:105-111 | against a server whose only misbehaviour is failing requests, a pass is never cut short |
| `ReconcileProofs.PassKeepsCacheConsistent` | automation.py:85-111 | a pass keeps the token cache consistent |
| `ReconcileProofs.AbortInSessionEndsThePass` | automation.py:95-111 | when a session step raises, the rest of the pass is that step's result: no later session or user is visited and nothing more is sent |
| `ReconcileProofs.AbortInUserEndsThePass` | automation.py:90-111 | when reading a user's keys or listing its sessions raises, the rest of the pass is that step's result |
| `ReconcileProofs.EmptyDirectoryDeletesNothing` | automation.py:87-90 | when the user listing yields nothing (no token or a failed request), the pass completes, visits nothing and deletes nothing |
| `Scenarios.OrphanOfOneUserIsDeleted` | automation.py:85-111 | a user with one orphaned and one bound session: one exchange, a DELETE for the orphan only |
| `Scenarios.BrokenFirstUserReads` | automation.py:45-82 | against that server, the first read exchanges once and lists both users, and the first user's session list is the record without `clients` |
| `Scenarios.KeyErrorEndsThePass` | automation.py:90-111 | a session without `clients` under the first user ends the pass; the second user is never listed |

## Left out

- HTTP transport, URLs, realm names, headers and the form-encoded body. Each request is
  only its kind, the ids it names and the bearer token. Each answer is only success or failure.
- JSON decoding is not modelled. Records are datatypes whose keys may be missing. A body that is not JSON
  raises `requests`' JSON decode error, which is a `RequestException` in current
  versions, so it counts as a failed request. Bodies of the wrong JSON shape are not modelled.
  Examples: a non-list listing, `clients` that is not an object, `access_token: null`, a
  non-numeric `expires_in`.
- The `max=2000` cap on the user listing is a query parameter that the server applies. The
  model iterates over whatever list the server returns.
- `time.time()` is a float. The model uses integer clock readings. Only `>=` and the addition
  matter.
- Argument parsing and the configuration globals are left out. The client id and secret are opaque.
  All logging is left out, including the stray arguments of two `logging.info` calls.
  Those errors are reported inside `logging` and do not affect control flow.
- `main` and the `__main__` guard are left out.
- Idempotence across runs is not modelled. Whether a second pass deletes nothing depends on the server
  forgetting deleted sessions. Nothing in this code can show that.
- DeleteInactiveUserSessions: the source returns nothing. The model returns a report
  of the listings and of what was done with each session. It records a skip for lack of a
  token, which the source only `continue`s past.
