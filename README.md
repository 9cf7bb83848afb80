# Step-count automation core: tiered token lifecycle, per-account run, batch

This project models the core of `main.py`, a tool that submits a daily step
count to a fitness service for one or more accounts. The modelled parts are:

- **The tiered credential lifecycle of `MiMotionRunner.login`.** A shared
  token store maps each normalised identity to a bundle of three tokens:
  - the access token lives 30 days, the login token 7 days, the app token 24 hours;
  - each token is stored with the time it was obtained, plus a user id and a device id.
- **The fallback `login` walks**, from cheapest to most expensive:
  1. the cached app token, while it is fresh;
  2. an optional remote check of the app token;
  3. a refresh with the login token;
  4. a refresh with the access token;
  5. the full login chain.
- **The per-account run.** `login_and_post_step` and `run_single_account`
  turn every outcome into a result record for the input identity. A raised
  error is one of those outcomes.
- **The sequential batch `execute`.** It splits the configured identities and
  passwords on `#`, runs every account in order against one shared store,
  counts the successes and decides whether the store is persisted.
- **The string helpers.** These are log redaction of identities, and taking
  the access token or error code out of a redirect location.

Layout (one module per file):

- `wrappers.dfy`: `Option`.
- `pystr.dfy`: Python's clamped slicing, `startswith`, `split` and `join`, with the split/join round trip.
- `redaction.dfy`: `desensitize_user_name`.
- `redirect.dfy`: `get_access_token` and `get_error_code`.
- `identity.dfy`: identity normalisation of `MiMotionRunner.__init__`.
- `tokens.dfy`: token bundles, the expiry rule and the lifecycle.
  - `Login` is a function on values: the session before, the clock `now`, and an `Oracle` holding the answer of every remote call site.
  - Its result states the outcome, the session after and the exact list of remote calls made.
  - The lifecycle properties are lemmas about this function.
  - The file also holds the `TokenStore` class, the shared dictionary.
- `runner.dfy`: the `MiMotionRunner` class, which updates the shared store and its own fields step by step.
  - Its `Login` method is proved to end exactly as `Tokens.Login` says.
  - A ghost field records the remote calls it makes.
  - The file also holds the random step choice and `run_single_account`.
- `scheduler.dfy`: the sequential branch of `execute`.

Behaviour of the code that the model keeps as written:

- The fast path returns whatever app token is cached, even an absent one (main.py:168-171).
- A missing device id is written back into the cached entry before any tier is tried (main.py:162-164).
- The access-token tier has a quirk when a cached bundle's access stamp is missing or unparseable:
  - the log line at main.py:217 calls `int()` on that stamp and raises;
  - so the full login is never reached;
  - the account's result is the "execution error" result of main.py:301-305 (`Tokens.UnreadableAccessStampThrows`).
- The full login chain does not set the runner's user id (main.py:230-243), unlike the access-token tier (main.py:211). The step post after a full login therefore gets the user id read from the cache, or None (`Tokens.FullLoginKeepsRunnerUserId`).
- The full login chain makes two remote calls, `login_access_token` then `grant_login_tokens` (main.py:220-228). With the step post, an account that had no cache makes three remote calls.

## Model

| member | source | states |
|---|---|---|
| PyStr.Head | main.py:48-49 | `s[:n]` is the first `min(n, len)` characters |
| PyStr.Tail | main.py:48-49 | `s[-n:]` is the last `min(n, len)` characters, and `s[-0:]` is the whole string |
| PyStr.Split | main.py:313-314 | splitting on `#` gives one more piece than there are separators, and no piece holds a separator |
| PyStr.JoinSplit | main.py:313-314 | joining the pieces of a split gives back the configured string |
| PyStr.SplitJoin | main.py:313-314 | splitting a join of separator-free pieces gives back the pieces, so split and join are inverse |
| Redaction.Desensitize | main.py:45-49 | the empty identity gives `***`. Up to 8 characters: the first and last `max(len/3, 1)` characters around `***`, length `2*ln+3`. Longer: the first 3 and the last 4 characters around `****`, length 11 |
| Redaction.RedactionHidesSomething | main.py:45-49 | from 3 characters on, fewer identity characters are shown than the identity has |
| Redaction.ShortIdentityShownInFull | main.py:46-48 | a 1- or 2-character identity is shown in full by the kept ends |
| Redirect.FirstTagged | main.py:72-76 | None iff no key occurrence reaches a `&` without a newline. Otherwise the value has no `&` or newline, `key + value + "&"` occurs in the input, and it is the leftmost match |
| Redirect.GetAccessToken | main.py:71-76 | the properties of `FirstTagged` for `access=` |
| Redirect.GetErrorCode | main.py:79-84 | the properties of `FirstTagged` for `error=` |
| Redirect.EmptyValueIsFound | main.py:71-76 | `access=&` yields the empty string, not None |
| Identity.NormalizeUser | main.py:122-125 | the result starts with `+86` or contains `@`. It equals the input iff the input already does. The input is a suffix of the result |
| Identity.NormalizeIdempotent | main.py:122-125 | normalising twice is normalising once |
| Identity.PhoneUnlessEmail | main.py:122-129 | `is_phone` holds iff the raw identity starts with `+86` or has no `@` |
| Tokens.ExpiryRule | main.py:135-148 | the source's division of elapsed milliseconds by an hour, compared with the lifetime, is the integer test `now - t >= hours * 3600000`. A future stamp is never expired. A missing or unparseable stamp always is |
| Tokens.FreshAppTokenNeedsNoRemoteCall | main.py:155-171 | an app token under 24 h old is returned as stored (even None), with zero remote calls, whatever `skip_token_check` is. Only the device-id write-back changes the store |
| Tokens.SkipNeverVerifies | main.py:174-186 | with `skip_token_check`, `check_app_token` is never called |
| Tokens.VerifiedTokenOnlyRestamped | main.py:178-184 | a stale app token accepted by the remote check is returned after exactly that one call. Only its stamp changes, to `now` |
| Tokens.LoginTierChangesOnlyAppToken | main.py:189-197 | a successful login-token refresh changes only the app token and its stamp. The calls made are exactly the check (unless skipped) and one grant with the cached login token |
| Tokens.AccessTierKeepsAccessToken | main.py:200-213 | a successful access-token refresh sets the login token, app token, user id and the two stamps, and keeps the access token and its stamp. The runner takes the new user id. The calls made are exactly the check (unless skipped), the login-token grant when that token was under 7 days old, and one grant with the cached access token and device id |
| Tokens.UnreadableAccessStampThrows | main.py:200-217 | with a cached bundle whose tiers give way and whose access stamp is missing or unparseable, `login` raises, never calls `login_access_token`, and leaves only the device-id write-back |
| Tokens.ReachesFullLogin | main.py:166-225 | when every cached tier gives way, `login` is the full login chain run from the pinned session after the calls those tiers made |
| Tokens.FullLoginStoresFreshBundle | main.py:220-243 | a successful full login stores a new entry with all three stamps at `now` and the cached device id, after the two calls of the chain |
| Tokens.FullLoginFailureKeepsTokens | main.py:220-228 | a failure at either step of the full login returns None and changes no token |
| Tokens.FullLoginKeepsRunnerUserId | main.py:220-243 | the full login leaves the runner's user id as read from the cache |
| Tokens.OnlyOwnKeyWritten | main.py:155-243 | `login` writes no key other than its own identity and removes none |
| Tokens.DeviceIdPinned | main.py:160-164 | a cached device id never changes. Afterwards the entry has a device id, and it is the runner's |
| Tokens.RefreshesRespectLifetimes | main.py:189-204 | `grant_app_token` is called only with a login token under 7 days old. The cached access token is used only when under 30 days old |
| Tokens.FullLoginStartsWithLogin | main.py:220-225 | the full chain appends one or two calls, the first being `login_access_token` |
| Tokens.RemoteCallBound | main.py:151-243 | at most five remote calls per login, and at most two without a cached bundle |
| Tokens.TokenStore.constructor | main.py:116 | a store created for a runner without one is empty |
| Runner.ChooseStep | main.py:254-260 | the step is the fixed value or a value of `[min_step, max_step]`. None (the `randint` error) exactly when the range is empty |
| Runner.MiMotionRunner.constructor | main.py:109-130 | the key is the normalised identity. `is_phone` and `invalid` are as in `Identity`. The device id is the drawn UUID, with no user id and no remote call yet |
| Runner.MiMotionRunner.Login | main.py:151-243 | the in-place updates of store, device id and user id end exactly in `Tokens.Login`'s outcome, session and remote calls |
| Runner.MiMotionRunner.TryLoginToken | main.py:189-197 | the login-token tier's updates match `Tokens.RefreshWithLoginToken` |
| Runner.MiMotionRunner.TryAccessToken | main.py:200-217 | the access-token tier's updates match `Tokens.RefreshWithAccessToken` |
| Runner.MiMotionRunner.FullLoginChain | main.py:220-243 | the full chain's updates match `Tokens.FullLogin` |
| Runner.MiMotionRunner.LoginAndPostStep | main.py:247-263 | an invalid runner returns the wrong-credentials answer and does nothing. A raise from `login` or `randint` is a raise. No token gives the login-failed answer. Otherwise one post is made, with an allowed step, the token and the user id, and its answer is returned |
| Runner.RunSingleAccount | main.py:289-307 | the result is `AccountResult` for the store before the run: the raw identity; wrong credentials, a raise of `login` or `randint`, and a failed login each give their failed result; after a post, success is the post's `ok` and the message carries the allowed step and the reply. The store afterwards is `StoreAfterAccount`: unchanged for invalid credentials, else what `Tokens.Login` leaves. No other key changes |
| Runner.SuccessIffPostAccepted | main.py:247-263 | an account succeeds iff its credentials are set, `login` returned an app token, a step could be drawn and the post was acknowledged |
| Runner.StoreAfterAccountKeepsOthers | main.py:295-296 | one account's run leaves every other identity's entry as it was |
| Scheduler.CountSuccess | main.py:332-337 | the success count is at most the number of results. It equals that number iff all succeeded, and is 0 iff none did |
| Scheduler.CountSuccessAppend | main.py:332-337 | counting successes is additive over concatenation |
| Scheduler.TallySuccesses | main.py:332-337 | the counting loop computes `CountSuccess` |
| Scheduler.RunAccounts | main.py:324-326 | one result per account in input order, each the `AccountResult` of that account against the store its predecessors left; the store ends as `StoreAfter`, the in-order fold of the accounts' runs |
| Scheduler.StoreAfterStep | main.py:324-326 | running one more account extends the store fold by that account's run |
| Scheduler.StoreAfterKeepsOthers | main.py:324-326 | a batch changes no entry outside its own accounts' normalised identities |
| Scheduler.Execute | main.py:310-343 | abort (no account run, store unchanged) iff the split lengths differ. Otherwise: one result per account in order, each the `AccountResult` against the store its predecessors left; the final store is `StoreAfter` of all accounts; success count `CountSuccess`; failures `total - success`; that final store is handed to persistence iff encryption is on and a key is present; only the batch's keys may change |

## Left out

- Remote calls (`check_app_token`, `grant_app_token`, `grant_login_tokens`, `login_access_token`, `post_fake_brand_data`) live in `util/zepp_helper.py`, which is not part of this model. They are answers fixed in advance per call site (`Tokens.Oracle`, `Runner.PostReply`). Errors these calls may raise are not modelled.
- Encryption and file I/O are not modelled: `util/aes_help.py`, `prepare_user_tokens` and `persist_user_tokens` (main.py:346-368). Only the decision to persist is modelled, as the store contents handed over.
- Notification (`push_plus`, `push_to_push_plus`) is HTTP output gated on the wall clock.
- The concurrent branch of `execute` (main.py:318-322) is not modelled. `time.sleep` pacing is not modelled either.
- The clock (`get_beijing_time`, `format_now`, `get_time`) is an integer `now` in milliseconds, one value per login. The source reads the clock several times during one login; the model ignores the milliseconds between those reads.
- `Scheduler.Execute`: each account gets its own world `env(i)` (clock, UUID, remote answers), since the clock and the remote service are outside the model.
- `Tokens.IsExpired`: the float division of main.py:145 is replaced by exact arithmetic (`Tokens.ExpiryRule`). The two differ only where a float quotient rounds across the threshold.
- A stored stamp is a number of milliseconds or text that `int()` rejects (`Stamp.Unparseable`). Python's exact `int()` grammar is not modelled.
- The token store holds bundles as values, and an entry present but None is not modelled. The source's dictionaries are separate objects per key, so updating one in place is a map update of that key.
- `get_min_max_by_time`, `fake_ip`, `get_int_value_default` and everything under `__main__` are configuration, floating point or unused randomness.
- UUIDs are arbitrary strings given as parameters.
- Log text is not modelled: `log_str`, the redacted log header of `run_single_account`, traceback text, and `self.error`. Results carry a `Runner.Message` value in place of the exact message text; each constructor's comment gives the source's wording.
- `run_single_account`'s `idx` and `total` appear only in log text and are not parameters of the model.
- The `if self.device_id is None` at main.py:239 never fires, because the device id is always set by then. It is not modelled.
- `Runner.RunSingleAccount`: only the two errors that can arise inside the modelled code are modelled, the unreadable access stamp and an empty step range. Their message is `Crashed(fault)`.
