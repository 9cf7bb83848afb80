/**
 * The tiered credential lifecycle of `MiMotionRunner.login`, as a function on
 * values. A credential bundle holds three tokens of decreasing lifetime
 * (access token 30 days, login token 7 days, app token 24 hours), each with
 * the time it was obtained; `Login` walks the fallback from the cheapest
 * reuse to a full login and says what it returns, what the token store holds
 * afterwards and which remote calls it made.
 */
module Tokens {
  import opened Wrappers

  /** Milliseconds in an hour. */
  const MS_PER_HOUR: int := 3_600_000

  /** Lifetimes, in hours, that `login` passes to `_is_token_expired`. */
  const APP_TOKEN_HOURS: nat := 24
  const LOGIN_TOKEN_HOURS: nat := 7 * 24
  const ACCESS_TOKEN_HOURS: nat := 30 * 24

  /**
   * A stored acquisition time: the milliseconds that `get_time` writes, or
   * stored text that `int()` rejects.
   */
  datatype Stamp = Millis(ms: int) | Unparseable

  /** The per-identity entry of the token store; an absent key reads as None. */
  datatype Bundle = Bundle(
    accessToken: Option<string>, accessTime: Option<Stamp>,
    loginToken: Option<string>, loginTime: Option<Stamp>,
    appToken: Option<string>, appTime: Option<Stamp>,
    userId: Option<string>, deviceId: Option<string>)

  /**
   * `_is_token_expired`: a missing or unparseable stamp is expired; otherwise
   * the token is expired once the elapsed time reaches the lifetime.
   */
  predicate IsExpired(stamp: Option<Stamp>, now: int, hours: nat) {
    match stamp
    case None => true
    case Some(Unparseable) => true
    case Some(Millis(t)) => now - t >= hours * MS_PER_HOUR
  }

  /** `int(stamp)` succeeds. */
  predicate Readable(stamp: Option<Stamp>) {
    stamp.Some? && stamp.value.Millis?
  }

  /**
   * The source divides the elapsed milliseconds by the milliseconds of an
   * hour and compares the quotient with the lifetime; in exact arithmetic
   * that is the integer comparison `IsExpired` makes. A stamp in the future
   * is never expired; a missing or unparseable one always is.
   */
  lemma ExpiryRule(t: int, now: int, hours: nat)
    ensures (now - t) as real / MS_PER_HOUR as real >= hours as real <==> IsExpired(Some(Millis(t)), now, hours)
    ensures t > now ==> !IsExpired(Some(Millis(t)), now, hours)
    ensures IsExpired(None, now, hours) && IsExpired(Some(Unparseable), now, hours)
  {
    var elapsed := (now - t) as real;
    var h := MS_PER_HOUR as real;
    assert elapsed / h * h == elapsed;
    if elapsed / h >= hours as real {
      assert elapsed >= hours as real * h;
    } else {
      assert elapsed < hours as real * h;
    }
  }

  /** The tokens `grant_login_tokens` hands out when its login token is not None. */
  datatype Grant = Grant(loginToken: string, appToken: Option<string>, userId: Option<string>)

  /**
   * The outcome of each remote call site `login` may reach, and the UUID it
   * draws for a bundle without a device id. None stands for a failed call.
   */
  datatype Oracle = Oracle(
    newDeviceId: string,          // uuid4() for a cached bundle without device id
    appTokenValid: bool,          // check_app_token(app_token)
    appGrant: Option<string>,     // grant_app_token(login_token)
    refreshGrant: Option<Grant>,  // grant_login_tokens with the cached access token
    accessLogin: Option<string>,  // login_access_token(user, password)
    fullGrant: Option<Grant>)     // grant_login_tokens with the new access token

  /** A remote call with its arguments. */
  datatype Call =
    | CheckAppToken(app: Option<string>)
    | GrantAppToken(login: Option<string>)
    | GrantLoginTokens(access: Option<string>, device: string, isPhone: bool)
    | LoginAccessToken(user: string, password: string)
    | PostData(step: int, token: string, userId: Option<string>)

  /** The runner's fixed credentials: normalised identity, password, phone flag. */
  datatype Account = Account(user: string, password: string, isPhone: bool)

  /** The state `login` reads and writes: the shared store and the runner's ids. */
  datatype Session = Session(tokens: map<string, Bundle>, deviceId: string, userId: Option<string>)

  /** `login` returns an app token (possibly None) or raises from `int()` (main.py:217). */
  datatype LoginOutcome = Returned(appToken: Option<string>) | Threw

  datatype LoginRun = LoginRun(outcome: LoginOutcome, after: Session, calls: seq<Call>)

  /** `user_token_info[...] = ...` on the entry of `user`. */
  function Store(s: Session, user: string, b: Bundle): Session {
    s.(tokens := s.tokens[user := b])
  }

  /**
   * Reading a cached bundle: the runner takes its device id and user id,
   * and a missing device id is replaced by a fresh UUID written back into
   * the entry.
   */
  function Pin(s: Session, user: string, newDeviceId: string): Session
    requires user in s.tokens
  {
    var b := s.tokens[user];
    match b.deviceId
    case Some(d) => Session(s.tokens, d, b.userId)
    case None => Session(s.tokens[user := b.(deviceId := Some(newDeviceId))], newDeviceId, b.userId)
  }

  /** The bundle a full login stores: every tier new, all stamped `now`. */
  function FreshBundle(access: string, g: Grant, deviceId: string, now: int): Bundle {
    Bundle(Some(access), Some(Millis(now)), Some(g.loginToken), Some(Millis(now)),
           g.appToken, Some(Millis(now)), g.userId, Some(deviceId))
  }

  /** `login` (main.py:151-243). */
  function Login(a: Account, s: Session, skip: bool, now: int, o: Oracle): LoginRun {
    if a.user !in s.tokens then FullLogin(a, s, now, o, [])
    else
      var s1 := Pin(s, a.user, o.newDeviceId);
      var b := s1.tokens[a.user];
      if !IsExpired(b.appTime, now, APP_TOKEN_HOURS) then
        LoginRun(Returned(b.appToken), s1, [])
      else if !skip && o.appTokenValid then
        LoginRun(Returned(b.appToken), Store(s1, a.user, b.(appTime := Some(Millis(now)))), [CheckAppToken(b.appToken)])
      else
        RefreshWithLoginToken(a, s1, b, now, o, if skip then [] else [CheckAppToken(b.appToken)])
  }

  /** The login-token tier (main.py:189-197); a failed grant falls through unchanged. */
  function RefreshWithLoginToken(a: Account, s: Session, b: Bundle, now: int, o: Oracle, calls: seq<Call>): LoginRun {
    if !IsExpired(b.loginTime, now, LOGIN_TOKEN_HOURS) then
      var calls' := calls + [GrantAppToken(b.loginToken)];
      match o.appGrant
      case Some(t) =>
        LoginRun(Returned(Some(t)), Store(s, a.user, b.(appToken := Some(t), appTime := Some(Millis(now)))), calls')
      case None => RefreshWithAccessToken(a, s, b, now, o, calls')
    else RefreshWithAccessToken(a, s, b, now, o, calls)
  }

  /**
   * The access-token tier (main.py:200-217). When the access token is
   * expired, the log line formats `int(access_token_time)`, which raises
   * when the stamp is missing or unparseable.
   */
  function RefreshWithAccessToken(a: Account, s: Session, b: Bundle, now: int, o: Oracle, calls: seq<Call>): LoginRun {
    if !IsExpired(b.accessTime, now, ACCESS_TOKEN_HOURS) then
      var calls' := calls + [GrantLoginTokens(b.accessToken, s.deviceId, a.isPhone)];
      match o.refreshGrant
      case Some(g) =>
        var b' := b.(loginToken := Some(g.loginToken), appToken := g.appToken, userId := g.userId,
                     loginTime := Some(Millis(now)), appTime := Some(Millis(now)));
        LoginRun(Returned(g.appToken), Session(s.tokens[a.user := b'], s.deviceId, g.userId), calls')
      case None => FullLogin(a, s, now, o, calls')
    else if Readable(b.accessTime) then FullLogin(a, s, now, o, calls)
    else LoginRun(Threw, s, calls)
  }

  /**
   * The full login chain (main.py:220-243). It replaces the entry, and it
   * does not set the runner's user id.
   */
  function FullLogin(a: Account, s: Session, now: int, o: Oracle, calls: seq<Call>): LoginRun {
    var calls1 := calls + [LoginAccessToken(a.user, a.password)];
    match o.accessLogin
    case None => LoginRun(Returned(None), s, calls1)
    case Some(access) =>
      var calls2 := calls1 + [GrantLoginTokens(Some(access), s.deviceId, a.isPhone)];
      match o.fullGrant
      case None => LoginRun(Returned(None), s, calls2)
      case Some(g) =>
        LoginRun(Returned(g.appToken), Store(s, a.user, FreshBundle(access, g, s.deviceId, now)), calls2)
  }

  /** The cached bundle of `a.user` with its device id pinned, as the tiers see it. */
  function Cached(a: Account, s: Session, o: Oracle): Bundle
    requires a.user in s.tokens
  {
    Pin(s, a.user, o.newDeviceId).tokens[a.user]
  }

  /**
   * The cached tiers all give way and the access stamp is readable, so
   * `login` reaches the full login chain.
   */
  ghost predicate FallsToFullLogin(a: Account, s: Session, skip: bool, now: int, o: Oracle) {
    a.user !in s.tokens ||
    var b := Cached(a, s, o);
    && IsExpired(b.appTime, now, APP_TOKEN_HOURS)
    && (skip || !o.appTokenValid)
    && (IsExpired(b.loginTime, now, LOGIN_TOKEN_HOURS) || o.appGrant.None?)
    && (IsExpired(b.accessTime, now, ACCESS_TOKEN_HOURS) || o.refreshGrant.None?)
    && Readable(b.accessTime)
  }

  /** The store after reading the cache alone: only the device id write-back. */
  function PinnedTokens(a: Account, s: Session, o: Oracle): map<string, Bundle> {
    if a.user in s.tokens then Pin(s, a.user, o.newDeviceId).tokens else s.tokens
  }

  /**
   * Fast path: an app token younger than 24 hours is returned as stored
   * (even None), with no remote call, whatever `skip` is; only a missing
   * device id is written back.
   */
  lemma FreshAppTokenNeedsNoRemoteCall(a: Account, s: Session, skip: bool, now: int, o: Oracle)
    requires a.user in s.tokens && !IsExpired(s.tokens[a.user].appTime, now, APP_TOKEN_HOURS)
    ensures var run := Login(a, s, skip, now, o);
      && run.outcome == Returned(s.tokens[a.user].appToken)
      && run.calls == []
      && run.after.tokens == PinnedTokens(a, s, o)
  {
  }

  /** With `skip_token_check`, `check_app_token` is never called. */
  lemma SkipNeverVerifies(a: Account, s: Session, now: int, o: Oracle)
    ensures var run := Login(a, s, true, now, o);
      forall i :: 0 <= i < |run.calls| ==> !run.calls[i].CheckAppToken?
  {
  }

  /**
   * Verify path: a stale app token that the remote check accepts is returned
   * unchanged after one call, and only its stamp moves, to `now`.
   */
  lemma VerifiedTokenOnlyRestamped(a: Account, s: Session, now: int, o: Oracle)
    requires a.user in s.tokens && IsExpired(s.tokens[a.user].appTime, now, APP_TOKEN_HOURS)
    requires o.appTokenValid
    ensures var run := Login(a, s, false, now, o);
      var b := Cached(a, s, o);
      && run.outcome == Returned(s.tokens[a.user].appToken)
      && run.calls == [CheckAppToken(s.tokens[a.user].appToken)]
      && run.after.tokens == PinnedTokens(a, s, o)[a.user := b.(appTime := Some(Millis(now)))]
  {
  }

  /**
   * Login-token tier: when it grants a new app token, only the app token and
   * its stamp change; the calls made are the check (unless skipped) and one
   * grant with the cached login token.
   */
  lemma LoginTierChangesOnlyAppToken(a: Account, s: Session, skip: bool, now: int, o: Oracle)
    requires a.user in s.tokens
    requires var b := s.tokens[a.user];
      IsExpired(b.appTime, now, APP_TOKEN_HOURS) && !IsExpired(b.loginTime, now, LOGIN_TOKEN_HOURS)
    requires skip || !o.appTokenValid
    requires o.appGrant.Some?
    ensures var run := Login(a, s, skip, now, o);
      var b := Cached(a, s, o);
      && run.outcome == Returned(o.appGrant)
      && run.after.tokens == PinnedTokens(a, s, o)[a.user := b.(appToken := o.appGrant, appTime := Some(Millis(now)))]
      && run.calls == (if skip then [] else [CheckAppToken(s.tokens[a.user].appToken)])
                      + [GrantAppToken(s.tokens[a.user].loginToken)]
  {
  }

  /**
   * Access-token tier: a successful refresh replaces the login token, app
   * token and user id and stamps the login and app tiers with `now`; the
   * access token and its stamp are kept. The calls made are the check
   * (unless skipped), the login-token grant when that token was young
   * enough, and one grant with the cached access token and device id.
   */
  lemma AccessTierKeepsAccessToken(a: Account, s: Session, skip: bool, now: int, o: Oracle)
    requires a.user in s.tokens
    requires var b := s.tokens[a.user];
      && IsExpired(b.appTime, now, APP_TOKEN_HOURS)
      && (IsExpired(b.loginTime, now, LOGIN_TOKEN_HOURS) || o.appGrant.None?)
      && !IsExpired(b.accessTime, now, ACCESS_TOKEN_HOURS)
    requires skip || !o.appTokenValid
    requires o.refreshGrant.Some?
    ensures var run := Login(a, s, skip, now, o);
      var b := Cached(a, s, o);
      var g := o.refreshGrant.value;
      && run.outcome == Returned(g.appToken)
      && run.after.tokens == PinnedTokens(a, s, o)[a.user := b.(
           loginToken := Some(g.loginToken), appToken := g.appToken, userId := g.userId,
           loginTime := Some(Millis(now)), appTime := Some(Millis(now)))]
      && run.after.tokens[a.user].accessToken == s.tokens[a.user].accessToken
      && run.after.tokens[a.user].accessTime == s.tokens[a.user].accessTime
      && run.after.userId == g.userId
      && run.calls == (if skip then [] else [CheckAppToken(b.appToken)])
                      + (if IsExpired(b.loginTime, now, LOGIN_TOKEN_HOURS) then [] else [GrantAppToken(b.loginToken)])
                      + [GrantLoginTokens(b.accessToken, b.deviceId.value, a.isPhone)]
  {
  }

  /**
   * The quirk at main.py:217: with a cached bundle whose tiers all give way
   * and whose access stamp is missing or unparseable, `login` raises before
   * the full login is tried; only the device id write-back has happened.
   */
  lemma UnreadableAccessStampThrows(a: Account, s: Session, skip: bool, now: int, o: Oracle)
    requires a.user in s.tokens
    requires var b := s.tokens[a.user];
      && IsExpired(b.appTime, now, APP_TOKEN_HOURS)
      && (IsExpired(b.loginTime, now, LOGIN_TOKEN_HOURS) || o.appGrant.None?)
      && !Readable(b.accessTime)
    requires skip || !o.appTokenValid
    ensures var run := Login(a, s, skip, now, o);
      && run.outcome == Threw
      && run.after.tokens == PinnedTokens(a, s, o)
      && forall i :: 0 <= i < |run.calls| ==> !run.calls[i].LoginAccessToken?
  {
  }

  /** The session the full login chain starts from: the cached entry pinned, if there is one. */
  function SessionAtFullLogin(a: Account, s: Session, o: Oracle): Session {
    if a.user in s.tokens then Pin(s, a.user, o.newDeviceId) else s
  }

  /** The calls the cached tiers make before they give way to the full login chain. */
  function CallsBeforeFullLogin(a: Account, s: Session, skip: bool, now: int, o: Oracle): seq<Call> {
    if a.user !in s.tokens then []
    else
      var b := Cached(a, s, o);
      var checked: seq<Call> := if skip then [] else [CheckAppToken(b.appToken)];
      var beforeAccess := if !IsExpired(b.loginTime, now, LOGIN_TOKEN_HOURS) then checked + [GrantAppToken(b.loginToken)] else checked;
      if !IsExpired(b.accessTime, now, ACCESS_TOKEN_HOURS)
      then beforeAccess + [GrantLoginTokens(b.accessToken, SessionAtFullLogin(a, s, o).deviceId, a.isPhone)]
      else beforeAccess
  }

  /** When every cached tier gives way, `login` is the full login chain from the pinned session. */
  lemma ReachesFullLogin(a: Account, s: Session, skip: bool, now: int, o: Oracle)
    requires FallsToFullLogin(a, s, skip, now, o)
    ensures Login(a, s, skip, now, o)
         == FullLogin(a, SessionAtFullLogin(a, s, o), now, o, CallsBeforeFullLogin(a, s, skip, now, o))
  {
    if a.user in s.tokens {
      var s1 := Pin(s, a.user, o.newDeviceId);
      var b := s1.tokens[a.user];
      var checked: seq<Call> := if skip then [] else [CheckAppToken(b.appToken)];
      var beforeAccess := if !IsExpired(b.loginTime, now, LOGIN_TOKEN_HOURS) then checked + [GrantAppToken(b.loginToken)] else checked;
      assert Login(a, s, skip, now, o) == RefreshWithLoginToken(a, s1, b, now, o, checked);
      assert RefreshWithLoginToken(a, s1, b, now, o, checked) == RefreshWithAccessToken(a, s1, b, now, o, beforeAccess);
    }
  }

  /**
   * A successful full login stores a new bundle under the identity with all
   * three stamps equal to `now`, keeping the cached device id (or the
   * runner's own when nothing was cached), after the two calls of the chain.
   */
  lemma FullLoginStoresFreshBundle(a: Account, s: Session, skip: bool, now: int, o: Oracle)
    requires FallsToFullLogin(a, s, skip, now, o)
    requires o.accessLogin.Some? && o.fullGrant.Some?
    ensures var run := Login(a, s, skip, now, o);
      var device := if a.user in s.tokens then Cached(a, s, o).deviceId.value else s.deviceId;
      var access := o.accessLogin.value;
      var g := o.fullGrant.value;
      && run.outcome == Returned(g.appToken)
      && run.after.tokens == PinnedTokens(a, s, o)[a.user := FreshBundle(access, g, device, now)]
      && run.after.tokens[a.user].accessTime == Some(Millis(now))
      && run.after.tokens[a.user].loginTime == Some(Millis(now))
      && run.after.tokens[a.user].appTime == Some(Millis(now))
      && (a.user in s.tokens && s.tokens[a.user].deviceId.Some? ==>
            run.after.tokens[a.user].deviceId == s.tokens[a.user].deviceId)
      && |run.calls| >= 2
      && run.calls[|run.calls| - 2..] == [LoginAccessToken(a.user, a.password), GrantLoginTokens(Some(access), device, a.isPhone)]
  {
    ReachesFullLogin(a, s, skip, now, o);
    var s1 := SessionAtFullLogin(a, s, o);
    assert s1.tokens == PinnedTokens(a, s, o);
    assert s1.deviceId == if a.user in s.tokens then Cached(a, s, o).deviceId.value else s.deviceId;
  }

  /**
   * A failure at either step of the full login returns None and changes no
   * token: the store holds at most the device id write-back.
   */
  lemma FullLoginFailureKeepsTokens(a: Account, s: Session, skip: bool, now: int, o: Oracle)
    requires FallsToFullLogin(a, s, skip, now, o)
    requires o.accessLogin.None? || o.fullGrant.None?
    ensures var run := Login(a, s, skip, now, o);
      run.outcome == Returned(None) && run.after.tokens == PinnedTokens(a, s, o)
  {
  }

  /**
   * The full login leaves the runner's user id as it was read from the cache
   * (None when nothing was cached), so the step post that follows does not
   * receive the user id just granted.
   */
  lemma FullLoginKeepsRunnerUserId(a: Account, s: Session, skip: bool, now: int, o: Oracle)
    requires FallsToFullLogin(a, s, skip, now, o)
    ensures var run := Login(a, s, skip, now, o);
      run.after.userId == if a.user in s.tokens then s.tokens[a.user].userId else s.userId
  {
  }

  /**
   * Isolation: `login` writes no key but its own identity, and never
   * removes one.
   */
  lemma OnlyOwnKeyWritten(a: Account, s: Session, skip: bool, now: int, o: Oracle)
    ensures var run := Login(a, s, skip, now, o);
      && run.after.tokens.Keys <= s.tokens.Keys + {a.user}
      && s.tokens.Keys <= run.after.tokens.Keys
      && forall k :: k in s.tokens && k != a.user ==> run.after.tokens[k] == s.tokens[k]
  {
  }

  /**
   * A device id, once in the bundle, never changes; afterwards the entry
   * (when there is one) always has a device id, and it is the one the
   * runner holds.
   */
  lemma DeviceIdPinned(a: Account, s: Session, skip: bool, now: int, o: Oracle)
    ensures var run := Login(a, s, skip, now, o);
      && (a.user in s.tokens && s.tokens[a.user].deviceId.Some? ==>
            run.after.deviceId == s.tokens[a.user].deviceId.value)
      && (a.user in run.after.tokens ==> run.after.tokens[a.user].deviceId == Some(run.after.deviceId))
      && (a.user !in s.tokens ==> run.after.deviceId == s.deviceId)
  {
  }

  /**
   * The time thresholds are checked before every refresh call: the app-token
   * grant is asked only with a login token under 7 days old, and the cached
   * access token is used only when under 30 days old.
   */
  lemma RefreshesRespectLifetimes(a: Account, s: Session, skip: bool, now: int, o: Oracle)
    ensures var run := Login(a, s, skip, now, o);
      && (forall i :: 0 <= i < |run.calls| && run.calls[i].GrantAppToken? ==>
            a.user in s.tokens && !IsExpired(s.tokens[a.user].loginTime, now, LOGIN_TOKEN_HOURS))
      && (forall i :: 0 <= i < |run.calls| && run.calls[i].GrantLoginTokens? && NoFreshLoginBefore(run.calls, i) ==>
            a.user in s.tokens && !IsExpired(s.tokens[a.user].accessTime, now, ACCESS_TOKEN_HOURS))
  {
    var run := Login(a, s, skip, now, o);
    if a.user !in s.tokens {
      FullLoginStartsWithLogin(a, s, now, o, []);
    } else {
      var s1 := Pin(s, a.user, o.newDeviceId);
      var b := s1.tokens[a.user];
      var checked: seq<Call> := if skip then [] else [CheckAppToken(b.appToken)];
      var beforeAccess := if !IsExpired(b.loginTime, now, LOGIN_TOKEN_HOURS) then checked + [GrantAppToken(b.loginToken)] else checked;
      var beforeFull := if !IsExpired(b.accessTime, now, ACCESS_TOKEN_HOURS)
        then beforeAccess + [GrantLoginTokens(b.accessToken, s1.deviceId, a.isPhone)] else beforeAccess;
      FullLoginStartsWithLogin(a, s1, now, o, beforeFull);
    }
  }

  /** The full login chain appends its calls, the first being `login_access_token`. */
  lemma FullLoginStartsWithLogin(a: Account, s: Session, now: int, o: Oracle, calls: seq<Call>)
    ensures var c := FullLogin(a, s, now, o, calls).calls;
      && |calls| < |c| <= |calls| + 2
      && c[..|calls|] == calls
      && c[|calls|] == LoginAccessToken(a.user, a.password)
  {
  }

  /** No `login_access_token` call comes before position `i`: a grant there uses the cached access token. */
  predicate NoFreshLoginBefore(calls: seq<Call>, i: int) {
    forall j :: 0 <= j < i && j < |calls| ==> !calls[j].LoginAccessToken?
  }

  /**
   * At most five remote calls per login; without a cached bundle only the
   * two calls of the full login chain.
   */
  lemma RemoteCallBound(a: Account, s: Session, skip: bool, now: int, o: Oracle)
    ensures |Login(a, s, skip, now, o).calls| <= 5
    ensures a.user !in s.tokens ==> |Login(a, s, skip, now, o).calls| <= 2
  {
  }

  /**
   * The shared token store: the dictionary `user_tokens` that every runner of
   * a batch reads and updates in place, keyed by normalised identity.
   */
  class TokenStore {
    var tokens: map<string, Bundle>

    constructor ()
      ensures tokens == map[]
    {
      tokens := map[];
    }
  }
}
