/**
 * One account's run: `MiMotionRunner` (its constructor, `login` and
 * `login_and_post_step`) and `run_single_account`, which turns everything,
 * a raised error included, into a result record for the input identity.
 */
module Runner {
  import opened Wrappers
  import opened Tokens
  import Identity

  /** `step_value` when given, otherwise the `[min_step, max_step]` range of `random.randint`. */
  datatype StepSpec = Fixed(value: int) | Range(lo: int, hi: int)

  /** `step` is a value the step setting can produce. */
  predicate StepAllowed(spec: StepSpec, step: int) {
    match spec
    case Fixed(v) => step == v
    case Range(lo, hi) => lo <= step <= hi
  }

  /**
   * The step count to submit: the fixed value, or any value of the range
   * (the random draw, chosen here nondeterministically); None when
   * `random.randint` raises because the range is empty.
   */
  method ChooseStep(spec: StepSpec) returns (step: Option<int>)
    ensures step.None? <==> spec.Range? && spec.lo > spec.hi
    ensures step.Some? ==> StepAllowed(spec, step.value)
  {
    match spec
    case Fixed(v) =>
      step := Some(v);
    case Range(lo, hi) =>
      if lo <= hi {
        var n :| lo <= n <= hi;
        step := Some(n);
      } else {
        step := None;
      }
  }

  /** An error raised inside `run_single_account`'s try block. */
  datatype Fault =
    | AccessStampNotInteger   // int(access_token_time) in login's log line
    | EmptyStepRange          // random.randint(min_step, max_step) with min_step > max_step

  /** The message of a result. */
  datatype Message =
    | WrongCredentials                     // "账号或密码配置有误"
    | LoginFailed                          // "登陆失败！"
    | StepsChanged(step: int, reply: string)  // "修改步数（{step}）[{reply}]"
    | Crashed(fault: Fault)                // "执行异常:" and the traceback

  /** What `login_and_post_step` does: return `(msg, ok)` or raise. */
  datatype Attempt = Answered(msg: Message, ok: bool) | Raised(fault: Fault)

  /** The answer of `post_fake_brand_data`. */
  datatype PostReply = PostReply(ok: bool, msg: string)

  /** The outside world one account's run sees: the clock, the UUIDs and the remote answers. */
  datatype AccountEnv = AccountEnv(now: int, uuid: string, oracle: Oracle, post: PostReply)

  /** `exec_result`: the raw input identity, success and message. */
  datatype ExecResult = ExecResult(user: string, success: bool, msg: Message)

  class MiMotionRunner {
    const user: string
    const password: string
    const isPhone: bool
    const invalid: bool
    const store: TokenStore
    var deviceId: string
    var userId: Option<string>
    /** The remote calls made so far, with their arguments. */
    ghost var remoteCalls: seq<Call>

    /** The runner's credentials as `Login` takes them. */
    function Credentials(): Account {
      Account(user, password, isPhone)
    }

    /** The state `login` reads and writes. */
    function Snapshot(): Session
      reads this, store
    {
      Session(store.tokens, deviceId, userId)
    }

    /**
     * `MiMotionRunner(_user, _passwd, _user_tokens)`; `uuid` is the value of
     * `uuid.uuid4()`. Without a store the runner gets an empty one of its own.
     */
    constructor (rawUser: string, rawPassword: string, tokens: TokenStore?, uuid: string)
      ensures user == Identity.NormalizeUser(rawUser) && password == rawPassword
      ensures isPhone == Identity.IsPhone(rawUser)
      ensures invalid == Identity.Invalid(rawUser, rawPassword)
      ensures deviceId == uuid && userId == None && remoteCalls == []
      ensures tokens != null ==> store == tokens
      ensures tokens == null ==> fresh(store) && store.tokens == map[]
    {
      userId := None;
      deviceId := uuid;
      invalid := Identity.Invalid(rawUser, rawPassword);
      if tokens != null {
        store := tokens;
      } else {
        store := new TokenStore();
      }
      password := rawPassword;
      user := Identity.NormalizeUser(rawUser);
      isPhone := Identity.IsPhone(rawUser);
      remoteCalls := [];
    }

    /**
     * `login(skip_token_check)`: updates the shared store entry step by step
     * and ends exactly as the function `Tokens.Login` says. The tiers after
     * the verify path are the methods below, one per tier.
     */
    method Login(skipTokenCheck: bool, now: int, o: Oracle) returns (r: LoginOutcome)
      modifies this, store
      ensures var run := Tokens.Login(Credentials(), old(Snapshot()), skipTokenCheck, now, o);
        r == run.outcome && Snapshot() == run.after && remoteCalls == old(remoteCalls) + run.calls
    {
      if user !in store.tokens {
        r := FullLoginChain(now, o, remoteCalls, []);
        return;
      }
      var info := store.tokens[user];
      userId := info.userId;
      if info.deviceId.None? {
        deviceId := o.newDeviceId;
        info := info.(deviceId := Some(deviceId));
        store.tokens := store.tokens[user := info];
      } else {
        deviceId := info.deviceId.value;
      }
      if !IsExpired(info.appTime, now, APP_TOKEN_HOURS) {
        return Returned(info.appToken);
      }
      ghost var base := remoteCalls;
      ghost var made: seq<Call> := [];
      if !skipTokenCheck {
        remoteCalls := remoteCalls + [CheckAppToken(info.appToken)];
        made := [CheckAppToken(info.appToken)];
        if o.appTokenValid {
          store.tokens := store.tokens[user := info.(appTime := Some(Millis(now)))];
          return Returned(info.appToken);
        }
      }
      r := TryLoginToken(info, now, o, base, made);
    }

    /** The login-token tier, from the cached (pinned) bundle `info`. */
    method TryLoginToken(info: Bundle, now: int, o: Oracle, ghost base: seq<Call>, ghost made: seq<Call>)
      returns (r: LoginOutcome)
      requires user in store.tokens && store.tokens[user] == info && info.deviceId == Some(deviceId)
      requires remoteCalls == base + made
      modifies this, store
      ensures var run := RefreshWithLoginToken(Credentials(), old(Snapshot()), info, now, o, made);
        r == run.outcome && Snapshot() == run.after && remoteCalls == base + run.calls
    {
      var madeNow := made;
      if !IsExpired(info.loginTime, now, LOGIN_TOKEN_HOURS) {
        remoteCalls := remoteCalls + [GrantAppToken(info.loginToken)];
        madeNow := made + [GrantAppToken(info.loginToken)];
        var appToken := o.appGrant;
        if appToken.Some? {
          store.tokens := store.tokens[user := info.(appToken := appToken, appTime := Some(Millis(now)))];
          return Returned(appToken);
        }
      }
      r := TryAccessToken(info, now, o, base, madeNow);
    }

    /** The access-token tier, from the cached (pinned) bundle `info`. */
    method TryAccessToken(info: Bundle, now: int, o: Oracle, ghost base: seq<Call>, ghost made: seq<Call>)
      returns (r: LoginOutcome)
      requires user in store.tokens && store.tokens[user] == info && info.deviceId == Some(deviceId)
      requires remoteCalls == base + made
      modifies this, store
      ensures var run := RefreshWithAccessToken(Credentials(), old(Snapshot()), info, now, o, made);
        r == run.outcome && Snapshot() == run.after && remoteCalls == base + run.calls
    {
      if !IsExpired(info.accessTime, now, ACCESS_TOKEN_HOURS) {
        remoteCalls := remoteCalls + [GrantLoginTokens(info.accessToken, deviceId, isPhone)];
        var madeNow := made + [GrantLoginTokens(info.accessToken, deviceId, isPhone)];
        if o.refreshGrant.Some? {
          var g := o.refreshGrant.value;
          var refreshed := info.(loginToken := Some(g.loginToken), appToken := g.appToken, userId := g.userId,
                                 loginTime := Some(Millis(now)), appTime := Some(Millis(now)));
          store.tokens := store.tokens[user := refreshed];
          userId := g.userId;
          return Returned(g.appToken);
        }
        r := FullLoginChain(now, o, base, madeNow);
      } else if !Readable(info.accessTime) {
        return Threw;
      } else {
        r := FullLoginChain(now, o, base, made);
      }
    }

    /** The full login chain: `login_access_token`, then `grant_login_tokens`. */
    method FullLoginChain(now: int, o: Oracle, ghost base: seq<Call>, ghost made: seq<Call>)
      returns (r: LoginOutcome)
      requires remoteCalls == base + made
      modifies this, store
      ensures var run := FullLogin(Credentials(), old(Snapshot()), now, o, made);
        r == run.outcome && Snapshot() == run.after && remoteCalls == base + run.calls
    {
      remoteCalls := remoteCalls + [LoginAccessToken(user, password)];
      if o.accessLogin.None? {
        return Returned(None);
      }
      var accessToken := o.accessLogin.value;
      remoteCalls := remoteCalls + [GrantLoginTokens(Some(accessToken), deviceId, isPhone)];
      if o.fullGrant.None? {
        return Returned(None);
      }
      var g := o.fullGrant.value;
      store.tokens := store.tokens[user := FreshBundle(accessToken, g, deviceId, now)];
      return Returned(g.appToken);
    }

    /**
     * `login_and_post_step`: an invalid runner answers at once and calls
     * nothing; otherwise it logs in, and with a token it submits a step count
     * the setting allows.
     */
    method LoginAndPostStep(spec: StepSpec, skipTokenCheck: bool, now: int, o: Oracle, post: PostReply)
      returns (r: Attempt)
      modifies this, store
      ensures invalid ==> r == Answered(WrongCredentials, false) && Snapshot() == old(Snapshot()) && remoteCalls == old(remoteCalls)
      ensures !invalid ==>
        var run := Tokens.Login(Credentials(), old(Snapshot()), skipTokenCheck, now, o);
        && Snapshot() == run.after
        && match run.outcome
           case Threw =>
             r == Raised(AccessStampNotInteger) && remoteCalls == old(remoteCalls) + run.calls
           case Returned(None) =>
             r == Answered(LoginFailed, false) && remoteCalls == old(remoteCalls) + run.calls
           case Returned(Some(token)) =>
             if spec.Range? && spec.lo > spec.hi then
               r == Raised(EmptyStepRange) && remoteCalls == old(remoteCalls) + run.calls
             else
               && r.Answered? && r.msg.StepsChanged?
               && StepAllowed(spec, r.msg.step) && r.msg.reply == post.msg && r.ok == post.ok
               && remoteCalls == old(remoteCalls) + run.calls + [PostData(r.msg.step, token, run.after.userId)]
    {
      if invalid {
        return Answered(WrongCredentials, false);
      }
      var outcome := Login(skipTokenCheck, now, o);
      if outcome.Threw? {
        return Raised(AccessStampNotInteger);
      }
      if outcome.appToken.None? {
        return Answered(LoginFailed, false);
      }
      var token := outcome.appToken.value;
      var step := ChooseStep(spec);
      if step.None? {
        return Raised(EmptyStepRange);
      }
      remoteCalls := remoteCalls + [PostData(step.value, token, userId)];
      return Answered(StepsChanged(step.value, post.msg), post.ok);
    }
  }

  /** The credentials a runner built from the raw configured pair logs in with. */
  function AccountOf(rawUser: string, rawPassword: string): Account {
    Account(Identity.NormalizeUser(rawUser), rawPassword, Identity.IsPhone(rawUser))
  }

  /** The `login` of a fresh runner for the raw pair, against the store `t`, in world `env`. */
  function AccountLogin(rawUser: string, rawPassword: string, t: map<string, Bundle>, skipTokenCheck: bool,
                        env: AccountEnv): LoginRun {
    Tokens.Login(AccountOf(rawUser, rawPassword), Session(t, env.uuid, None), skipTokenCheck, env.now, env.oracle)
  }

  /** The shared store after one account's run: untouched for invalid credentials, else what `login` leaves. */
  function StoreAfterAccount(rawUser: string, rawPassword: string, t: map<string, Bundle>, skipTokenCheck: bool,
                             env: AccountEnv): map<string, Bundle> {
    if Identity.Invalid(rawUser, rawPassword) then t
    else AccountLogin(rawUser, rawPassword, t, skipTokenCheck, env).after.tokens
  }

  /**
   * The result `run_single_account` gives for the raw pair run against the
   * store `t`: it names the raw identity, and its success and message follow
   * the branch `login_and_post_step` takes; after a post, success is the
   * post's `ok`.
   */
  predicate AccountResult(rawUser: string, rawPassword: string, t: map<string, Bundle>, spec: StepSpec,
                          skipTokenCheck: bool, env: AccountEnv, r: ExecResult) {
    && r.user == rawUser
    && if Identity.Invalid(rawUser, rawPassword) then r == ExecResult(rawUser, false, WrongCredentials)
       else match AccountLogin(rawUser, rawPassword, t, skipTokenCheck, env).outcome
         case Threw => r == ExecResult(rawUser, false, Crashed(AccessStampNotInteger))
         case Returned(None) => r == ExecResult(rawUser, false, LoginFailed)
         case Returned(Some(_)) =>
           if spec.Range? && spec.lo > spec.hi then r == ExecResult(rawUser, false, Crashed(EmptyStepRange))
           else
             && r.success == env.post.ok && r.msg.StepsChanged?
             && StepAllowed(spec, r.msg.step) && r.msg.reply == env.post.msg
  }

  /**
   * An account succeeds exactly when its credentials are set, `login`
   * returned an app token, a step could be drawn and the post was
   * acknowledged.
   */
  lemma SuccessIffPostAccepted(rawUser: string, rawPassword: string, t: map<string, Bundle>, spec: StepSpec,
                               skipTokenCheck: bool, env: AccountEnv, r: ExecResult)
    requires AccountResult(rawUser, rawPassword, t, spec, skipTokenCheck, env, r)
    ensures r.success <==>
      && !Identity.Invalid(rawUser, rawPassword)
      && AccountLogin(rawUser, rawPassword, t, skipTokenCheck, env).outcome.Returned?
      && AccountLogin(rawUser, rawPassword, t, skipTokenCheck, env).outcome.appToken.Some?
      && !(spec.Range? && spec.lo > spec.hi)
      && env.post.ok
  {
  }

  /** One account's run writes no key but the account's normalised identity. */
  lemma StoreAfterAccountKeepsOthers(rawUser: string, rawPassword: string, t: map<string, Bundle>,
                                     skipTokenCheck: bool, env: AccountEnv, k: string)
    requires k != Identity.NormalizeUser(rawUser)
    ensures var t' := StoreAfterAccount(rawUser, rawPassword, t, skipTokenCheck, env);
      (k in t' <==> k in t) && (k in t' ==> t'[k] == t[k])
  {
    if !Identity.Invalid(rawUser, rawPassword) {
      OnlyOwnKeyWritten(AccountOf(rawUser, rawPassword), Session(t, env.uuid, None), skipTokenCheck, env.now, env.oracle);
    }
  }

  /**
   * `run_single_account`: the result is `AccountResult` for the store as it
   * was before, and the store afterwards is `StoreAfterAccount`, so no other
   * identity's entry changes.
   */
  method RunSingleAccount(rawUser: string, rawPassword: string, tokens: TokenStore, spec: StepSpec,
                          skipTokenCheck: bool, env: AccountEnv) returns (r: ExecResult)
    modifies tokens
    ensures AccountResult(rawUser, rawPassword, old(tokens.tokens), spec, skipTokenCheck, env, r)
    ensures tokens.tokens == StoreAfterAccount(rawUser, rawPassword, old(tokens.tokens), skipTokenCheck, env)
    ensures forall k :: k != Identity.NormalizeUser(rawUser) ==>
      (k in tokens.tokens <==> k in old(tokens.tokens)) &&
      (k in tokens.tokens ==> tokens.tokens[k] == old(tokens.tokens)[k])
  {
    var runner := new MiMotionRunner(rawUser, rawPassword, tokens, env.uuid);
    ghost var before := runner.Snapshot();
    OnlyOwnKeyWritten(runner.Credentials(), before, skipTokenCheck, env.now, env.oracle);
    var attempt := runner.LoginAndPostStep(spec, skipTokenCheck, env.now, env.oracle, env.post);
    match attempt
    case Answered(msg, ok) =>
      r := ExecResult(rawUser, ok, msg);
    case Raised(fault) =>
      r := ExecResult(rawUser, false, Crashed(fault));
  }
}
