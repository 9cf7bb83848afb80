/**
 * The sequential branch of `execute`: split the configured identities and
 * passwords on "#", run every account in input order against one shared
 * token store, count the successes and decide whether the store is
 * persisted.
 */
module Scheduler {
  import opened Wrappers
  import opened Tokens
  import opened Runner
  import Identity
  import PyStr

  /** The account separator of the configured identity and password lists. */
  const SEPARATOR := '#'

  /** `success_count`: the results whose `success` is True. */
  function CountSuccess(results: seq<ExecResult>): (n: nat)
    ensures n <= |results|
    ensures n == |results| <==> forall i :: 0 <= i < |results| ==> results[i].success
    ensures n == 0 <==> forall i :: 0 <= i < |results| ==> !results[i].success
    decreases |results|
  {
    if results == [] then 0
    else
      var init := results[..|results| - 1];
      assert forall i :: 0 <= i < |init| ==> init[i] == results[i];
      CountSuccess(init) + if results[|results| - 1].success then 1 else 0
  }

  /** Counting successes is additive over a split of the result list. */
  lemma {:induction false} CountSuccessAppend(xs: seq<ExecResult>, ys: seq<ExecResult>)
    ensures CountSuccess(xs + ys) == CountSuccess(xs) + CountSuccess(ys)
    decreases |ys|
  {
    if ys == [] {
      assert xs + ys == xs;
    } else {
      var init := ys[..|ys| - 1];
      assert (xs + ys)[..|xs + ys| - 1] == xs + init;
      assert (xs + ys)[|xs + ys| - 1] == ys[|ys| - 1];
      CountSuccessAppend(xs, init);
    }
  }

  /**
   * What `execute` ends with: the mismatch abort (`exit(1)`), or the
   * results in input order with the summary counts and the store contents
   * handed to `persist_user_tokens`, if any.
   */
  datatype BatchOutcome =
    | ConfigMismatch(users: nat, passwords: nat)
    | Completed(results: seq<ExecResult>, total: nat, successCount: nat, failureCount: int,
                persisted: Option<map<string, Bundle>>)

  /**
   * The shared store after the first `|us|` accounts have run in input
   * order, starting from `t0`: each account's run sees the store its
   * predecessors left.
   */
  function StoreAfter(us: seq<string>, ps: seq<string>, t0: map<string, Bundle>, skipTokenCheck: bool,
                      env: nat -> AccountEnv): map<string, Bundle>
    requires |us| == |ps|
    decreases |us|
  {
    if us == [] then t0
    else
      var n := |us| - 1;
      StoreAfterAccount(us[n], ps[n], StoreAfter(us[..n], ps[..n], t0, skipTokenCheck, env), skipTokenCheck, env(n))
  }

  /** Running one more account extends the store fold by that account's run. */
  lemma StoreAfterStep(us: seq<string>, ps: seq<string>, n: nat, t0: map<string, Bundle>, skipTokenCheck: bool,
                       env: nat -> AccountEnv)
    requires |us| == |ps| && n < |us|
    ensures StoreAfter(us[..n + 1], ps[..n + 1], t0, skipTokenCheck, env)
         == StoreAfterAccount(us[n], ps[n], StoreAfter(us[..n], ps[..n], t0, skipTokenCheck, env), skipTokenCheck, env(n))
  {
    assert us[..n + 1][..n] == us[..n];
    assert ps[..n + 1][..n] == ps[..n];
  }

  /** The normalised identities of a list of raw identities. */
  function Keys(users: seq<string>): set<string> {
    set u | u in users :: Identity.NormalizeUser(u)
  }

  /** No key outside `written` differs between `before` and `after`. */
  ghost predicate UnchangedOutside(before: map<string, Bundle>, after: map<string, Bundle>, written: set<string>) {
    forall k :: k !in written ==> (k in after <==> k in before) && (k in after ==> after[k] == before[k])
  }

  /** A batch writes only the entries of its own accounts' normalised identities. */
  lemma {:induction false} StoreAfterKeepsOthers(us: seq<string>, ps: seq<string>, t0: map<string, Bundle>,
                                                 skipTokenCheck: bool, env: nat -> AccountEnv)
    requires |us| == |ps|
    ensures UnchangedOutside(t0, StoreAfter(us, ps, t0, skipTokenCheck, env), Keys(us))
    decreases |us|
  {
    if us != [] {
      var n := |us| - 1;
      var mid := StoreAfter(us[..n], ps[..n], t0, skipTokenCheck, env);
      StoreAfterKeepsOthers(us[..n], ps[..n], t0, skipTokenCheck, env);
      forall k | k !in Keys(us)
        ensures var t' := StoreAfter(us, ps, t0, skipTokenCheck, env);
          (k in t' <==> k in t0) && (k in t' ==> t'[k] == t0[k])
      {
        assert us[n] in us;
        assert forall u :: u in us[..n] ==> u in us;
        assert k !in Keys(us[..n]);
        StoreAfterAccountKeepsOthers(us[n], ps[n], mid, skipTokenCheck, env(n), k);
      }
    }
  }

  /**
   * The first `n` results are those of the accounts run in input order, each
   * against the store its predecessors left.
   */
  predicate ReportedUpTo(us: seq<string>, ps: seq<string>, t0: map<string, Bundle>, spec: StepSpec,
                         skipTokenCheck: bool, env: nat -> AccountEnv, results: seq<ExecResult>, n: nat)
    requires |us| == |ps| && n <= |us| && n <= |results|
  {
    forall i :: 0 <= i < n ==>
      AccountResult(us[i], ps[i], StoreAfter(us[..i], ps[..i], t0, skipTokenCheck, env), spec, skipTokenCheck, env(i), results[i])
  }

  /** Appending the result of the next account extends the reported prefix. */
  lemma ReportsExtend(us: seq<string>, ps: seq<string>, t0: map<string, Bundle>, spec: StepSpec,
                      skipTokenCheck: bool, env: nat -> AccountEnv, results: seq<ExecResult>, r: ExecResult)
    requires |us| == |ps| && |results| < |us|
    requires ReportedUpTo(us, ps, t0, spec, skipTokenCheck, env, results, |results|)
    requires var n := |results|;
      AccountResult(us[n], ps[n], StoreAfter(us[..n], ps[..n], t0, skipTokenCheck, env), spec, skipTokenCheck, env(n), r)
    ensures ReportedUpTo(us, ps, t0, spec, skipTokenCheck, env, results + [r], |results| + 1)
  {
    assert forall i :: 0 <= i < |results| ==> (results + [r])[i] == results[i];
  }

  /**
   * `execute` with `use_concurrent` false. `aesKey` is Some when a key of
   * the right length was configured; `env(i)` is the world account `i` runs
   * in (pacing sleeps are not modelled, so each account has its own clock).
   */
  method Execute(users: string, passwords: string, encryptSupport: bool, tokens: TokenStore?,
                 aesKey: Option<string>, spec: StepSpec, skipTokenCheck: bool, env: nat -> AccountEnv)
    returns (outcome: BatchOutcome, store: TokenStore)
    modifies tokens
    ensures tokens != null ==> store == tokens
    ensures tokens == null ==> fresh(store)
    ensures var userList, passwordList := PyStr.Split(users, SEPARATOR), PyStr.Split(passwords, SEPARATOR);
      var before := if tokens == null then map[] else old(tokens.tokens);
      && (outcome.ConfigMismatch? <==> |userList| != |passwordList|)
      && (outcome.ConfigMismatch? ==>
            outcome == ConfigMismatch(|userList|, |passwordList|) && store.tokens == before)
      && (outcome.Completed? ==>
            && |outcome.results| == outcome.total == |userList| == |passwordList|
            && ReportedUpTo(userList, passwordList, before, spec, skipTokenCheck, env, outcome.results, |userList|)
            && store.tokens == StoreAfter(userList, passwordList, before, skipTokenCheck, env)
            && outcome.successCount == CountSuccess(outcome.results)
            && outcome.failureCount == outcome.total - outcome.successCount
            && outcome.persisted == (if encryptSupport && aesKey.Some? then Some(store.tokens) else None)
            && UnchangedOutside(before, store.tokens, Keys(userList)))
  {
    if tokens == null {
      store := new TokenStore();
    } else {
      store := tokens;
    }
    ghost var before := store.tokens;
    var userList := PyStr.Split(users, SEPARATOR);
    var passwordList := PyStr.Split(passwords, SEPARATOR);
    if |userList| != |passwordList| {
      return ConfigMismatch(|userList|, |passwordList|), store;
    }
    var total := |userList|;
    var results := RunAccounts(userList, passwordList, store, spec, skipTokenCheck, env);
    StoreAfterKeepsOthers(userList, passwordList, before, skipTokenCheck, env);
    var persisted: Option<map<string, Bundle>> := None;
    if encryptSupport && aesKey.Some? {
      persisted := Some(store.tokens);
    }
    var successCount := TallySuccesses(results);
    outcome := Completed(results, total, successCount, total - successCount, persisted);
  }

  /**
   * The `for user_mi, passwd_mi in zip(...)` loop: one result per account,
   * in input order, each account run against the store its predecessors
   * left; the store ends as the fold of all the runs.
   */
  method RunAccounts(userList: seq<string>, passwordList: seq<string>, store: TokenStore, spec: StepSpec,
                     skipTokenCheck: bool, env: nat -> AccountEnv) returns (results: seq<ExecResult>)
    requires |userList| == |passwordList|
    modifies store
    ensures |results| == |userList|
    ensures ReportedUpTo(userList, passwordList, old(store.tokens), spec, skipTokenCheck, env, results, |userList|)
    ensures store.tokens == StoreAfter(userList, passwordList, old(store.tokens), skipTokenCheck, env)
  {
    ghost var t0 := store.tokens;
    results := [];
    var idx := 0;
    while idx < |userList|
      invariant 0 <= idx <= |userList|
      invariant |results| == idx
      invariant ReportedUpTo(userList, passwordList, t0, spec, skipTokenCheck, env, results, idx)
      invariant store.tokens == StoreAfter(userList[..idx], passwordList[..idx], t0, skipTokenCheck, env)
    {
      var r := RunSingleAccount(userList[idx], passwordList[idx], store, spec, skipTokenCheck, env(idx));
      StoreAfterStep(userList, passwordList, idx, t0, skipTokenCheck, env);
      ReportsExtend(userList, passwordList, t0, spec, skipTokenCheck, env, results, r);
      results := results + [r];
      idx := idx + 1;
    }
    assert userList[..idx] == userList && passwordList[..idx] == passwordList;
  }

  /** The `for result in exec_results` loop that counts the successes. */
  method TallySuccesses(results: seq<ExecResult>) returns (successCount: nat)
    ensures successCount == CountSuccess(results)
  {
    successCount := 0;
    for k := 0 to |results|
      invariant successCount == CountSuccess(results[..k])
    {
      assert results[..k + 1][..k] == results[..k];
      if results[k].success {
        successCount := successCount + 1;
      }
    }
    assert results[..|results|] == results;
  }
}
