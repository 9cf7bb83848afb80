/** Log redaction of account identities (`desensitize_user_name`). */
module Redaction {
  import PyStr

  /**
   * `desensitize_user_name`: an identity of at most eight characters keeps
   * `max(len / 3, 1)` characters at each end around "***"; a longer one keeps
   * its first three and last four characters around "****". The ends are
   * taken with Python's clamped slices, so the empty identity becomes "***".
   */
  function Desensitize(user: string): (r: string)
    ensures |user| == 0 ==> r == "***"
    ensures 1 <= |user| <= 8 ==>
      var kept := if |user| < 6 then 1 else 2;
      && |r| == 2 * kept + 3
      && r[..kept] == user[..kept]
      && r[kept..kept + 3] == "***"
      && r[kept + 3..] == user[|user| - kept..]
    ensures |user| > 8 ==>
      && |r| == 11
      && r[..3] == user[..3]
      && r[3..7] == "****"
      && r[7..] == user[|user| - 4..]
  {
    if |user| <= 8 then
      var ln := if |user| / 3 > 1 then |user| / 3 else 1;
      var h, t := PyStr.Head(user, ln), PyStr.Tail(user, ln);
      var r := h + "***" + t;
      assert |user| >= 1 ==> ln == if |user| < 6 then 1 else 2;
      assert r[..|h|] == h && r[|h|..|h| + 3] == "***" && r[|h| + 3..] == t;
      r
    else
      var h, t := PyStr.Head(user, 3), PyStr.Tail(user, 4);
      var r := h + "****" + t;
      assert r[..3] == h && r[3..7] == "****" && r[7..] == t;
      r
  }

  /** Number of mask characters `Desensitize` puts in the middle. */
  function MaskLength(user: string): nat {
    if |user| <= 8 then 3 else 4
  }

  /**
   * From three characters on, the redacted form shows strictly fewer of the
   * identity's characters than the identity has.
   */
  lemma RedactionHidesSomething(user: string)
    requires |user| >= 3
    ensures |Desensitize(user)| - MaskLength(user) < |user|
  {
  }

  /**
   * One- and two-character identities are shown in full: the kept head and
   * tail are the whole identity.
   */
  lemma ShortIdentityShownInFull(user: string)
    requires 1 <= |user| <= 2
    ensures var r := Desensitize(user);
      user == if |user| == 1 then r[..1] else r[..1] + r[4..]
  {
    var r := Desensitize(user);
    if |user| == 2 {
      assert user == user[..1] + user[1..];
    }
  }
}
