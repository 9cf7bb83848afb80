/**
 * Account identity normalisation done by `MiMotionRunner.__init__`: a phone
 * number gets the "+86" country code unless it already starts with it, and an
 * identity containing "@" is an e-mail address and is kept as it is.
 */
module Identity {
  import opened PyStr

  const COUNTRY_CODE := "+86"

  /** The normalised identity used as the token-store key. */
  function NormalizeUser(user: string): (r: string)
    ensures StartsWith(r, COUNTRY_CODE) || '@' in r
    ensures r == user <==> StartsWith(user, COUNTRY_CODE) || '@' in user
    ensures |user| <= |r| && r[|r| - |user|..] == user
  {
    if StartsWith(user, COUNTRY_CODE) || '@' in user then user else COUNTRY_CODE + user
  }

  /** `self.is_phone`: the normalised identity starts with the country code. */
  predicate IsPhone(user: string) {
    StartsWith(NormalizeUser(user), COUNTRY_CODE)
  }

  /** `self.invalid`: the raw identity or the password is empty. */
  predicate Invalid(user: string, password: string) {
    user == "" || password == ""
  }

  /** Normalising an already normalised identity changes nothing. */
  lemma NormalizeIdempotent(user: string)
    ensures NormalizeUser(NormalizeUser(user)) == NormalizeUser(user)
  {
  }

  /**
   * An identity is a phone number unless it contains "@" without starting
   * with the country code.
   */
  lemma PhoneUnlessEmail(user: string)
    ensures IsPhone(user) <==> StartsWith(user, COUNTRY_CODE) || '@' !in user
  {
    if !StartsWith(user, COUNTRY_CODE) && '@' !in user {
      assert (COUNTRY_CODE + user)[..|COUNTRY_CODE|] == COUNTRY_CODE;
    }
  }
}
