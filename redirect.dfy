/**
 * `get_access_token` and `get_error_code`: the first match of the regular
 * expression `(?<=KEY).*?(?=&)` in a redirect location, for KEY "access="
 * and "error=". Python's `.` matches every character but a newline, and the
 * lazy `.*?` stops at the first "&", so a match starts right after an
 * occurrence of KEY and runs up to the first "&" after it, provided no
 * newline comes first; `findall(...)[0]` is the leftmost such match.
 */
module Redirect {
  import opened Wrappers
  import opened PyStr

  const ACCESS_KEY := "access="
  const ERROR_KEY := "error="

  /** The lookbehind `(?<=key)` holds at position `p` of `s`. */
  predicate KeyEndsAt(s: string, key: string, p: nat) {
    |key| <= p <= |s| && s[p - |key|..p] == key
  }

  /** `s[q]` is the first "&" at or after `p`, and no newline precedes it. */
  ghost predicate Delimited(s: string, p: int, q: int) {
    0 <= p <= q < |s| && s[q] == '&' && forall k :: p <= k < q ==> s[k] != '&' && s[k] != '\n'
  }

  /** The pattern matches `s[p..q]`. */
  ghost predicate Tagged(s: string, key: string, p: int, q: int) {
    0 <= p && KeyEndsAt(s, key, p) && Delimited(s, p, q)
  }

  /** The pattern matches somewhere in `s`. */
  ghost predicate HasTagged(s: string, key: string) {
    exists p, q :: Tagged(s, key, p, q)
  }

  /** A match of the pattern starts at `p` and its text is `v`. */
  ghost predicate MatchAt(s: string, key: string, p: int, v: string) {
    0 <= p && p + |v| <= |s| && Tagged(s, key, p, p + |v|) && s[p..p + |v|] == v
  }

  /** No match of the pattern starts before `p`. */
  ghost predicate NoMatchBefore(s: string, key: string, p: int) {
    forall p', q' :: p' < p ==> !Tagged(s, key, p', q')
  }

  /** The lazy `.*?(?=&)` from position `q`: the first "&", unless a newline or the end comes first. */
  function ScanToAmpersand(s: string, q: nat): (r: Option<nat>)
    requires q <= |s|
    ensures r.Some? ==> Delimited(s, q, r.value)
    ensures r.None? ==> forall q' :: !Delimited(s, q, q')
    decreases |s| - q
  {
    if q == |s| then None
    else if s[q] == '&' then Some(q)
    else if s[q] == '\n' then None
    else
      var r := ScanToAmpersand(s, q + 1);
      assert forall q' :: Delimited(s, q, q') ==> q' > q && Delimited(s, q + 1, q');
      r
  }

  /** The leftmost match starting at or after `p`, as its start and end. */
  function FirstMatchFrom(s: string, key: string, p: nat): (r: Option<(nat, nat)>)
    ensures r.Some? ==> p <= r.value.0 && Tagged(s, key, r.value.0, r.value.1)
    ensures r.Some? ==> forall p', q' :: p <= p' < r.value.0 ==> !Tagged(s, key, p', q')
    ensures r.None? ==> forall p', q' :: p <= p' ==> !Tagged(s, key, p', q')
    decreases |s| + 1 - p
  {
    if p > |s| then None
    else if KeyEndsAt(s, key, p) && ScanToAmpersand(s, p).Some? then
      Some((p, ScanToAmpersand(s, p).value))
    else
      FirstMatchFrom(s, key, p + 1)
  }

  /**
   * `findall(pattern)[0]`, or None when there is no match: None exactly when
   * no occurrence of `key` is followed by "&" without a newline in between;
   * otherwise the text of the leftmost match, which holds neither "&" nor a
   * newline and stands between `key` and "&" in `s`.
   */
  function FirstTagged(s: string, key: string): (r: Option<string>)
    ensures r.None? <==> !HasTagged(s, key)
    ensures r.Some? ==> '&' !in r.value && '\n' !in r.value && Occurs(key + r.value + "&", s)
    ensures r.Some? ==> exists p :: MatchAt(s, key, p, r.value) && NoMatchBefore(s, key, p)
  {
    var m := FirstMatchFrom(s, key, 0);
    FirstMatchMeaning(s, key, m);
    if m.None? then None else Some(s[m.value.0..m.value.1])
  }

  /** What the leftmost match from position 0 says about the whole string. */
  lemma FirstMatchMeaning(s: string, key: string, m: Option<(nat, nat)>)
    requires m == FirstMatchFrom(s, key, 0)
    ensures m.None? <==> !HasTagged(s, key)
    ensures m.Some? ==> m.value.0 <= m.value.1 <= |s|
    ensures m.Some? ==> var v := s[m.value.0..m.value.1];
      && '&' !in v && '\n' !in v && Occurs(key + v + "&", s)
      && MatchAt(s, key, m.value.0, v) && NoMatchBefore(s, key, m.value.0)
  {
    if m.Some? {
      MatchMeaning(s, key, m.value.0, m.value.1);
    }
  }

  /** A leftmost match: its text, where it occurs, and that the pattern matches. */
  lemma MatchMeaning(s: string, key: string, p: nat, q: nat)
    requires Tagged(s, key, p, q)
    requires forall p', q' :: 0 <= p' < p ==> !Tagged(s, key, p', q')
    ensures p <= q <= |s| && HasTagged(s, key)
    ensures var v := s[p..q];
      && '&' !in v && '\n' !in v && Occurs(key + v + "&", s)
      && MatchAt(s, key, p, v) && NoMatchBefore(s, key, p)
  {
    TaggedOccurs(s, key, p, q);
    assert OccursAt(key + s[p..q] + "&", s, p - |key|);
  }

  /** The text of a match, framed by its key and "&", occurs in `s`. */
  lemma TaggedOccurs(s: string, key: string, p: int, q: int)
    requires Tagged(s, key, p, q)
    ensures '&' !in s[p..q] && '\n' !in s[p..q]
    ensures OccursAt(key + s[p..q] + "&", s, p - |key|)
  {
    var i := p - |key|;
    assert s[i..q + 1] == s[i..p] + s[p..q] + s[q..q + 1];
    forall c | c in s[p..q] ensures c != '&' && c != '\n' {
      var k :| 0 <= k < q - p && s[p..q][k] == c;
      assert s[p + k] == c;
    }
  }

  /** `get_access_token(location)` */
  function GetAccessToken(location: string): (r: Option<string>)
    ensures r.None? <==> !HasTagged(location, ACCESS_KEY)
    ensures r.Some? ==> '&' !in r.value && '\n' !in r.value && Occurs(ACCESS_KEY + r.value + "&", location)
    ensures r.Some? ==> exists p :: MatchAt(location, ACCESS_KEY, p, r.value) && NoMatchBefore(location, ACCESS_KEY, p)
  {
    FirstTagged(location, ACCESS_KEY)
  }

  /** `get_error_code(location)` */
  function GetErrorCode(location: string): (r: Option<string>)
    ensures r.None? <==> !HasTagged(location, ERROR_KEY)
    ensures r.Some? ==> '&' !in r.value && '\n' !in r.value && Occurs(ERROR_KEY + r.value + "&", location)
    ensures r.Some? ==> exists p :: MatchAt(location, ERROR_KEY, p, r.value) && NoMatchBefore(location, ERROR_KEY, p)
  {
    FirstTagged(location, ERROR_KEY)
  }

  /** An empty value between the key and "&" is found as "", not as None. */
  lemma EmptyValueIsFound()
    ensures GetAccessToken("access=&") == Some("")
  {
    assert KeyEndsAt("access=&", ACCESS_KEY, 7);
    assert ScanToAmpersand("access=&", 7) == Some(7);
    assert FirstMatchFrom("access=&", ACCESS_KEY, 0) == FirstMatchFrom("access=&", ACCESS_KEY, 1);
  }
}
