/** The handler's header lookup, `extractAuthorizationHeader` in
    lambda/test-function/main.go. A header map is a Go `map[string]string`,
    which may be nil: `None` stands for the nil map and `Some(map[])` for an
    empty one. */
module Authorization {
  import opened Wrappers
  import Precedence

  type Headers = Option<map<string, string>>

  /** The exact-case header name, consulted first. */
  const ExactKey := "Authorization"
  /** The lower-case header name, consulted only when the exact-case one is absent. */
  const LowerKey := "authorization"
  /** The lookup order as a priority list. */
  const AuthorizationKeys := [ExactKey, LowerKey]

  /** Go's index expression `m[k]`: the zero value "" when `k` is absent. */
  function Index(m: map<string, string>, k: string): (v: string)
  {
    if k in m then m[k] else ""
  }

  /** The authorization value of a header map. The exact-case key wins
      whenever it is present, even with an empty value; otherwise the
      lower-case key's value is used; a nil map, or a map with neither key,
      yields the empty string. */
  function ExtractAuthorizationHeader(headers: Headers): (r: string)
    ensures headers.None? ==> r == ""
    ensures headers.Some? && ExactKey in headers.value ==> r == headers.value[ExactKey]
    ensures headers.Some? && ExactKey !in headers.value && LowerKey in headers.value ==>
              r == headers.value[LowerKey]
    ensures headers.Some? && ExactKey !in headers.value && LowerKey !in headers.value ==> r == ""
    ensures r == "" || (headers.Some? && r in headers.value.Values)
  {
    match headers
    case None => ""
    case Some(m) =>
      if ExactKey in m then m[ExactKey] else Index(m, LowerKey)
  }

  /** The lookup is the priority-list lookup over ["Authorization",
      "authorization"] with "" for "no such key", and a nil map behaves like
      an empty one. */
  lemma MatchesPriorityLookup(headers: Headers)
    ensures headers.None? ==> ExtractAuthorizationHeader(headers) == Precedence.LookupFirst(AuthorizationKeys, map[], "")
    ensures headers.Some? ==>
              ExtractAuthorizationHeader(headers) == Precedence.LookupFirst(AuthorizationKeys, headers.value, "")
  {
    var empty: map<string, string> := map[];
    assert Precedence.FirstIndex(AuthorizationKeys, empty).None?;
    if headers.Some? {
      var m := headers.value;
      if ExactKey in m {
        assert Precedence.FirstIndex(AuthorizationKeys, m) == Some(0);
      } else if LowerKey in m {
        assert Precedence.FirstIndex(AuthorizationKeys, m) == Some(1);
      } else {
        assert Precedence.FirstIndex(AuthorizationKeys, m).None?;
      }
    }
  }

  /** Only the entries under "Authorization" and "authorization" matter: two
      non-nil maps that agree on those two names give the same value. */
  lemma OnlyAuthorizationEntriesMatter(m1: map<string, string>, m2: map<string, string>)
    requires Precedence.AgreeOn(AuthorizationKeys, m1, m2)
    ensures ExtractAuthorizationHeader(Some(m1)) == ExtractAuthorizationHeader(Some(m2))
  {
    MatchesPriorityLookup(Some(m1));
    MatchesPriorityLookup(Some(m2));
    Precedence.LookupFirstAgrees(AuthorizationKeys, m1, m2, "");
  }

  /** Adding or changing any other header, "AUTHORIZATION" included, leaves
      the value unchanged. */
  lemma OtherHeaderUpdateIgnored(m: map<string, string>, k: string, v: string)
    requires k != ExactKey && k != LowerKey
    ensures ExtractAuthorizationHeader(Some(m[k := v])) == ExtractAuthorizationHeader(Some(m))
  {
  }

  /** Removing any other header leaves the value unchanged. */
  lemma OtherHeaderRemovalIgnored(m: map<string, string>, k: string)
    requires k != ExactKey && k != LowerKey
    ensures ExtractAuthorizationHeader(Some(m - {k})) == ExtractAuthorizationHeader(Some(m))
  {
  }

  /** The lookup is case-sensitive: a header spelled "AUTHORIZATION" is not
      found, and with both spellings present the exact-case value wins even
      when it is empty. */
  lemma CaseSensitive()
    ensures ExtractAuthorizationHeader(Some(map["AUTHORIZATION" := "Bearer upper"])) == ""
    ensures ExtractAuthorizationHeader(Some(map[ExactKey := "", LowerKey := "Bearer lower"])) == ""
  {
  }
}
