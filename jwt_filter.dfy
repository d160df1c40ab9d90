/** `JwtAuthenticationFilter`: reads the Authorization header, accepts only
    "Bearer dummy-token-<id>" tokens, removes every occurrence of the token
    prefix, parses the rest as a `long` user id, and authenticates the request
    as that user when the lookup finds one. Every failure is swallowed, and
    the rest of the filter chain runs exactly once on every path. */
module JwtFilter {
  import opened Wrappers
  import opened Numbers
  import opened Strings

  const BearerPrefix: string := "Bearer "
  const TokenPrefix: string := "dummy-token-"

  /** What the user lookup returns: a name and the granted authorities. */
  datatype UserDetails = UserDetails(username: string, authorities: set<string>)

  /** The authentication placed in the security context: the principal, no
      credentials, and the principal's authorities. */
  datatype Authentication = Authentication(principal: UserDetails, credentials: Option<string>, authorities: set<string>)

  /** The user id a header designates: none without a header, without the
      "Bearer " prefix, without the token prefix after it, or when what is left
      once every token prefix is removed does not parse as a `long`. */
  function TokenUserId(header: Option<string>): (r: Option<int>)
    ensures header.None? ==> r.None?
    ensures header.Some? && !StartsWith(header.value, BearerPrefix) ==> r.None?
    ensures r.Some? ==> StartsWith(header.value, BearerPrefix + TokenPrefix)
    ensures r.Some? ==> LongMin <= r.value <= LongMax
  {
    if header.None? || !StartsWith(header.value, BearerPrefix) then None
    else
      var token := header.value[|BearerPrefix|..];
      if !StartsWith(token, TokenPrefix) then None
      else
        assert header.value[..|BearerPrefix + TokenPrefix|] == BearerPrefix + token[..|TokenPrefix|];
        ParseLong(ReplaceAll(token, TokenPrefix, ""))
  }

  /** The request's security context; only the authentication is modelled. */
  class SecurityContext {
    var authentication: Option<Authentication>

    constructor()
      ensures authentication.None?
    {
      authentication := None;
    }
  }

  /** The rest of the filter chain; only how often it runs is modelled. */
  class FilterChain {
    var invocations: nat

    constructor()
      ensures invocations == 0
    {
      invocations := 0;
    }

    method DoFilter()
      modifies this
      ensures invocations == old(invocations) + 1
    {
      invocations := invocations + 1;
    }
  }

  /** `doFilterInternal`. The lookup answers None both when it returns null
      and when it throws. The context is set only for a designated id that
      the lookup finds; the chain runs once whatever happens. */
  method DoFilterInternal(header: Option<string>, lookup: int -> Option<UserDetails>,
                          context: SecurityContext, chain: FilterChain)
    modifies context, chain
    ensures chain.invocations == old(chain.invocations) + 1
    ensures TokenUserId(header).Some? && lookup(TokenUserId(header).value).Some? ==>
              var details := lookup(TokenUserId(header).value).value;
              context.authentication == Some(Authentication(details, None, details.authorities))
    ensures TokenUserId(header).None? || lookup(TokenUserId(header).value).None? ==>
              context.authentication == old(context.authentication)
  {
    if header.None? || !StartsWith(header.value, BearerPrefix) {
      chain.DoFilter();
      return;
    }
    var token := header.value[|BearerPrefix|..];
    if StartsWith(token, TokenPrefix) {
      var userId := ParseLong(ReplaceAll(token, TokenPrefix, ""));
      if userId.Some? {
        var details := lookup(userId.value);
        if details.Some? {
          context.authentication := Some(Authentication(details.value, None, details.value.authorities));
        }
      }
    }
    chain.DoFilter();
  }

  /** A well-prefixed header designates what parsing its id part gives,
      once every token prefix is removed from that part. */
  lemma DesignatedId(rest: string)
    ensures TokenUserId(Some(BearerPrefix + TokenPrefix + rest)) == ParseLong(ReplaceAll(rest, TokenPrefix, ""))
  {
    var token := TokenPrefix + rest;
    var header := BearerPrefix + token;
    assert BearerPrefix + TokenPrefix + rest == header;
    assert StartsWith(header, BearerPrefix) by {
      assert header[..|BearerPrefix|] == BearerPrefix;
    }
    assert header[|BearerPrefix|..] == token;
    assert StartsWith(token, TokenPrefix) by {
      assert token[..|TokenPrefix|] == TokenPrefix;
    }
    assert ReplaceAll(token, TokenPrefix, "") == ReplaceAll(rest, TokenPrefix, "") by {
      ReplaceAllLeading(TokenPrefix, rest, "");
      assert "" + ReplaceAll(rest, TokenPrefix, "") == ReplaceAll(rest, TokenPrefix, "");
    }
  }

  /** The token login issues, "dummy-token-" followed by the current time in
      milliseconds, designates that number as the user id. */
  lemma LoginTokenDesignatesTimestamp(millis: nat)
    requires millis <= LongMax
    ensures TokenUserId(Some(BearerPrefix + TokenPrefix + ShowNat(millis))) == Some(millis)
  {
    DesignatedId(ShowNat(millis));
    NoPrefixInDigits(ShowNat(millis));
    ParseLongShowNat(millis);
  }

  /** Every occurrence of the prefix is removed, not only the leading one, so
      a doubled prefix designates the same id. */
  lemma DoubledPrefixDesignatesSameId(n: nat)
    requires n <= LongMax
    ensures TokenUserId(Some(BearerPrefix + TokenPrefix + TokenPrefix + ShowNat(n))) == Some(n)
  {
    assert BearerPrefix + TokenPrefix + TokenPrefix + ShowNat(n) == BearerPrefix + TokenPrefix + (TokenPrefix + ShowNat(n));
    DesignatedId(TokenPrefix + ShowNat(n));
    ReplaceAllLeading(TokenPrefix, ShowNat(n), "");
    assert "" + ReplaceAll(ShowNat(n), TokenPrefix, "") == ReplaceAll(ShowNat(n), TokenPrefix, "");
    NoPrefixInDigits(ShowNat(n));
    ParseLongShowNat(n);
  }

  /** A token whose id part holds a character that is neither a digit nor a
      leading sign, and never the letter that starts the prefix, designates
      nobody. */
  lemma NonNumericIdRejected(rest: string, i: int)
    requires 0 <= i < |rest| && !IsDigit(rest[i])
    requires i > 0 || (rest[0] != '-' && rest[0] != '+')
    requires forall k | 0 <= k < |rest| :: rest[k] != TokenPrefix[0]
    ensures TokenUserId(Some(BearerPrefix + TokenPrefix + rest)).None?
  {
    DesignatedId(rest);
    ReplaceAllNoOccurrence(rest, TokenPrefix, "");
    ParseLongRejectsNonDigit(rest, i);
  }

  /** A rendered number holds no 'd', so removing the prefix leaves it alone. */
  lemma NoPrefixInDigits(s: string)
    requires AllDigits(s)
    ensures ReplaceAll(s, TokenPrefix, "") == s
  {
    ReplaceAllNoOccurrence(s, TokenPrefix, "");
  }
}
