/**
  The permission voter of the web security configuration
  (CustomAccessDecisionVoter): an authenticated caller is granted access when
  one of the permissions an endpoint requires is, character for character, one
  of the authorities the caller holds; everyone else is denied.
*/
module AccessVoter {
  import opened Wrappers

  /** The three results of Spring's AccessDecisionVoter interface. */
  const ACCESS_GRANTED: int := 1
  const ACCESS_ABSTAIN: int := 0
  const ACCESS_DENIED: int := -1

  /** A required permission; its value may be null. */
  datatype ConfigAttribute = ConfigAttribute(attribute: Option<string>)

  /** The authentication of the current request and the authority strings it was granted. */
  datatype Authentication = Authentication(authenticated: bool, authorities: seq<string>)

  /** `supports(ConfigAttribute)`: the voter takes part only for attributes that carry a value. */
  function Supports(a: ConfigAttribute): (r: bool)
    ensures r <==> exists p :: a.attribute == Some(p)
  {
    a.attribute.Some?
  }

  /** `supports(Class)`: the voter accepts every kind of secured object. */
  function SupportsClass(className: string): (r: bool)
    ensures r
  {
    true
  }

  /** Some required permission equals some granted authority exactly. */
  predicate Matches(attributes: seq<ConfigAttribute>, authorities: seq<string>)
  {
    exists a, s :: a in attributes && s in authorities && a.attribute == Some(s)
  }

  /** The decision the voter reaches, as a function of its inputs. */
  function Decide(authentication: Option<Authentication>, attributes: seq<ConfigAttribute>): (d: int)
  {
    if authentication.None? || !authentication.value.authenticated then ACCESS_DENIED
    else if Matches(attributes, authentication.value.authorities) then ACCESS_GRANTED
    else ACCESS_DENIED
  }

  /**
    `vote`: the nested search over attributes and authorities with an early
    return on the first match. The secured object is not looked at.
  */
  method Vote<O>(authentication: Option<Authentication>, secured: O, attributes: seq<ConfigAttribute>)
    returns (r: int)
    ensures r == Decide(authentication, attributes)
  {
    if authentication.None? || !authentication.value.authenticated {
      return ACCESS_DENIED;
    }
    var authorities := authentication.value.authorities;
    for i := 0 to |attributes|
      invariant forall k, j :: 0 <= k < i && 0 <= j < |authorities| ==>
                  attributes[k].attribute != Some(authorities[j])
    {
      var requiredPermission := attributes[i].attribute;
      for j := 0 to |authorities|
        invariant forall k :: 0 <= k < j ==> requiredPermission != Some(authorities[k])
      {
        if Some(authorities[j]) == requiredPermission {
          return ACCESS_GRANTED;
        }
      }
    }
    return ACCESS_DENIED;
  }

  /** Without an authenticated caller the answer is DENIED, whatever is required. */
  lemma DeniedWhenNotAuthenticated(authentication: Option<Authentication>, attributes: seq<ConfigAttribute>)
    requires authentication.None? || !authentication.value.authenticated
    ensures Decide(authentication, attributes) == ACCESS_DENIED
  {
  }

  /** An authenticated caller is granted exactly when a required value equals a granted string. */
  lemma GrantedIffExactMatch(authentication: Option<Authentication>, attributes: seq<ConfigAttribute>)
    ensures Decide(authentication, attributes) == ACCESS_GRANTED <==>
      authentication.Some? && authentication.value.authenticated &&
      exists i, j :: 0 <= i < |attributes| && 0 <= j < |authentication.value.authorities| &&
        attributes[i].attribute == Some(authentication.value.authorities[j])
  {
  }

  /** Nothing required, or nothing granted, means DENIED. */
  lemma EmptyMeansDenied(authentication: Option<Authentication>, attributes: seq<ConfigAttribute>)
    requires attributes == [] || (authentication.Some? && authentication.value.authorities == [])
    ensures Decide(authentication, attributes) == ACCESS_DENIED
  {
  }

  /** The voter never abstains. */
  lemma NeverAbstains(authentication: Option<Authentication>, attributes: seq<ConfigAttribute>)
    ensures Decide(authentication, attributes) != ACCESS_ABSTAIN
    ensures Decide(authentication, attributes) in {ACCESS_GRANTED, ACCESS_DENIED}
  {
  }

  /** Every element of `xs` occurs in `ys`. */
  predicate IncludedIn<T(==)>(xs: seq<T>, ys: seq<T>)
  {
    forall x :: x in xs ==> x in ys
  }

  /**
    Monotonicity: holding more authorities, or requiring more alternatives,
    can turn DENIED into GRANTED but never GRANTED into DENIED.
  */
  lemma Monotone(a1: Authentication, attrs1: seq<ConfigAttribute>, a2: Authentication, attrs2: seq<ConfigAttribute>)
    requires a1.authenticated ==> a2.authenticated
    requires IncludedIn(a1.authorities, a2.authorities)
    requires IncludedIn(attrs1, attrs2)
    requires Decide(Some(a1), attrs1) == ACCESS_GRANTED
    ensures Decide(Some(a2), attrs2) == ACCESS_GRANTED
  {
  }

  /**
    Order and repetition do not matter: two calls whose attributes and
    authorities hold the same elements reach the same decision.
  */
  lemma SameElementsSameDecision(a1: Authentication, attrs1: seq<ConfigAttribute>, a2: Authentication, attrs2: seq<ConfigAttribute>)
    requires a1.authenticated == a2.authenticated
    requires IncludedIn(a1.authorities, a2.authorities) && IncludedIn(a2.authorities, a1.authorities)
    requires IncludedIn(attrs1, attrs2) && IncludedIn(attrs2, attrs1)
    ensures Decide(Some(a1), attrs1) == Decide(Some(a2), attrs2)
  {
  }

  /** The attributes `supports(ConfigAttribute)` accepts, in their original order. */
  function SupportedOnly(attributes: seq<ConfigAttribute>): (r: seq<ConfigAttribute>)
    ensures |r| <= |attributes|
    ensures forall a :: a in r <==> a in attributes && Supports(a)
  {
    if attributes == [] then []
    else if Supports(attributes[0]) then [attributes[0]] + SupportedOnly(attributes[1..])
    else SupportedOnly(attributes[1..])
  }

  /** An attribute without a value never grants: dropping unsupported attributes changes nothing. */
  lemma UnsupportedAttributesIrrelevant(authentication: Option<Authentication>, attributes: seq<ConfigAttribute>)
    ensures Decide(authentication, SupportedOnly(attributes)) == Decide(authentication, attributes)
  {
  }
}
