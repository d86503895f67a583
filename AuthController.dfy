/**
 * The token endpoint of the todo backend: the password and refresh-token
 * grants of `Login`, the claims principal that `GenerateTokenAsync` builds
 * for a user, and the `GetDestinations` table that routes each claim to the
 * access token and/or the identity token.
 *
 * The user store is a sequence of users, the password check an oracle, and
 * the authentication of a refresh token its outcome (failure, or the subject
 * claim of the validated principal). Signing the principal in is modelled by
 * returning it.
 */
module AuthController {
  import opened Wrappers

  // Grant types of the token endpoint.
  const PasswordGrant := "password"
  const RefreshTokenGrant := "refresh_token"

  // Claim types: OpenID Connect's, and ASP.NET Identity's security stamp.
  const SubjectClaim := "sub"
  const EmailClaim := "email"
  const NameClaim := "name"
  const RoleClaim := "role"
  const SecurityStampClaim := "AspNet.Identity.SecurityStamp"

  // Scope values of section 5.4 of OpenID Connect Core 1.0, and OpenIddict's "roles".
  const ProfileScope := "profile"
  const EmailScope := "email"
  const RolesScope := "roles"

  // Error messages of the token endpoint.
  const InvalidCredentialsError := "Invalid username or password."
  const InvalidRefreshTokenError := "Invalid refresh token."
  const InvalidUserIdError := "Invalid user ID in refresh token."
  const UserNotFoundError := "User not found."
  const UnsupportedGrantTypeError := "Unsupported grant type."

  /** An ASP.NET Identity user, with the roles the role store gives it. */
  datatype User = User(id: string, userName: Option<string>, email: Option<string>, roles: seq<string>)

  /** The form-encoded token request; `scopes` is the split `scope` parameter. */
  datatype TokenRequest = TokenRequest(grantType: string, username: string, password: string, scopes: seq<string>)

  /** What authenticating the refresh token gave: failure, or the subject claim of the principal. */
  datatype AuthenticateResult = AuthenticationFailed | Authenticated(subject: Option<string>)

  datatype Destination = AccessToken | IdentityToken

  datatype Claim = Claim(claimType: string, value: string, destinations: seq<Destination>)

  /** A signed-in principal: its claims, and the scopes attached to it. */
  datatype Principal = Principal(claims: seq<Claim>, scopes: seq<string>)

  datatype LoginResult = SignIn(principal: Principal) | Unauthorized(error: string) | BadRequest(error: string)

  // ---------------------------------------------------------------------------
  // User store lookups
  // ---------------------------------------------------------------------------

  /** UserManager.FindByNameAsync: the first user with that user name. */
  function FindByName(users: seq<User>, userName: string): (r: Option<User>)
    ensures r.Some? ==> r.value in users && r.value.userName == Some(userName)
    ensures r.None? ==> forall u :: u in users ==> u.userName != Some(userName)
  {
    if users == [] then None
    else if users[0].userName == Some(userName) then Some(users[0])
    else FindByName(users[1..], userName)
  }

  /** UserManager.FindByIdAsync: the first user with that id. */
  function FindById(users: seq<User>, id: string): (r: Option<User>)
    ensures r.Some? ==> r.value in users && r.value.id == id
    ensures r.None? ==> forall u :: u in users ==> u.id != id
  {
    if users == [] then None
    else if users[0].id == id then Some(users[0])
    else FindById(users[1..], id)
  }

  // ---------------------------------------------------------------------------
  // Claim destinations
  // ---------------------------------------------------------------------------

  /** The scope that lets a claim type into the identity token, if any. */
  function IdentityTokenScope(claimType: string): Option<string>
  {
    if claimType == NameClaim then Some(ProfileScope)
    else if claimType == EmailClaim then Some(EmailScope)
    else if claimType == RoleClaim then Some(RolesScope)
    else None
  }

  /** `claim.Subject is not null && claim.Subject.HasScope(scope)`. */
  predicate HasScope(subject: Option<seq<string>>, scope: string)
  {
    subject.Some? && scope in subject.value
  }

  /**
   * The destinations of a claim, given the scopes of the identity that holds
   * it (None when the claim belongs to no identity).
   */
  function GetDestinations(claimType: string, subject: Option<seq<string>>): (r: seq<Destination>)
    ensures claimType == SecurityStampClaim ==> r == []
    ensures claimType != SecurityStampClaim ==> 1 <= |r| && r[0] == AccessToken
    ensures IdentityTokenScope(claimType).None? ==> IdentityToken !in r
    ensures IdentityTokenScope(claimType).Some? ==>
      (IdentityToken in r <==> HasScope(subject, IdentityTokenScope(claimType).value))
    ensures |r| <= 2 && NoDuplicates(r)
  {
    if claimType == NameClaim then
      [AccessToken] + (if HasScope(subject, ProfileScope) then [IdentityToken] else [])
    else if claimType == EmailClaim then
      [AccessToken] + (if HasScope(subject, EmailScope) then [IdentityToken] else [])
    else if claimType == RoleClaim then
      [AccessToken] + (if HasScope(subject, RolesScope) then [IdentityToken] else [])
    else if claimType == SecurityStampClaim then
      []
    else
      [AccessToken]
  }

  // ---------------------------------------------------------------------------
  // Claims and the identity GenerateTokenAsync fills
  // ---------------------------------------------------------------------------

  /** The elements of `s`, each once, in order of first occurrence (LINQ's Distinct). */
  function Distinct(s: seq<string>): (r: seq<string>)
    ensures forall x :: x in r <==> x in s
    ensures NoDuplicates(r)
  {
    if s == [] then []
    else
      var rest := Distinct(s[..|s| - 1]);
      if s[|s| - 1] in rest then rest else rest + [s[|s| - 1]]
  }

  /** The value SetClaim stores: none when the value is null or empty. */
  function PresentValue(value: Option<string>): seq<string>
  {
    if value.Some? && value.value != "" then [value.value] else []
  }

  /** New claims of one type, one per value, not yet given destinations. */
  function ClaimsOf(claimType: string, values: seq<string>): (r: seq<Claim>)
    ensures |r| == |values|
    ensures forall c :: c in r ==> c.claimType == claimType && c.destinations == []
  {
    if values == [] then []
    else [Claim(claimType, values[0], [])] + ClaimsOf(claimType, values[1..])
  }

  /** The claims that remain once every claim of a type is removed. */
  function WithoutType(claims: seq<Claim>, claimType: string): (r: seq<Claim>)
    ensures forall c :: c in r <==> c in claims && c.claimType != claimType
  {
    if claims == [] then []
    else (if claims[0].claimType == claimType then [] else [claims[0]]) + WithoutType(claims[1..], claimType)
  }

  /** The values of the claims of one type, in order. */
  function ValuesOf(claims: seq<Claim>, claimType: string): seq<string>
  {
    if claims == [] then []
    else (if claims[0].claimType == claimType then [claims[0].value] else []) + ValuesOf(claims[1..], claimType)
  }

  /** Every claim with the destinations GetDestinations selects for it; types and values unchanged. */
  function Routed(claims: seq<Claim>, scopes: seq<string>): (r: seq<Claim>)
    ensures |r| == |claims|
    ensures forall i :: 0 <= i < |r| ==>
      r[i] == claims[i].(destinations := GetDestinations(claims[i].claimType, Some(scopes)))
  {
    if claims == [] then []
    else [claims[0].(destinations := GetDestinations(claims[0].claimType, Some(scopes)))] + Routed(claims[1..], scopes)
  }

  /**
   * The ClaimsIdentity that GenerateTokenAsync fills in place, through
   * OpenIddict's SetClaim, SetClaims, SetScopes and SetDestinations.
   */
  class ClaimsIdentity {
    var claims: seq<Claim>
    var scopes: seq<string>

    constructor ()
      ensures claims == [] && scopes == []
    {
      claims := [];
      scopes := [];
    }

    function ToPrincipal(): Principal
      reads this
    {
      Principal(claims, scopes)
    }

    /** Removes every claim of the type, then adds one unless the value is null or empty. */
    method SetClaim(claimType: string, value: Option<string>)
      modifies this
      ensures claims == WithoutType(old(claims), claimType) + ClaimsOf(claimType, PresentValue(value))
      ensures scopes == old(scopes)
    {
      claims := WithoutType(claims, claimType) + ClaimsOf(claimType, PresentValue(value));
    }

    /** Removes every claim of the type, then adds one per distinct value. */
    method SetClaims(claimType: string, values: seq<string>)
      modifies this
      ensures claims == WithoutType(old(claims), claimType) + ClaimsOf(claimType, Distinct(values))
      ensures scopes == old(scopes)
    {
      claims := WithoutType(claims, claimType) + ClaimsOf(claimType, Distinct(values));
    }

    /** Replaces the scopes by the distinct requested ones. */
    method SetScopes(requested: seq<string>)
      modifies this
      ensures scopes == Distinct(requested)
      ensures claims == old(claims)
    {
      scopes := Distinct(requested);
    }

    /** Gives every claim the destinations GetDestinations selects, seen from this identity. */
    method SetDestinations()
      modifies this
      ensures claims == Routed(old(claims), scopes)
      ensures scopes == old(scopes)
    {
      claims := Routed(claims, scopes);
    }
  }

  /** The claims GenerateTokenAsync sets on the identity, before routing. */
  function UserClaims(user: User): seq<Claim>
  {
    ClaimsOf(SubjectClaim, PresentValue(Some(user.id)))
    + ClaimsOf(EmailClaim, PresentValue(user.email))
    + ClaimsOf(NameClaim, PresentValue(user.userName))
    + ClaimsOf(RoleClaim, Distinct(user.roles))
  }

  /** The principal signed in for a user and the requested scopes. */
  function BuildPrincipal(user: User, requestedScopes: seq<string>): Principal
  {
    var scopes := Distinct(requestedScopes);
    Principal(Routed(UserClaims(user), scopes), scopes)
  }

  /** GenerateTokenAsync: fills a fresh identity in place and signs it in. */
  method GenerateTokenAsync(user: User, requestedScopes: seq<string>) returns (p: Principal)
    ensures p == BuildPrincipal(user, requestedScopes)
  {
    var identity := new ClaimsIdentity();
    identity.SetClaim(SubjectClaim, Some(user.id));
    ghost var subject := ClaimsOf(SubjectClaim, PresentValue(Some(user.id)));
    assert identity.claims == subject;
    identity.SetClaim(EmailClaim, user.email);
    WithoutAbsentType(subject, EmailClaim);
    ghost var email := subject + ClaimsOf(EmailClaim, PresentValue(user.email));
    assert identity.claims == email;
    identity.SetClaim(NameClaim, user.userName);
    WithoutAbsentType(email, NameClaim);
    ghost var name := email + ClaimsOf(NameClaim, PresentValue(user.userName));
    assert identity.claims == name;
    identity.SetClaims(RoleClaim, user.roles);
    WithoutAbsentType(name, RoleClaim);
    assert identity.claims == UserClaims(user);
    identity.SetScopes(requestedScopes);
    identity.SetDestinations();
    p := identity.ToPrincipal();
  }

  // ---------------------------------------------------------------------------
  // Grant dispatch
  // ---------------------------------------------------------------------------

  /** The user has proved who they are by the grant the request carries. */
  predicate AuthenticatedAs(request: TokenRequest, checkPassword: (User, string) -> bool,
                            authenticate: AuthenticateResult, user: User)
  {
    || (request.grantType == PasswordGrant && user.userName == Some(request.username)
        && checkPassword(user, request.password))
    || (request.grantType == RefreshTokenGrant && authenticate == Authenticated(Some(user.id)))
  }

  /**
   * Login: the token endpoint. `checkPassword` stands for
   * SignInManager.CheckPasswordSignInAsync and `authenticate` for the outcome
   * of authenticating the refresh token.
   */
  function Login(request: TokenRequest, users: seq<User>, checkPassword: (User, string) -> bool,
                 authenticate: AuthenticateResult): (r: LoginResult)
    ensures r.BadRequest? <==> request.grantType != PasswordGrant && request.grantType != RefreshTokenGrant
    ensures r.BadRequest? ==> r.error == UnsupportedGrantTypeError
    ensures r.SignIn? ==> exists u :: u in users && AuthenticatedAs(request, checkPassword, authenticate, u)
                                      && r.principal == BuildPrincipal(u, request.scopes)
    ensures request.grantType == PasswordGrant && r.Unauthorized? ==> r.error == InvalidCredentialsError
    ensures request.grantType == RefreshTokenGrant && authenticate.AuthenticationFailed? ==>
      r == Unauthorized(InvalidRefreshTokenError)
    ensures request.grantType == RefreshTokenGrant && authenticate == Authenticated(None) ==>
      r == Unauthorized(InvalidUserIdError)
    ensures request.grantType == RefreshTokenGrant && authenticate.Authenticated? && authenticate.subject.Some?
            && (forall u :: u in users ==> u.id != authenticate.subject.value) ==>
      r == Unauthorized(UserNotFoundError)
  {
    if request.grantType == PasswordGrant then
      match FindByName(users, request.username)
      case None => Unauthorized(InvalidCredentialsError)
      case Some(user) =>
        if !checkPassword(user, request.password) then Unauthorized(InvalidCredentialsError)
        else SignIn(BuildPrincipal(user, request.scopes))
    else if request.grantType == RefreshTokenGrant then
      match authenticate
      case AuthenticationFailed => Unauthorized(InvalidRefreshTokenError)
      case Authenticated(None) => Unauthorized(InvalidUserIdError)
      case Authenticated(Some(userId)) =>
        match FindById(users, userId)
        case None => Unauthorized(UserNotFoundError)
        case Some(user) => SignIn(BuildPrincipal(user, request.scopes))
    else
      BadRequest(UnsupportedGrantTypeError)
  }

  // ---------------------------------------------------------------------------
  // Lemmas
  // ---------------------------------------------------------------------------

  /** Removing a type no claim has leaves the claims as they are. */
  lemma {:induction false} WithoutAbsentType(claims: seq<Claim>, claimType: string)
    requires forall c :: c in claims ==> c.claimType != claimType
    ensures WithoutType(claims, claimType) == claims
  {
    if claims != [] {
      WithoutAbsentType(claims[1..], claimType);
      assert [claims[0]] + claims[1..] == claims;
    }
  }

  lemma {:induction false} ValuesOfAppend(a: seq<Claim>, b: seq<Claim>, claimType: string)
    ensures ValuesOf(a + b, claimType) == ValuesOf(a, claimType) + ValuesOf(b, claimType)
  {
    if a == [] {
      assert a + b == b;
    } else {
      assert (a + b)[1..] == a[1..] + b;
      ValuesOfAppend(a[1..], b, claimType);
    }
  }

  lemma {:induction false} ValuesOfClaimsOf(t: string, values: seq<string>, claimType: string)
    ensures ValuesOf(ClaimsOf(t, values), claimType) == if t == claimType then values else []
  {
    if values != [] {
      ValuesOfClaimsOf(t, values[1..], claimType);
      assert [values[0]] + values[1..] == values;
    }
  }

  /** Routing changes destinations only, so the values of every claim type survive it. */
  lemma {:induction false} ValuesOfRouted(claims: seq<Claim>, scopes: seq<string>, claimType: string)
    ensures ValuesOf(Routed(claims, scopes), claimType) == ValuesOf(claims, claimType)
  {
    if claims != [] {
      ValuesOfRouted(claims[1..], scopes, claimType);
    }
  }

  /**
   * The principal carries exactly the user's id as subject, its e-mail and
   * user name when they are set, and one role claim per distinct role.
   */
  lemma ValuesOfUserClaims(user: User, scopes: seq<string>, claimType: string)
    ensures ValuesOf(Routed(UserClaims(user), scopes), claimType)
         == (if claimType == SubjectClaim then PresentValue(Some(user.id)) else [])
          + (if claimType == EmailClaim then PresentValue(user.email) else [])
          + (if claimType == NameClaim then PresentValue(user.userName) else [])
          + (if claimType == RoleClaim then Distinct(user.roles) else [])
  {
    var s := ClaimsOf(SubjectClaim, PresentValue(Some(user.id)));
    var e := ClaimsOf(EmailClaim, PresentValue(user.email));
    var n := ClaimsOf(NameClaim, PresentValue(user.userName));
    var ro := ClaimsOf(RoleClaim, Distinct(user.roles));
    ValuesOfRouted(UserClaims(user), scopes, claimType);
    ValuesOfAppend(s + e + n, ro, claimType);
    ValuesOfAppend(s + e, n, claimType);
    ValuesOfAppend(s, e, claimType);
    ValuesOfClaimsOf(SubjectClaim, PresentValue(Some(user.id)), claimType);
    ValuesOfClaimsOf(EmailClaim, PresentValue(user.email), claimType);
    ValuesOfClaimsOf(NameClaim, PresentValue(user.userName), claimType);
    ValuesOfClaimsOf(RoleClaim, Distinct(user.roles), claimType);
  }

  /**
   * The principal carries exactly the user's id as subject, its e-mail and
   * user name when they are set, and one role claim per distinct role.
   */
  lemma PrincipalClaimValues(user: User, requestedScopes: seq<string>)
    ensures var p := BuildPrincipal(user, requestedScopes);
      && ValuesOf(p.claims, SubjectClaim) == PresentValue(Some(user.id))
      && ValuesOf(p.claims, EmailClaim) == PresentValue(user.email)
      && ValuesOf(p.claims, NameClaim) == PresentValue(user.userName)
      && ValuesOf(p.claims, RoleClaim) == Distinct(user.roles)
  {
    var scopes := Distinct(requestedScopes);
    ValuesOfUserClaims(user, scopes, SubjectClaim);
    ValuesOfUserClaims(user, scopes, EmailClaim);
    ValuesOfUserClaims(user, scopes, NameClaim);
    ValuesOfUserClaims(user, scopes, RoleClaim);
  }

  /**
   * Every claim of the principal reaches the access token, and reaches the
   * identity token exactly when the scope that gates its type was requested;
   * the scopes attached are the requested ones, each once.
   */
  lemma PrincipalClaimRouting(user: User, requestedScopes: seq<string>)
    ensures var p := BuildPrincipal(user, requestedScopes);
      && (forall s :: s in p.scopes <==> s in requestedScopes)
      && NoDuplicates(p.scopes)
      && (forall c :: c in p.claims ==> c.claimType in {SubjectClaim, EmailClaim, NameClaim, RoleClaim})
      && (forall c :: c in p.claims ==> c.destinations == GetDestinations(c.claimType, Some(p.scopes)))
      && (forall c :: c in p.claims ==> AccessToken in c.destinations)
      && (forall c :: c in p.claims ==>
            (IdentityToken in c.destinations <==>
               IdentityTokenScope(c.claimType).Some? && IdentityTokenScope(c.claimType).value in requestedScopes))
  {
  }

  /** A request with no scopes discloses no claim in the identity token. */
  lemma NoScopesNoIdentityTokenClaims(user: User)
    ensures forall c :: c in BuildPrincipal(user, []).claims ==> c.destinations == [AccessToken]
  {
  }

  /**
   * On the password grant an unknown user name and a wrong password give the
   * same answer, so the response does not tell which one happened.
   */
  lemma NoUserEnumeration(request: TokenRequest, users1: seq<User>, users2: seq<User>,
                          check1: (User, string) -> bool, check2: (User, string) -> bool,
                          authenticate1: AuthenticateResult, authenticate2: AuthenticateResult)
    requires request.grantType == PasswordGrant
    requires FindByName(users1, request.username).None?
    requires FindByName(users2, request.username).Some?
    requires !check2(FindByName(users2, request.username).value, request.password)
    ensures Login(request, users1, check1, authenticate1) == Login(request, users2, check2, authenticate2)
    ensures Login(request, users1, check1, authenticate1) == Unauthorized(InvalidCredentialsError)
  {
  }

  /** A known user with the right password, or a valid refresh token naming a known user, signs in. */
  lemma AuthenticatedUserSignsIn(request: TokenRequest, users: seq<User>, checkPassword: (User, string) -> bool,
                                 authenticate: AuthenticateResult, user: User)
    requires
      || (request.grantType == PasswordGrant && FindByName(users, request.username) == Some(user)
          && checkPassword(user, request.password))
      || (request.grantType == RefreshTokenGrant && authenticate == Authenticated(Some(user.id))
          && FindById(users, user.id) == Some(user))
    ensures Login(request, users, checkPassword, authenticate) == SignIn(BuildPrincipal(user, request.scopes))
  {
  }

  /**
   * The subject claim of a signed-in principal is the authenticated user's
   * id: on the refresh grant, the subject the refresh token carried.
   */
  lemma SignedInSubject(request: TokenRequest, users: seq<User>, checkPassword: (User, string) -> bool,
                        authenticate: AuthenticateResult)
    ensures var r := Login(request, users, checkPassword, authenticate);
      r.SignIn? ==> var p := r.principal;
      && (request.grantType == RefreshTokenGrant ==>
            authenticate.Authenticated? && ValuesOf(p.claims, SubjectClaim) == PresentValue(authenticate.subject))
      && (request.grantType == PasswordGrant ==>
            exists u :: u in users && u.userName == Some(request.username) && checkPassword(u, request.password)
                        && ValuesOf(p.claims, SubjectClaim) == PresentValue(Some(u.id)))
  {
    var r := Login(request, users, checkPassword, authenticate);
    if r.SignIn? {
      var u :| u in users && AuthenticatedAs(request, checkPassword, authenticate, u)
               && r.principal == BuildPrincipal(u, request.scopes);
      PrincipalClaimValues(u, request.scopes);
    }
  }
}
