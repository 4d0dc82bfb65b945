/// The server hook that runs before every request: it reads the `auth_token`
/// cookie, checks the token's payload and either records the signed-in user
/// in `event.locals.user` or deletes the cookie, and then passes the request
/// on to `resolve`.
module AuthHooks {
  import opened Js

  /// What `jwt.verify(token, JWT_SECRET)` does with a token: it throws (bad
  /// signature, expired, malformed), or returns the decoded payload.
  datatype Decoded = VerifyThrew | Returned(payload: JsonValue)

  /// `App.Locals['user']`.  The fields other than `isVolunteer` hold whatever
  /// JSON value the payload carried under the corresponding claim.
  datatype User = User(
    id: JsonValue,
    email: JsonValue,
    firstName: JsonValue,
    lastName: JsonValue,
    street: JsonValue,
    zipCode: JsonValue,
    neighborhood: JsonValue,
    isVolunteer: bool)

  /// The eight claims a payload must carry to describe a user, in the order
  /// the sign-in and registration pages put them in the payload (the shape
  /// check itself does not depend on the order).
  const UserClaims: seq<string> :=
    ["userId", "email", "firstName", "lastName", "isVolunteer", "street", "zipCode", "neighborhood"]

  /// `typeof decoded === 'object' && decoded !== null` and every claim is
  /// `in decoded`.
  predicate HasUserShape(v: JsonValue)
  {
    v.JObject? && forall k :: k in UserClaims ==> HasKey(v.members, k)
  }

  /// `decoded[k]` for a claim the payload has.
  function Claim(ms: seq<(string, JsonValue)>, k: string): JsonValue
    requires HasKey(ms, k)
  {
    Lookup(ms, k).value
  }

  /// `verifyAuthToken`: a user exactly when verification succeeded and the
  /// payload is an object with all eight claims; an exception of `jwt.verify`
  /// becomes None as well.
  function VerifyAuthToken(d: Decoded): (r: Option<User>)
    ensures r.Some? <==> d.Returned? && HasUserShape(d.payload)
    ensures r.Some? ==>
              var ms := d.payload.members;
              && Lookup(ms, "userId") == Some(r.value.id)
              && Lookup(ms, "email") == Some(r.value.email)
              && Lookup(ms, "firstName") == Some(r.value.firstName)
              && Lookup(ms, "lastName") == Some(r.value.lastName)
              && Lookup(ms, "street") == Some(r.value.street)
              && Lookup(ms, "zipCode") == Some(r.value.zipCode)
              && Lookup(ms, "neighborhood") == Some(r.value.neighborhood)
              && r.value.isVolunteer == Truthy(Lookup(ms, "isVolunteer").value)
  {
    match d
    case VerifyThrew => None
    case Returned(v) =>
      if HasUserShape(v) then
        var ms := v.members;
        Some(User(
          Claim(ms, "userId"),
          Claim(ms, "email"),
          Claim(ms, "firstName"),
          Claim(ms, "lastName"),
          Claim(ms, "street"),
          Claim(ms, "zipCode"),
          Claim(ms, "neighborhood"),
          Truthy(Claim(ms, "isVolunteer"))))
      else None
  }

  /// The payload the sign-in and registration pages sign for a user, in
  /// their order, followed by other claims (such as the `iat` and `exp` that
  /// signing adds).
  function UserPayload(u: User, extra: seq<(string, JsonValue)>): JsonValue
  {
    JObject([("userId", u.id), ("email", u.email), ("firstName", u.firstName),
             ("lastName", u.lastName), ("isVolunteer", JBool(u.isVolunteer)), ("street", u.street),
             ("zipCode", u.zipCode), ("neighborhood", u.neighborhood)] + extra)
  }

  /// A token whose payload was built from a user, and whose other claims do
  /// not shadow the user's, verifies to that same user.
  lemma VerifyUserPayload(u: User, extra: seq<(string, JsonValue)>)
    requires forall i :: 0 <= i < |extra| ==> extra[i].0 !in UserClaims
    ensures VerifyAuthToken(Returned(UserPayload(u, extra))) == Some(u)
  {
    var ms := UserPayload(u, extra).members;
    assert ms[8..] == extra;
    PayloadVerifies(ms, u, extra);
  }

  /// The same for any payload whose first eight members are the user's
  /// claims in order and whose later members have other names.
  lemma PayloadVerifies(ms: seq<(string, JsonValue)>, u: User, extra: seq<(string, JsonValue)>)
    requires |ms| == 8 + |extra| && ms[8..] == extra
    requires ms[0] == ("userId", u.id)
    requires ms[1] == ("email", u.email)
    requires ms[2] == ("firstName", u.firstName)
    requires ms[3] == ("lastName", u.lastName)
    requires ms[4] == ("isVolunteer", JBool(u.isVolunteer))
    requires ms[5] == ("street", u.street)
    requires ms[6] == ("zipCode", u.zipCode)
    requires ms[7] == ("neighborhood", u.neighborhood)
    requires forall i :: 0 <= i < |extra| ==> extra[i].0 !in UserClaims
    ensures VerifyAuthToken(Returned(JObject(ms))) == Some(u)
  {
    ClaimAt(ms, 0, "userId", extra);
    ClaimAt(ms, 1, "email", extra);
    ClaimAt(ms, 2, "firstName", extra);
    ClaimAt(ms, 3, "lastName", extra);
    ClaimAt(ms, 4, "isVolunteer", extra);
    ClaimAt(ms, 5, "street", extra);
    ClaimAt(ms, 6, "zipCode", extra);
    ClaimAt(ms, 7, "neighborhood", extra);
    forall i | 0 <= i < 8
      ensures HasKey(ms, UserClaims[i])
    {
      ClaimAt(ms, i, UserClaims[i], extra);
    }
    UserFromClaims(ms, u);
  }

  /// In a payload whose first eight members carry the eight claims in order,
  /// followed by members with other names, claim `UserClaims[i]` is found at
  /// member i.
  lemma ClaimAt(ms: seq<(string, JsonValue)>, i: nat, k: string, extra: seq<(string, JsonValue)>)
    requires i < 8 && k == UserClaims[i]
    requires |ms| == 8 + |extra| && ms[8..] == extra
    requires forall j :: 0 <= j < 8 ==> ms[j].0 == UserClaims[j]
    requires forall j :: 0 <= j < |extra| ==> extra[j].0 !in UserClaims
    ensures HasKey(ms, k)
    ensures Lookup(ms, k) == Some(ms[i].1)
  {
    forall j | i < j < |ms|
      ensures ms[j].0 != k
    {
      if j >= 8 {
        assert ms[j] == extra[j - 8];
      }
    }
    LookupLast(ms, i, k);
  }

  /// A payload whose eight claims are found with a user's values (and true
  /// or false under `isVolunteer`) verifies to that user.
  lemma UserFromClaims(ms: seq<(string, JsonValue)>, u: User)
    requires forall i :: 0 <= i < 8 ==> HasKey(ms, UserClaims[i])
    requires Lookup(ms, "userId") == Some(u.id) && Lookup(ms, "email") == Some(u.email)
    requires Lookup(ms, "firstName") == Some(u.firstName) && Lookup(ms, "lastName") == Some(u.lastName)
    requires Lookup(ms, "street") == Some(u.street) && Lookup(ms, "zipCode") == Some(u.zipCode)
    requires Lookup(ms, "neighborhood") == Some(u.neighborhood)
    requires Lookup(ms, "isVolunteer") == Some(JBool(u.isVolunteer))
    ensures VerifyAuthToken(Returned(JObject(ms))) == Some(u)
  {
    assert HasUserShape(JObject(ms)) by {
      forall k | k in UserClaims
        ensures HasKey(ms, k)
      {
        var i :| 0 <= i < 8 && UserClaims[i] == k;
      }
    }
  }

  /// What a call of `resolve(event)` sees: `locals.user`, the `auth_token`
  /// cookie and the deletions made so far.
  datatype Seen = Seen(user: Option<User>, authCookie: Option<string>, deletedCookies: seq<(string, string)>)

  /// The request as the hook sees and changes it.
  class RequestEvent {
    /// The value of the `auth_token` cookie sent with the request, None when
    /// there is none; deleting the cookie makes it None.
    var authCookie: Option<string>
    /// The cookies deleted, as (name, path).
    var deletedCookies: seq<(string, string)>
    /// `event.locals.user`.
    var user: Option<User>
    /// One entry per call of `resolve(event)`, holding the state that call
    /// saw; its length is the number of calls.
    var resolveCalls: seq<Seen>

    constructor(authCookie: Option<string>, user: Option<User>)
      ensures this.authCookie == authCookie && this.user == user
      ensures deletedCookies == [] && resolveCalls == []
    {
      this.authCookie := authCookie;
      this.user := user;
      deletedCookies := [];
      resolveCalls := [];
    }

    /// `event.cookies.delete(name, { path })` for the `auth_token` cookie.
    method DeleteAuthCookie(path: string)
      modifies this
      ensures authCookie == None
      ensures deletedCookies == old(deletedCookies) + [("auth_token", path)]
      ensures user == old(user) && resolveCalls == old(resolveCalls)
    {
      authCookie := None;
      deletedCookies := deletedCookies + [("auth_token", path)];
    }

    /// `resolve(event)`: the rest of the request, which sees `locals.user`
    /// and the cookies as they are now.
    method Resolve()
      modifies this
      ensures resolveCalls == old(resolveCalls) + [Seen(user, authCookie, deletedCookies)]
      ensures user == old(user) && authCookie == old(authCookie)
      ensures deletedCookies == old(deletedCookies)
    {
      resolveCalls := resolveCalls + [Seen(user, authCookie, deletedCookies)];
    }

    /// `handle`.  `verify` is `jwt.verify` with the server's secret.
    method Handle(verify: string -> Decoded)
      modifies this
      ensures user == (if old(authCookie).Some? && old(authCookie).value != ""
                       then VerifyAuthToken(verify(old(authCookie).value)) else None)
      ensures (old(authCookie).Some? && old(authCookie).value != "" && user.None?) <==>
              (authCookie == None && deletedCookies == old(deletedCookies) + [("auth_token", "/")])
      ensures user.Some? || old(authCookie) == Some("") || old(authCookie).None? ==>
              authCookie == old(authCookie) && deletedCookies == old(deletedCookies)
      ensures resolveCalls == old(resolveCalls) + [Seen(user, authCookie, deletedCookies)]
    {
      var token := authCookie;
      user := None;
      if token.Some? && token.value != "" {
        var userData := VerifyAuthToken(verify(token.value));
        if userData.Some? {
          user := userData;
        } else {
          DeleteAuthCookie("/");
        }
      }
      Resolve();
    }
  }
}
