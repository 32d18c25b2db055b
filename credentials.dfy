/** The credential the pages keep in Web Storage, stated over the contents
    of the two scopes: the login page writes it, the dashboard reads it
    back and removes it on sign-out. Durable storage (`localStorage`) holds
    the access token and the user id; session storage (`sessionStorage`)
    holds a second copy of the token. */
module Credentials {
  import opened Js
  import opened WebStorage

  const AuthTokenKey := "authToken"
  const UserIdKey := "userId"

  /** The contents of both storage scopes. */
  datatype Scopes = Scopes(local: map<string, string>, session: map<string, string>)

  /** An access token together with the id of the user it was issued to. */
  datatype Credential = Credential(token: string, userId: string)

  /** The contents after the login page stores a credential: the token
      under `authToken` in both scopes, the user id under `userId` in
      durable storage, every other entry as it was. */
  function Save(s: Scopes, token: string, userId: string): (r: Scopes)
    ensures Lookup(r.local, AuthTokenKey) == Some(token)
    ensures Lookup(r.session, AuthTokenKey) == Some(token)
    ensures Lookup(r.local, UserIdKey) == Some(userId)
    ensures forall k :: k != AuthTokenKey && k != UserIdKey ==> Lookup(r.local, k) == Lookup(s.local, k)
    ensures forall k :: k != AuthTokenKey ==> Lookup(r.session, k) == Lookup(s.session, k)
  {
    Scopes(s.local[AuthTokenKey := token][UserIdKey := userId], s.session[AuthTokenKey := token])
  }

  /** The contents after sign-out: `authToken` gone from both scopes,
      `userId` gone from durable storage, every other entry as it was. */
  function Clear(s: Scopes): (r: Scopes)
    ensures Lookup(r.local, AuthTokenKey) == None
    ensures Lookup(r.session, AuthTokenKey) == None
    ensures Lookup(r.local, UserIdKey) == None
    ensures forall k :: k != AuthTokenKey && k != UserIdKey ==> Lookup(r.local, k) == Lookup(s.local, k)
    ensures forall k :: k != AuthTokenKey ==> Lookup(r.session, k) == Lookup(s.session, k)
  {
    Scopes(s.local - {AuthTokenKey, UserIdKey}, s.session - {AuthTokenKey})
  }

  /** The token the dashboard reads: the durable copy when it is truthy,
      otherwise whatever session storage holds (possibly nothing). */
  function StoredToken(s: Scopes): (r: Option<string>)
    ensures Truthy(r) <==> Truthy(Lookup(s.local, AuthTokenKey)) || Truthy(Lookup(s.session, AuthTokenKey))
    ensures Truthy(Lookup(s.local, AuthTokenKey)) ==> r == Lookup(s.local, AuthTokenKey)
    ensures !Truthy(Lookup(s.local, AuthTokenKey)) ==> r == Lookup(s.session, AuthTokenKey)
  {
    Or(Lookup(s.local, AuthTokenKey), Lookup(s.session, AuthTokenKey))
  }

  /** The user id the dashboard reads: from durable storage only. */
  function StoredUserId(s: Scopes): (r: Option<string>)
    ensures r.Some? <==> UserIdKey in s.local
    ensures r.Some? ==> r.value == s.local[UserIdKey]
  {
    Lookup(s.local, UserIdKey)
  }

  /** Session storage never supplies the user id. */
  lemma UserIdIgnoresSession(s: Scopes, session: map<string, string>)
    ensures StoredUserId(Scopes(s.local, session)) == StoredUserId(s)
  {
  }

  /** Save then load: the token and user id written by the login page are
      exactly what the dashboard reads back. */
  lemma LoadAfterSave(s: Scopes, token: string, userId: string)
    ensures StoredToken(Save(s, token, userId)) == Some(token)
    ensures StoredUserId(Save(s, token, userId)) == Some(userId)
  {
  }

  /** After sign-out no token and no user id can be read back, whatever
      either scope held before. */
  lemma NothingStoredAfterClear(s: Scopes)
    ensures StoredToken(Clear(s)) == None
    ensures StoredUserId(Clear(s)) == None
  {
  }

  /** Signing out twice leaves the same contents as signing out once. */
  lemma ClearIdempotent(s: Scopes)
    ensures Clear(Clear(s)) == Clear(s)
  {
  }

  /** Sign-out removes everything a login stored and nothing else: storing
      then clearing is the same as clearing alone. */
  lemma ClearUndoesSave(s: Scopes, token: string, userId: string)
    ensures Clear(Save(s, token, userId)) == Clear(s)
  {
  }
}
