// The authentication helpers over the browser's key/value store: the token check with its
// expiry rule, the request headers, signing out and the user id.

module Auth {
  import opened Wrappers
  import opened Interactions

  const TokenKey := "token"
  const UserIdKey := "userId"

  /** What decoding a token's payload yields: `None` when the decoding throws, otherwise the
      numeric `exp` claim (section 4.1.4 of RFC 7519), if there is one. */
  type Decoder = string -> Option<Option<real>>

  /** `localStorage.getItem(key)`, with `None` for null. */
  function Get(items: map<string, string>, key: string): (r: Option<string>)
    ensures r.Some? <==> key in items
    ensures r.Some? ==> r.value == items[key]
  {
    if key in items then Some(items[key]) else None
  }

  /** The store with both sign-in keys removed. */
  function WithoutAuth(items: map<string, string>): (r: map<string, string>)
    ensures TokenKey !in r && UserIdKey !in r
    ensures forall k :: k != TokenKey && k != UserIdKey ==> (k in r <==> k in items)
    ensures forall k :: k in r ==> r[k] == items[k]
  {
    items - {TokenKey, UserIdKey}
  }

  /** The answer of `isAuthenticated` at `now` seconds: a non-empty token whose payload decodes
      and whose `exp`, if numeric, is not before now. */
  function Verdict(items: map<string, string>, now: real, decode: Decoder): bool {
    var token := Get(items, TokenKey);
    if !Present(token) then false
    else match decode(token.value)
      case None => false
      case Some(exp) => !(exp.Some? && exp.value < now)
  }

  /** The store after `isAuthenticated`: both keys are removed exactly when a non-empty token
      is rejected. */
  function StoreAfterCheck(items: map<string, string>, now: real, decode: Decoder): (r: map<string, string>)
    ensures Verdict(items, now, decode) || !Present(Get(items, TokenKey)) ==> r == items
    ensures !Verdict(items, now, decode) && Present(Get(items, TokenKey)) ==> r == WithoutAuth(items)
  {
    var token := Get(items, TokenKey);
    if !Present(token) then items
    else match decode(token.value)
      case None => WithoutAuth(items)
      case Some(exp) => if exp.Some? && exp.value < now then WithoutAuth(items) else items
  }

  /** A token is rejected only strictly after its expiry; a payload without `exp` never
      expires; an undecodable payload is always rejected. */
  lemma ExpiryRule(items: map<string, string>, now: real, decode: Decoder)
    requires Present(Get(items, TokenKey))
    ensures decode(items[TokenKey]).None? ==> !Verdict(items, now, decode)
    ensures decode(items[TokenKey]) == Some(None) ==> Verdict(items, now, decode)
    ensures forall exp: real :: decode(items[TokenKey]) == Some(Some(exp)) ==>
      (Verdict(items, now, decode) <==> now <= exp)
  {
  }

  /** A token accepted now was accepted at every earlier time. */
  lemma AcceptedEarlier(items: map<string, string>, earlier: real, now: real, decode: Decoder)
    requires earlier <= now && Verdict(items, now, decode)
    ensures Verdict(items, earlier, decode)
  {
  }

  /** Checking again at the same time gives the same answer and changes nothing more. */
  lemma CheckIsIdempotent(items: map<string, string>, now: real, decode: Decoder)
    ensures var after := StoreAfterCheck(items, now, decode);
      Verdict(after, now, decode) == Verdict(items, now, decode) &&
      StoreAfterCheck(after, now, decode) == after
  {
    var after := StoreAfterCheck(items, now, decode);
    if !Verdict(items, now, decode) && Present(Get(items, TokenKey)) {
      assert TokenKey !in after;
    }
  }

  /** `getAuthHeaders`: always the JSON content type, and the bearer token when there is one. */
  function AuthHeaders(items: map<string, string>): (h: map<string, string>)
    ensures "Content-Type" in h && h["Content-Type"] == "application/json"
    ensures "Authorization" in h <==> Present(Get(items, TokenKey))
    ensures "Authorization" in h ==> h["Authorization"] == "Bearer " + items[TokenKey]
    ensures h.Keys <= {"Content-Type", "Authorization"}
  {
    var token := Get(items, TokenKey);
    if Present(token) then
      map["Content-Type" := "application/json", "Authorization" := "Bearer " + token.value]
    else
      map["Content-Type" := "application/json"]
  }

  /** After a check, headers carry a token only if the check accepted it. */
  lemma HeadersAfterRejection(items: map<string, string>, now: real, decode: Decoder)
    requires !Verdict(items, now, decode)
    ensures "Authorization" !in AuthHeaders(StoreAfterCheck(items, now, decode))
  {
  }

  /** The browser store the helpers read and change. */
  class Store {
    var items: map<string, string>

    constructor(items: map<string, string>)
      ensures this.items == items
    {
      this.items := items;
    }

    /** `isAuthenticated`, at `nowMs` milliseconds (`Date.now()`). */
    method IsAuthenticated(nowMs: int, decode: Decoder) returns (ok: bool)
      modifies this
      ensures ok == Verdict(old(items), nowMs as real / 1000.0, decode)
      ensures items == StoreAfterCheck(old(items), nowMs as real / 1000.0, decode)
    {
      var token := Get(items, TokenKey);
      if !Present(token) {
        return false;
      }
      var payload := decode(token.value);
      if payload.None? {
        ClearAuthData();
        return false;
      }
      var currentTime := nowMs as real / 1000.0;
      if payload.value.Some? && payload.value.value < currentTime {
        ClearAuthData();
        return false;
      }
      return true;
    }

    /** `getAuthHeaders`. */
    function GetAuthHeaders(): (h: map<string, string>)
      reads this
      ensures h == AuthHeaders(items)
    {
      AuthHeaders(items)
    }

    /** `clearAuthData`: removes exactly the two sign-in keys. */
    method ClearAuthData()
      modifies this
      ensures items == WithoutAuth(old(items))
    {
      items := items - {TokenKey, UserIdKey};
    }

    /** `getUserId`. */
    function GetUserId(): (r: Option<string>)
      reads this
      ensures r == Get(items, UserIdKey)
    {
      Get(items, UserIdKey)
    }
  }

  /** Signing out leaves no user id and no bearer header. */
  method SignOut(store: Store) returns (userId: Option<string>, headers: map<string, string>)
    modifies store
    ensures userId.None? && "Authorization" !in headers
    ensures headers == map["Content-Type" := "application/json"]
  {
    store.ClearAuthData();
    userId := store.GetUserId();
    headers := store.GetAuthHeaders();
  }
}
