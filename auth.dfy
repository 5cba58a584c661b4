/**
 * The session held by `AuthProvider`: `token`, `user` and `loading`, mirrored
 * into localStorage under `authToken` and `authUser`, restored at start-up by
 * decoding the token's payload and fetching the profile it names.
 */
module Auth {
  import opened Wrappers
  import opened Js
  import opened Entities

  const TokenKey: string := "authToken"
  const UserKey: string := "authUser"
  const MissingProviderError: string := "useAuth debe usarse dentro de un AuthProvider"

  /** `JSON.stringify` and `JSON.parse` on profiles; `parse` is `None` where `JSON.parse` throws. */
  datatype UserJson = UserJson(stringify: User -> string, parse: string -> Option<User>)

  /** The library calls `parseJwt` chains; each is `None` where the call throws. */
  datatype Decoders = Decoders(
    atob: string -> Option<string>,
    decodeUriComponent: string -> Option<string>,
    jsonParse: string -> Option<JsValue>)

  /** `if (token)`: a token counts only when it is a non-empty string. */
  predicate TokenPresent(token: Option<string>)
  {
    token.Some? && token.value != ""
  }

  // ---------------------------------------------------------------- storage

  /** localStorage after the token effect: written when present, removed otherwise. */
  function PersistToken(store: map<string, string>, token: Option<string>): (r: map<string, string>)
    ensures TokenPresent(token) ==> TokenKey in r && r[TokenKey] == token.value
    ensures !TokenPresent(token) ==> TokenKey !in r
    ensures forall k :: k != TokenKey ==> (k in r <==> k in store)
    ensures forall k :: k != TokenKey && k in r ==> r[k] == store[k]
  {
    if TokenPresent(token) then store[TokenKey := token.value] else store - {TokenKey}
  }

  /** localStorage after the user effect: the serialised profile when present, removed otherwise. */
  function PersistUser(store: map<string, string>, user: Option<User>, json: UserJson): (r: map<string, string>)
    ensures user.Some? ==> UserKey in r && r[UserKey] == json.stringify(user.value)
    ensures user.None? ==> UserKey !in r
    ensures forall k :: k != UserKey ==> (k in r <==> k in store)
    ensures forall k :: k != UserKey && k in r ==> r[k] == store[k]
  {
    if user.Some? then store[UserKey := json.stringify(user.value)] else store - {UserKey}
  }

  /** localStorage mirrors the session: `authToken` iff a token is present, `authUser` iff a user is. */
  ghost predicate Persisted(store: map<string, string>, token: Option<string>, user: Option<User>, json: UserJson)
  {
    && (if TokenPresent(token) then TokenKey in store && store[TokenKey] == token.value else TokenKey !in store)
    && (if user.Some? then UserKey in store && store[UserKey] == json.stringify(user.value) else UserKey !in store)
  }

  /** Running both persistence effects makes storage mirror the session, whatever it held before. */
  lemma PersistBoth(store: map<string, string>, token: Option<string>, user: Option<User>, json: UserJson)
    ensures Persisted(PersistUser(PersistToken(store, token), user, json), token, user, json)
  {
    assert TokenKey != UserKey by {
      assert |TokenKey| != |UserKey|;
    }
  }

  // ---------------------------------------------------------------- start-up

  datatype Session = Session(token: Option<string>, user: Option<User>, loading: bool)

  /**
   * The provider's initial state, read synchronously from localStorage.
   * `None` when `JSON.parse` throws on the stored profile (the provider crashes).
   */
  function InitialSession(store: map<string, string>, json: UserJson): (r: Option<Session>)
    ensures r.None? <==> UserKey in store && store[UserKey] != "" && json.parse(store[UserKey]).None?
    ensures r.Some? ==> r.value.token == (if TokenKey in store then Some(store[TokenKey]) else None)
    ensures r.Some? ==> (r.value.user.Some? <==> UserKey in store && store[UserKey] != "")
    ensures r.Some? && r.value.user.Some? ==> json.parse(store[UserKey]) == r.value.user
    ensures r.Some? ==> r.value.loading == (!TokenPresent(r.value.token) || r.value.user.None?)
  {
    var token := if TokenKey in store then Some(store[TokenKey]) else None;
    if UserKey in store && store[UserKey] != "" then
      match json.parse(store[UserKey])
      case None => None
      case Some(u) => Some(Session(token, Some(u), !TokenPresent(token)))
    else
      Some(Session(token, None, true))
  }

  /**
   * A reload reads back what the session persisted: the token when one was
   * present and the profile, provided `JSON.parse` undoes `JSON.stringify`.
   */
  lemma ReloadRestoresSession(store: map<string, string>, token: Option<string>, user: Option<User>, json: UserJson)
    requires Persisted(store, token, user, json)
    requires user.Some? ==> json.stringify(user.value) != "" && json.parse(json.stringify(user.value)) == user
    ensures InitialSession(store, json) ==
            Some(Session(if TokenPresent(token) then token else None, user, !TokenPresent(token) || user.None?))
  {
  }

  // ---------------------------------------------------------------- parseJwt

  /** Position of the first `c` in `s`, or `|s|` when there is none. */
  function IndexOf(s: string, c: char): (i: nat)
    ensures i <= |s|
    ensures c !in s[..i]
    ensures i < |s| ==> s[i] == c
  {
    if s == [] || s[0] == c then 0
    else
      var j := IndexOf(s[1..], c);
      assert s[..j + 1] == [s[0]] + s[1..][..j];
      j + 1
  }

  lemma {:induction false} IndexOfIs(s: string, c: char, k: nat)
    requires k <= |s| && c !in s[..k] && (k < |s| ==> s[k] == c)
    ensures IndexOf(s, c) == k
  {
    if k > 0 {
      assert s[0] in s[..k];
      assert s[1..][..k - 1] == s[1..k];
      assert forall x :: x in s[1..k] ==> x in s[..k];
      IndexOfIs(s[1..], c, k - 1);
    }
  }

  /** `token.split(".")[1]`: the text after the first dot up to the next one; `None` (undefined) without a dot. */
  function SecondSegment(token: string): (r: Option<string>)
    ensures r.None? <==> '.' !in token
    ensures r.Some? ==> '.' !in r.value
  {
    var i := IndexOf(token, '.');
    if i == |token| then
      assert token[..i] == token;
      None
    else
      var rest := token[i + 1..];
      Some(rest[..IndexOf(rest, '.')])
  }

  /** The payload of a compact JWS (RFC 7519 section 3) is its second dot-separated segment. */
  lemma SecondSegmentOfCompact(header: string, payload: string, rest: string)
    requires '.' !in header && '.' !in payload
    requires rest == [] || rest[0] == '.'
    ensures SecondSegment(header + "." + payload + rest) == Some(payload)
  {
    var token := header + "." + payload + rest;
    assert token[..|header|] == header;
    IndexOfIs(token, '.', |header|);
    var tail := token[|header| + 1..];
    assert tail == payload + rest;
    assert tail[..|payload|] == payload;
    IndexOfIs(tail, '.', |payload|);
  }

  /** `s` with every `from` replaced by `to` (a global `replace`). */
  function ReplaceChar(s: string, from: char, to: char): (r: string)
    ensures |r| == |s|
    ensures forall i :: 0 <= i < |s| ==> r[i] == (if s[i] == from then to else s[i])
  {
    if s == [] then [] else [if s[0] == from then to else s[0]] + ReplaceChar(s[1..], from, to)
  }

  /**
   * `base64Url.replace(/-/g, "+").replace(/_/g, "/")`: the URL-safe alphabet of
   * section 5 of RFC 4648 mapped to the standard one of section 4.
   */
  function Base64UrlToBase64(s: string): (r: string)
    ensures |r| == |s|
    ensures forall i :: 0 <= i < |s| ==> r[i] == (if s[i] == '-' then '+' else if s[i] == '_' then '/' else s[i])
    ensures '-' !in r && '_' !in r
  {
    ReplaceChar(ReplaceChar(s, '-', '+'), '_', '/')
  }

  /** A segment using only characters both alphabets share is left as it is. */
  lemma Base64UrlPlain(s: string)
    requires '-' !in s && '_' !in s
    ensures Base64UrlToBase64(s) == s
  {
  }

  /** The opposite mapping, standard alphabet to URL-safe. */
  function Base64ToBase64Url(s: string): (r: string)
    ensures |r| == |s|
    ensures forall i :: 0 <= i < |s| ==> r[i] == (if s[i] == '+' then '-' else if s[i] == '/' then '_' else s[i])
  {
    ReplaceChar(ReplaceChar(s, '+', '-'), '/', '_')
  }

  /** On URL-safe text the mapping loses nothing: mapping back gives the input. */
  lemma Base64UrlRoundTrip(s: string)
    requires '+' !in s && '/' !in s
    ensures Base64ToBase64Url(Base64UrlToBase64(s)) == s
  {
    var r := Base64ToBase64Url(Base64UrlToBase64(s));
    forall i | 0 <= i < |s| ensures r[i] == s[i] {
      assert s[i] != '+' && s[i] != '/';
    }
  }

  const HexDigits: string := "0123456789abcdef"

  /** `"%" + ("00" + c.charCodeAt(0).toString(16)).slice(-2)`: the low byte of the code, two lower-case hex digits. */
  function PercentByte(c: char): (r: string)
    ensures |r| == 3 && r[0] == '%'
    ensures HexValue(r[1]) * 16 + HexValue(r[2]) == c as int % 256
  {
    var b := c as int % 256;
    HexDigitValue(b / 16);
    HexDigitValue(b % 16);
    ['%', HexDigits[b / 16], HexDigits[b % 16]]
  }

  /** `s.split("").map(PercentByte).join("")`: the `i`-th triple is the escape of the `i`-th character. */
  function PercentEncode(s: string): (r: string)
    ensures |r| == 3 * |s|
    ensures forall i :: 0 <= i < |s| ==> r[3 * i..3 * i + 3] == PercentByte(s[i])
  {
    if s == [] then []
    else
      var rest := PercentEncode(s[1..]);
      var r := PercentByte(s[0]) + rest;
      assert forall i :: 1 <= i < |s| ==> r[3 * i..3 * i + 3] == rest[3 * (i - 1)..3 * (i - 1) + 3];
      r
  }

  /** The byte each character of `s` stands for. */
  function Bytes(s: string): (r: seq<int>)
    ensures |r| == |s|
    ensures forall i :: 0 <= i < |s| ==> r[i] == s[i] as int % 256
  {
    if s == [] then [] else [s[0] as int % 256] + Bytes(s[1..])
  }

  function HexValue(c: char): int
  {
    if '0' <= c <= '9' then c as int - '0' as int
    else if 'a' <= c <= 'f' then c as int - 'a' as int + 10
    else 0
  }

  /** Reads `%XX` triples back into bytes: what `decodeURIComponent` starts from. */
  function PercentDecode(r: string): seq<int>
    decreases |r|
  {
    if |r| < 3 then [] else [HexValue(r[1]) * 16 + HexValue(r[2])] + PercentDecode(r[3..])
  }

  lemma HexDigitValue(d: int)
    requires 0 <= d < 16
    ensures HexValue(HexDigits[d]) == d
  {
  }

  /** The percent-encoding hands `decodeURIComponent` exactly the bytes `atob` produced. */
  lemma {:induction false} PercentRoundTrip(s: string)
    ensures PercentDecode(PercentEncode(s)) == Bytes(s)
  {
    if s != [] {
      var e := PercentEncode(s);
      assert e[3..] == PercentEncode(s[1..]);
      PercentRoundTrip(s[1..]);
    }
  }

  /**
   * `parseJwt`: the token's payload, decoded and parsed, or `null` when any step
   * throws. The signature is never checked.
   */
  function ParseJwt(token: string, dec: Decoders): (v: JsValue)
    ensures '.' !in token ==> v == Null
  {
    match SecondSegment(token)
    case None => Null
    case Some(segment) =>
      match dec.atob(Base64UrlToBase64(segment))
      case None => Null
      case Some(binary) =>
        match dec.decodeUriComponent(PercentEncode(binary))
        case None => Null
        case Some(text) =>
          match dec.jsonParse(text)
          case None => Null
          case Some(v) => v
  }

  /** `parseJwt` fails closed: a non-null result means every decoding step succeeded on the payload segment. */
  lemma ParseJwtFailsClosed(token: string, dec: Decoders)
    requires ParseJwt(token, dec) != Null
    ensures SecondSegment(token).Some?
    ensures var b64 := Base64UrlToBase64(SecondSegment(token).value);
            dec.atob(b64).Some? &&
            dec.decodeUriComponent(PercentEncode(dec.atob(b64).value)).Some? &&
            dec.jsonParse(dec.decodeUriComponent(PercentEncode(dec.atob(b64).value)).value)
              == Some(ParseJwt(token, dec))
  {
  }

  /** `parseJwt(token)?.userId`. */
  function ClaimedUserId(token: string, dec: Decoders): JsValue
  {
    OptionalGet(ParseJwt(token, dec), "userId")
  }

  /**
   * A compact token whose payload segment `atob` rejects names no user: the
   * failure is caught and `parseJwt` answers `null`.
   */
  lemma UndecodablePayloadHasNoClaim(header: string, payload: string, dec: Decoders)
    requires '.' !in header && '.' !in payload
    requires dec.atob(Base64UrlToBase64(payload)) == None
    ensures ClaimedUserId(header + "." + payload, dec) == Undefined
  {
    assert header + "." + payload == header + "." + payload + "";
    SecondSegmentOfCompact(header, payload, "");
  }

  // ---------------------------------------------------------------- provider

  /** How the profile request of the restoration effect settles. */
  datatype FetchOutcome =
    | Fetched(profile: User)   // response ok and its body parsed
    | FetchFailed              // non-ok status, network error or bad body

  /** `GET /users/{userId}` with `Authorization: Bearer {bearer}`. */
  datatype ProfileRequest = ProfileRequest(userId: JsValue, bearer: string)

  class AuthProvider {
    var token: Option<string>
    var user: Option<User>
    var loading: bool
    /** localStorage. */
    var store: map<string, string>
    const json: UserJson

    ghost predicate Valid()
      reads this
    {
      Persisted(store, token, user, json)
    }

    /** Seeds the state from localStorage, then runs the two persistence effects of the first render. */
    constructor (stored: map<string, string>, json: UserJson)
      requires InitialSession(stored, json).Some?
      ensures this.json == json
      ensures InitialSession(stored, json) == Some(Session(token, user, loading))
      ensures store == PersistUser(PersistToken(stored, token), user, json)
      ensures Valid()
    {
      var s := InitialSession(stored, json).value;
      this.json := json;
      token := s.token;
      user := s.user;
      loading := s.loading;
      store := PersistUser(PersistToken(stored, s.token), s.user, json);
      new;
      PersistBoth(stored, s.token, s.user, json);
    }

    /** `setToken(t)` followed by the token effect. */
    method SetToken(t: Option<string>)
      requires Valid()
      modifies this
      ensures token == t && user == old(user) && loading == old(loading)
      ensures store == PersistToken(old(store), t)
      ensures Valid()
    {
      token := t;
      store := PersistToken(store, t);
      PersistBoth(old(store), t, user, json);
      assert store == PersistUser(PersistToken(old(store), t), user, json);
    }

    /** `setUser(u)` followed by the user effect. */
    method SetUser(u: Option<User>)
      requires Valid()
      modifies this
      ensures user == u && token == old(token) && loading == old(loading)
      ensures store == PersistUser(old(store), u, json)
      ensures Valid()
    {
      user := u;
      store := PersistUser(store, u, json);
      assert TokenKey != UserKey by {
        assert |TokenKey| != |UserKey|;
      }
    }

    /**
     * The restoration effect (after the first render and after every token
     * change), with the profile fetch, when one is issued, settling as `fetch`.
     */
    method Restore(dec: Decoders, fetch: FetchOutcome) returns (request: Option<ProfileRequest>)
      requires Valid()
      modifies this
      ensures Valid() && !loading
      ensures request.Some? <==>
              TokenPresent(old(token)) && old(user).None? && Truthy(ClaimedUserId(old(token).value, dec))
      ensures request.Some? ==> request.value == ProfileRequest(ClaimedUserId(old(token).value, dec), old(token).value)
      ensures request.None? ==> token == old(token) && user == old(user) && store == old(store)
      ensures request.Some? && fetch.Fetched? ==>
              token == old(token) && user == Some(fetch.profile) && store == old(store)[UserKey := json.stringify(fetch.profile)]
      ensures request.Some? && fetch.FetchFailed? ==>
              token.None? && user.None? && store == old(store) - {TokenKey}
    {
      request := None;
      if TokenPresent(token) && user.None? {
        var userId := ClaimedUserId(token.value, dec);
        if Truthy(userId) {
          request := Some(ProfileRequest(userId, token.value));
          match fetch
          case Fetched(profile) =>
            user := Some(profile);
            store := store[UserKey := json.stringify(profile)];
          case FetchFailed =>
            token := None;
            store := store - {TokenKey};
        }
      }
      loading := false;
      assert TokenKey != UserKey by {
        assert |TokenKey| != |UserKey|;
      }
    }
  }

  /** `useAuth`: the provider's context, or the error it throws outside a provider. */
  function UseAuth(context: Option<AuthProvider>): (r: Result<AuthProvider, string>)
    ensures r.Ok? <==> context.Some?
    ensures r.Ok? ==> r.value == context.value
    ensures r.Err? ==> r.error == MissingProviderError
  {
    if context.Some? then Ok(context.value) else Err(MissingProviderError)
  }
}
