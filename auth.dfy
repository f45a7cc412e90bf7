/** The bearer-token acquisition with its one-slot, cache-on-success memoisation. */
module Auth {
  import opened Wrappers
  import opened Api

  /** Credentials read from the environment; either may be unset. */
  datatype Credentials = Credentials(username: Option<string>, password: Option<string>)

  /** A decoded log-in response: its raw text and the `access_token` key, if present. */
  datatype LoginResponse = LoginResponse(text: string, accessToken: Option<string>)

  const InvalidCredentialsPrefix := "Invalid credentials: "

  /** What one credential exchange yields: the token, or the error carrying the response text. */
  function TokenOf(response: LoginResponse): (r: Result<string, Error>)
    ensures r.Ok? <==> response.accessToken.Some?
    ensures r.Ok? ==> r.value == response.accessToken.value
    ensures r.Err? ==> (r.error.InvalidCredentials? &&
                        InvalidCredentialsPrefix <= r.error.message &&
                        r.error.message[|InvalidCredentialsPrefix|..] == response.text)
  {
    match response.accessToken
    case Some(token) => Ok(token)
    case None => Err(InvalidCredentials(InvalidCredentialsPrefix + response.text))
  }

  /** The value returned by a call made while the cache holds `slot`, with `response`
      being what the exchange would answer. */
  function Acquire(slot: Option<string>, response: LoginResponse): Result<string, Error> {
    if slot.Some? then Ok(slot.value) else TokenOf(response)
  }

  /** The cache content after that call: only a successful exchange is remembered. */
  function SlotAfter(slot: Option<string>, response: LoginResponse): Option<string> {
    if slot.Some? then slot
    else match TokenOf(response)
      case Ok(token) => Some(token)
      case Err(_) => None
  }

  /** The cache and the returned value agree: the slot holds exactly the last successful token. */
  lemma AcquireAgreesWithSlot(slot: Option<string>, response: LoginResponse)
    ensures Acquire(slot, response).Ok? <==> SlotAfter(slot, response).Some?
    ensures SlotAfter(slot, response).Some? ==> Acquire(slot, response).value == SlotAfter(slot, response).value
    ensures slot.Some? ==> SlotAfter(slot, response) == slot
  {
  }

  /** A full slot answers every later call without consulting the exchange. */
  lemma CachedTokenIsStable(slot: Option<string>, first: LoginResponse, later: LoginResponse)
    requires SlotAfter(slot, first).Some?
    ensures SlotAfter(SlotAfter(slot, first), later) == SlotAfter(slot, first)
    ensures Acquire(SlotAfter(slot, first), later) == Acquire(slot, first)
  {
  }

  /** The process-wide memo of `get_access_token`. `exchanges` counts credential exchanges. */
  class TokenCache {
    var slot: Option<string>
    ghost var exchanges: nat

    constructor ()
      ensures slot == None && exchanges == 0
    {
      slot := None;
      exchanges := 0;
    }

    /** Returns the cached token, or performs one exchange and caches its token if it has one. */
    method GetAccessToken(exchange: Credentials -> LoginResponse, credentials: Credentials)
      returns (r: Result<string, Error>)
      modifies this
      ensures r == Acquire(old(slot), exchange(credentials))
      ensures slot == SlotAfter(old(slot), exchange(credentials))
      ensures exchanges == if old(slot).Some? then old(exchanges) else old(exchanges) + 1
    {
      if slot.Some? {
        return Ok(slot.value);
      }
      var response := exchange(credentials);
      exchanges := exchanges + 1;
      match response.accessToken {
        case Some(token) =>
          slot := Some(token);
          r := Ok(token);
        case None =>
          r := Err(InvalidCredentials(InvalidCredentialsPrefix + response.text));
      }
    }
  }

  /** Two calls in a row: at most one exchange, and once a token is cached both calls return it. */
  method CallTwice(cache: TokenCache, exchange: Credentials -> LoginResponse, credentials: Credentials)
    returns (first: Result<string, Error>, second: Result<string, Error>)
    modifies cache
    ensures first.Ok? ==> second == first && cache.exchanges <= old(cache.exchanges) + 1
    ensures first.Err? ==> old(cache.slot).None? && cache.slot.None?
  {
    first := cache.GetAccessToken(exchange, credentials);
    second := cache.GetAccessToken(exchange, credentials);
  }
}
