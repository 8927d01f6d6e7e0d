/** The access-token cache: the module globals `access_token` and
    `access_token_expiry`, refreshed by the client-credentials exchange. */
module Tokens {
  import opened Wrappers
  import opened Http

  /** The two globals. `expiry` is a clock reading; the cached token is used while the
      clock is strictly below it. */
  datatype CacheState = CacheState(token: Option<string>, expiry: int)

  /** Before the first exchange: no token and an expiry of 0. */
  const Initial: CacheState := CacheState(None, 0)

  /** Everything the program observes or changes: the cache, the requests sent so far
      and the number of clock readings taken. */
  datatype World = World(cache: CacheState, sent: seq<Request>, ticks: nat)

  /** What the next clock reading returns. */
  function Clock(w: World, sc: Script): int {
    sc.clock(w.ticks)
  }

  /** The clock check of `get_valid_access_token`: no safety margin. */
  predicate Expired(c: CacheState, now: int) {
    now >= c.expiry
  }

  /** A cache without a token still has its initial expiry. Every reachable cache
      satisfies this, so with a clock that never reads below 0 "no token" implies
      "expired". */
  predicate Consistent(c: CacheState) {
    c.token.None? ==> c.expiry == 0
  }

  /** `get_access_token`: one exchange. On success it stores the token and an expiry of
      the clock reading taken after the answer plus `expires_in`; on a refused exchange
      it yields None and changes nothing; on a malformed answer the token may already
      be stored when the KeyError escapes, and the expiry is not touched. */
  function AccessToken(w: World, sc: Script): (r: (World, Outcome<Option<string>>))
    ensures r.0.sent == w.sent + [TokenRequest]
    ensures r.0.cache.expiry != w.cache.expiry ==> sc.grant(r.0.sent).Granted?
    ensures r.1.Returned? && r.1.value.Some? ==> r.0.cache.token == r.1.value
    ensures Consistent(w.cache) ==> Consistent(r.0.cache)
    ensures r.1.Raised? ==> sc.grant(r.0.sent).Malformed?
  {
    var sent := w.sent + [TokenRequest];
    match sc.grant(sent)
    case Refused => (w.(sent := sent), Returned(None))
    case Malformed(t) =>
      var cache := if t.Some? then w.cache.(token := t) else w.cache;
      (w.(cache := cache, sent := sent), Raised)
    case Granted(v, e) =>
      (World(CacheState(Some(v), sc.clock(w.ticks) + e), sent, w.ticks + 1), Returned(Some(v)))
  }

  /** `get_valid_access_token`: read the clock; refresh when it has reached the expiry,
      otherwise hand out the cached value. */
  function ValidAccessToken(w: World, sc: Script): (r: (World, Outcome<Option<string>>))
    ensures r.0.ticks > w.ticks
    ensures r.0.sent == w.sent || r.0.sent == w.sent + [TokenRequest]
    ensures r.1.Returned? && r.1.value.Some? ==> r.0.cache.token == r.1.value
    ensures Consistent(w.cache) ==> Consistent(r.0.cache)
    ensures r.1.Raised? ==> r.0.sent == w.sent + [TokenRequest] && sc.grant(r.0.sent).Malformed?
  {
    var w1 := w.(ticks := w.ticks + 1);
    if Expired(w.cache, Clock(w, sc)) then AccessToken(w1, sc) else (w1, Returned(w.cache.token))
  }

  /** While the clock is below the expiry the cached token is returned unchanged, no
      exchange is requested and the cache is not modified. */
  lemma ReuseWhileFresh(w: World, sc: Script)
    requires !Expired(w.cache, Clock(w, sc))
    ensures var r := ValidAccessToken(w, sc);
      r.0.cache == w.cache && r.0.sent == w.sent && r.1 == Returned(w.cache.token)
  {
  }

  /** Once the clock reaches the expiry, exactly one exchange is requested. */
  lemma RefreshWhenExpired(w: World, sc: Script)
    requires Expired(w.cache, Clock(w, sc))
    ensures ValidAccessToken(w, sc).0.sent == w.sent + [TokenRequest]
  {
  }

  /** The first call of a run always exchanges, since the initial expiry is 0. */
  lemma FirstCallExchanges(sent: seq<Request>, ticks: nat, sc: Script)
    requires sc.clock(ticks) >= 0
    ensures ValidAccessToken(World(Initial, sent, ticks), sc).0.sent == sent + [TokenRequest]
  {
  }

  /** A granted exchange stores the new token with an expiry of the clock reading taken
      after the answer plus the reported lifetime, and returns the new token. */
  lemma GrantIsStored(w: World, sc: Script, v: string, e: int)
    requires Expired(w.cache, Clock(w, sc))
    requires sc.grant(w.sent + [TokenRequest]) == Granted(v, e)
    ensures var r := ValidAccessToken(w, sc);
      r.0.cache == CacheState(Some(v), sc.clock(w.ticks + 1) + e) && r.1 == Returned(Some(v))
  {
  }

  /** A refused exchange yields no token and leaves the cache as it was, so the next
      call at the same or a later clock reading exchanges again. */
  lemma RefusalKeepsCache(w: World, sc: Script)
    requires Expired(w.cache, Clock(w, sc))
    requires sc.grant(w.sent + [TokenRequest]) == Refused
    ensures var r := ValidAccessToken(w, sc);
      && r.0.cache == w.cache
      && r.1 == Returned(None)
      && (Clock(r.0, sc) >= Clock(w, sc) ==>
            ValidAccessToken(r.0, sc).0.sent == r.0.sent + [TokenRequest])
  {
  }

  /** A malformed answer escapes as an exception and never moves the expiry. */
  lemma MalformedKeepsExpiry(w: World, sc: Script, t: Option<string>)
    requires Expired(w.cache, Clock(w, sc))
    requires sc.grant(w.sent + [TokenRequest]) == Malformed(t)
    ensures var r := ValidAccessToken(w, sc);
      && r.1 == Raised
      && r.0.cache.expiry == w.cache.expiry
      && r.0.cache.token == (if t.Some? then t else w.cache.token)
  {
  }

  /** With a consistent cache and a non-negative clock, holding no token forces an
      exchange. */
  lemma NoTokenForcesExchange(w: World, sc: Script)
    requires Consistent(w.cache) && w.cache.token.None? && Clock(w, sc) >= 0
    ensures ValidAccessToken(w, sc).0.sent == w.sent + [TokenRequest]
  {
  }

  /** With a consistent cache and a non-negative clock, a call whose exchange, if it
      makes one, would be granted always yields a token. */
  lemma TokenAvailableWhenGranted(w: World, sc: Script)
    requires Consistent(w.cache) && Clock(w, sc) >= 0
    requires sc.grant(w.sent + [TokenRequest]).Granted?
    ensures var t := ValidAccessToken(w, sc).1;
      t.Returned? && t.value.Some?
  {
  }

  /** The globals `access_token` and `access_token_expiry`. */
  class TokenCache {
    var token: Option<string>
    var expiry: int

    /** Module load: `access_token = None`, `access_token_expiry = 0`. */
    constructor ()
      ensures State() == Initial
    {
      token := None;
      expiry := 0;
    }

    function State(): CacheState
      reads this
    {
      CacheState(token, expiry)
    }

    /** The cache together with the network's log and clock. */
    function Observed(net: Network): World
      reads this, net
    {
      World(State(), net.sent, net.ticks)
    }

    /** `get_access_token`. */
    method GetAccessToken(net: Network) returns (r: Outcome<Option<string>>)
      modifies this, net
      ensures (Observed(net), r) == AccessToken(old(Observed(net)), net.script)
    {
      var answer := net.PostToken();
      match answer
      case Refused =>
        r := Returned(None);
      case Malformed(t) =>
        if t.Some? {
          token := t;
        }
        r := Raised;
      case Granted(v, e) =>
        token := Some(v);
        var now := net.Now();
        expiry := now + e;
        r := Returned(token);
    }

    /** `get_valid_access_token`. */
    method GetValidAccessToken(net: Network) returns (r: Outcome<Option<string>>)
      modifies this, net
      ensures (Observed(net), r) == ValidAccessToken(old(Observed(net)), net.script)
    {
      var now := net.Now();
      if now >= expiry {
        r := GetAccessToken(net);
      } else {
        r := Returned(token);
      }
    }
  }
}
