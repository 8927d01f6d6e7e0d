/** `get_users` and `get_user_sessions`: reads that fail open to an empty list. */
module Readers {
  import opened Wrappers
  import opened Http
  import opened Tokens

  /** The list a fail-open read yields for an answer: the body, or [] on failure. */
  function OrEmpty<T>(f: Fetch<seq<T>>): (r: seq<T>)
    ensures f.Failed? ==> r == []
    ensures f.Fetched? ==> r == f.body
  {
    if f.Fetched? then f.body else []
  }

  /** True when the requests `sent` appended to `before` contain no DELETE. */
  predicate NoDeleteAfter(before: seq<Request>, sent: seq<Request>) {
    && |before| <= |sent|
    && sent[..|before|] == before
    && forall i :: |before| <= i < |sent| ==> !sent[i].DeleteRequest?
  }

  /** `get_users`. An exception escaping the token cache is not caught here. */
  function ListUsers(w: World, sc: Script): (r: (World, Outcome<seq<UserRecord>>))
    ensures r.1.Raised? ==> r.0.sent == w.sent + [TokenRequest] && sc.grant(r.0.sent).Malformed?
    ensures r.1.Returned? ==> r.1.value == [] || sc.users(r.0.sent) == Fetched(r.1.value)
    ensures NoDeleteAfter(w.sent, r.0.sent)
    ensures Consistent(w.cache) ==> Consistent(r.0.cache)
  {
    var (w1, t) := ValidAccessToken(w, sc);
    match t
    case Raised => (w1, Raised)
    case Returned(None) => (w1, Returned([]))
    case Returned(Some(token)) =>
      var sent := w1.sent + [UsersRequest(token)];
      (w1.(sent := sent), Returned(OrEmpty(sc.users(sent))))
  }

  /** `get_user_sessions`. */
  function ListUserSessions(w: World, userId: string, sc: Script): (r: (World, Outcome<seq<SessionRecord>>))
    ensures r.1.Raised? ==> r.0.sent == w.sent + [TokenRequest] && sc.grant(r.0.sent).Malformed?
    ensures r.1.Returned? ==> r.1.value == [] || sc.sessions(r.0.sent) == Fetched(r.1.value)
    ensures r.1.Returned? && r.1.value != [] ==>
      |r.0.sent| > 0 && r.0.sent[|r.0.sent| - 1].SessionsRequest? && r.0.sent[|r.0.sent| - 1].userId == userId
    ensures NoDeleteAfter(w.sent, r.0.sent)
    ensures Consistent(w.cache) ==> Consistent(r.0.cache)
  {
    var (w1, t) := ValidAccessToken(w, sc);
    match t
    case Raised => (w1, Raised)
    case Returned(None) => (w1, Returned([]))
    case Returned(Some(token)) =>
      var sent := w1.sent + [SessionsRequest(userId, token)];
      (w1.(sent := sent), Returned(OrEmpty(sc.sessions(sent))))
  }

  /** Without a token `get_users` yields [] and sends no listing request; with one it
      sends exactly one and yields the fetched list unchanged, or [] when the request
      failed. It raises only what the token exchange raised. */
  lemma ListUsersFailsOpen(w: World, sc: Script)
    ensures var (w1, t) := ValidAccessToken(w, sc);
            var (w2, r) := ListUsers(w, sc);
      && (t.Raised? ==> r.Raised? && w2 == w1)
      && (t == Returned(None) ==> r == Returned([]) && w2 == w1)
      && (t.Returned? && t.value.Some? ==>
            && w2.sent == w1.sent + [UsersRequest(t.value.value)]
            && w2.cache == w1.cache
            && r == Returned(if sc.users(w2.sent).Failed? then [] else sc.users(w2.sent).body))
  {
  }

  /** The same for `get_user_sessions`, whose request names the user. */
  lemma ListUserSessionsFailsOpen(w: World, userId: string, sc: Script)
    ensures var (w1, t) := ValidAccessToken(w, sc);
            var (w2, r) := ListUserSessions(w, userId, sc);
      && (t.Raised? ==> r.Raised? && w2 == w1)
      && (t == Returned(None) ==> r == Returned([]) && w2 == w1)
      && (t.Returned? && t.value.Some? ==>
            && w2.sent == w1.sent + [SessionsRequest(userId, t.value.value)]
            && w2.cache == w1.cache
            && r == Returned(if sc.sessions(w2.sent).Failed? then [] else sc.sessions(w2.sent).body))
  {
  }

  /** `get_users` as the program runs it. */
  method GetUsers(cache: TokenCache, net: Network) returns (users: Outcome<seq<UserRecord>>)
    modifies cache, net
    ensures (cache.Observed(net), users) == ListUsers(old(cache.Observed(net)), net.script)
  {
    var token := cache.GetValidAccessToken(net);
    match token
    case Raised =>
      users := Raised;
    case Returned(None) =>
      users := Returned([]);
    case Returned(Some(t)) =>
      var answer := net.GetUsers(t);
      users := Returned(if answer.Fetched? then answer.body else []);
  }

  /** `get_user_sessions` as the program runs it. */
  method GetUserSessions(cache: TokenCache, net: Network, userId: string)
    returns (sessions: Outcome<seq<SessionRecord>>)
    modifies cache, net
    ensures (cache.Observed(net), sessions) == ListUserSessions(old(cache.Observed(net)), userId, net.script)
  {
    var token := cache.GetValidAccessToken(net);
    match token
    case Raised =>
      sessions := Raised;
    case Returned(None) =>
      sessions := Returned([]);
    case Returned(Some(t)) =>
      var answer := net.GetSessions(userId, t);
      sessions := Returned(if answer.Fetched? then answer.body else []);
  }
}
