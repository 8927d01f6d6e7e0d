/** `delete_inactive_user_sessions`: one reconciliation pass over every enabled user's
    sessions, deleting those bound to no client. */
module Reconcile {
  import opened Wrappers
  import opened Http
  import opened Tokens
  import opened Readers

  /** The orphan test: the `clients` mapping is present and equals `{}`. */
  predicate Orphaned(s: SessionRecord): (r: bool)
    ensures r <==> s.clients.Some? && |s.clients.value| == 0
  {
    s.clients == Some(map[])
  }

  /** What the pass did with one listed session: left it (it has a client), skipped it
      (orphaned, but no token could be had), or sent a DELETE for it with `token`;
      `deleted` is false when that request failed. */
  datatype Decision =
    | Kept
    | Skipped
    | Attempted(sessionId: string, token: string, deleted: bool)

  datatype Visit = Visit(session: SessionRecord, decision: Decision)

  /** A user whose sessions were listed, with the list the pass iterated over. */
  datatype Listing = Listing(user: UserRecord, sessions: seq<SessionRecord>)

  /** What a pass observably did. `aborted` records that an exception other than a
      request failure ended the pass early; the outermost handler swallows it. */
  datatype Report = Report(listings: seq<Listing>, visits: seq<Visit>, aborted: bool)

  datatype Progress = Progress(world: World, report: Report)

  function Abort(p: Progress, w: World): Progress {
    Progress(w, p.report.(aborted := true))
  }

  function Record(p: Progress, w: World, v: Visit): Progress {
    Progress(w, p.report.(visits := p.report.visits + [v]))
  }

  /** The body of the inner loop for session `s`: read `clients`; for an orphan read
      `id`, ask for a valid token and, holding one, send the DELETE. A session with a
      client is kept; an orphan is skipped exactly when no token could be had, and sent
      to DELETE with the token exactly when one could. */
  function Decide(s: SessionRecord, w: World, sc: Script): (r: (World, Outcome<Decision>))
    ensures r.1 == Returned(Kept) <==> s.clients.Some? && !Orphaned(s)
    ensures r.1 == Returned(Skipped) <==>
      Orphaned(s) && s.id.Some? && ValidAccessToken(w, sc).1 == Returned(None)
    ensures r.1.Raised? <==>
      s.clients.None? || (Orphaned(s) && (s.id.None? || ValidAccessToken(w, sc).1.Raised?))
    ensures var (w1, t) := ValidAccessToken(w, sc);
      Orphaned(s) && s.id.Some? && t.Returned? && t.value.Some? ==>
        && r.0 == w1.(sent := w1.sent + [DeleteRequest(s.id.value, t.value.value)])
        && r.1 == Returned(Attempted(s.id.value, t.value.value, sc.delete(r.0.sent)))
    ensures r.1.Returned? && r.1.value.Attempted? ==> Orphaned(s) && s.id == Some(r.1.value.sessionId)
    ensures !(r.1.Returned? && r.1.value.Attempted?) ==>
      r.0.sent == w.sent || r.0.sent == w.sent + [TokenRequest]
    ensures s.clients.None? || !Orphaned(s) || s.id.None? ==> r.0 == w
    ensures var (w1, t) := ValidAccessToken(w, sc);
      Orphaned(s) && s.id.Some? && !(t.Returned? && t.value.Some?) ==> r.0 == w1
    ensures Consistent(w.cache) ==> Consistent(r.0.cache)
  {
    match s.clients
    case None => (w, Raised)
    case Some(clients) =>
      if clients != map[] then (w, Returned(Kept))
      else
        match s.id
        case None => (w, Raised)
        case Some(sid) =>
          var (w1, t) := ValidAccessToken(w, sc);
          match t
          case Raised => (w1, Raised)
          case Returned(None) => (w1, Returned(Skipped))
          case Returned(Some(token)) =>
            var sent := w1.sent + [DeleteRequest(sid, token)];
            (w1.(sent := sent), Returned(Attempted(sid, token, sc.delete(sent))))
  }

  /** One iteration of the inner loop: record the decision, or stop on an exception. */
  function VisitSession(s: SessionRecord, p: Progress, sc: Script): (q: Progress)
    requires !p.report.aborted
    ensures q.world == Decide(s, p.world, sc).0
    ensures q.report.listings == p.report.listings
    ensures q.report.aborted <==> Decide(s, p.world, sc).1.Raised?
    ensures q.report.aborted ==> q.report.visits == p.report.visits
    ensures !q.report.aborted ==>
      q.report.visits == p.report.visits + [Visit(s, Decide(s, p.world, sc).1.value)]
  {
    var (w1, d) := Decide(s, p.world, sc);
    match d
    case Raised => Abort(p, w1)
    case Returned(decision) => Record(p, w1, Visit(s, decision))
  }

  /** The inner loop from position `j` of the listed sessions on. */
  function SessionsFrom(ss: seq<SessionRecord>, j: nat, p: Progress, sc: Script): (q: Progress)
    requires j <= |ss|
    ensures q.report.listings == p.report.listings
    ensures p.report.aborted ==> q == p
    decreases |ss| - j
  {
    if p.report.aborted || j == |ss| then p
    else SessionsFrom(ss, j + 1, VisitSession(ss[j], p, sc), sc)
  }

  /** One iteration of the outer loop: read `id` and `username`, list the sessions,
      then run the inner loop over them. */
  function VisitUser(u: UserRecord, p: Progress, sc: Script): (q: Progress)
    ensures |q.report.listings| > |p.report.listings| ==>
      && u.id.Some? && u.username.Some?
      && ListUserSessions(p.world, u.id.value, sc).1.Returned?
      && q.report.listings == p.report.listings + [Listing(u, ListUserSessions(p.world, u.id.value, sc).1.value)]
    ensures !q.report.aborted ==> |q.report.listings| > |p.report.listings|
    ensures u.id.None? || u.username.None? ==> q == Abort(p, p.world)
    ensures u.id.Some? && u.username.Some? && ListUserSessions(p.world, u.id.value, sc).1.Raised? ==>
      q == Abort(p, ListUserSessions(p.world, u.id.value, sc).0)
  {
    if u.id.None? || u.username.None? then Abort(p, p.world)
    else
      var (w1, listed) := ListUserSessions(p.world, u.id.value, sc);
      match listed
      case Raised => Abort(p, w1)
      case Returned(ss) =>
        var report := p.report.(listings := p.report.listings + [Listing(u, ss)]);
        SessionsFrom(ss, 0, Progress(w1, report), sc)
  }

  /** The outer loop from position `i` of the directory listing on. */
  function UsersFrom(us: seq<UserRecord>, i: nat, p: Progress, sc: Script): (q: Progress)
    requires i <= |us|
    ensures p.report.aborted ==> q == p
    ensures p.report.listings <= q.report.listings
    decreases |us| - i
  {
    if p.report.aborted || i == |us| then p
    else UsersFrom(us, i + 1, VisitUser(us[i], p, sc), sc)
  }

  /** The whole pass from world `w`. */
  function Pass(w: World, sc: Script): (q: Progress)
    ensures ListUsers(w, sc).1.Raised? ==> q == Progress(ListUsers(w, sc).0, Report([], [], true))
    ensures ListUsers(w, sc).1 == Returned([]) ==> q == Progress(ListUsers(w, sc).0, Report([], [], false))
  {
    var (w1, listed) := ListUsers(w, sc);
    match listed
    case Raised => Progress(w1, Report([], [], true))
    case Returned(us) => UsersFrom(us, 0, Progress(w1, Report([], [], false)), sc)
  }

  /** The DELETE requests among `sent`, in order. */
  function Deletions(sent: seq<Request>): (r: seq<Request>)
    ensures |r| <= |sent|
    ensures forall k :: 0 <= k < |r| ==> r[k].DeleteRequest?
  {
    if sent == [] then []
    else
      var last := sent[|sent| - 1];
      Deletions(sent[..|sent| - 1]) + (if last.DeleteRequest? then [last] else [])
  }

  /** The DELETE requests the visits sent, in order. */
  function DeleteAttempts(visits: seq<Visit>): (r: seq<Request>)
    ensures |r| <= |visits|
    ensures forall k :: 0 <= k < |r| ==> r[k].DeleteRequest?
  {
    if visits == [] then []
    else
      var d := visits[|visits| - 1].decision;
      DeleteAttempts(visits[..|visits| - 1])
        + (if d.Attempted? then [DeleteRequest(d.sessionId, d.token)] else [])
  }

  /** The visited sessions, in order. */
  function Sessions(visits: seq<Visit>): (r: seq<SessionRecord>)
    ensures |r| == |visits|
    ensures forall k :: 0 <= k < |r| ==> r[k] == visits[k].session
  {
    if visits == [] then [] else Sessions(visits[..|visits| - 1]) + [visits[|visits| - 1].session]
  }

  /** The listed sessions of all listed users, user by user. */
  function Flatten(listings: seq<Listing>): seq<SessionRecord> {
    if listings == [] then []
    else Flatten(listings[..|listings| - 1]) + listings[|listings| - 1].sessions
  }

  /** The listed users, in order. */
  function Users(listings: seq<Listing>): (r: seq<UserRecord>)
    ensures |r| == |listings|
    ensures forall k :: 0 <= k < |r| ==> r[k] == listings[k].user
  {
    if listings == [] then [] else Users(listings[..|listings| - 1]) + [listings[|listings| - 1].user]
  }

  /** `delete_inactive_user_sessions` as the program runs it; the report is what the
      pass observably did (the source returns nothing). */
  method DeleteInactiveUserSessions(cache: TokenCache, net: Network) returns (report: Report)
    modifies cache, net
    ensures Progress(cache.Observed(net), report) == Pass(old(cache.Observed(net)), net.script)
  {
    ghost var total := Pass(cache.Observed(net), net.script);
    var fetched := GetUsers(cache, net);
    if fetched.Raised? {
      report := Report([], [], true);
      return;
    }
    var users := fetched.value;
    report := Report([], [], false);
    var i := 0;
    while i < |users|
      invariant i <= |users|
      invariant !report.aborted
      invariant UsersFrom(users, i, Progress(cache.Observed(net), report), net.script) == total
    {
      var user := users[i];
      if user.id.None? || user.username.None? {
        report := report.(aborted := true);
        return;
      }
      var listed := GetUserSessions(cache, net, user.id.value);
      if listed.Raised? {
        report := report.(aborted := true);
        return;
      }
      var sessions := listed.value;
      report := report.(listings := report.listings + [Listing(user, sessions)]);
      var j := 0;
      while j < |sessions|
        invariant j <= |sessions|
        invariant !report.aborted
        invariant UsersFrom(users, i + 1, SessionsFrom(sessions, j, Progress(cache.Observed(net), report), net.script), net.script) == total
      {
        var session := sessions[j];
        if session.clients.None? {
          report := report.(aborted := true);
          return;
        }
        if session.clients.value == map[] {
          if session.id.None? {
            report := report.(aborted := true);
            return;
          }
          var token := cache.GetValidAccessToken(net);
          if token.Raised? {
            report := report.(aborted := true);
            return;
          }
          if token.value.None? {
            report := report.(visits := report.visits + [Visit(session, Skipped)]);
            j := j + 1;
            continue;
          }
          var ok := net.Delete(session.id.value, token.value.value);
          report := report.(visits := report.visits
            + [Visit(session, Attempted(session.id.value, token.value.value, ok))]);
        } else {
          report := report.(visits := report.visits + [Visit(session, Kept)]);
        }
        j := j + 1;
      }
      i := i + 1;
    }
  }
}
