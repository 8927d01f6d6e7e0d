/** What a reconciliation pass guarantees: a session is sent to DELETE exactly when it
    is orphaned and a token could be had; the DELETE log is exactly the attempts of the
    report; sessions are taken in directory order, then list order, from the lists the
    server returned; request failures never end the pass early, anything else ends it
    at once. */
module ReconcileProofs {
  import opened Wrappers
  import opened Http
  import opened Tokens
  import opened Readers
  import opened Reconcile

  /** The orphan rule, as seen on one visit. */
  predicate Decided(v: Visit) {
    && v.session.clients.Some?
    && (v.decision.Kept? <==> !Orphaned(v.session))
    && (Orphaned(v.session) ==> v.session.id.Some?)
    && (v.decision.Attempted? ==> v.session.id == Some(v.decision.sessionId))
  }

  predicate AllDecided(visits: seq<Visit>) {
    forall k :: 0 <= k < |visits| ==> Decided(visits[k])
  }

  predicate NoSkips(visits: seq<Visit>) {
    forall k :: 0 <= k < |visits| ==> !visits[k].decision.Skipped?
  }

  /** The listing's sessions are what the server answered to a request for that user's
      sessions, somewhere in the log (an empty list needs no request). */
  ghost predicate Answered(l: Listing, sent: seq<Request>, sc: Script) {
    && l.user.id.Some?
    && (l.sessions == [] ||
          exists n :: 0 < n <= |sent| && sent[n - 1].SessionsRequest? && sent[n - 1].userId == l.user.id.value
                      && sc.sessions(sent[..n]) == Fetched(l.sessions))
  }

  ghost predicate AllAnswered(ls: seq<Listing>, sent: seq<Request>, sc: Script) {
    forall k :: 0 <= k < |ls| ==> Answered(ls[k], sent, sc)
  }

  /** A session the pass can handle without a KeyError. */
  predicate WellFormedSession(s: SessionRecord) {
    s.clients.Some? && (Orphaned(s) ==> s.id.Some?)
  }

  predicate WellFormedUser(u: UserRecord) {
    u.id.Some? && u.username.Some?
  }

  /** A server whose only misbehaviour is failing requests: every token answer that
      succeeds carries both fields, and every listed record has the keys the pass reads. */
  ghost predicate OnlyRequestFailures(sc: Script) {
    && (forall h :: !sc.grant(h).Malformed?)
    && (forall h :: sc.users(h).Fetched? ==>
          forall k :: 0 <= k < |sc.users(h).body| ==> WellFormedUser(sc.users(h).body[k]))
    && (forall h :: sc.sessions(h).Fetched? ==>
          forall k :: 0 <= k < |sc.sessions(h).body| ==> WellFormedSession(sc.sessions(h).body[k]))
  }

  /** A token can always be had: every exchange is granted, the clock never reads below
      0, and the cache starts consistent. */
  ghost predicate Granting(w0: World, sc: Script) {
    && Consistent(w0.cache)
    && (forall h :: sc.grant(h).Granted?)
    && (forall k :: sc.clock(k) >= 0)
  }

  /** What holds of every intermediate state of a pass started in `w0`. */
  ghost predicate Inv(w0: World, sc: Script, p: Progress) {
    && AllDecided(p.report.visits)
    && Deletions(p.world.sent) == Deletions(w0.sent) + DeleteAttempts(p.report.visits)
    && (Consistent(w0.cache) ==> Consistent(p.world.cache))
    && AllAnswered(p.report.listings, p.world.sent, sc)
    && (Granting(w0, sc) ==> NoSkips(p.report.visits))
  }

  // Sequence helpers.

  lemma ConcatAssoc<T>(a: seq<T>, b: seq<T>, c: seq<T>)
    ensures (a + b) + c == a + (b + c)
  {
  }

  lemma PrefixSnoc<T>(s: seq<T>, i: nat)
    requires i < |s|
    ensures s[..i] + [s[i]] == s[..i + 1]
  {
  }

  lemma SuffixCons<T>(s: seq<T>, j: nat)
    requires j < |s|
    ensures s[j..] == [s[j]] + s[j + 1..]
  {
  }

  lemma PrefixOfConcat<T>(a: seq<T>, b: seq<T>)
    ensures a <= a + b
  {
    assert (a + b)[..|a|] == a;
  }

  lemma DeletionsAppend(s: seq<Request>, x: Request)
    ensures Deletions(s + [x]) == Deletions(s) + (if x.DeleteRequest? then [x] else [])
  {
  }

  lemma {:induction false} DeletionsWithoutDelete(before: seq<Request>, sent: seq<Request>)
    requires NoDeleteAfter(before, sent)
    ensures Deletions(sent) == Deletions(before)
    decreases |sent|
  {
    if |sent| > |before| {
      var init := sent[..|sent| - 1];
      assert init + [sent[|sent| - 1]] == sent;
      assert init[..|before|] == before;
      DeletionsWithoutDelete(before, init);
      DeletionsAppend(init, sent[|sent| - 1]);
    } else {
      assert sent == before;
    }
  }

  lemma DeleteAttemptsAppend(vs: seq<Visit>, v: Visit)
    ensures DeleteAttempts(vs + [v]) == DeleteAttempts(vs)
      + (if v.decision.Attempted? then [DeleteRequest(v.decision.sessionId, v.decision.token)] else [])
  {
  }

  lemma FlattenAppend(ls: seq<Listing>, l: Listing)
    ensures Flatten(ls + [l]) == Flatten(ls) + l.sessions
  {
  }

  /** Answers stay in the log as it grows. */
  lemma AnsweredGrows(ls: seq<Listing>, sent: seq<Request>, sent2: seq<Request>, sc: Script)
    requires sent <= sent2 && AllAnswered(ls, sent, sc)
    ensures AllAnswered(ls, sent2, sc)
  {
    forall k | 0 <= k < |ls|
      ensures Answered(ls[k], sent2, sc)
    {
      if ls[k].sessions != [] {
        var n :| 0 < n <= |sent| && sent[n - 1].SessionsRequest? && sent[n - 1].userId == ls[k].user.id.value
                 && sc.sessions(sent[..n]) == Fetched(ls[k].sessions);
        assert sent2[..n] == sent[..n];
      }
    }
  }

  lemma AnsweredSnoc(ls: seq<Listing>, l: Listing, sent: seq<Request>, sc: Script)
    requires AllAnswered(ls, sent, sc) && Answered(l, sent, sc)
    ensures AllAnswered(ls + [l], sent, sc)
  {
    assert forall k :: 0 <= k < |ls| ==> (ls + [l])[k] == ls[k];
  }

  // One inner-loop iteration.

  /** A decision sends at most one DELETE, the one it records. */
  lemma DecideDeletions(s: SessionRecord, w: World, sc: Script)
    ensures var (w1, d) := Decide(s, w, sc);
      && w.sent <= w1.sent
      && Deletions(w1.sent) == Deletions(w.sent)
           + (if d.Returned? && d.value.Attempted? then [DeleteRequest(d.value.sessionId, d.value.token)] else [])
  {
    var (w1, d) := Decide(s, w, sc);
    var (wt, t) := ValidAccessToken(w, sc);
    if wt.sent != w.sent {
      DeletionsAppend(w.sent, TokenRequest);
    }
    if d.Returned? && d.value.Attempted? {
      DeletionsAppend(wt.sent, DeleteRequest(d.value.sessionId, d.value.token));
    }
  }

  /** The DELETE log grows by the visit's attempt, and by nothing else. */
  lemma VisitSessionDeletions(w0: World, s: SessionRecord, p: Progress, sc: Script)
    requires !p.report.aborted
    requires Deletions(p.world.sent) == Deletions(w0.sent) + DeleteAttempts(p.report.visits)
    ensures var q := VisitSession(s, p, sc);
      && Deletions(q.world.sent) == Deletions(w0.sent) + DeleteAttempts(q.report.visits)
      && p.world.sent <= q.world.sent
  {
    var q := VisitSession(s, p, sc);
    var d := Decide(s, p.world, sc).1;
    var sent := if d.Returned? && d.value.Attempted? then [DeleteRequest(d.value.sessionId, d.value.token)] else [];
    DecideDeletions(s, p.world, sc);
    assert DeleteAttempts(q.report.visits) == DeleteAttempts(p.report.visits) + sent by {
      if d.Returned? {
        DeleteAttemptsAppend(p.report.visits, Visit(s, d.value));
      } else {
        assert DeleteAttempts(p.report.visits) + sent == DeleteAttempts(p.report.visits);
      }
    }
    ConcatAssoc(Deletions(w0.sent), DeleteAttempts(p.report.visits), sent);
  }

  /** The recorded decision follows the orphan rule, and is never a skip when a token
      can always be had. */
  lemma VisitSessionDecided(w0: World, s: SessionRecord, p: Progress, sc: Script)
    requires !p.report.aborted && AllDecided(p.report.visits)
    requires Granting(w0, sc) ==> NoSkips(p.report.visits) && Consistent(p.world.cache)
    ensures var q := VisitSession(s, p, sc);
      && AllDecided(q.report.visits)
      && (Granting(w0, sc) ==> NoSkips(q.report.visits))
  {
    if Granting(w0, sc) && Orphaned(s) && s.id.Some? {
      TokenAvailableWhenGranted(p.world, sc);
    }
  }

  /** A malformed record or a malformed token answer is the only way to stop here. */
  lemma VisitSessionContinues(s: SessionRecord, p: Progress, sc: Script)
    requires !p.report.aborted
    requires OnlyRequestFailures(sc) && WellFormedSession(s)
    ensures !VisitSession(s, p, sc).report.aborted
  {
    var (wt, t) := ValidAccessToken(p.world, sc);
    assert !sc.grant(p.world.sent + [TokenRequest]).Malformed?;
  }

  lemma VisitSessionSound(w0: World, s: SessionRecord, p: Progress, sc: Script)
    requires Inv(w0, sc, p) && !p.report.aborted
    ensures var q := VisitSession(s, p, sc);
      && Inv(w0, sc, q)
      && p.world.sent <= q.world.sent
      && (OnlyRequestFailures(sc) && WellFormedSession(s) ==> !q.report.aborted)
  {
    var q := VisitSession(s, p, sc);
    VisitSessionDeletions(w0, s, p, sc);
    VisitSessionDecided(w0, s, p, sc);
    AnsweredGrows(p.report.listings, p.world.sent, q.world.sent, sc);
    if OnlyRequestFailures(sc) && WellFormedSession(s) {
      VisitSessionContinues(s, p, sc);
    }
  }

  // The inner loop.

  lemma SessionsAppend(vs: seq<Visit>, v: Visit)
    ensures Sessions(vs + [v]) == Sessions(vs) + [v.session]
  {
    assert (vs + [v])[..|vs|] == vs;
  }

  /** One visit adds its session to the visited ones, unless it raised. */
  lemma VisitSessionOrder(s: SessionRecord, p: Progress, sc: Script)
    requires !p.report.aborted
    ensures var q := VisitSession(s, p, sc);
      Sessions(q.report.visits) == Sessions(p.report.visits) + (if q.report.aborted then [] else [s])
  {
    var q := VisitSession(s, p, sc);
    if !q.report.aborted {
      SessionsAppend(p.report.visits, q.report.visits[|q.report.visits| - 1]);
    } else {
      assert Sessions(p.report.visits) + [] == Sessions(p.report.visits);
    }
  }

  /** The inner loop from `j` on visits a prefix of `ss[j..]`, all of it unless the pass
      was cut short. */
  lemma {:induction false} SessionsFromOrder(ss: seq<SessionRecord>, j: nat, p: Progress, sc: Script)
    requires j <= |ss| && !p.report.aborted
    ensures var q := SessionsFrom(ss, j, p, sc);
      && Sessions(q.report.visits) <= Sessions(p.report.visits) + ss[j..]
      && (!q.report.aborted ==> Sessions(q.report.visits) == Sessions(p.report.visits) + ss[j..])
    decreases |ss| - j
  {
    var a := Sessions(p.report.visits);
    if j == |ss| {
      assert a + ss[j..] == a;
    } else {
      var p1 := VisitSession(ss[j], p, sc);
      VisitSessionOrder(ss[j], p, sc);
      assert SessionsFrom(ss, j, p, sc) == SessionsFrom(ss, j + 1, p1, sc);
      SuffixCons(ss, j);
      ConcatAssoc(a, [ss[j]], ss[j + 1..]);
      if p1.report.aborted {
        assert Sessions(p1.report.visits) == a + [];
        PrefixOfConcat(a, ss[j..]);
      } else {
        SessionsFromOrder(ss, j + 1, p1, sc);
      }
    }
  }

  lemma {:induction false} SessionsFromSound(w0: World, ss: seq<SessionRecord>, j: nat, p: Progress, sc: Script)
    requires j <= |ss| && Inv(w0, sc, p) && !p.report.aborted
    ensures var q := SessionsFrom(ss, j, p, sc);
      && Inv(w0, sc, q)
      && p.world.sent <= q.world.sent
      && (OnlyRequestFailures(sc) && (forall k :: j <= k < |ss| ==> WellFormedSession(ss[k])) ==> !q.report.aborted)
    decreases |ss| - j
  {
    if j < |ss| {
      var p1 := VisitSession(ss[j], p, sc);
      VisitSessionSound(w0, ss[j], p, sc);
      assert SessionsFrom(ss, j, p, sc) == SessionsFrom(ss, j + 1, p1, sc);
      if !p1.report.aborted {
        SessionsFromSound(w0, ss, j + 1, p1, sc);
      }
    }
  }

  // One outer-loop iteration.

  /** Against a server with only request failures, listing sessions does not raise and
      yields only well-formed records. */
  lemma ListedSessionsWellFormed(w: World, userId: string, sc: Script)
    requires OnlyRequestFailures(sc)
    ensures var r := ListUserSessions(w, userId, sc).1;
      r.Returned? && forall k :: 0 <= k < |r.value| ==> WellFormedSession(r.value[k])
  {
  }

  /** The listing the pass records for a user is the server's answer. */
  lemma ListingIsAnswered(w: World, u: UserRecord, sc: Script)
    requires u.id.Some?
    requires ListUserSessions(w, u.id.value, sc).1.Returned?
    ensures var (w1, r) := ListUserSessions(w, u.id.value, sc);
      Answered(Listing(u, r.value), w1.sent, sc)
  {
    var (w1, r) := ListUserSessions(w, u.id.value, sc);
    if r.value != [] {
      var n := |w1.sent|;
      assert w1.sent[..n] == w1.sent;
    }
  }

  /** A user joins the listings iff its sessions could be listed, and always does
      unless the pass was cut short. */
  lemma VisitUserLists(u: UserRecord, p: Progress, sc: Script)
    ensures var q := VisitUser(u, p, sc);
      && Users(q.report.listings) == Users(p.report.listings) + (if |q.report.listings| > |p.report.listings| then [u] else [])
      && (!q.report.aborted ==> |q.report.listings| > |p.report.listings|)
  {
    var ls := p.report.listings;
    var q := VisitUser(u, p, sc);
    if |q.report.listings| > |ls| {
      assert q.report.listings == ls + [q.report.listings[|ls|]];
    } else {
      assert Users(ls) + [] == Users(ls);
    }
  }

  /** The visited sessions of one user are a prefix of its listing, all of it unless
      the pass was cut short. */
  lemma VisitUserVisits(u: UserRecord, p: Progress, sc: Script)
    requires !p.report.aborted
    requires Sessions(p.report.visits) == Flatten(p.report.listings)
    ensures var q := VisitUser(u, p, sc);
      && Sessions(q.report.visits) <= Flatten(q.report.listings)
      && (!q.report.aborted ==> Sessions(q.report.visits) == Flatten(q.report.listings))
  {
    var ls := p.report.listings;
    if u.id.Some? && u.username.Some? {
      var (w1, listed) := ListUserSessions(p.world, u.id.value, sc);
      if listed.Returned? {
        var ss := listed.value;
        var r := Progress(w1, p.report.(listings := ls + [Listing(u, ss)]));
        assert VisitUser(u, p, sc) == SessionsFrom(ss, 0, r, sc);
        FlattenAppend(ls, Listing(u, ss));
        assert ss[0..] == ss;
        SessionsFromOrder(ss, 0, r, sc);
      }
    }
  }

  /** Listing a user's sessions sends no DELETE and keeps the invariant. */
  lemma ListingKeepsInv(w0: World, u: UserRecord, p: Progress, sc: Script)
    requires Inv(w0, sc, p) && u.id.Some?
    ensures var w1 := ListUserSessions(p.world, u.id.value, sc).0;
      && p.world.sent <= w1.sent
      && Inv(w0, sc, Progress(w1, p.report))
  {
    var w1 := ListUserSessions(p.world, u.id.value, sc).0;
    DeletionsWithoutDelete(p.world.sent, w1.sent);
    AnsweredGrows(p.report.listings, p.world.sent, w1.sent, sc);
  }

  /** The listed sessions become that user's listing, keeping the invariant. */
  lemma ListingRecordedKeepsInv(w0: World, u: UserRecord, p: Progress, sc: Script)
    requires Inv(w0, sc, p) && u.id.Some?
    requires ListUserSessions(p.world, u.id.value, sc).1.Returned?
    ensures var (w1, listed) := ListUserSessions(p.world, u.id.value, sc);
      Inv(w0, sc, Progress(w1, p.report.(listings := p.report.listings + [Listing(u, listed.value)])))
  {
    var (w1, listed) := ListUserSessions(p.world, u.id.value, sc);
    ListingKeepsInv(w0, u, p, sc);
    ListingIsAnswered(p.world, u, sc);
    AnsweredSnoc(p.report.listings, Listing(u, listed.value), w1.sent, sc);
  }

  lemma VisitUserSound(w0: World, u: UserRecord, p: Progress, sc: Script)
    requires Inv(w0, sc, p) && !p.report.aborted
    ensures var q := VisitUser(u, p, sc);
      && Inv(w0, sc, q)
      && p.world.sent <= q.world.sent
      && (OnlyRequestFailures(sc) && WellFormedUser(u) ==> !q.report.aborted)
  {
    if u.id.Some? && u.username.Some? {
      var (w1, listed) := ListUserSessions(p.world, u.id.value, sc);
      ListingKeepsInv(w0, u, p, sc);
      if OnlyRequestFailures(sc) {
        ListedSessionsWellFormed(p.world, u.id.value, sc);
      }
      if listed.Returned? {
        ListingRecordedKeepsInv(w0, u, p, sc);
        var r := Progress(w1, p.report.(listings := p.report.listings + [Listing(u, listed.value)]));
        assert VisitUser(u, p, sc) == SessionsFrom(listed.value, 0, r, sc);
        SessionsFromSound(w0, listed.value, 0, r, sc);
      } else {
        assert VisitUser(u, p, sc) == Abort(p, w1);
      }
    } else {
      assert VisitUser(u, p, sc) == Abort(p, p.world);
    }
  }

  // The outer loop.

  /** The outer loop from `i` on lists a prefix of the directory, all of it unless the
      pass was cut short. */
  lemma {:induction false} UsersFromLists(us: seq<UserRecord>, i: nat, p: Progress, sc: Script)
    requires i <= |us| && Users(p.report.listings) == us[..i]
    ensures var q := UsersFrom(us, i, p, sc);
      && |q.report.listings| <= |us|
      && Users(q.report.listings) == us[..|q.report.listings|]
      && (!q.report.aborted ==> |q.report.listings| == |us|)
    decreases |us| - i
  {
    if !p.report.aborted && i < |us| {
      var p1 := VisitUser(us[i], p, sc);
      VisitUserLists(us[i], p, sc);
      assert UsersFrom(us, i, p, sc) == UsersFrom(us, i + 1, p1, sc);
      if |p1.report.listings| > i {
        PrefixSnoc(us, i);
        UsersFromLists(us, i + 1, p1, sc);
      } else {
        assert us[..i] + [] == us[..i];
      }
    }
  }

  /** The outer loop from `i` on visits a prefix of the listed sessions, all of them
      unless the pass was cut short. */
  lemma {:induction false} UsersFromVisits(us: seq<UserRecord>, i: nat, p: Progress, sc: Script)
    requires i <= |us| && !p.report.aborted
    requires Sessions(p.report.visits) == Flatten(p.report.listings)
    ensures var q := UsersFrom(us, i, p, sc);
      && Sessions(q.report.visits) <= Flatten(q.report.listings)
      && (!q.report.aborted ==> Sessions(q.report.visits) == Flatten(q.report.listings))
    decreases |us| - i
  {
    if i < |us| {
      var p1 := VisitUser(us[i], p, sc);
      VisitUserVisits(us[i], p, sc);
      assert UsersFrom(us, i, p, sc) == UsersFrom(us, i + 1, p1, sc);
      if !p1.report.aborted {
        UsersFromVisits(us, i + 1, p1, sc);
      }
    }
  }

  lemma {:induction false} UsersFromSound(w0: World, us: seq<UserRecord>, i: nat, p: Progress, sc: Script)
    requires i <= |us| && Inv(w0, sc, p) && !p.report.aborted
    ensures var q := UsersFrom(us, i, p, sc);
      && Inv(w0, sc, q)
      && (OnlyRequestFailures(sc) && (forall k :: i <= k < |us| ==> WellFormedUser(us[k])) ==> !q.report.aborted)
    decreases |us| - i
  {
    if i < |us| {
      var p1 := VisitUser(us[i], p, sc);
      VisitUserSound(w0, us[i], p, sc);
      if !p1.report.aborted {
        UsersFromSound(w0, us, i + 1, p1, sc);
      }
    }
  }

  // The whole pass.

  /** Listing the users sends no DELETE and starts the invariant. */
  lemma StartKeepsInv(w: World, sc: Script)
    ensures Inv(w, sc, Progress(ListUsers(w, sc).0, Report([], [], false)))
  {
    DeletionsWithoutDelete(w.sent, ListUsers(w, sc).0.sent);
  }

  /** The invariant holds at the end of every pass, and only a malformed answer ends a
      pass early. */
  lemma PassSound(w: World, sc: Script)
    ensures var q := Pass(w, sc);
      && Inv(w, sc, q)
      && (OnlyRequestFailures(sc) ==> !q.report.aborted)
  {
    var (w1, listed) := ListUsers(w, sc);
    StartKeepsInv(w, sc);
    if listed.Raised? {
      DeletionsWithoutDelete(w.sent, w1.sent);
    } else {
      var us := listed.value;
      assert OnlyRequestFailures(sc) ==> forall k :: 0 <= k < |us| ==> WellFormedUser(us[k]);
      UsersFromSound(w, us, 0, Progress(w1, Report([], [], false)), sc);
    }
  }

  /** Sessions are visited in directory order, then in list order, each listed session
      at most once; a pass that is not cut short visits every listed session of every
      listed user, skips without a token included, whatever its DELETEs answer. */
  lemma VisitsFollowDirectoryOrder(w: World, sc: Script)
    ensures var q := Pass(w, sc);
            var (w1, listed) := ListUsers(w, sc);
      && Sessions(q.report.visits) <= Flatten(q.report.listings)
      && (listed.Returned? ==> Users(q.report.listings) <= listed.value)
      && (listed.Returned? && !q.report.aborted ==>
            Users(q.report.listings) == listed.value
            && Sessions(q.report.visits) == Flatten(q.report.listings))
  {
    var (w1, listed) := ListUsers(w, sc);
    if listed.Returned? {
      var us := listed.value;
      var q := Pass(w, sc);
      assert us[..0] == [];
      UsersFromLists(us, 0, Progress(w1, Report([], [], false)), sc);
      UsersFromVisits(us, 0, Progress(w1, Report([], [], false)), sc);
      assert us[..|q.report.listings|] <= us;
      assert us[..|us|] == us;
    }
  }

  /** Every listing of the report is the server's answer to a request for that user's
      sessions. */
  lemma ListingsAreServerAnswers(w: World, sc: Script)
    ensures var q := Pass(w, sc);
      AllAnswered(q.report.listings, q.world.sent, sc)
  {
    PassSound(w, sc);
  }

  /** The orphan filter: a visited session is left alone iff it has at least one client
      binding; an orphan is skipped or sent to DELETE under its own id. */
  lemma OnlyOrphansAreDeleted(w: World, sc: Script)
    ensures var vs := Pass(w, sc).report.visits;
      forall k :: 0 <= k < |vs| ==>
        && (vs[k].decision.Kept? <==> !Orphaned(vs[k].session))
        && (vs[k].decision.Attempted? ==>
              Orphaned(vs[k].session) && vs[k].session.id == Some(vs[k].decision.sessionId))
  {
    PassSound(w, sc);
  }

  /** When a token can always be had, every orphan the pass visits is sent to DELETE. */
  lemma OrphansAreDeletedWhenGranted(w: World, sc: Script)
    requires Granting(w, sc)
    ensures var vs := Pass(w, sc).report.visits;
      forall k :: 0 <= k < |vs| ==>
        (Orphaned(vs[k].session) <==> vs[k].decision.Attempted?)
  {
    PassSound(w, sc);
  }

  /** The ids of the DELETE requests, in order. */
  function DeletedIds(reqs: seq<Request>): (r: seq<string>)
    ensures |r| == |reqs|
  {
    if reqs == [] then []
    else
      var last := reqs[|reqs| - 1];
      DeletedIds(reqs[..|reqs| - 1]) + [if last.DeleteRequest? then last.sessionId else ""]
  }

  /** The ids of the orphaned sessions among `ss`, in order. */
  function OrphanIds(ss: seq<SessionRecord>): (r: seq<string>)
    ensures |r| <= |ss|
  {
    if ss == [] then []
    else
      var s := ss[|ss| - 1];
      OrphanIds(ss[..|ss| - 1]) + (if Orphaned(s) && s.id.Some? then [s.id.value] else [])
  }

  lemma {:induction false} AttemptsAreTheOrphans(vs: seq<Visit>)
    requires AllDecided(vs) && NoSkips(vs)
    ensures DeletedIds(DeleteAttempts(vs)) == OrphanIds(Sessions(vs))
    decreases |vs|
  {
    if vs != [] {
      var init := vs[..|vs| - 1];
      var v := vs[|vs| - 1];
      assert init + [v] == vs;
      assert AllDecided(init) && NoSkips(init) by {
        forall k | 0 <= k < |init| ensures Decided(init[k]) && !init[k].decision.Skipped? {
          assert init[k] == vs[k];
        }
      }
      AttemptsAreTheOrphans(init);
      DeleteAttemptsAppend(init, v);
      assert Sessions(vs) == Sessions(init) + [v.session];
      assert Sessions(vs)[..|vs| - 1] == Sessions(init);
      assert Decided(vs[|vs| - 1]);
      var extra := if v.decision.Attempted? then [DeleteRequest(v.decision.sessionId, v.decision.token)] else [];
      assert DeleteAttempts(vs)[..|DeleteAttempts(init)|] == DeleteAttempts(init);
      if v.decision.Attempted? {
        assert DeleteAttempts(vs) == DeleteAttempts(init) + extra;
        assert DeleteAttempts(vs)[..|DeleteAttempts(vs)| - 1] == DeleteAttempts(init);
      } else {
        assert DeleteAttempts(vs) == DeleteAttempts(init);
      }
    }
  }

  /** The headline: when a token can always be had and only requests fail, the pass
      lists every user in directory order and sends DELETE for exactly the orphaned
      sessions of the server's lists, in order, once each, and for nothing else. */
  lemma DeletesExactlyTheOrphans(w: World, sc: Script)
    requires Granting(w, sc) && OnlyRequestFailures(sc)
    ensures var q := Pass(w, sc);
            var (w1, listed) := ListUsers(w, sc);
      && !q.report.aborted
      && Users(q.report.listings) == listed.value
      && AllAnswered(q.report.listings, q.world.sent, sc)
      && Deletions(q.world.sent) == Deletions(w.sent) + DeleteAttempts(q.report.visits)
      && DeletedIds(DeleteAttempts(q.report.visits)) == OrphanIds(Flatten(q.report.listings))
  {
    PassSound(w, sc);
    VisitsFollowDirectoryOrder(w, sc);
    AttemptsAreTheOrphans(Pass(w, sc).report.visits);
  }

  /** The DELETE requests the pass sends are exactly the attempts of its report, in
      order: nothing else is deleted, and each visit sends at most one. */
  lemma DeletesAreTheAttempts(w: World, sc: Script)
    ensures var q := Pass(w, sc);
      Deletions(q.world.sent) == Deletions(w.sent) + DeleteAttempts(q.report.visits)
  {
    PassSound(w, sc);
  }

  /** Failed requests (a refused exchange, a failed listing, a failed DELETE) never end
      a pass early; only a malformed answer does. */
  lemma RequestFailuresNeverAbort(w: World, sc: Script)
    requires OnlyRequestFailures(sc)
    ensures !Pass(w, sc).report.aborted
  {
    PassSound(w, sc);
  }

  /** A pass keeps the token cache consistent. */
  lemma PassKeepsCacheConsistent(w: World, sc: Script)
    requires Consistent(w.cache)
    ensures Consistent(Pass(w, sc).world.cache)
  {
    PassSound(w, sc);
  }

  /** When a session step raises, the rest of the pass is that step's result: no later
      session or user is visited and nothing more is sent. */
  lemma AbortInSessionEndsThePass(us: seq<UserRecord>, i: nat, ss: seq<SessionRecord>, j: nat, p: Progress, sc: Script)
    requires i < |us| && j < |ss| && !p.report.aborted
    requires VisitSession(ss[j], p, sc).report.aborted
    ensures UsersFrom(us, i + 1, SessionsFrom(ss, j, p, sc), sc) == VisitSession(ss[j], p, sc)
  {
  }

  /** When reading a user's keys or listing its sessions raises, the rest of the pass is
      that step's result. */
  lemma AbortInUserEndsThePass(us: seq<UserRecord>, i: nat, p: Progress, sc: Script)
    requires i < |us| && !p.report.aborted
    requires VisitUser(us[i], p, sc).report.aborted
    ensures UsersFrom(us, i, p, sc) == VisitUser(us[i], p, sc)
  {
  }

  /** When the user listing yields nothing (no token, or the request failed), the pass
      completes without visiting anything and deletes nothing. */
  lemma EmptyDirectoryDeletesNothing(w: World, sc: Script)
    requires ListUsers(w, sc).1 == Returned([])
    ensures var q := Pass(w, sc);
      q.report == Report([], [], false) && Deletions(q.world.sent) == Deletions(w.sent)
  {
  }
}
