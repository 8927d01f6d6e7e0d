/** Two concrete scripted servers, and what a pass does against each. */
module Scenarios {
  import opened Wrappers
  import opened Http
  import opened Tokens
  import opened Readers
  import opened Reconcile

  const S1 := SessionRecord(Some("s1"), Some(map[]))
  const S2 := SessionRecord(Some("s2"), Some(map["app" := "x"]))

  /** One user `u1` holding an orphaned session `s1` and a session `s2` bound to a
      client; every exchange is granted and every request succeeds. */
  function OneUser(): Script {
    Script(
      k => 1000,
      h => Granted("tok", 300),
      h => Fetched([UserRecord(Some("u1"), Some("alice"))]),
      h => Fetched([S1, S2]),
      h => true)
  }

  /** From a fresh cache the pass sends DELETE for `s1` once and never for `s2`; one
      exchange serves all four requests. */
  lemma OrphanOfOneUserIsDeleted()
    ensures var q := Pass(World(Initial, [], 0), OneUser());
      && q.report.visits == [Visit(S1, Attempted("s1", "tok", true)), Visit(S2, Kept)]
      && q.world.sent == [TokenRequest, UsersRequest("tok"), SessionsRequest("u1", "tok"), DeleteRequest("s1", "tok")]
      && !q.report.aborted
  {
    var sc := OneUser();
    var u1 := UserRecord(Some("u1"), Some("alice"));
    var cache := CacheState(Some("tok"), 1300);
    var w0 := World(Initial, [], 0);
    assert sc.grant([TokenRequest]) == Granted("tok", 300) && sc.clock(1) == 1000;
    assert [] + [TokenRequest] == [TokenRequest];
    assert AccessToken(World(Initial, [], 1), sc) == (World(cache, [TokenRequest], 2), Returned(Some("tok")));
    assert ValidAccessToken(w0, sc) == (World(cache, [TokenRequest], 2), Returned(Some("tok")));
    var w1 := World(cache, [TokenRequest, UsersRequest("tok")], 2);
    assert [TokenRequest] + [UsersRequest("tok")] == w1.sent;
    assert sc.users(w1.sent) == Fetched([u1]);
    assert ListUsers(w0, sc) == (w1, Returned([u1]));
    assert ValidAccessToken(w1, sc) == (w1.(ticks := 3), Returned(Some("tok")));
    var w2 := World(cache, w1.sent + [SessionsRequest("u1", "tok")], 3);
    assert sc.sessions(w2.sent) == Fetched([S1, S2]);
    assert ListUserSessions(w1, "u1", sc) == (w2, Returned([S1, S2]));
    var w3 := World(cache, w2.sent + [DeleteRequest("s1", "tok")], 4);
    var r := Report([Listing(u1, [S1, S2])], [], false);
    var v1 := Visit(S1, Attempted("s1", "tok", true));
    assert ValidAccessToken(w2, sc) == (w2.(ticks := 4), Returned(Some("tok")));
    assert sc.delete(w3.sent);
    var p1 := Progress(w3, r.(visits := [v1]));
    assert VisitSession(S1, Progress(w2, r), sc) == p1;
    assert "app" in S2.clients.value;
    var p2 := Progress(w3, r.(visits := [v1, Visit(S2, Kept)]));
    assert VisitSession(S2, p1, sc) == p2;
    assert SessionsFrom([S1, S2], 2, p2, sc) == p2;
    assert SessionsFrom([S1, S2], 1, p1, sc) == p2;
    assert SessionsFrom([S1, S2], 0, Progress(w2, r), sc) == p2;
    var p0 := Progress(w1, Report([], [], false));
    assert p0.report.listings + [Listing(u1, [S1, S2])] == r.listings;
    assert VisitUser(u1, p0, sc) == p2;
    assert UsersFrom([u1], 1, p2, sc) == p2;
    assert UsersFrom([u1], 0, p0, sc) == p2;
  }

  const Broken := SessionRecord(Some("s0"), None)

  /** User `a` has a session without a `clients` key, user `b` an orphaned session. */
  function BrokenFirstUser(): Script {
    Script(
      k => 1000,
      h => Granted("tok", 300),
      h => Fetched([UserRecord(Some("a"), Some("ann")), UserRecord(Some("b"), Some("bob"))]),
      h => if |h| > 0 && h[|h| - 1] == SessionsRequest("a", "tok") then Fetched([Broken]) else Fetched([S1]),
      h => true)
  }

  /** Against `BrokenFirstUser`, the first exchange is granted, the directory lists
      both users, and the first user's only session has no `clients`. */
  lemma BrokenFirstUserReads()
    ensures var sc := BrokenFirstUser();
            var cache := CacheState(Some("tok"), 1300);
            var w1 := World(cache, [TokenRequest, UsersRequest("tok")], 2);
      && ListUsers(World(Initial, [], 0), sc)
           == (w1, Returned([UserRecord(Some("a"), Some("ann")), UserRecord(Some("b"), Some("bob"))]))
      && ListUserSessions(w1, "a", sc)
           == (World(cache, w1.sent + [SessionsRequest("a", "tok")], 3), Returned([Broken]))
  {
    var sc := BrokenFirstUser();
    var users := [UserRecord(Some("a"), Some("ann")), UserRecord(Some("b"), Some("bob"))];
    var cache := CacheState(Some("tok"), 1300);
    var w0 := World(Initial, [], 0);
    assert sc.grant([TokenRequest]) == Granted("tok", 300) && sc.clock(1) == 1000;
    assert [] + [TokenRequest] == [TokenRequest];
    assert AccessToken(World(Initial, [], 1), sc) == (World(cache, [TokenRequest], 2), Returned(Some("tok")));
    assert ValidAccessToken(w0, sc) == (World(cache, [TokenRequest], 2), Returned(Some("tok")));
    var w1 := World(cache, [TokenRequest, UsersRequest("tok")], 2);
    assert [TokenRequest] + [UsersRequest("tok")] == w1.sent;
    assert sc.users(w1.sent) == Fetched(users);
    assert ValidAccessToken(w1, sc) == (w1.(ticks := 3), Returned(Some("tok")));
    var w2 := World(cache, w1.sent + [SessionsRequest("a", "tok")], 3);
    assert sc.sessions(w2.sent) == Fetched([Broken]);
  }

  /** A KeyError while processing the first user ends the whole pass: the second user's
      sessions are never listed and its orphan is never deleted. */
  lemma KeyErrorEndsThePass()
    ensures var q := Pass(World(Initial, [], 0), BrokenFirstUser());
      && q.report.aborted
      && q.report.visits == []
      && q.world.sent == [TokenRequest, UsersRequest("tok"), SessionsRequest("a", "tok")]
  {
    var sc := BrokenFirstUser();
    var users := [UserRecord(Some("a"), Some("ann")), UserRecord(Some("b"), Some("bob"))];
    var cache := CacheState(Some("tok"), 1300);
    var w1 := World(cache, [TokenRequest, UsersRequest("tok")], 2);
    var w2 := World(cache, w1.sent + [SessionsRequest("a", "tok")], 3);
    BrokenFirstUserReads();
    var r := Report([Listing(users[0], [Broken])], [], false);
    var q := Progress(w2, r.(aborted := true));
    assert Decide(Broken, w2, sc) == (w2, Raised);
    assert SessionsFrom([Broken], 0, Progress(w2, r), sc) == q;
    var p0 := Progress(w1, Report([], [], false));
    assert p0.report.listings + [Listing(users[0], [Broken])] == r.listings;
    assert VisitUser(users[0], p0, sc) == q;
    assert UsersFrom(users, 0, p0, sc) == q;
    assert [TokenRequest, UsersRequest("tok")] + [SessionsRequest("a", "tok")]
        == [TokenRequest, UsersRequest("tok"), SessionsRequest("a", "tok")];
  }
}
