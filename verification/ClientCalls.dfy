/**
 What becomes of every request of the client: on every permitted run it is sent once, waits after a 401 exactly if there
 is a token to refresh with, is sent again exactly if the shared refresh succeeds, and ends for four reasons only.
 */
module ClientCalls {
  import opened Common
  import opened Auth
  import opened ClientAuth

  /** The move settles the shared refresh, with this answer. */
  predicate SettledBy(b: Both, m: Move, reply: Reply) {
    m == PromiseReply && b.c.promise.Some? && b.c.promise.value in b.s.replies
    && b.s.replies[b.c.promise.value] == reply
  }

  /** A 401 that is the answer to a fetch of the request. */
  predicate Denied(b: Both, m: Move, r: nat) {
    m.Respond401? && m.r == r && Fresh(b.s, m.id) && r in b.c.calls && b.c.calls[r].Fetching?
  }

  /** The request ends: answered, refused again, refused without a token, or refused a refresh. */
  ghost predicate Ends(b: Both, m: Move, r: nat)
    requires r in b.c.calls
  {
    || (m == Respond(r) && b.c.calls[r].Fetching?)
    || (Denied(b, m, r) && b.c.calls[r] == Fetching(true))
    || (Denied(b, m, r) && b.c.promise.None? && b.c.stored.None?)
    || (b.c.calls[r].Waiting? && exists reply :: SettledBy(b, m, reply) && !reply.Refreshed?)
  }

  /** It joins the shared refresh, which starts now if there is none. */
  predicate Joins(b: Both, m: Move, r: nat) {
    Denied(b, m, r) && b.c.calls[r] == Fetching(false) && (b.c.promise.Some? || b.c.stored.Some?)
  }

  /** The shared refresh has succeeded for it. */
  ghost predicate Retries(b: Both, m: Move, r: nat)
    requires r in b.c.calls
  {
    b.c.calls[r].Waiting? && exists reply :: SettledBy(b, m, reply) && reply.Refreshed?
  }

  predicate StartedWith(s: World, id: nat, k: Key) {
    id in s.tasks && s.tasks[id] == RefreshGet(k)
  }

  predicate Fetched(c: Client, r: nat, n: nat) {
    r in c.fetches && c.fetches[r] == n
  }

  // ---- one move ----

  lemma LeavesExact(b: Both, m: Move, r: nat)
    requires r in b.c.calls
    ensures r !in Do(b, m).c.calls <==> Ends(b, m, r)
  {
    if m == PromiseReply && b.c.promise.Some? && b.c.promise.value in b.s.replies {
      assert SettledBy(b, m, b.s.replies[b.c.promise.value]);
    }
  }

  lemma JoinsExact(b: Both, m: Move, r: nat)
    requires CallsSound(b.c) && r in b.c.calls && b.c.calls[r].Fetching?
    ensures var d := Do(b, m);
      && (r in d.c.calls && d.c.calls[r] != b.c.calls[r] <==> Joins(b, m, r))
      && (Joins(b, m, r) ==> d.c.calls[r].Waiting? && d.c.fetches == b.c.fetches && d.c.promise.Some?)
      && (Joins(b, m, r) && b.c.promise.Some? ==> d.c.promise == b.c.promise && d.s == b.s)
      && (Joins(b, m, r) && b.c.promise.None? && b.c.stored.value in b.s.handedOut ==>
            d.c.promise == Some(m.id) && StartedWith(d.s, m.id, b.c.stored.value))
  {
  }

  lemma RetriesExact(b: Both, m: Move, r: nat)
    requires CallsSound(b.c) && r in b.c.calls && b.c.calls[r].Waiting?
    ensures var d := Do(b, m);
      && (r in d.c.calls && d.c.calls[r] != b.c.calls[r] <==> Retries(b, m, r))
      && (Retries(b, m, r) ==> d.c.calls[r] == Fetching(true) && d.c.promise.None? && d.s == b.s)
      && (Retries(b, m, r) ==> b.c.fetches[r] == 1 && r in d.c.fetches && d.c.fetches[r] == 2)
  {
    if m == PromiseReply && b.c.promise.Some? && b.c.promise.value in b.s.replies {
      assert SettledBy(b, m, b.s.replies[b.c.promise.value]);
    }
  }

  lemma FetchesExact(b: Both, m: Move, r: nat)
    requires CallsSound(b.c) && !(r in b.c.calls && Retries(b, m, r))
    ensures var d := Do(b, m);
      && (r in b.c.fetches ==> r in d.c.fetches && d.c.fetches[r] == b.c.fetches[r])
      && (r !in b.c.fetches ==> (r in d.c.fetches <==> m == Send(r)))
      && (r !in b.c.fetches && m == Send(r) ==>
            d.c.fetches[r] == 1 && r in d.c.calls && d.c.calls[r] == Fetching(false))
      && (r !in b.c.calls && m != Send(r) ==> r !in d.c.calls)
  {
    if m == PromiseReply && b.c.promise.Some? && b.c.promise.value in b.s.replies {
      assert SettledBy(b, m, b.s.replies[b.c.promise.value]);
    }
  }

  // ---- every permitted run ----

  /**
   On every permitted run, whatever the next move: a request ends exactly for one of the four reasons. One that was sent
   once waits exactly after a 401 with a token to refresh, and shares the refresh in flight or starts one with that
   token. One that waits is sent a second time exactly when the shared refresh succeeds. Everything else leaves it as it
   is.
   */
  lemma CallExact(moves: seq<Move>, m: Move, r: nat)
    requires AllPermitted(moves) && r in Play(moves).c.calls
    ensures var b, d := Play(moves), Do(Play(moves), m);
      && (r !in d.c.calls <==> Ends(b, m, r))
      && (b.c.calls[r].Fetching? && r in d.c.calls ==>
            d.c.calls[r] == if Joins(b, m, r) then Waiting else b.c.calls[r])
      && (Joins(b, m, r) ==> if b.c.promise.Some? then d.c.promise == b.c.promise
                             else d.c.promise == Some(m.id) && StartedWith(d.s, m.id, b.c.stored.value))
      && (b.c.calls[r].Waiting? && r in d.c.calls ==>
            d.c.calls[r] == if Retries(b, m, r) then Fetching(true) else Waiting)
      && Fetched(b.c, r, if b.c.calls[r] == Fetching(true) then 2 else 1)
      && Fetched(d.c, r, if b.c.calls[r] == Fetching(true) || Retries(b, m, r) then 2 else 1)
  {
    PlaySound(BEGIN, moves);
    var b := Play(moves);
    LeavesExact(b, m, r);
    if b.c.calls[r].Fetching? {
      JoinsExact(b, m, r);
    } else {
      RetriesExact(b, m, r);
    }
    if !Retries(b, m, r) { FetchesExact(b, m, r); }
  }

  /** A request is new exactly when it is sent, and is sent once: an id that has been used does nothing. */
  lemma SentExact(moves: seq<Move>, m: Move, r: nat)
    requires AllPermitted(moves) && r !in Play(moves).c.calls
    ensures var b, d := Play(moves), Do(Play(moves), m);
      && (r in d.c.calls <==> m == Send(r) && r !in b.c.fetches)
      && (r in d.c.calls ==> d.c.calls[r] == Fetching(false) && d.c.fetches[r] == 1)
  {
    PlaySound(BEGIN, moves);
    FetchesExact(Play(moves), m, r);
  }

  /** What the client stores: the token of a successful sign-in or refresh, and none after signing out or a refusal. */
  lemma StoredExact(b: Both, m: Move)
    requires Sound(b)
    ensures var stored := Do(b, m).c.stored;
      && (forall reply | SettledBy(b, m, reply) :: stored == if reply.Refreshed? then Some(reply.key) else None)
      && (m == TimerReply && b.c.timer.Some? && b.c.timer.value in b.s.replies ==>
            var reply := b.s.replies[b.c.timer.value];
            stored == (if reply.Refreshed? then Some(reply.key) else None) && Do(b, m).c.timer.None?)
      && (m.SignIn? && Fresh(b.s, m.id) ==> stored == Some(Key(m.user, b.s.next)) && stored.value in Do(b, m).s.live)
      && (m.SignOut? ==> stored.None? && (b.c.stored.Some? ==> b.c.stored.value !in Do(b, m).s.live))
      && (!m.PromiseReply? && !m.TimerReply? && !m.SignIn? && !m.SignOut? ==> stored == b.c.stored)
  {
    if m.SignIn? && Fresh(b.s, m.id) { SignInStores(b, m.id, m.user); }
  }

  lemma SignInStores(b: Both, id: nat, user: nat)
    requires Fresh(b.s, id)
    ensures var k, d := Key(user, b.s.next), Do(b, SignIn(id, user)); d.c.stored == Some(k) && k in d.s.live
  {
    assert Apply(b.s, Login(id, user)).tasks[id] == LoginStore(Key(user, b.s.next));
  }

  // ---- a request that is retried ----

  /** A request meets a 401, and the server carries out the refresh without interruption. */
  function HalfWay(user: nat): seq<Move> {
    Meeting(user) + [Server(Get(1))] + [Server(Delete(1))]
  }

  function Answered(user: nat): seq<Move> {
    HalfWay(user) + [Server(Lookup(1, true))] + [Server(Store(1))]
  }

  lemma HalfWayPlayed(user: nat)
    ensures AllPermitted(HalfWay(user))
    ensures var k := Key(user, 0);
      Play(HalfWay(user)) == Both(World({}, 1, map[1 := RefreshLookup(k)], map[0 := LoggedIn(k)], {k}, {k}, []),
                                  Client(Some(k), Some(1), None, map[1 := Waiting], map[1 := 1]))
  {
    var k := Key(user, 0);
    var m4 := Meeting(user) + [Server(Get(1))];
    MeetingPlayed(user);
    PlayLast(BEGIN, Meeting(user), Server(Get(1)));
    PlayLast(BEGIN, m4, Server(Delete(1)));
    assert Play(m4).s.tasks == map[1 := RefreshDelete(k)];
    assert Play(HalfWay(user)).s.tasks == map[1 := RefreshLookup(k)];
  }

  lemma AnsweredPlayed(user: nat)
    ensures AllPermitted(Answered(user))
    ensures var k, f, b := Key(user, 0), Key(user, 1), Play(Answered(user));
      && b.c == Client(Some(k), Some(1), None, map[1 := Waiting], map[1 := 1])
      && 1 in b.s.replies && b.s.replies[1] == Refreshed(k, f) && b.s.live == {f}
  {
    LookedUpPlayed(user);
    PlayLast(BEGIN, HalfWay(user) + [Server(Lookup(1, true))], Server(Store(1)));
  }

  lemma LookedUpPlayed(user: nat)
    ensures AllPermitted(HalfWay(user) + [Server(Lookup(1, true))])
    ensures var k, f := Key(user, 0), Key(user, 1);
      Play(HalfWay(user) + [Server(Lookup(1, true))])
      == Both(World({}, 2, map[1 := RefreshStore(k, f)], map[0 := LoggedIn(k)], {k}, {k}, []),
              Client(Some(k), Some(1), None, map[1 := Waiting], map[1 := 1]))
  {
    HalfWayPlayed(user);
    PlayLast(BEGIN, HalfWay(user), Server(Lookup(1, true)));
    var m6 := HalfWay(user) + [Server(Lookup(1, true))];
    assert Play(m6).s.tasks == map[1 := RefreshStore(Key(user, 0), Key(user, 1))];
  }

  /** The successor token is stored and live, and the request is on its way again. */
  lemma RetryReached(user: nat)
    ensures AllPermitted(Answered(user) + [PromiseReply])
    ensures var b := Play(Answered(user) + [PromiseReply]);
      b.c == Client(Some(Key(user, 1)), None, None, map[1 := Fetching(true)], map[1 := 2]) && b.s.live == {Key(user, 1)}
  {
    AnsweredPlayed(user);
    PlayLast(BEGIN, Answered(user), PromiseReply);
  }
}
