/**
 The browser client's refresh logic against the server of `Auth`. Requests that see a 401 share one refresh through
 `refreshPromise`; the proactive timer refreshes without it. One client, no lost replies, no expiry of its token.
 */
module ClientAuth {
  import opened Common
  import opened Auth

  /** A request waits for its response, or for the shared refresh. */
  datatype Call = Fetching(isRetry: bool) | Waiting

  /** `promise` and `timer` hold the server-side id of a refresh in flight; `fetches` counts per request. */
  datatype Client = Client(stored: Option<Key>, promise: Option<nat>, timer: Option<nat>, calls: map<nat, Call>,
                           fetches: map<nat, nat>)

  // ---- the client's own steps ----

  function Sent(c: Client, r: nat): Client {
    if r in c.fetches then c else c.(calls := c.calls[r := Fetching(false)], fetches := c.fetches[r := 1])
  }

  function Ended(c: Client, r: nat): Client {
    c.(calls := c.calls - {r})
  }

  /** A response other than a 401 on a first attempt ends the request; one that waits has no response outstanding. */
  function Responded(c: Client, r: nat): Client {
    if r in c.calls && c.calls[r].Fetching? then Ended(c, r) else c
  }

  /** A 401: a first attempt joins the refresh in flight or starts one under `id`; a retry gives up. */
  function Unauthorized(c: Client, r: nat, id: nat): Client {
    if r !in c.calls || c.calls[r].Waiting? then c
    else if c.calls[r].isRetry then Ended(c, r)
    else if c.promise.Some? then c.(calls := c.calls[r := Waiting])
    else if c.stored.None? then Ended(c, r)
    else c.(calls := c.calls[r := Waiting], promise := Some(id))
  }

  function Retried(calls: map<nat, Call>): map<nat, Call> {
    map r | r in calls :: if calls[r].Waiting? then Fetching(true) else calls[r]
  }

  function Recounted(calls: map<nat, Call>, fetches: map<nat, nat>): map<nat, nat> {
    map r | r in fetches :: if r in calls && calls[r].Waiting? then fetches[r] + 1 else fetches[r]
  }

  function NotWaiting(calls: map<nat, Call>): map<nat, Call> {
    map r | r in calls && !calls[r].Waiting? :: calls[r]
  }

  /** What `refreshTokens` does with its answer. */
  function Settle(c: Client, reply: Reply): Client {
    match reply
    case Refreshed(_, key) => c.(stored := Some(key))
    case LoggedIn(key) => c.(stored := Some(key))
    case _ => c.(stored := None)
  }

  /** The shared refresh settles: everyone waiting retries, or fails. */
  function PromiseSettled(c: Client, reply: Reply): Client {
    var d := Settle(c, reply).(promise := None);
    if reply.Refreshed? then d.(calls := Retried(c.calls), fetches := Recounted(c.calls, c.fetches))
    else d.(calls := NotWaiting(c.calls))
  }

  class ApiClient {
    var stored: Option<Key>
    var refreshPromise: Option<nat>
    var timerRefresh: Option<nat>
    var calls: map<nat, Call>
    var fetches: map<nat, nat>

    ghost function Abstract(): Client
      reads this
    {
      Client(stored, refreshPromise, timerRefresh, calls, fetches)
    }

    constructor ()
      ensures Abstract() == Client(None, None, None, map[], map[])
    {
      stored, refreshPromise, timerRefresh := None, None, None;
      calls, fetches := map[], map[];
    }

    /** The first part of `request`. */
    method Send(r: nat)
      modifies this
      ensures Abstract() == Sent(old(Abstract()), r)
    {
      if r !in fetches {
        calls := calls[r := Fetching(false)];
        fetches := fetches[r := 1];
      }
    }

    /** `ensureRefreshed`, called by a request that saw a 401; `send` is the token posted, if a refresh starts. */
    method EnsureRefreshed(id: nat) returns (joined: bool, send: Option<Key>)
      modifies this`refreshPromise
      ensures joined == (old(refreshPromise).Some? || stored.Some?)
      ensures send == if old(refreshPromise).None? then stored else None
      ensures refreshPromise == if old(refreshPromise).None? && stored.Some? then Some(id) else old(refreshPromise)
    {
      if refreshPromise.Some? {
        return true, None;
      }
      if stored.None? {
        return false, None;
      }
      refreshPromise := Some(id);
      return true, stored;
    }

    method OnUnauthorized(r: nat, id: nat) returns (send: Option<Key>)
      modifies this
      ensures Abstract() == Unauthorized(old(Abstract()), r, id)
      ensures send.Some? <==> refreshPromise != old(refreshPromise)
      ensures send.Some? ==> send == old(stored)
    {
      send := None;
      if r in calls && calls[r].Fetching? {
        if calls[r].isRetry {
          calls := calls - {r};
        } else {
          var joined;
          joined, send := EnsureRefreshed(id);
          calls := if joined then calls[r := Waiting] else calls - {r};
        }
      }
    }

    method OnPromiseReply(reply: Reply)
      modifies this
      ensures Abstract() == PromiseSettled(old(Abstract()), reply)
      ensures refreshPromise == None && timerRefresh == old(timerRefresh)
      ensures stored == if reply.Refreshed? || reply.LoggedIn? then Some(reply.key) else None
      ensures reply.Refreshed? ==> calls.Keys == old(calls).Keys && fetches.Keys == old(fetches).Keys
      ensures reply.Refreshed? ==> forall r | r in calls ::
        calls[r] == if old(calls)[r].Waiting? then Fetching(true) else old(calls)[r]
      ensures reply.Refreshed? ==> forall r | r in fetches ::
        fetches[r] == old(fetches)[r] + if r in old(calls) && old(calls)[r].Waiting? then 1 else 0
      ensures !reply.Refreshed? ==> fetches == old(fetches)
      ensures !reply.Refreshed? ==> forall r :: r in calls <==> r in old(calls) && !old(calls)[r].Waiting?
      ensures !reply.Refreshed? ==> forall r | r in calls :: calls[r] == old(calls)[r]
    {
      if reply.Refreshed? {
        stored := Some(reply.key);
        fetches := Recounted(calls, fetches);
        calls := Retried(calls);
      } else {
        stored := if reply.LoggedIn? then Some(reply.key) else None;
        calls := NotWaiting(calls);
      }
      refreshPromise := None;
    }
  }

  // ---- client and server together ----

  datatype Both = Both(s: World, c: Client)

  datatype Move =
    | Send(r: nat)
    | Respond(r: nat)
    | Respond401(r: nat, id: nat)
    | TimerFires(id: nat)
    | PromiseReply
    | TimerReply
    | SignIn(id: nat, user: nat)
    | SignOut
    | Server(step: Step)

  const BEGIN := Both(START, Client(None, None, None, map[], map[]))

  function Do(b: Both, m: Move): Both {
    match m
    case Send(r) => b.(c := Sent(b.c, r))
    case Respond(r) => b.(c := Responded(b.c, r))
    case Respond401(r, id) =>
      if !Fresh(b.s, id) then b
      else
        var d := Unauthorized(b.c, r, id);
        if d.promise == b.c.promise then b.(c := d) else Both(Apply(b.s, Refresh(id, b.c.stored.value)), d)
    case TimerFires(id) =>
      if !Fresh(b.s, id) || b.c.timer.Some? || b.c.stored.None? then b
      else Both(Apply(b.s, Refresh(id, b.c.stored.value)), b.c.(timer := Some(id)))
    case PromiseReply =>
      if b.c.promise.Some? && b.c.promise.value in b.s.replies
      then b.(c := PromiseSettled(b.c, b.s.replies[b.c.promise.value])) else b
    case TimerReply =>
      if b.c.timer.Some? && b.c.timer.value in b.s.replies
      then b.(c := Settle(b.c, b.s.replies[b.c.timer.value]).(timer := None)) else b
    case SignIn(id, user) =>
      if !Fresh(b.s, id) then b
      else Both(Apply(Apply(b.s, Login(id, user)), Store(id)), b.c.(stored := Some(Key(user, b.s.next))))
    case SignOut =>
      if b.c.stored.None? then b else Both(Apply(b.s, Logout(b.c.stored.value)), b.c.(stored := None))
    case Server(step) => b.(s := Apply(b.s, step))
  }

  /** The id of the client's refresh in flight. */
  predicate InFlight(b: Both, id: nat) {
    b.c.promise == Some(id) || b.c.timer == Some(id)
  }

  predicate Quiet(b: Both) {
    b.c.promise.None? && b.c.timer.None?
  }

  /** Does the move start a refresh of the client? */
  predicate StartsRefresh(b: Both, m: Move) {
    match m
    case Respond401(r, id) => Fresh(b.s, id) && Unauthorized(b.c, r, id).promise != b.c.promise
    case TimerFires(id) => Fresh(b.s, id) && b.c.timer.None? && b.c.stored.Some?
    case _ => false
  }

  /** ... while another one is in flight? */
  predicate Overlaps(b: Both, m: Move) {
    StartsRefresh(b, m) && !Quiet(b)
  }

  /** The token the client holds, or the one its refresh in flight is working on or has been answered with. */
  ghost predicate Mine(b: Both, k: Key) {
    || b.c.stored == Some(k)
    || (exists id :: InFlight(b, id) && id in b.s.tasks && b.s.tasks[id] == RefreshGet(k))
    || (exists id :: InFlight(b, id) && id in b.s.replies && b.s.replies[id].Refreshed? && b.s.replies[id].key == k)
  }

  /**
   The hypotheses of the composed theorem: the timer and a 401 refresh never overlap, signing in and out happens with no
   refresh in flight, and nobody else spends, revokes or expires this client's token.
   */
  ghost predicate Permitted(b: Both, m: Move) {
    match m
    case Respond401(_, _) => !Overlaps(b, m)
    case TimerFires(_) => !Overlaps(b, m)
    case SignIn(_, _) => Quiet(b)
    case SignOut => Quiet(b)
    case Server(Refresh(_, k)) => !Mine(b, k)
    case Server(Logout(k)) => !Mine(b, k)
    case Server(Expire(k)) => !Mine(b, k)
    case _ => true
  }

  function PlayFrom(b: Both, moves: seq<Move>): Both {
    if moves == [] then b else Do(PlayFrom(b, moves[..|moves| - 1]), moves[|moves| - 1])
  }

  function Play(moves: seq<Move>): Both {
    PlayFrom(BEGIN, moves)
  }

  ghost predicate PermittedFrom(b: Both, moves: seq<Move>) {
    moves != [] ==>
      var n := |moves| - 1; PermittedFrom(b, moves[..n]) && Permitted(PlayFrom(b, moves[..n]), moves[n])
  }

  ghost predicate AllPermitted(moves: seq<Move>) {
    PermittedFrom(BEGIN, moves)
  }

  // ---- the invariant ----

  /** No other request has read or is about to read the token. */
  predicate Untouched(s: World, k: Key, except: Option<nat>) {
    forall i | i in s.tasks && Some(i) != except :: !(s.tasks[i].RefreshGet? || s.tasks[i].RefreshDelete?)
                                                    || s.tasks[i].key != k
  }

  /** Safe to present: live, handed out, and held by no other request. */
  predicate Good(s: World, k: Key, except: Option<nat>) {
    k in s.live && Untouched(s, k, except)
  }

  /** What the client's refresh can be doing. */
  predicate FlightSound(s: World, id: nat) {
    if id in s.tasks then
      match s.tasks[id]
      case RefreshGet(k) => Good(s, k, Some(id))
      case RefreshDelete(_) => true
      case RefreshLookup(_) => true
      case RefreshStore(_, _) => true
      case LoginStore(_) => false
    else
      id in s.replies && (s.replies[id] == UserNotFound
                          || (s.replies[id].Refreshed? && Good(s, s.replies[id].key, None)))
  }

  /** What the client's refresh does with its token `k`: present it, or nothing any more because it is dead. */
  predicate WorksOn(s: World, id: nat, k: Key) {
    if id in s.tasks && (s.tasks[id].RefreshGet? || s.tasks[id].RefreshDelete?) then s.tasks[id].key == k
    else k in s.dead
  }

  /** The stored token was handed out, and a refresh in flight works on it. */
  predicate StoredSound(b: Both) {
    && (b.c.stored.Some? ==> b.c.stored.value in b.s.handedOut)
    && (b.c.promise.Some? ==> b.c.stored.Some? && WorksOn(b.s, b.c.promise.value, b.c.stored.value))
    && (b.c.timer.Some? ==> b.c.stored.Some? && WorksOn(b.s, b.c.timer.value, b.c.stored.value))
  }

  predicate CallsSound(c: Client) {
    && (forall r | r in c.calls :: r in c.fetches && c.fetches[r] == if c.calls[r] == Fetching(true) then 2 else 1)
    && (forall r | r in c.fetches :: c.fetches[r] <= 2)
    && ((exists r :: r in c.calls && c.calls[r].Waiting?) ==> c.promise.Some?)
  }

  ghost predicate Sound(b: Both) {
    && Auth.Inv(b.s)
    && b.s.tasks.Keys !! b.s.replies.Keys
    && !(b.c.promise.Some? && b.c.timer.Some?)
    && (Quiet(b) && b.c.stored.Some? ==> Good(b.s, b.c.stored.value, None))
    && (b.c.promise.Some? ==> FlightSound(b.s, b.c.promise.value))
    && (b.c.timer.Some? ==> FlightSound(b.s, b.c.timer.value))
    && StoredSound(b)
    && CallsSound(b.c)
  }

  /** Steps that spend, revoke or expire the token `k`. */
  predicate Threatens(step: Step, k: Key) {
    match step
    case Refresh(_, h) => h == k
    case Logout(h) => h == k
    case Expire(h) => h == k
    case _ => false
  }

  predicate StepOf(step: Step, id: nat) {
    match step
    case Get(i) => i == id
    case Delete(i) => i == id
    case Lookup(i, _) => i == id
    case Store(i) => i == id
    case _ => false
  }

  lemma GoodKept(s: World, step: Step, k: Key, except: Option<nat>)
    requires Good(s, k, except) && !Threatens(step, k)
    requires except.Some? ==> !StepOf(step, except.value)
    ensures Good(Apply(s, step), k, except)
  {
  }

  lemma RepliesKept(s: World, step: Step)
    requires s.tasks.Keys !! s.replies.Keys
    ensures var t := Apply(s, step);
      && t.tasks.Keys !! t.replies.Keys
      && (forall id | id in s.replies :: id in t.replies && t.replies[id] == s.replies[id])
      && (forall id | id in s.tasks && !StepOf(step, id) :: id in t.tasks && t.tasks[id] == s.tasks[id])
  {
  }

  lemma FlightKept(s: World, id: nat, step: Step)
    requires Auth.Inv(s) && s.tasks.Keys !! s.replies.Keys && FlightSound(s, id)
    requires id in s.tasks && s.tasks[id].RefreshGet? ==> !Threatens(step, s.tasks[id].key)
    requires id in s.replies && s.replies[id].Refreshed? ==> !Threatens(step, s.replies[id].key)
    ensures FlightSound(Apply(s, step), id)
  {
    RepliesKept(s, step);
    if !StepOf(step, id) {
      if id in s.tasks {
        if s.tasks[id].RefreshGet? { GoodKept(s, step, s.tasks[id].key, Some(id)); }
      } else if s.replies[id].Refreshed? {
        GoodKept(s, step, s.replies[id].key, None);
      }
    }
  }

  lemma WorksKept(s: World, id: nat, step: Step, k: Key)
    requires s.tasks.Keys !! s.replies.Keys && FlightSound(s, id) && WorksOn(s, id, k)
    ensures WorksOn(Apply(s, step), id, k)
  {
    DeadGrows(s, step);
    RepliesKept(s, step);
  }

  lemma StoredKept(b: Both, step: Step)
    requires Sound(b)
    ensures StoredSound(b.(s := Apply(b.s, step)))
  {
    if b.c.promise.Some? { WorksKept(b.s, b.c.promise.value, step, b.c.stored.value); }
    if b.c.timer.Some? { WorksKept(b.s, b.c.timer.value, step, b.c.stored.value); }
  }

  /** A step of the server that does not threaten this client. */
  lemma ServerKeeps(b: Both, step: Step)
    requires Sound(b) && Permitted(b, Server(step))
    ensures Sound(b.(s := Apply(b.s, step)))
  {
    Auth.StepKeeps(b.s, step);
    RepliesKept(b.s, step);
    StoredKept(b, step);
    assert forall k | Mine(b, k) :: !Threatens(step, k);
    if b.c.promise.Some? {
      var id := b.c.promise.value;
      assert InFlight(b, id);
      FlightKept(b.s, id, step);
    }
    if b.c.timer.Some? {
      var id := b.c.timer.value;
      assert InFlight(b, id);
      FlightKept(b.s, id, step);
    }
    if Quiet(b) && b.c.stored.Some? {
      assert Mine(b, b.c.stored.value);
      GoodKept(b.s, step, b.c.stored.value, None);
    }
  }

  /** A refresh of the stored token starts. */
  lemma RefreshStarts(s: World, id: nat, k: Key)
    requires Auth.Inv(s) && s.tasks.Keys !! s.replies.Keys && Fresh(s, id) && Good(s, k, None)
    ensures var t := Apply(s, Refresh(id, k));
      Auth.Inv(t) && t.tasks.Keys !! t.replies.Keys && FlightSound(t, id) && WorksOn(t, id, k)
  {
    Auth.StepKeeps(s, Refresh(id, k));
  }

  lemma SignInKeeps(b: Both, id: nat, user: nat)
    requires Sound(b) && Quiet(b) && Fresh(b.s, id)
    ensures Sound(Do(b, SignIn(id, user)))
  {
    var k := Key(user, b.s.next);
    var s1 := Apply(b.s, Login(id, user));
    Auth.StepKeeps(b.s, Login(id, user));
    Auth.StepKeeps(s1, Store(id));
    RepliesKept(b.s, Login(id, user));
    RepliesKept(s1, Store(id));
    NewId(b.s, k);
    assert s1.tasks[id] == LoginStore(k);
  }

  lemma StartKeeps(b: Both, m: Move)
    requires Sound(b) && !Overlaps(b, m) && (m.Respond401? || m.TimerFires?)
    ensures Sound(Do(b, m))
  {
    if StartsRefresh(b, m) { RefreshStarts(b.s, m.id, b.c.stored.value); }
  }

  lemma SignOutKeeps(b: Both)
    requires Sound(b) && Quiet(b)
    ensures Sound(Do(b, SignOut))
  {
    if b.c.stored.Some? {
      Auth.StepKeeps(b.s, Logout(b.c.stored.value));
      RepliesKept(b.s, Logout(b.c.stored.value));
    }
  }

  lemma MoveKeeps(b: Both, m: Move)
    requires Sound(b) && Permitted(b, m)
    ensures Sound(Do(b, m))
  {
    match m
    case Server(step) => ServerKeeps(b, step);
    case SignIn(id, user) => if Fresh(b.s, id) { SignInKeeps(b, id, user); }
    case SignOut => SignOutKeeps(b);
    case Respond401(_, _) => StartKeeps(b, m);
    case TimerFires(_) => StartKeeps(b, m);
    case _ =>
  }

  lemma {:induction false} PlaySound(b: Both, moves: seq<Move>)
    requires Sound(b) && PermittedFrom(b, moves)
    ensures Sound(PlayFrom(b, moves))
  {
    if moves == [] {
    } else {
      var n := |moves| - 1;
      PlaySound(b, moves[..n]);
      MoveKeeps(PlayFrom(b, moves[..n]), moves[n]);
    }
  }

  /**
   Client and server composed: on every permitted run the stored token is live whenever no refresh is in flight, no
   refresh of this client is answered `Revoked`, a request waits only while a shared refresh is in flight, and every
   request is fetched at most twice.
   */
  lemma ComposedRefresh(moves: seq<Move>)
    requires AllPermitted(moves)
    ensures var b := Play(moves);
      && (Quiet(b) && b.c.stored.Some? ==> b.c.stored.value in b.s.live)
      && (forall id | InFlight(b, id) && id in b.s.replies :: b.s.replies[id] != Revoked)
      && (forall r | r in b.c.calls && b.c.calls[r].Waiting? :: b.c.promise.Some?)
      && (forall r | r in b.c.fetches :: b.c.fetches[r] <= 2)
  {
    PlaySound(BEGIN, moves);
  }

  // ---- the hypothesis on the timer is exact ----

  predicate RevokedTo(s: World, id: nat) {
    id in s.replies && s.replies[id] == Revoked
  }

  /** The client is told that its token was revoked. */
  predicate Refused(b: Both, m: Move) {
    match m
    case PromiseReply => b.c.promise.Some? && RevokedTo(b.s, b.c.promise.value)
    case TimerReply => b.c.timer.Some? && RevokedTo(b.s, b.c.timer.value)
    case _ => false
  }

  /** A permitted continuation ends with a refresh answered `Revoked`, which signs the user out. */
  ghost predicate CanLose(b: Both) {
    exists more, m ::
      PermittedFrom(b, more) && Refused(PlayFrom(b, more), m) && Do(PlayFrom(b, more), m).c.stored == None
  }

  lemma PlayLast(b: Both, moves: seq<Move>, m: Move)
    ensures PlayFrom(b, moves + [m]) == Do(PlayFrom(b, moves), m)
    ensures PermittedFrom(b, moves + [m]) <==> PermittedFrom(b, moves) && Permitted(PlayFrom(b, moves), m)
  {
    assert (moves + [m])[..|moves|] == moves;
  }

  /** ... so another refresh with it reads in vain. */
  lemma SecondReads(s: World, one: nat, other: nat, k: Key)
    requires s.dead !! s.live && one != other && WorksOn(s, one, k)
    requires other in s.tasks && s.tasks[other] == RefreshGet(k)
    ensures var t := Apply(Apply(Apply(s, Get(one)), Delete(one)), Get(other));
      other in t.replies && t.replies[other] == Revoked
  {
  }

  /** Two refreshes of the same token in flight: `one` was there first. */
  lemma BothInFlight(b: Both, one: nat, other: nat, k: Key, m: Move)
    requires b.s.dead !! b.s.live && one != other && WorksOn(b.s, one, k)
    requires other in b.s.tasks && b.s.tasks[other] == RefreshGet(k)
    requires (m == PromiseReply && b.c.promise == Some(other)) || (m == TimerReply && b.c.timer == Some(other))
    ensures CanLose(b)
  {
    SecondReads(b.s, one, other, k);
    var g, d := [] + [Server(Get(one))], [] + [Server(Get(one))] + [Server(Delete(one))];
    var more := d + [Server(Get(other))];
    PlayLast(b, [], Server(Get(one)));
    PlayLast(b, g, Server(Delete(one)));
    PlayLast(b, d, Server(Get(other)));
    var v := PlayFrom(b, more);
    assert v == b.(s := Apply(Apply(Apply(b.s, Get(one)), Delete(one)), Get(other)));
    assert PermittedFrom(b, more) && Refused(v, m) && Do(v, m).c.stored == None;
  }

  lemma OverlapLoses(b: Both, m: Move)
    requires Sound(b) && Overlaps(b, m)
    ensures CanLose(Do(b, m))
  {
    var d, k, id := Do(b, m), b.c.stored.value, m.id;
    var one := if b.c.promise.Some? then b.c.promise.value else b.c.timer.value;
    assert one in b.s.tasks || one in b.s.replies;
    assert d.s == b.s.(tasks := b.s.tasks[id := RefreshGet(k)]);
    Auth.StepKeeps(b.s, Refresh(id, k));
    BothInFlight(d, one, id, k, if m.TimerFires? then TimerReply else PromiseReply);
  }

  /**
   After every permitted history: a 401 or a timer that starts a refresh while another one is in flight can cost the
   user the session, and one that does not never can, whatever permitted moves follow.
   */
  lemma OverlapExact(moves: seq<Move>, m: Move)
    requires AllPermitted(moves) && (m.Respond401? || m.TimerFires?)
    ensures Overlaps(Play(moves), m) <==> CanLose(Do(Play(moves), m))
  {
    PlaySound(BEGIN, moves);
    var b := Play(moves);
    if Overlaps(b, m) {
      OverlapLoses(b, m);
    } else {
      MoveKeeps(b, m);
      forall more, last | PermittedFrom(Do(b, m), more) ensures !Refused(PlayFrom(Do(b, m), more), last) {
        PlaySound(Do(b, m), more);
      }
    }
  }

  // ---- the shortest such history ----

  /** One request sees a 401 just before the timer fires. */
  function Meeting(user: nat): seq<Move> {
    [] + [SignIn(0, user)] + [Send(1)] + [Respond401(1, 1)]
  }

  /** The first refresh reads and deletes the token before the second one reads it, and stores its successor. */
  function Race(s: World): World {
    Apply(Apply(Apply(Apply(Apply(s, Get(1)), Delete(1)), Get(2)), Lookup(1, true)), Store(1))
  }

  lemma MeetingPlayed(user: nat)
    ensures AllPermitted(Meeting(user))
    ensures var k := Key(user, 0);
      Play(Meeting(user)) == Both(World({k}, 1, map[1 := RefreshGet(k)], map[0 := LoggedIn(k)], {k}, {}, []),
                                  Client(Some(k), Some(1), None, map[1 := Waiting], map[1 := 1]))
  {
    var k := Key(user, 0);
    var m1 := [] + [SignIn(0, user)];
    var m2 := m1 + [Send(1)];
    PlayLast(BEGIN, [], SignIn(0, user));
    PlayLast(BEGIN, m1, Send(1));
    PlayLast(BEGIN, m2, Respond401(1, 1));
    var s := World({k}, 1, map[], map[0 := LoggedIn(k)], {k}, {}, []);
    assert Apply(START, Login(0, user)).tasks == map[0 := LoginStore(k)];
    assert Apply(Apply(START, Login(0, user)), Store(0)) == s;
    assert Play(m2) == Both(s, Client(Some(k), None, None, map[1 := Fetching(false)], map[1 := 1]));
  }

  lemma OverlapReached(user: nat)
    ensures AllPermitted(Meeting(user)) && Overlaps(Play(Meeting(user)), TimerFires(2))
    ensures var k, b := Key(user, 0), Do(Play(Meeting(user)), TimerFires(2));
      && b.s == World({k}, 1, map[1 := RefreshGet(k), 2 := RefreshGet(k)], map[0 := LoggedIn(k)], {k}, {}, [])
      && b.c.promise == Some(1) && b.c.timer == Some(2)
  {
    var k := Key(user, 0);
    MeetingPlayed(user);
    assert map[1 := RefreshGet(k)][2 := RefreshGet(k)] == map[1 := RefreshGet(k), 2 := RefreshGet(k)];
  }

  lemma RaceRun(user: nat)
    ensures var k := Key(user, 0);
      var t := Race(World({k}, 1, map[1 := RefreshGet(k), 2 := RefreshGet(k)], map[0 := LoggedIn(k)], {k}, {}, []));
      && t.live == {Key(user, 1)}
      && 1 in t.replies && t.replies[1] == Refreshed(k, Key(user, 1)) && 2 in t.replies && t.replies[2] == Revoked
  {
    var k := Key(user, 0);
    var s3 := World({}, 1, map[1 := RefreshLookup(k)], map[0 := LoggedIn(k), 2 := Revoked], {k}, {k}, []);
    var s4 := Apply(s3, Lookup(1, true));
    assert s4.tasks == map[1 := RefreshStore(k, Key(user, 1))];
  }

  /** The session is lost although the first refresh has just produced a live token. */
  lemma LostWhileLive(user: nat)
    ensures var b := Do(Play(Meeting(user)), TimerFires(2));
      var after := Do(Do(b.(s := Race(b.s)), PromiseReply), TimerReply);
      after.c.stored == None && after.s.live == {Key(user, 1)}
  {
    OverlapReached(user);
    RaceRun(user);
  }
}
