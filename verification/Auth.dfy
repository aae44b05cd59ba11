/**
 Refresh-token rotation. The server keeps the set of live token keys in Redis; a refresh is GET, DELETE, a user lookup
 and SETEX, and requests interleave between these steps. Token ids are fresh numbers; tokens cannot be forged, so
 requests carry only ids that a reply has handed out.
 */
module Auth {

  datatype Key = Key(user: nat, jti: nat)

  /** Where a request awaits. `RefreshDone` has deleted its token and found its user. */
  datatype Req =
    | LoginStore(key: Key)
    | RefreshGet(key: Key)
    | RefreshDelete(key: Key)
    | RefreshLookup(key: Key)
    | RefreshStore(key: Key, minted: Key)

  datatype Reply = LoggedIn(key: Key) | Refreshed(old_: Key, key: Key) | Revoked | UserNotFound

  /**
   `handedOut` are the keys some reply has carried, `dead` those on which a DELETE was executed, `redeemed` the tokens
   of successful refreshes in order; all three are kept for the statements below.
   */
  datatype World = World(live: set<Key>, next: nat, tasks: map<nat, Req>, replies: map<nat, Reply>,
                         handedOut: set<Key>, dead: set<Key>, redeemed: seq<Key>)

  datatype Step =
    | Login(id: nat, user: nat)
    | Refresh(id: nat, key: Key)
    | Logout(key: Key)
    | Get(id: nat)
    | Delete(id: nat)
    | Lookup(id: nat, found: bool)
    | Store(id: nat)
    | Expire(key: Key)

  const START := World({}, 0, map[], map[], {}, {}, [])

  predicate Fresh(w: World, id: nat) {
    id !in w.tasks && id !in w.replies
  }

  function Answer(w: World, id: nat, r: Reply): World {
    w.(tasks := w.tasks - {id}, replies := w.replies[id := r])
  }

  function Apply(w: World, step: Step): World {
    match step
    case Login(id, user) =>
      if !Fresh(w, id) then w
      else w.(tasks := w.tasks[id := LoginStore(Key(user, w.next))], next := w.next + 1)
    case Refresh(id, key) =>
      if !Fresh(w, id) || key !in w.handedOut then w else w.(tasks := w.tasks[id := RefreshGet(key)])
    case Logout(key) =>
      if (exists k :: k in w.handedOut && k.jti == key.jti) then w.(live := w.live - {key}, dead := w.dead + {key})
      else w
    case Expire(key) => w.(live := w.live - {key})
    case _ => if step.id in w.tasks then Resume(w, step.id, w.tasks[step.id], step) else w
  }

  function Resume(w: World, id: nat, r: Req, step: Step): World {
    match (r, step)
    case (LoginStore(k), Store(_)) =>
      Answer(w, id, LoggedIn(k)).(live := w.live + {k}, handedOut := w.handedOut + {k})
    case (RefreshGet(k), Get(_)) =>
      if k in w.live then w.(tasks := w.tasks[id := RefreshDelete(k)]) else Answer(w, id, Revoked)
    case (RefreshDelete(k), Delete(_)) =>
      w.(live := w.live - {k}, dead := w.dead + {k}, tasks := w.tasks[id := RefreshLookup(k)])
    case (RefreshLookup(k), Lookup(_, found)) =>
      if found then w.(tasks := w.tasks[id := RefreshStore(k, Key(k.user, w.next))], next := w.next + 1)
      else Answer(w, id, UserNotFound)
    case (RefreshStore(k, f), Store(_)) =>
      Answer(w, id, Refreshed(k, f)).(live := w.live + {f}, handedOut := w.handedOut + {f},
                                      redeemed := w.redeemed + [k])
    case _ => w
  }

  function Exec(w: World, steps: seq<Step>): World {
    if steps == [] then w else Apply(Exec(w, steps[..|steps| - 1]), steps[|steps| - 1])
  }

  // ---- the service, one request at a time ----

  class AuthService {
    var live: set<Key>
    var next: nat

    constructor ()
      ensures live == {} && next == 0
    {
      live, next := {}, 0;
    }

    method Login(user: nat) returns (r: Reply)
      modifies this
      ensures r == LoggedIn(Key(user, old(next))) && live == old(live) + {Key(user, old(next))} && next == old(next) + 1
    {
      var key := Key(user, next);
      next := next + 1;
      live := live + {key};
      return LoggedIn(key);
    }

    /** Uninterrupted, the four steps rotate a live token and refuse any other. */
    method Refresh(key: Key, userExists: bool) returns (r: Reply)
      modifies this
      ensures key !in old(live) ==> r == Revoked && live == old(live) && next == old(next)
      ensures key in old(live) && !userExists ==> r == UserNotFound && live == old(live) - {key} && next == old(next)
      ensures key in old(live) && userExists ==>
        var minted := Key(key.user, old(next));
        r == Refreshed(key, minted) && live == old(live) - {key} + {minted} && next == old(next) + 1
      ensures (live, next) == Alone(old(live), old(next), key, userExists)
    {
      if key !in live {
        return Revoked;
      }
      live := live - {key};
      if !userExists {
        return UserNotFound;
      }
      var minted := Key(key.user, next);
      next := next + 1;
      live := live + {minted};
      return Refreshed(key, minted);
    }

    method Logout(key: Key)
      modifies this
      ensures live == old(live) - {key} && next == old(next)
    {
      live := live - {key};
    }
  }

  /** The step system running one refresh without interruption. */
  function Alone(live: set<Key>, next: nat, key: Key, userExists: bool): (set<Key>, nat) {
    var w0 := World(live, next, map[0 := RefreshGet(key)], map[], {key}, {}, []);
    var w := Apply(Apply(Apply(Apply(w0, Get(0)), Delete(0)), Lookup(0, userExists)), Store(0));
    (w.live, w.next)
  }

  // ---- rotation under interleaving ----

  /** The keys a request may still store. */
  function Pending(r: Req): set<Key> {
    match r
    case LoginStore(k) => {k}
    case RefreshStore(_, f) => {f}
    case _ => {}
  }

  /** No two requests wait to store the same id. */
  predicate Apart(a: Req, b: Req) {
    forall k, h | k in Pending(a) && h in Pending(b) :: k.jti != h.jti
  }

  predicate HandedId(w: World, jti: nat) {
    exists h :: h in w.handedOut && h.jti == jti
  }

  ghost predicate Tokens(w: World) {
    && w.dead !! w.live
    && w.live <= w.handedOut
    && (forall k | k in w.handedOut :: k.jti < w.next)
    && (forall k | k in w.dead :: HandedId(w, k.jti))
    && (forall k | k in w.redeemed :: k in w.dead)
  }

  /** A key waiting to be stored is new: no reply has carried its id. */
  ghost predicate TaskSound(w: World, r: Req) {
    && (forall k | k in Pending(r) :: k.jti < w.next && !HandedId(w, k.jti))
    && (r.RefreshGet? || r.RefreshDelete? ==> r.key in w.handedOut)
    && (r.RefreshLookup? || r.RefreshStore? ==> r.key in w.dead && r.key in w.handedOut)
  }

  ghost predicate Tasks(w: World) {
    && (forall i | i in w.tasks :: TaskSound(w, w.tasks[i]))
    && (forall i, j | i in w.tasks && j in w.tasks && i != j :: Apart(w.tasks[i], w.tasks[j]))
  }

  ghost predicate Inv(w: World) {
    Tokens(w) && Tasks(w)
  }

  /** What the task `id` may store after a move: no more than before, or new ids. */
  predicate Mints(w: World, id: nat, r: Req) {
    (id in w.tasks && Pending(r) <= Pending(w.tasks[id])) || forall k | k in Pending(r) :: k.jti >= w.next
  }

  /** No key is handed out and no task is forgotten by `dead`. */
  lemma SoundMoves(w: World, v: World, r: Req)
    requires TaskSound(w, r) && v.handedOut == w.handedOut && w.dead <= v.dead && w.next <= v.next
    ensures TaskSound(v, r)
  {
    assert forall j | HandedId(v, j) :: HandedId(w, j);
  }

  lemma ApartMoves(w: World, id: nat, r: Req, i: nat)
    requires Tasks(w) && Mints(w, id, r) && i in w.tasks && i != id
    ensures Apart(r, w.tasks[i]) && Apart(w.tasks[i], r)
  {
    assert TaskSound(w, w.tasks[i]);
    if id in w.tasks && Pending(r) <= Pending(w.tasks[id]) {
      assert Apart(w.tasks[i], w.tasks[id]) && Apart(w.tasks[id], w.tasks[i]);
    }
  }

  /** One task moves on, or a new one starts, and no key is handed out. */
  lemma TasksMove(w: World, v: World, id: nat)
    requires Inv(w) && v.handedOut == w.handedOut && w.dead <= v.dead && w.next <= v.next
    requires forall i | i in v.tasks && i != id :: i in w.tasks && v.tasks[i] == w.tasks[i]
    requires id in v.tasks ==> TaskSound(v, v.tasks[id]) && Mints(w, id, v.tasks[id])
    ensures Tasks(v)
  {
    forall i | i in v.tasks && i != id ensures TaskSound(v, v.tasks[i]) {
      SoundMoves(w, v, w.tasks[i]);
    }
    forall i, j | i in v.tasks && j in v.tasks && i != j ensures Apart(v.tasks[i], v.tasks[j]) {
      if i == id {
        ApartMoves(w, id, v.tasks[id], j);
      } else if j == id {
        ApartMoves(w, id, v.tasks[id], i);
      }
    }
  }

  /** A task stores its key and is answered. */
  lemma TasksStore(w: World, v: World, id: nat, k: Key)
    requires Inv(w) && id in w.tasks && Pending(w.tasks[id]) == {k}
    requires v.tasks == w.tasks - {id} && v.handedOut == w.handedOut + {k} && v.dead == w.dead && v.next == w.next
    ensures Tasks(v)
  {
    forall i | i in v.tasks ensures TaskSound(v, v.tasks[i]) {
      assert TaskSound(w, w.tasks[i]) && Apart(w.tasks[i], w.tasks[id]);
    }
    forall i, j | i in v.tasks && j in v.tasks && i != j ensures Apart(v.tasks[i], v.tasks[j]) {
      assert Apart(w.tasks[i], w.tasks[j]);
    }
  }

  lemma StoreKeeps(w: World, id: nat, k: Key, step: Step)
    requires Inv(w) && id in w.tasks && Pending(w.tasks[id]) == {k} && step.Store?
    ensures Inv(Resume(w, id, w.tasks[id], step))
  {
    var v := Resume(w, id, w.tasks[id], step);
    assert TaskSound(w, w.tasks[id]) && k in Pending(w.tasks[id]);
    TasksStore(w, v, id, k);
  }

  lemma DeleteTokens(w: World, v: World, k: Key)
    requires Tokens(w) && HandedId(w, k.jti)
    requires v == w.(live := w.live - {k}, dead := w.dead + {k}, tasks := v.tasks)
    ensures Tokens(v)
  {
    forall d | d in v.dead ensures HandedId(v, d.jti) {
      assert HandedId(w, d.jti);
    }
  }

  lemma DeleteKeeps(w: World, id: nat, step: Step)
    requires Inv(w) && id in w.tasks && w.tasks[id].RefreshDelete? && step.Delete?
    ensures Inv(Resume(w, id, w.tasks[id], step))
  {
    var v := Resume(w, id, w.tasks[id], step);
    assert TaskSound(w, w.tasks[id]);
    DeleteTokens(w, v, w.tasks[id].key);
    TasksMove(w, v, id);
  }

  lemma MintSound(w: World, v: World, k: Key)
    requires Tokens(w) && TaskSound(w, RefreshLookup(k))
    requires v.handedOut == w.handedOut && v.dead == w.dead && v.next == w.next + 1
    ensures TaskSound(v, RefreshStore(k, Key(k.user, w.next)))
  {
    NewId(w, Key(k.user, w.next));
    assert !HandedId(v, w.next);
  }

  /** A new id is minted for the token about to be stored. */
  lemma MintKeeps(w: World, v: World, id: nat, k: Key)
    requires Inv(w) && id in w.tasks && w.tasks[id] == RefreshLookup(k)
    requires v == w.(tasks := w.tasks[id := RefreshStore(k, Key(k.user, w.next))], next := w.next + 1)
    ensures Inv(v)
  {
    SameTokens(w, v);
    MintSound(w, v, k);
    TasksMove(w, v, id);
  }

  /** A request ends without storing anything. */
  lemma EndKeeps(w: World, v: World, id: nat, r: Reply)
    requires Inv(w) && v == Answer(w, id, r)
    ensures Inv(v)
  {
    SameTokens(w, v);
    TasksMove(w, v, id);
  }

  lemma LookupKeeps(w: World, id: nat, step: Step)
    requires Inv(w) && id in w.tasks && w.tasks[id].RefreshLookup? && step.Lookup?
    ensures Inv(Resume(w, id, w.tasks[id], step))
  {
    var v := Resume(w, id, w.tasks[id], step);
    if step.found {
      MintKeeps(w, v, id, w.tasks[id].key);
    } else {
      EndKeeps(w, v, id, UserNotFound);
    }
  }

  lemma GetKeeps(w: World, id: nat, step: Step)
    requires Inv(w) && id in w.tasks && w.tasks[id].RefreshGet? && step.Get?
    ensures Inv(Resume(w, id, w.tasks[id], step))
  {
    var v := Resume(w, id, w.tasks[id], step);
    assert TaskSound(w, w.tasks[id]);
    SameTokens(w, v);
    TasksMove(w, v, id);
  }

  /** Is the step the one the request waits for? */
  predicate Awaited(r: Req, step: Step) {
    match r
    case LoginStore(_) => step.Store?
    case RefreshGet(_) => step.Get?
    case RefreshDelete(_) => step.Delete?
    case RefreshLookup(_) => step.Lookup?
    case RefreshStore(_, _) => step.Store?
  }

  lemma ResumeKeeps(w: World, id: nat, step: Step)
    requires Inv(w) && id in w.tasks
    ensures Inv(Resume(w, id, w.tasks[id], step))
  {
    var r := w.tasks[id];
    if Awaited(r, step) {
      match r
      case LoginStore(k) => StoreKeeps(w, id, k, step);
      case RefreshGet(_) => GetKeeps(w, id, step);
      case RefreshDelete(_) => DeleteKeeps(w, id, step);
      case RefreshLookup(_) => LookupKeeps(w, id, step);
      case RefreshStore(_, f) => StoreKeeps(w, id, f, step);
    }
  }

  lemma SameTokens(w: World, v: World)
    requires Tokens(w) && v.live <= w.live && v.handedOut == w.handedOut && v.dead == w.dead
    requires v.next >= w.next && v.redeemed == w.redeemed
    ensures Tokens(v)
  {
    forall d | d in v.dead ensures HandedId(v, d.jti) {
      assert HandedId(w, d.jti);
    }
  }

  lemma NewId(w: World, k: Key)
    requires Tokens(w) && k.jti == w.next
    ensures !HandedId(w, k.jti)
  {
  }

  /** A request starts. */
  lemma StartKeeps(w: World, step: Step)
    requires Inv(w) && (step.Login? || step.Refresh?)
    ensures Inv(Apply(w, step))
  {
    var v := Apply(w, step);
    if step.Login? { NewId(w, Key(step.user, w.next)); }
    SameTokens(w, v);
    TasksMove(w, v, step.id);
  }

  /** A key is deleted from outside. */
  lemma DropKeeps(w: World, step: Step)
    requires Inv(w) && (step.Logout? || step.Expire?)
    ensures Inv(Apply(w, step))
  {
    var v := Apply(w, step);
    if step.Logout? && v != w {
      DeleteTokens(w, v, step.key);
    } else {
      SameTokens(w, v);
    }
    TasksMove(w, v, 0);
  }

  lemma StepKeeps(w: World, step: Step)
    requires Inv(w)
    ensures Inv(Apply(w, step))
  {
    match step
    case Login(_, _) => StartKeeps(w, step);
    case Refresh(_, _) => StartKeeps(w, step);
    case Logout(_) => DropKeeps(w, step);
    case Expire(_) => DropKeeps(w, step);
    case _ => if step.id in w.tasks { ResumeKeeps(w, step.id, step); }
  }

  lemma {:induction false} RunKeeps(w: World, steps: seq<Step>)
    requires Inv(w)
    ensures Inv(Exec(w, steps))
  {
    if steps == [] {
    } else {
      var n := |steps| - 1;
      RunKeeps(w, steps[..n]);
      StepKeeps(Exec(w, steps[..n]), steps[n]);
    }
  }

  lemma StartInv()
    ensures Inv(START) && Single(START)
  {
  }

  /**
   Rotation: once a refresh or a logout has deleted a key, it is never live again, so every refresh with that key whose
   GET comes later is answered `Revoked`, on every run.
   */
  lemma DeadTokenIsRefused(before: seq<Step>, after: seq<Step>, k: Key, id: nat)
    requires k in Exec(START, before).dead
    ensures var w := Exec(START, before + after);
      && k in w.dead && k !in w.live
      && (id in w.tasks && w.tasks[id] == RefreshGet(k) ==>
            var v := Apply(w, Get(id)); id in v.replies && v.replies[id] == Revoked && v.redeemed == w.redeemed)
  {
    DeadStays(before, after);
    StartInv();
    RunKeeps(START, before + after);
  }

  lemma {:induction false} DeadStays(before: seq<Step>, after: seq<Step>)
    ensures Exec(START, before).dead <= Exec(START, before + after).dead
  {
    if after == [] {
      assert before + after == before;
    } else {
      var n := |after| - 1;
      assert before + after == before + after[..n] + [after[n]];
      DeadStays(before, after[..n]);
      ExecLast(START, before + after[..n], after[n]);
      DeadGrows(Exec(START, before + after[..n]), after[n]);
    }
  }

  lemma DeadGrows(w: World, step: Step)
    ensures w.dead <= Apply(w, step).dead
  {
  }

  // ---- redeemed at most once ----

  /** A token is being redeemed between its GET and its SETEX. */
  predicate Redeems(r: Req, k: Key) {
    (r.RefreshDelete? || r.RefreshLookup? || r.RefreshStore?) && r.key == k
  }

  /** The hypothesis of "one at a time", per token: no GET of a live token that another refresh has read already. */
  predicate NoRace(w: World, step: Step) {
    step.Get? && step.id in w.tasks && w.tasks[step.id].RefreshGet? && w.tasks[step.id].key in w.live ==>
      forall i | i in w.tasks :: w.tasks[i] != RefreshDelete(w.tasks[step.id].key)
  }

  predicate Orderly(w: World, steps: seq<Step>) {
    steps != [] ==>
      var n := |steps| - 1; Orderly(w, steps[..n]) && NoRace(Exec(w, steps[..n]), steps[n])
  }

  predicate Distinct(s: seq<Key>) {
    forall i, j | 0 <= i < j < |s| :: s[i] != s[j]
  }

  /** Each token is held by at most one refresh, and never again after that refresh succeeded. */
  ghost predicate Held(w: World) {
    && (forall i, k | i in w.tasks && Redeems(w.tasks[i], k) :: k !in w.redeemed)
    && (forall i, j, k | i in w.tasks && j in w.tasks && Redeems(w.tasks[i], k) && Redeems(w.tasks[j], k) :: i == j)
  }

  ghost predicate Single(w: World) {
    Distinct(w.redeemed) && Held(w)
  }

  /** A refresh that reads a live token is the first to hold it: a held token is either unread or dead. */
  lemma GetHeld(w: World, id: nat)
    requires Inv(w) && Held(w) && id in w.tasks && w.tasks[id].RefreshGet? && NoRace(w, Get(id))
    ensures Held(Apply(w, Get(id)))
  {
    var k := w.tasks[id].key;
    if k in w.live {
      forall i | i in w.tasks ensures !Redeems(w.tasks[i], k) {
        assert TaskSound(w, w.tasks[i]);
      }
    }
  }

  lemma DistinctSnoc(s: seq<Key>, k: Key)
    requires Distinct(s) && k !in s
    ensures Distinct(s + [k])
  {
    forall i | 0 <= i < |s| ensures s[i] != k {
      assert s[i] in s;
    }
  }

  lemma StoreHeld(w: World, id: nat)
    requires Single(w) && id in w.tasks && w.tasks[id].RefreshStore?
    ensures Single(Apply(w, Store(id)))
  {
    var k := w.tasks[id].key;
    var v := Apply(w, Store(id));
    assert Redeems(w.tasks[id], k);
    assert v.redeemed == w.redeemed + [k] && v.tasks == w.tasks - {id};
    DistinctSnoc(w.redeemed, k);
    forall i, h | i in v.tasks && Redeems(v.tasks[i], h) ensures h !in v.redeemed {
      assert Redeems(w.tasks[i], h) && h != k;
    }
  }

  /** Every other step keeps what each task holds. */
  lemma OtherHeld(w: World, v: World)
    requires Held(w) && v.redeemed == w.redeemed
    requires forall i, k | i in v.tasks && Redeems(v.tasks[i], k) :: i in w.tasks && Redeems(w.tasks[i], k)
    ensures Held(v)
  {
  }

  lemma SingleStep(w: World, step: Step)
    requires Inv(w) && Single(w) && NoRace(w, step)
    ensures Single(Apply(w, step))
  {
    if step.Get? && step.id in w.tasks && w.tasks[step.id].RefreshGet? {
      GetHeld(w, step.id);
    } else if step.Store? && step.id in w.tasks && w.tasks[step.id].RefreshStore? {
      StoreHeld(w, step.id);
    } else {
      OtherHeld(w, Apply(w, step));
    }
  }

  lemma {:induction false} SingleRun(w: World, steps: seq<Step>)
    requires Inv(w) && Single(w) && Orderly(w, steps)
    ensures Single(Exec(w, steps))
  {
    if steps == [] {
    } else {
      var n := |steps| - 1;
      SingleRun(w, steps[..n]);
      RunKeeps(w, steps[..n]);
      SingleStep(Exec(w, steps[..n]), steps[n]);
    }
  }

  /** Without such a race every token is redeemed at most once; in particular when requests run one at a time. */
  lemma RedeemedOnce(steps: seq<Step>)
    requires Orderly(START, steps)
    ensures Distinct(Exec(START, steps).redeemed)
  {
    StartInv();
    SingleRun(START, steps);
  }

  // ---- the condition is exact ----

  lemma ExecLast(w: World, steps: seq<Step>, step: Step)
    ensures Exec(w, steps + [step]) == Apply(Exec(w, steps), step)
    ensures Orderly(w, steps + [step]) <==> Orderly(w, steps) && NoRace(Exec(w, steps), step)
  {
    assert (steps + [step])[..|steps|] == steps;
  }

  /** The rest of a refresh that has read its token redeems it, whoever else holds it, and is no race itself. */
  lemma RestRedeems(w: World, steps: seq<Step>, i: nat, k: Key)
    requires Orderly(w, steps) && i in Exec(w, steps).tasks && Exec(w, steps).tasks[i] == RefreshDelete(k)
    ensures var v, more := Exec(w, steps), steps + [Delete(i)] + [Lookup(i, true)] + [Store(i)];
      && Orderly(w, more) && Exec(w, more).redeemed == v.redeemed + [k] && Exec(w, more).tasks == v.tasks - {i}
  {
    ExecLast(w, steps, Delete(i));
    ExecLast(w, steps + [Delete(i)], Lookup(i, true));
    ExecLast(w, steps + [Delete(i)] + [Lookup(i, true)], Store(i));
    OneRedeems(Exec(w, steps), i, k);
  }

  lemma OneRedeems(w: World, i: nat, k: Key)
    requires i in w.tasks && w.tasks[i] == RefreshDelete(k)
    ensures var v := Apply(Apply(Apply(w, Delete(i)), Lookup(i, true)), Store(i));
      v.redeemed == w.redeemed + [k] && v.tasks == w.tasks - {i}
  {
    var w1 := Apply(w, Delete(i));
    assert w1.tasks == w.tasks[i := RefreshLookup(k)];
    var w2 := Apply(w1, Lookup(i, true));
    assert w2.tasks == w.tasks[i := RefreshStore(k, Key(k.user, w.next))];
  }

  /** From `w` some orderly continuation redeems a token twice. */
  ghost predicate CanDouble(w: World) {
    exists more :: Orderly(w, more) && !Distinct(Exec(w, more).redeemed)
  }

  lemma NotDistinct(s: seq<Key>, k: Key)
    ensures !Distinct(s + [k] + [k])
  {
    var r := s + [k] + [k];
    assert r[|s|] == r[|s| + 1];
  }

  /** Two refreshes that have both read the token before either deletes it can both succeed. */
  lemma BothRead(w: World, i: nat, j: nat, k: Key)
    requires i != j && i in w.tasks && j in w.tasks
    requires w.tasks[i] == RefreshDelete(k) && w.tasks[j] == RefreshDelete(k)
    ensures CanDouble(w)
  {
    var one := [] + [Delete(i)] + [Lookup(i, true)] + [Store(i)];
    var two := one + [Delete(j)] + [Lookup(j, true)] + [Store(j)];
    assert Orderly(w, one) && Exec(w, one).tasks == w.tasks - {i} && Exec(w, one).redeemed == w.redeemed + [k] by {
      RestRedeems(w, [], i, k);
    }
    assert Orderly(w, two) && Exec(w, two).redeemed == w.redeemed + [k] + [k] by { RestRedeems(w, one, j, k); }
    NotDistinct(w.redeemed, k);
  }

  /**
   The condition is exact: after every orderly run, a step that breaks it is followed by a continuation without further
   races that redeems one token twice, and a step that keeps it is not.
   */
  lemma RaceExact(steps: seq<Step>, step: Step)
    requires Orderly(START, steps)
    ensures var w := Exec(START, steps); NoRace(w, step) <==> !CanDouble(Apply(w, step))
  {
    var w := Exec(START, steps);
    var v := Apply(w, step);
    StartInv();
    RunKeeps(START, steps);
    SingleRun(START, steps);
    StepKeeps(w, step);
    if NoRace(w, step) {
      SingleStep(w, step);
      forall more | Orderly(v, more) ensures Distinct(Exec(v, more).redeemed) { SingleRun(v, more); }
    } else {
      var k := w.tasks[step.id].key;
      var i :| i in w.tasks && w.tasks[i] == RefreshDelete(k);
      assert v.tasks == w.tasks[step.id := RefreshDelete(k)];
      BothRead(v, i, step.id, k);
    }
  }

  /** Two requests with the token of one login are enough for such a race. */
  lemma RaceReached(user: nat)
    ensures var k := Key(user, 0);
      var steps := [] + [Login(0, user)] + [Store(0)] + [Refresh(1, k)] + [Refresh(2, k)] + [Get(1)];
      Orderly(START, steps) && !NoRace(Exec(START, steps), Get(2))
  {
    var k := Key(user, 0);
    var s1 := [] + [Login(0, user)];
    var s2 := s1 + [Store(0)];
    var s3 := s2 + [Refresh(1, k)];
    var s4 := s3 + [Refresh(2, k)];
    ExecLast(START, [], Login(0, user));
    ExecLast(START, s1, Store(0));
    assert Exec(START, s2) == World({k}, 1, map[], map[0 := LoggedIn(k)], {k}, {}, []);
    ExecLast(START, s2, Refresh(1, k));
    ExecLast(START, s3, Refresh(2, k));
    ExecLast(START, s4, Get(1));
    assert Exec(START, s4).tasks == map[1 := RefreshGet(k), 2 := RefreshGet(k)];
    var w := Exec(START, s4 + [Get(1)]);
    assert w.tasks == map[1 := RefreshDelete(k), 2 := RefreshGet(k)] && w.live == {k};
    assert 1 in w.tasks && w.tasks[1] == RefreshDelete(k);
  }
}
