/**
 worker/azure_adapters.py: the renewable blob lease around one Terraform state key, and how
 far a passing `assert_current` can be trusted when the renewal thread may be scheduled late.
 */
module StateLease {
  import opened Wrappers

  type Id = nat

  const DURATION := 60.0
  const PERIOD := 20.0

  // ---- The storage service's side -------------------------------------------------------

  datatype Blob = Blob(holder: Option<Id>, expires: real)

  predicate Leased(b: Blob, now: real) {
    b.holder.Some? && now < b.expires
  }

  function Acquired(id: Id, now: real): Blob {
    Blob(Some(id), now + DURATION)
  }

  /** A lapsed lease can still be renewed by its own id until another id takes the blob. */
  function Renewed(b: Blob, id: Id, now: real): Option<Blob> {
    if b.holder == Some(id) then Some(Blob(b.holder, now + DURATION)) else None
  }

  function Released(b: Blob, id: Id): Blob {
    if b.holder == Some(id) then b.(holder := None) else b
  }

  class StateBlob {
    var blob: Blob

    constructor ()
      ensures blob == Blob(None, 0.0)
    {
      blob := Blob(None, 0.0);
    }
  }

  /** One `with` block. `id` is the lease id the client proposes. */
  class AzureBlobStateLease {
    const server: StateBlob
    const id: Id
    var leased: bool
    var stopped: bool
    var renewalError: bool

    constructor (server: StateBlob, id: Id)
      ensures this.server == server && this.id == id && !leased && !stopped && !renewalError
    {
      this.server, this.id := server, id;
      leased, stopped, renewalError := false, false, false;
    }

    /** __enter__: a conflict raises, and the renewal thread starts only after the grant. */
    method Enter(now: real) returns (entered: bool)
      modifies this, server
      ensures entered <==> !Leased(old(server.blob), now)
      ensures server.blob == if entered then Acquired(id, now) else old(server.blob)
      ensures entered <==> old(server.blob).holder.None? || old(server.blob).expires <= now
      ensures entered ==> server.blob == Blob(Some(id), now + 60.0)
      ensures leased == (old(leased) || entered) && stopped == old(stopped) && renewalError == old(renewalError)
    {
      entered := !(server.blob.holder.Some? && now < server.blob.expires);
      if entered {
        server.blob := Blob(Some(id), now + DURATION);
        leased := true;
      }
    }

    /** One turn of the renewal loop; `reachable` says whether the request got an answer. */
    method RenewTurn(now: real, reachable: bool)
      modifies this, server
      ensures var active := !old(stopped) && !old(renewalError);
              var renewed := Renewed(old(server.blob), id, now);
              && (active && reachable && renewed.Some? ==> server.blob == renewed.value && !renewalError)
              && (active && !(reachable && renewed.Some?) ==> server.blob == old(server.blob) && renewalError)
              && (!active ==> server.blob == old(server.blob) && renewalError == old(renewalError))
      ensures leased == old(leased) && stopped == old(stopped)
      ensures var renews := !old(stopped) && !old(renewalError) && reachable && old(server.blob).holder == Some(id);
              && server.blob == (if renews then Blob(Some(id), now + 60.0) else old(server.blob))
              && (renewalError <==> old(renewalError) || (!old(stopped) && !renews))
    {
      if !stopped && !renewalError {
        if reachable && server.blob.holder == Some(id) {
          server.blob := server.blob.(expires := now + DURATION);
        } else {
          renewalError := true;
        }
      }
    }

    method AssertCurrent() returns (passes: bool)
      ensures passes <==> !renewalError
    {
      passes := !renewalError;
    }

    /** __exit__: stops the thread, tries to release, and asserts again when nothing was raised. */
    method Exit(raised: bool, reachable: bool) returns (raises: bool)
      modifies this, server
      ensures stopped && leased == old(leased) && renewalError == old(renewalError)
      ensures server.blob == if old(leased) && reachable then Released(old(server.blob), id) else old(server.blob)
      ensures server.blob == if old(leased) && reachable && old(server.blob).holder == Some(id)
                             then Blob(None, old(server.blob).expires) else old(server.blob)
      ensures raises <==> (old(leased) && !reachable) || (!raised && old(renewalError))
    {
      stopped := true;
      raises := false;
      if leased {
        if reachable {
          if server.blob.holder == Some(id) {
            server.blob := server.blob.(holder := None);
          }
        } else {
          raises := true;
        }
      }
      if !raised && renewalError {
        raises := true;
      }
    }
  }

  // ---- All sessions on one blob ---------------------------------------------------------

  /** `order` is the acquisition rank; `inside` ends with __exit__ or a crash. */
  datatype Session = Session(
    order: nat,
    acquiredAt: real,
    renewedAt: real,
    inside: bool,
    error: bool,
    assertedAt: Option<real>,
    settled: bool
  )

  /** `gapped` collects the sessions whose lease has lapsed at some moment since it was acquired. */
  datatype World = World(now: real, blob: Blob, sessions: map<Id, Session>, acquisitions: nat, gapped: set<Id>)

  datatype Label =
    | Acquire(id: Id)
    | Renew(id: Id)
    | RenewFails(id: Id)
    | Assert(id: Id)
    | Settle(id: Id)
    | Leave(id: Id, reachable: bool)
    | Crash(id: Id)
    | Tick(elapsed: real)

  predicate Live(x: Session) {
    x.inside && !x.error
  }

  /** `delay`: how late the renewal thread may wake after its 20-second wait. */
  predicate Enabled(delay: real, w: World, l: Label) {
    match l
    case Acquire(id) => id !in w.sessions && !Leased(w.blob, w.now)
    case Renew(id) => id in w.sessions && Live(w.sessions[id]) && w.sessions[id].renewedAt + PERIOD <= w.now
    case RenewFails(id) => id in w.sessions && Live(w.sessions[id])
    case Assert(id) => id in w.sessions && Live(w.sessions[id]) && w.sessions[id].assertedAt.None?
    case Settle(id) => id in w.sessions && w.sessions[id].inside && w.sessions[id].assertedAt.Some?
    case Leave(id, _) => id in w.sessions && w.sessions[id].inside
    case Crash(id) => id in w.sessions && w.sessions[id].inside
    case Tick(elapsed) =>
      0.0 <= elapsed
      && forall id <- w.sessions.Keys :: Live(w.sessions[id]) ==>
           w.now + elapsed < w.sessions[id].renewedAt + PERIOD + delay
  }

  function Put(w: World, id: Id, x: Session): World {
    w.(sessions := w.sessions[id := x])
  }

  function Do(delay: real, w: World, l: Label): World
    requires Enabled(delay, w, l)
  {
    match l
    case Acquire(id) =>
      Put(w, id, Session(w.acquisitions, w.now, w.now, true, false, None, false)).(
        blob := Acquired(id, w.now), acquisitions := w.acquisitions + 1)
    case Renew(id) =>
      var renewed := Renewed(w.blob, id, w.now);
      if renewed.Some? then Put(w, id, w.sessions[id].(renewedAt := w.now)).(blob := renewed.value)
      else Put(w, id, w.sessions[id].(error := true))
    case RenewFails(id) => Put(w, id, w.sessions[id].(error := true))
    case Assert(id) => Put(w, id, w.sessions[id].(assertedAt := Some(w.now)))
    case Settle(id) => Put(w, id, w.sessions[id].(settled := true))
    case Leave(id, reachable) =>
      Put(w, id, w.sessions[id].(inside := false)).(blob := if reachable then Released(w.blob, id) else w.blob)
    case Crash(id) => Put(w, id, w.sessions[id].(inside := false))
    case Tick(elapsed) =>
      w.(now := w.now + elapsed,
         gapped := if w.blob.holder.Some? && w.blob.expires <= w.now + elapsed
                   then w.gapped + {w.blob.holder.value} else w.gapped)
  }

  function Step(delay: real, w: World, l: Label): World {
    if Enabled(delay, w, l) then Do(delay, w, l) else w
  }

  function Run(delay: real, w: World, ls: seq<Label>): World
    decreases |ls|
  {
    if ls == [] then w else Run(delay, Step(delay, w, ls[0]), ls[1..])
  }

  function Init(): World {
    World(0.0, Blob(None, 0.0), map[], 0, {})
  }

  /** The clockwork of every session: sixty seconds from each grant, a renewal no sooner than twenty
      seconds after the last one and, while it runs, before twenty seconds and the delay have passed. */
  lemma SessionClock(delay: real, w: World, id: Id, elapsed: real)
    ensures Enabled(delay, w, Acquire(id)) ==>
              Step(delay, w, Acquire(id)).blob == Blob(Some(id), w.now + 60.0)
    ensures Enabled(delay, w, Renew(id)) ==> id in w.sessions && w.sessions[id].renewedAt + 20.0 <= w.now
    ensures Enabled(delay, w, Renew(id)) && w.blob.holder == Some(id) ==>
              Step(delay, w, Renew(id)).blob == Blob(Some(id), w.now + 60.0)
    ensures Enabled(delay, w, Tick(elapsed)) ==>
              forall i <- w.sessions.Keys :: w.sessions[i].inside && !w.sessions[i].error ==>
                w.now + elapsed < w.sessions[i].renewedAt + 20.0 + delay
    ensures Enabled(delay, w, Acquire(id)) ==> w.blob.holder.None? || w.blob.expires <= w.now
  {
  }

  // ---- Invariant under a bounded delay --------------------------------------------------

  ghost predicate SessionOk(w: World, id: Id)
    requires id in w.sessions
  {
    var x := w.sessions[id];
    && x.order < w.acquisitions
    && x.acquiredAt <= w.now
    && (x.assertedAt.Some? ==> x.acquiredAt <= x.assertedAt.value <= w.now)
    && (x.settled ==> x.assertedAt.Some?)
    && (Live(x) ==> && id !in w.gapped
                    && w.blob == Blob(Some(id), x.renewedAt + DURATION)
                    && w.now < w.blob.expires)
  }

  /** A session acquired earlier is over by the time the later one is acquired. */
  ghost predicate InTurn(a: Session, b: Session) {
    a.order < b.order ==>
      !Live(a) && (a.assertedAt.Some? ==> a.assertedAt.value <= b.acquiredAt)
  }

  ghost predicate Inv(w: World) {
    && w.gapped <= w.sessions.Keys
    && (w.blob.holder.Some? ==> w.blob.holder.value in w.sessions)
    && (forall id <- w.sessions.Keys :: SessionOk(w, id))
    && (forall i, j :: i in w.sessions && j in w.sessions ==> InTurn(w.sessions[i], w.sessions[j]))
    && (forall i, j :: i in w.sessions && j in w.sessions && i != j ==> w.sessions[i].order != w.sessions[j].order)
  }

  lemma AcquireKeeps(delay: real, w: World, l: Label)
    requires Inv(w) && Enabled(delay, w, l) && l.Acquire?
    ensures Inv(Do(delay, w, l))
  {
    forall id | id in w.sessions ensures !Live(w.sessions[id]) {
      assert SessionOk(w, id);
    }
    var after := Do(delay, w, l);
    forall id | id in after.sessions ensures SessionOk(after, id) {
      if id != l.id { assert SessionOk(w, id); }
    }
    forall i, j | i in after.sessions && j in after.sessions ensures InTurn(after.sessions[i], after.sessions[j]) {
      if i != l.id { assert SessionOk(w, i); }
      if j != l.id { assert SessionOk(w, j); }
    }
    forall i, j | i in after.sessions && j in after.sessions && i != j
      ensures after.sessions[i].order != after.sessions[j].order {
      if i != l.id { assert SessionOk(w, i); }
      if j != l.id { assert SessionOk(w, j); }
    }
  }

  /** One session's record changed without reviving it; the blob may have been renewed or released by it. */
  ghost predicate Touches(w: World, after: World, id: Id) {
    && id in w.sessions && id in after.sessions
    && after == w.(sessions := w.sessions[id := after.sessions[id]], blob := after.blob)
    && after.sessions[id].order == w.sessions[id].order
    && after.sessions[id].acquiredAt == w.sessions[id].acquiredAt
    && (after.sessions[id].assertedAt == w.sessions[id].assertedAt
        || (Live(w.sessions[id]) && after.sessions[id].assertedAt == Some(w.now)))
    && (Live(after.sessions[id]) ==> Live(w.sessions[id]))
    && (after.blob == w.blob || w.blob.holder == Some(id))
    && (after.blob.holder.Some? ==> after.blob.holder == w.blob.holder)
    && SessionOk(after, id)
  }

  lemma TouchKeeps(w: World, after: World, id: Id)
    requires Inv(w) && Touches(w, after, id)
    ensures Inv(after)
  {
    forall i | i in after.sessions ensures SessionOk(after, i) {
      if i != id { assert SessionOk(w, i); }
    }
    forall i, j | i in after.sessions && j in after.sessions ensures InTurn(after.sessions[i], after.sessions[j]) {
      assert InTurn(w.sessions[i], w.sessions[j]);
    }
  }

  lemma SessionKeeps(delay: real, w: World, l: Label)
    requires Inv(w) && Enabled(delay, w, l) && !l.Acquire? && !l.Tick?
    ensures Inv(Do(delay, w, l))
  {
    assert SessionOk(w, l.id);
    TouchKeeps(w, Do(delay, w, l), l.id);
  }

  lemma TickKeeps(delay: real, w: World, l: Label)
    requires Inv(w) && Enabled(delay, w, l) && l.Tick? && delay <= 40.0
    ensures Inv(Do(delay, w, l))
  {
    var after := Do(delay, w, l);
    forall id | id in after.sessions ensures SessionOk(after, id) {
      assert SessionOk(w, id);
    }
  }

  lemma {:induction false} RunKeeps(delay: real, w: World, ls: seq<Label>)
    requires Inv(w) && delay <= 40.0
    ensures Inv(Run(delay, w, ls))
    decreases |ls|
  {
    hide Inv, Do, Enabled;
    if ls != [] {
      if Enabled(delay, w, ls[0]) {
        match ls[0]
        case Acquire(_) => AcquireKeeps(delay, w, ls[0]);
        case Tick(_) => TickKeeps(delay, w, ls[0]);
        case _ => SessionKeeps(delay, w, ls[0]);
      }
      RunKeeps(delay, Step(delay, w, ls[0]), ls[1..]);
    }
  }

  /** With a delay of at most 40 s, a passing assertion means the lease has been held without a gap. */
  lemma AssertedMeansHeld(delay: real, ls: seq<Label>, id: Id)
    requires delay <= 40.0
    ensures var w := Run(delay, Init(), ls);
            Enabled(delay, w, Assert(id)) ==>
              id !in w.gapped && Leased(w.blob, w.now) && w.blob.holder == Some(id)
  {
    hide Run;
    RunKeeps(delay, Init(), ls);
    var w := Run(delay, Init(), ls);
    if id in w.sessions { assert SessionOk(w, id); }
  }

  // ---- Exclusion ------------------------------------------------------------------------

  ghost predicate Overlap(a: Session, b: Session) {
    && a.assertedAt.Some? && b.assertedAt.Some?
    && a.acquiredAt < b.assertedAt.value && b.acquiredAt < a.assertedAt.value
  }

  /** No two sessions that went on to publish and write a receipt had overlapping executions. */
  ghost predicate Exclusive(w: World) {
    forall i, j :: i in w.sessions && j in w.sessions && i != j && w.sessions[i].settled && w.sessions[j].settled ==>
      !Overlap(w.sessions[i], w.sessions[j])
  }

  lemma InvExcludes(w: World)
    requires Inv(w)
    ensures Exclusive(w)
  {
    forall i, j | i in w.sessions && j in w.sessions && i != j && w.sessions[i].settled && w.sessions[j].settled
      ensures !Overlap(w.sessions[i], w.sessions[j])
    {
      assert InTurn(w.sessions[i], w.sessions[j]) && InTurn(w.sessions[j], w.sessions[i]);
      assert SessionOk(w, i) && SessionOk(w, j);
    }
  }

  /** A thread that may wake later than 40 s lets two executions overlap and both settle. */
  function Late(delay: real): seq<Label> {
    [Acquire(1), Tick(60.0), Acquire(2), Tick((delay - 40.0) / 2.0), Assert(1), Assert(2), Settle(1), Settle(2)]
  }

  lemma RunCons(delay: real, w: World, l: Label, ls: seq<Label>)
    ensures Run(delay, w, [l] + ls) == Run(delay, Step(delay, w, l), ls)
  {
    assert ([l] + ls)[1..] == ls;
  }

  lemma LateAcquisitions(delay: real)
    requires 40.0 < delay
    ensures var e := (delay - 40.0) / 2.0;
            0.0 < e < delay - 40.0 &&
            Step(delay, Step(delay, Step(delay, Step(delay, Init(), Acquire(1)), Tick(60.0)), Acquire(2)), Tick(e))
            == World(60.0 + e, Blob(Some(2), 120.0),
                     map[1 := Session(0, 0.0, 0.0, true, false, None, false),
                         2 := Session(1, 60.0, 60.0, true, false, None, false)], 2,
                     if 60.0 <= e then {1, 2} else {1})
  {
    var e := (delay - 40.0) / 2.0;
    var a, b := Session(0, 0.0, 0.0, true, false, None, false), Session(1, 60.0, 60.0, true, false, None, false);
    var w1 := World(0.0, Blob(Some(1), 60.0), map[1 := a], 1, {});
    assert Step(delay, Init(), Acquire(1)) == w1;
    var w2 := World(60.0, Blob(Some(1), 60.0), map[1 := a], 1, {1});
    assert Step(delay, w1, Tick(60.0)) == w2;
    var w3 := World(60.0, Blob(Some(2), 120.0), map[1 := a, 2 := b], 2, {1});
    assert Step(delay, w2, Acquire(2)) == w3;
    assert Enabled(delay, w3, Tick(e));
  }

  lemma LateOverlaps(delay: real)
    requires 40.0 < delay
    ensures !Exclusive(Run(delay, Init(), Late(delay)))
  {
    var ls := Late(delay);
    var e := (delay - 40.0) / 2.0;
    LateAcquisitions(delay);
    var w1 := Step(delay, Init(), ls[0]);
    var w2 := Step(delay, w1, ls[1]);
    var w3 := Step(delay, w2, ls[2]);
    var w4 := Step(delay, w3, ls[3]);
    var w5 := Step(delay, w4, ls[4]);
    var w6 := Step(delay, w5, ls[5]);
    var w7 := Step(delay, w6, ls[6]);
    var w8 := Step(delay, w7, ls[7]);
    LateRun(delay, w1, w2, w3, w4, w5, w6, w7, w8);
    assert w8.sessions[1].settled && w8.sessions[2].settled;
    assert Overlap(w8.sessions[1], w8.sessions[2]);
  }

  lemma RunNone(delay: real, w: World)
    ensures Run(delay, w, []) == w
  {
  }

  lemma LateRun(delay: real, w1: World, w2: World, w3: World, w4: World, w5: World, w6: World, w7: World, w8: World)
    requires var ls := Late(delay);
             && w1 == Step(delay, Init(), ls[0]) && w2 == Step(delay, w1, ls[1]) && w3 == Step(delay, w2, ls[2])
             && w4 == Step(delay, w3, ls[3]) && w5 == Step(delay, w4, ls[4]) && w6 == Step(delay, w5, ls[5])
             && w7 == Step(delay, w6, ls[6]) && w8 == Step(delay, w7, ls[7])
    ensures Run(delay, Init(), Late(delay)) == w8
  {
    hide Step, Run;
    var ls := Late(delay);
    assert |ls| == 8;
    hide Late;
    assert ls[0..] == ls && ls[8..] == [];
    RunFrom(delay, Init(), ls, 0);
    RunFrom(delay, w1, ls, 1);
    RunFrom(delay, w2, ls, 2);
    RunFrom(delay, w3, ls, 3);
    RunFrom(delay, w4, ls, 4);
    RunFrom(delay, w5, ls, 5);
    RunFrom(delay, w6, ls, 6);
    RunFrom(delay, w7, ls, 7);
    RunNone(delay, w8);
  }

  lemma RunFrom(delay: real, w: World, ls: seq<Label>, i: nat)
    requires i < |ls|
    ensures Run(delay, w, ls[i..]) == Run(delay, Step(delay, w, ls[i]), ls[i + 1..])
  {
    hide Step;
    assert ls[i..][1..] == ls[i + 1..];
  }

  /** Exclusion holds in every run exactly when the renewal thread is never more than 40 s late. */
  lemma ExclusionExactly(delay: real)
    ensures (forall ls: seq<Label> :: Exclusive(Run(delay, Init(), ls))) <==> delay <= 40.0
  {
    hide Run, Exclusive;
    if delay <= 40.0 {
      forall ls: seq<Label> ensures Exclusive(Run(delay, Init(), ls)) {
        RunKeeps(delay, Init(), ls);
        InvExcludes(Run(delay, Init(), ls));
      }
    } else {
      LateOverlaps(delay);
    }
  }
}
