/** The runner protocol and the timed state leases together: one lease per Terraform state key. */
module LeasedRunners {
  import opened Wrappers
  import opened Contracts
  import R = RunnerProtocol
  import Vmss = VmssRunner
  import Delivery = RunnerDelivery
  import SL = StateLease
  import B = BlobStore

  /** Which session of which key's lease a runner holds inside its `with` block. */
  datatype Ticket = Ticket(key: string, session: nat)

  /** History: a success event, and the session under which it was published. */
  datatype Success = Success(ticket: Ticket, d: R.Delivery)

  datatype World = World(
    clock: real,
    runs: R.World,
    leases: map<string, SL.World>,
    tickets: map<R.Id, Ticket>,
    published: set<Success>
  )

  /** A runner's effect, which may also act on its lease; its renewal thread; or time passing. */
  datatype Label =
    | Effect(l: R.Label, session: nat, reachable: bool)
    | Renew(r: R.Id)
    | RenewFails(r: R.Id)
    | Clock(elapsed: real)

  /** Inside the `with` block. */
  predicate Inside(p: R.Phase) {
    p.Leased? || R.Executing(p) || p.Asserted? || p.Published? || p.Receipted? || p.Settled?
  }

  predicate AfterAssert(p: R.Phase) {
    p.Asserted? || p.Published? || p.Receipted? || p.Settled?
  }

  function LeaseOf(c: World, key: string): SL.World {
    if key in c.leases then c.leases[key] else SL.Init().(now := c.clock)
  }

  function TicketOf(c: World, r: R.Id): Ticket {
    if r in c.tickets then c.tickets[r] else Ticket("", 0)
  }

  /** What an effect does to the lease of its state key, if anything. */
  datatype LeaseAct = LeaseAct(key: string, l: SL.Label)

  ghost function ActOf(h: Hashes, c: World, l: R.Label, session: nat, reachable: bool): Option<LeaseAct>
    requires R.Enabled(h, c.runs, l)
  {
    match l
    case AcquireLease(r) => Some(LeaseAct(c.runs.runners[r].phase.d.env.claims.stateKey, SL.Acquire(session)))
    case AssertLease(r) => Some(LeaseAct(TicketOf(c, r).key, SL.Assert(TicketOf(c, r).session)))
    case Publish(r) => Some(LeaseAct(TicketOf(c, r).key, SL.Settle(TicketOf(c, r).session)))
    case LeaveLease(r) => Some(LeaseAct(TicketOf(c, r).key, SL.Leave(TicketOf(c, r).session, true)))
    case Fault(r, _) =>
      if Inside(c.runs.runners[r].phase)
      then Some(LeaseAct(TicketOf(c, r).key, SL.Leave(TicketOf(c, r).session, reachable))) else None
    case Crash(r) =>
      if Inside(c.runs.runners[r].phase)
      then Some(LeaseAct(TicketOf(c, r).key, SL.Crash(TicketOf(c, r).session))) else None
    case _ => None
  }

  /** The service decides who enters, and the thread's error decides who passes the assertion. */
  ghost predicate Enabled(h: Hashes, delay: real, c: World, x: Label) {
    match x
    case Effect(l, session, reachable) =>
      R.Enabled(h, c.runs, l) && (l.AcquireLease? || l.AssertLease? ==>
        var act := ActOf(h, c, l, session, reachable).value; SL.Enabled(delay, LeaseOf(c, act.key), act.l))
    case Renew(r) => r in c.tickets && SL.Enabled(delay, LeaseOf(c, c.tickets[r].key), SL.Renew(c.tickets[r].session))
    case RenewFails(r) => r in c.tickets && SL.Enabled(delay, LeaseOf(c, c.tickets[r].key), SL.RenewFails(c.tickets[r].session))
    case Clock(elapsed) => 0.0 <= elapsed && forall key <- c.leases.Keys :: SL.Enabled(delay, c.leases[key], SL.Tick(elapsed))
  }

  ghost function Acted(delay: real, c: World, act: Option<LeaseAct>): map<string, SL.World> {
    if act.None? then c.leases
    else c.leases[act.value.key := SL.Step(delay, LeaseOf(c, act.value.key), act.value.l)]
  }

  ghost function Do(h: Hashes, delay: real, c: World, x: Label): World
    requires Enabled(h, delay, c, x)
  {
    match x
    case Effect(l, session, reachable) =>
      var act := ActOf(h, c, l, session, reachable);
      World(c.clock, R.Do(h, c.runs, l), Acted(delay, c, act),
            if l.AcquireLease? then c.tickets[l.r := Ticket(act.value.key, session)] else c.tickets,
            if l.Publish? then c.published + {Success(TicketOf(c, l.r), c.runs.runners[l.r].phase.d)} else c.published)
    case Renew(r) => c.(leases := Acted(delay, c, Some(LeaseAct(c.tickets[r].key, SL.Renew(c.tickets[r].session)))))
    case RenewFails(r) => c.(leases := Acted(delay, c, Some(LeaseAct(c.tickets[r].key, SL.RenewFails(c.tickets[r].session)))))
    case Clock(elapsed) =>
      c.(clock := c.clock + elapsed,
         leases := map key | key in c.leases :: SL.Step(delay, c.leases[key], SL.Tick(elapsed)))
  }

  ghost function Step(h: Hashes, delay: real, c: World, x: Label): World {
    if Enabled(h, delay, c, x) then Do(h, delay, c, x) else c
  }

  ghost function Run(h: Hashes, delay: real, c: World, xs: seq<Label>): World
    decreases |xs|
  {
    if xs == [] then c else Run(h, delay, Step(h, delay, c, xs[0]), xs[1..])
  }

  function Init(now: int): World {
    World(0.0, R.Init(now), map[], map[], {})
  }

  // ---- One session under one step of its lease ------------------------------------------

  /** What a session records is never taken back. */
  ghost predicate Remembers(a: SL.World, b: SL.World, id: SL.Id)
    requires id in a.sessions
  {
    && id in b.sessions
    && b.sessions[id].acquiredAt == a.sessions[id].acquiredAt
    && (a.sessions[id].assertedAt.Some? ==> b.sessions[id].assertedAt == a.sessions[id].assertedAt)
    && (a.sessions[id].settled ==> b.sessions[id].settled)
  }

  predicate About(l: SL.Label, id: SL.Id) {
    !l.Tick? && l.id == id
  }

  lemma SessionStep(delay: real, a: SL.World, l: SL.Label, id: SL.Id)
    requires id in a.sessions
    ensures Remembers(a, SL.Step(delay, a, l), id)
    ensures !About(l, id) ==> SL.Step(delay, a, l).sessions[id] == a.sessions[id]
    ensures a.sessions[id].inside && !l.Leave? && !l.Crash? ==> SL.Step(delay, a, l).sessions[id].inside
  {
  }

  lemma LeaseStepKeeps(delay: real, a: SL.World, l: SL.Label)
    requires SL.Inv(a) && delay <= 40.0
    ensures SL.Inv(SL.Step(delay, a, l))
    ensures SL.Step(delay, a, l).now == if l.Tick? && SL.Enabled(delay, a, l) then a.now + l.elapsed else a.now
  {
    hide SL.Inv;
    assert SL.Run(delay, a, [l]) == SL.Step(delay, a, l) by {
      assert [l][1..] == [];
    }
    SL.RunKeeps(delay, a, [l]);
  }

  lemma FreshLease(c: World)
    ensures SL.Inv(SL.Init().(now := c.clock))
  {
  }

  // ---- The invariant --------------------------------------------------------------------

  ghost predicate LeasesOk(c: World) {
    forall key <- c.leases.Keys :: SL.Inv(c.leases[key]) && c.leases[key].now == c.clock
  }

  /** A runner inside its `with` block holds a session of its own state key, asserted once it says so. */
  ghost predicate HoldsTicket(c: World, r: R.Id, p: R.Phase) {
    Inside(p) ==>
      && r in c.tickets && c.tickets[r].key == p.d.env.claims.stateKey
      && c.tickets[r].key in c.leases && c.tickets[r].session in c.leases[c.tickets[r].key].sessions
      && c.leases[c.tickets[r].key].sessions[c.tickets[r].session].inside
      && (AfterAssert(p) ==> c.leases[c.tickets[r].key].sessions[c.tickets[r].session].assertedAt.Some?)
  }

  /** Two runners never hold the same session. */
  ghost predicate Separate(c: World, r: R.Id, s: R.Id)
    requires r in c.runs.runners && s in c.runs.runners
  {
    Inside(c.runs.runners[r].phase) && Inside(c.runs.runners[s].phase) ==> TicketOf(c, r) != TicketOf(c, s)
  }

  ghost predicate SuccessOk(c: World, p: Success) {
    && p.ticket.key == p.d.env.claims.stateKey
    && p.ticket.key in c.leases && p.ticket.session in c.leases[p.ticket.key].sessions
    && c.leases[p.ticket.key].sessions[p.ticket.session].settled
  }

  ghost predicate Inv(c: World) {
    && LeasesOk(c)
    && (forall r <- c.runs.runners.Keys :: HoldsTicket(c, r, c.runs.runners[r].phase))
    && (forall r, s :: r in c.runs.runners && s in c.runs.runners && r != s ==> Separate(c, r, s))
    && (forall p <- c.published :: SuccessOk(c, p))
  }

  // ---- One effect -----------------------------------------------------------------------

  /** How a runner's own step can leave it inside: by entering, or by going on with the same delivery. */
  lemma InsideMoves(h: Hashes, w: R.World, l: R.Label, r: R.Id)
    requires r in w.runners && R.Enabled(h, w, l) && Vmss.Concerns(l, r) && Inside(Vmss.NextPhase(h, w, l, r))
    ensures var p, q := w.runners[r].phase, Vmss.NextPhase(h, w, l, r);
            || (l.AcquireLease? && p.Protected? && q == R.Leased(p.d))
            || (Inside(p) && q.d == p.d && !l.AcquireLease? && !l.Fault? && !l.Crash? && !l.LeaveLease?
                && (AfterAssert(q) ==> AfterAssert(p) || l.AssertLease?))
  {
    hide R.EventOf, R.GateOpen, B.ReceiptNameOf, B.MayClaim, B.MaySave, B.MayDownload;
  }

  lemma ActedKeeps(delay: real, c: World, act: Option<LeaseAct>)
    requires LeasesOk(c) && delay <= 40.0 && (act.Some? ==> !act.value.l.Tick?)
    ensures LeasesOk(c.(leases := Acted(delay, c, act)))
    ensures forall key <- c.leases.Keys, id <- c.leases[key].sessions.Keys ::
              key in Acted(delay, c, act) && Remembers(c.leases[key], Acted(delay, c, act)[key], id)
  {
    hide SL.Inv, SL.Step, SL.Init;
    FreshLease(c);
    if act.Some? {
      assert SL.Inv(LeaseOf(c, act.value.key)) && LeaseOf(c, act.value.key).now == c.clock by { FreshClock(c); }
      LeaseStepKeeps(delay, LeaseOf(c, act.value.key), act.value.l);
    }
    forall key, id | key in c.leases && id in c.leases[key].sessions
      ensures key in Acted(delay, c, act) && Remembers(c.leases[key], Acted(delay, c, act)[key], id) {
      if act.Some? && act.value.key == key {
        SessionStep(delay, c.leases[key], act.value.l, id);
      }
    }
  }

  lemma FreshClock(c: World)
    ensures SL.Init().(now := c.clock).now == c.clock
  {
  }

  /** A session nobody acts on keeps its record. */
  lemma ActedElsewhere(delay: real, c: World, act: Option<LeaseAct>, key: string, id: SL.Id)
    requires key in c.leases && id in c.leases[key].sessions
    requires act.Some? ==> act.value.key != key || !About(act.value.l, id)
    ensures key in Acted(delay, c, act) && id in Acted(delay, c, act)[key].sessions
    ensures Acted(delay, c, act)[key].sessions[id] == c.leases[key].sessions[id]
  {
    hide SL.Step, SL.Init;
    if act.Some? && act.value.key == key {
      SessionStep(delay, c.leases[key], act.value.l, id);
    }
  }

  ghost predicate IsEffect(h: Hashes, delay: real, c: World, x: Label) {
    x.Effect? && Inv(c) && Enabled(h, delay, c, x) && delay <= 40.0
  }

  /** The runners that do not act stay where they are. */
  lemma OthersStay(h: Hashes, delay: real, c: World, x: Label, s: R.Id)
    requires IsEffect(h, delay, c, x) && s in c.runs.runners && !Vmss.Concerns(x.l, s)
    ensures s in Do(h, delay, c, x).runs.runners && Do(h, delay, c, x).runs.runners[s] == c.runs.runners[s]
  {
    hide R.Do, R.Enabled, Acted, Inv, SL.Enabled;
    Delivery.OthersStay(h, c.runs, x.l, s);
  }

  lemma BystanderTicket(h: Hashes, delay: real, c: World, x: Label, s: R.Id)
    requires IsEffect(h, delay, c, x) && s in c.runs.runners && !x.l.Tick? && !x.l.Produce? && x.l.r != s
    ensures HoldsTicket(Do(h, delay, c, x), s, c.runs.runners[s].phase)
  {
    hide R.Do, SL.Step, SL.Inv, Acted, SuccessOk, LeasesOk;
    var p, act := c.runs.runners[s].phase, ActOf(h, c, x.l, x.session, x.reachable);
    assert HoldsTicket(c, s, p);
    if Inside(p) {
      if x.l.r in c.runs.runners { assert Separate(c, x.l.r, s); }
      ActedOther(h, delay, c, x, s);
      ActedElsewhere(delay, c, act, c.tickets[s].key, c.tickets[s].session);
    }
  }

  /** An act is never about a session another runner holds. */
  lemma ActedOther(h: Hashes, delay: real, c: World, x: Label, s: R.Id)
    requires IsEffect(h, delay, c, x) && s in c.runs.runners && !x.l.Tick? && !x.l.Produce? && x.l.r != s
    requires Inside(c.runs.runners[s].phase)
    ensures s in c.tickets
    ensures var act := ActOf(h, c, x.l, x.session, x.reachable);
            act.Some? ==> act.value.key != c.tickets[s].key || !About(act.value.l, c.tickets[s].session)
  {
    hide SL.Inv, Acted, SuccessOk, LeasesOk, B.MayClaim, B.MaySave, B.MayDownload, R.GateOpen;
    assert HoldsTicket(c, s, c.runs.runners[s].phase);
    if x.l.r in c.runs.runners {
      assert Separate(c, x.l.r, s) && HoldsTicket(c, x.l.r, c.runs.runners[x.l.r].phase);
    }
  }

  lemma EnteringTicket(h: Hashes, delay: real, c: World, x: Label)
    requires IsEffect(h, delay, c, x) && x.l.AcquireLease? && c.runs.runners[x.l.r].phase.Protected?
    ensures HoldsTicket(Do(h, delay, c, x), x.l.r, R.Leased(c.runs.runners[x.l.r].phase.d))
  {
    hide R.Do, Inv, SL.Init;
  }

  /** What a runner that goes on inside may do to its own session: settle it, or assert it. */
  lemma GoingOnAct(h: Hashes, delay: real, c: World, x: Label)
    requires IsEffect(h, delay, c, x) && !x.l.Tick? && !x.l.Produce? && x.l.r in c.runs.runners
    requires !x.l.AcquireLease? && !x.l.Fault? && !x.l.Crash? && !x.l.LeaveLease?
    ensures var act, t := ActOf(h, c, x.l, x.session, x.reachable), TicketOf(c, x.l.r);
            || (act.None? && !x.l.AssertLease?)
            || (act == Some(LeaseAct(t.key, SL.Settle(t.session))) && !x.l.AssertLease?)
            || (act == Some(LeaseAct(t.key, SL.Assert(t.session))) && SL.Enabled(delay, LeaseOf(c, t.key), SL.Assert(t.session)))
  {
    hide Inv, R.Enabled;
  }

  lemma TicketKept(delay: real, c: World, act: Option<LeaseAct>, t: Ticket)
    requires t.key in c.leases && t.session in c.leases[t.key].sessions && c.leases[t.key].sessions[t.session].inside
    requires act.None? || act == Some(LeaseAct(t.key, SL.Settle(t.session))) || act == Some(LeaseAct(t.key, SL.Assert(t.session)))
    ensures var leases := Acted(delay, c, act);
            && t.key in leases && t.session in leases[t.key].sessions && leases[t.key].sessions[t.session].inside
            && (c.leases[t.key].sessions[t.session].assertedAt.Some? ==> leases[t.key].sessions[t.session].assertedAt.Some?)
            && (act.Some? && act.value.l.Assert? && SL.Enabled(delay, LeaseOf(c, t.key), act.value.l) ==>
                  leases[t.key].sessions[t.session].assertedAt.Some?)
  {
  }

  /** A session its own runner acts on, without leaving it. */
  lemma GoingOnTicket(h: Hashes, delay: real, c: World, x: Label, q: R.Phase)
    requires IsEffect(h, delay, c, x) && !x.l.Tick? && !x.l.Produce? && x.l.r in c.runs.runners
    requires var p := c.runs.runners[x.l.r].phase;
             Inside(p) && Inside(q) && q.d == p.d && !x.l.AcquireLease? && !x.l.Fault? && !x.l.Crash? && !x.l.LeaveLease?
             && (AfterAssert(q) ==> AfterAssert(p) || x.l.AssertLease?)
    ensures HoldsTicket(Do(h, delay, c, x), x.l.r, q)
  {
    assert HoldsTicket(c, x.l.r, c.runs.runners[x.l.r].phase);
    GoingOnAct(h, delay, c, x);
    hide R.Do, R.Enabled, Inv, ActOf, Acted, SL.Enabled;
    TicketKept(delay, c, ActOf(h, c, x.l, x.session, x.reachable), c.tickets[x.l.r]);
  }

  lemma ActorTicket(h: Hashes, delay: real, c: World, x: Label)
    requires IsEffect(h, delay, c, x) && !x.l.Tick? && !x.l.Produce? && x.l.r in c.runs.runners
    ensures HoldsTicket(Do(h, delay, c, x), x.l.r, Vmss.NextPhase(h, c.runs, x.l, x.l.r))
  {
    if Inside(Vmss.NextPhase(h, c.runs, x.l, x.l.r)) {
      InsideMoves(h, c.runs, x.l, x.l.r);
      hide Vmss.NextPhase, Do, Inv, HoldsTicket, R.Enabled, Enabled;
      if x.l.AcquireLease? { EnteringTicket(h, delay, c, x); }
      else { GoingOnTicket(h, delay, c, x, Vmss.NextPhase(h, c.runs, x.l, x.l.r)); }
    }
  }

  lemma PhaseTicket(h: Hashes, delay: real, c: World, x: Label, s: R.Id)
    requires IsEffect(h, delay, c, x) && s in Do(h, delay, c, x).runs.runners
    ensures HoldsTicket(Do(h, delay, c, x), s, Do(h, delay, c, x).runs.runners[s].phase)
  {
    RunnersAfter(h, delay, c, x, s);
    hide Do, Inv, Enabled, R.Enabled, Vmss.NextPhase;
    if s !in c.runs.runners {
      assert !Inside(R.Polling);
    } else if x.l.Tick? || x.l.Produce? {
      QuietTicket(h, delay, c, x, s);
    } else if x.l.r == s {
      hide HoldsTicket;
      ActorTicket(h, delay, c, x);
    } else {
      hide HoldsTicket;
      BystanderTicket(h, delay, c, x, s);
    }
  }

  lemma QuietTicket(h: Hashes, delay: real, c: World, x: Label, s: R.Id)
    requires IsEffect(h, delay, c, x) && s in c.runs.runners && (x.l.Tick? || x.l.Produce?)
    ensures HoldsTicket(Do(h, delay, c, x), s, c.runs.runners[s].phase)
  {
    hide R.Do, SL.Inv, SuccessOk, LeasesOk, Separate;
    assert HoldsTicket(c, s, c.runs.runners[s].phase);
  }

  /** Which phase each runner is in afterwards. */
  lemma RunnersAfter(h: Hashes, delay: real, c: World, x: Label, s: R.Id)
    requires IsEffect(h, delay, c, x) && s in Do(h, delay, c, x).runs.runners
    ensures var v := Do(h, delay, c, x).runs;
            && (s !in c.runs.runners ==> v.runners[s].phase.Polling?)
            && (s in c.runs.runners && (x.l.Tick? || x.l.Produce? || x.l.r != s) ==> v.runners[s] == c.runs.runners[s])
            && (s in c.runs.runners && !x.l.Tick? && !x.l.Produce? && x.l.r == s ==>
                  v.runners[s].phase == Vmss.NextPhase(h, c.runs, x.l, s))
  {
    if s in c.runs.runners {
      if Vmss.Concerns(x.l, s) {
        hide R.Do, R.Enabled, Inv, Acted, SL.Enabled, Vmss.NextPhase;
        if x.l.Tick? || x.l.Produce? { ClockLeavesRunners(h, c.runs, x.l); }
        else { Vmss.StepPhase(h, c.runs, x.l, s); }
      } else {
        hide R.Do, R.Enabled, Inv, Acted, SL.Enabled, Vmss.NextPhase;
        OthersStay(h, delay, c, x, s);
      }
    } else {
      hide Inv, Acted, SL.Enabled;
      OnlyStartAdds(h, c.runs, x.l, s);
    }
  }

  lemma ClockLeavesRunners(h: Hashes, w: R.World, l: R.Label)
    requires R.Enabled(h, w, l) && (l.Tick? || l.Produce?)
    ensures R.Do(h, w, l).runners == w.runners
  {
  }

  lemma OnlyStartAdds(h: Hashes, w: R.World, l: R.Label, s: R.Id)
    requires R.Enabled(h, w, l) && s in R.Do(h, w, l).runners && s !in w.runners
    ensures R.Do(h, w, l).runners[s].phase.Polling?
  {
    hide R.EventOf, R.DecodePhase, R.FaultPhase, R.AfterProtect, R.Finally, B.ReceiptNameOf, R.EnvelopeOf;
  }

  /** A session just acquired is nobody else's. */
  lemma NewSession(h: Hashes, delay: real, c: World, x: Label, s: R.Id)
    requires IsEffect(h, delay, c, x) && x.l.AcquireLease? && s in c.runs.runners && Inside(c.runs.runners[s].phase)
    ensures TicketOf(c, s) != Ticket(ActOf(h, c, x.l, x.session, x.reachable).value.key, x.session)
  {
    hide SL.Inv, LeasesOk, Separate, SuccessOk, R.Do;
    assert HoldsTicket(c, s, c.runs.runners[s].phase);
  }

  /** Whoever is inside afterwards was inside before, or is the one that entered. */
  lemma InsideBefore(h: Hashes, delay: real, c: World, x: Label, s: R.Id)
    requires IsEffect(h, delay, c, x) && s in Do(h, delay, c, x).runs.runners
    requires Inside(Do(h, delay, c, x).runs.runners[s].phase)
    ensures s in c.runs.runners && (Inside(c.runs.runners[s].phase) || (x.l.AcquireLease? && x.l.r == s))
  {
    RunnersAfter(h, delay, c, x, s);
    if s in c.runs.runners && Vmss.Concerns(x.l, s) && !x.l.Tick? && !x.l.Produce? {
      InsideMoves(h, c.runs, x.l, s);
    }
    hide Do, Inv, Vmss.NextPhase, Enabled, R.Enabled;
  }

  lemma TicketsAfter(h: Hashes, delay: real, c: World, x: Label, s: R.Id)
    requires IsEffect(h, delay, c, x)
    ensures TicketOf(Do(h, delay, c, x), s) ==
              if x.l.AcquireLease? && x.l.r == s
              then Ticket(ActOf(h, c, x.l, x.session, x.reachable).value.key, x.session) else TicketOf(c, s)
  {
    hide R.Do, R.Enabled, Inv, Acted, SL.Enabled;
  }

  lemma PairSeparate(h: Hashes, delay: real, c: World, x: Label, r: R.Id, s: R.Id)
    requires IsEffect(h, delay, c, x) && r != s
    requires r in Do(h, delay, c, x).runs.runners && s in Do(h, delay, c, x).runs.runners
    ensures Separate(Do(h, delay, c, x), r, s)
  {
    var v := Do(h, delay, c, x);
    TicketsAfter(h, delay, c, x, r);
    TicketsAfter(h, delay, c, x, s);
    if Inside(v.runs.runners[r].phase) && Inside(v.runs.runners[s].phase) {
      InsideBefore(h, delay, c, x, r);
      InsideBefore(h, delay, c, x, s);
      assert Separate(c, r, s);
      if x.l.AcquireLease? {
        if x.l.r == r { NewSession(h, delay, c, x, s); }
        if x.l.r == s { NewSession(h, delay, c, x, r); }
      }
    }
    hide Do, Inv, Enabled, R.Enabled, TicketOf, ActOf;
  }

  lemma SuccessStays(c: World, leases: map<string, SL.World>, tickets: map<R.Id, Ticket>, p: Success)
    requires SuccessOk(c, p)
    requires forall key <- c.leases.Keys, id <- c.leases[key].sessions.Keys ::
               key in leases && Remembers(c.leases[key], leases[key], id)
    ensures SuccessOk(c.(leases := leases, tickets := tickets), p)
  {
  }

  /** A success event settles the session it was published under. */
  lemma PublishSettles(h: Hashes, delay: real, c: World, x: Label)
    requires IsEffect(h, delay, c, x) && x.l.Publish?
    ensures SuccessOk(Do(h, delay, c, x), Success(TicketOf(c, x.l.r), c.runs.runners[x.l.r].phase.d))
  {
    hide R.Do, SL.Inv, LeasesOk, Separate;
    assert HoldsTicket(c, x.l.r, c.runs.runners[x.l.r].phase);
  }

  lemma EffectKeeps(h: Hashes, delay: real, c: World, x: Label)
    requires IsEffect(h, delay, c, x)
    ensures Inv(Do(h, delay, c, x))
  {
    var v, act := Do(h, delay, c, x), ActOf(h, c, x.l, x.session, x.reachable);
    assert act.Some? ==> !act.value.l.Tick?;
    ActedKeeps(delay, c, act);
    assert LeasesOk(v) by {
      hide SL.Inv, Acted;
      assert LeasesOk(c.(leases := Acted(delay, c, act)));
    }
    hide R.Do, R.Enabled, SL.Inv, LeasesOk, HoldsTicket, Separate, Acted, SuccessOk;
    forall p | p in v.published ensures SuccessOk(v, p) {
      if p in c.published {
        SuccessStays(c, Acted(delay, c, act), v.tickets, p);
        SuccessReads(c.(leases := Acted(delay, c, act), tickets := v.tickets), v, p);
      } else {
        PublishSettles(h, delay, c, x);
      }
    }
    forall s | s in v.runs.runners ensures HoldsTicket(v, s, v.runs.runners[s].phase) {
      PhaseTicket(h, delay, c, x, s);
    }
    forall r, s | r in v.runs.runners && s in v.runs.runners && r != s ensures Separate(v, r, s) {
      PairSeparate(h, delay, c, x, r, s);
    }
  }

  lemma SuccessReads(a: World, b: World, p: Success)
    requires SuccessOk(a, p) && a.leases == b.leases
    ensures SuccessOk(b, p)
  {
  }

  // ---- Renewals and time ----------------------------------------------------------------

  /** Leases change, nobody leaves and nobody enters. */
  lemma LeasesOnly(c: World, v: World)
    requires Inv(c) && LeasesOk(v) && v == c.(leases := v.leases, clock := v.clock)
    requires forall key <- c.leases.Keys, id <- c.leases[key].sessions.Keys ::
               key in v.leases && Remembers(c.leases[key], v.leases[key], id)
               && (c.leases[key].sessions[id].inside ==> v.leases[key].sessions[id].inside)
    ensures Inv(v)
  {
    hide SL.Inv, LeasesOk;
    forall p | p in v.published ensures SuccessOk(v, p) {
      assert SuccessOk(c, p);
    }
    forall s | s in v.runs.runners ensures HoldsTicket(v, s, v.runs.runners[s].phase) {
      assert HoldsTicket(c, s, c.runs.runners[s].phase);
    }
    forall r, s | r in v.runs.runners && s in v.runs.runners && r != s ensures Separate(v, r, s) {
      assert Separate(c, r, s);
    }
  }

  lemma RenewKeeps(h: Hashes, delay: real, c: World, x: Label)
    requires Inv(c) && Enabled(h, delay, c, x) && (x.Renew? || x.RenewFails?) && delay <= 40.0
    ensures Inv(Do(h, delay, c, x))
  {
    var l := if x.Renew? then SL.Renew(c.tickets[x.r].session) else SL.RenewFails(c.tickets[x.r].session);
    var act := Some(LeaseAct(c.tickets[x.r].key, l));
    ActedKeeps(delay, c, act);
    hide SL.Inv, LeasesOk, HoldsTicket, Separate, SuccessOk, Inv, SL.Enabled;
    forall key, id | key in c.leases && id in c.leases[key].sessions
      ensures c.leases[key].sessions[id].inside ==> Acted(delay, c, act)[key].sessions[id].inside {
      if key == c.tickets[x.r].key { SessionStep(delay, c.leases[key], l, id); }
    }
    LeasesOnly(c, Do(h, delay, c, x));
  }

  lemma ClockKeeps(h: Hashes, delay: real, c: World, x: Label)
    requires Inv(c) && Enabled(h, delay, c, x) && x.Clock? && delay <= 40.0
    ensures Inv(Do(h, delay, c, x))
  {
    var v := Do(h, delay, c, x);
    hide SL.Inv, HoldsTicket, Separate, SuccessOk, SL.Step, SL.Enabled;
    forall key | key in v.leases ensures SL.Inv(v.leases[key]) && v.leases[key].now == v.clock {
      LeaseStepKeeps(delay, c.leases[key], SL.Tick(x.elapsed));
    }
    forall key, id | key in c.leases && id in c.leases[key].sessions
      ensures Remembers(c.leases[key], v.leases[key], id)
      ensures c.leases[key].sessions[id].inside ==> v.leases[key].sessions[id].inside {
      SessionStep(delay, c.leases[key], SL.Tick(x.elapsed), id);
    }
    LeasesOnly(c, v);
  }

  // ---- Every run ------------------------------------------------------------------------

  lemma StepKeeps(h: Hashes, delay: real, c: World, x: Label)
    requires Inv(c) && delay <= 40.0
    ensures Inv(Step(h, delay, c, x))
  {
    hide Inv, Do, Enabled;
    if Enabled(h, delay, c, x) {
      match x
      case Effect(_, _, _) => EffectKeeps(h, delay, c, x);
      case Clock(_) => ClockKeeps(h, delay, c, x);
      case _ => RenewKeeps(h, delay, c, x);
    }
  }

  lemma {:induction false} RunKeeps(h: Hashes, delay: real, c: World, xs: seq<Label>)
    requires Inv(c) && delay <= 40.0
    ensures Inv(Run(h, delay, c, xs))
    decreases |xs|
  {
    hide Inv, Step;
    if xs != [] {
      StepKeeps(h, delay, c, xs[0]);
      RunKeeps(h, delay, Step(h, delay, c, xs[0]), xs[1..]);
    }
  }

  lemma InitHolds(now: int)
    ensures Inv(Init(now))
  {
  }

  /** Seen from the runners alone, every such run is a run of the runner protocol. */
  lemma {:induction false} RunsAreRuns(h: Hashes, delay: real, c: World, xs: seq<Label>) returns (ls: seq<R.Label>)
    ensures Run(h, delay, c, xs).runs == R.Run(h, c.runs, ls)
    decreases |xs|
  {
    if xs == [] {
      ls := [];
    } else {
      ls := RunsAreRuns(h, delay, Step(h, delay, c, xs[0]), xs[1..]);
      hide R.Do, R.Enabled, Acted, ActOf, SL.Enabled;
      if xs[0].Effect? && Enabled(h, delay, c, xs[0]) {
        assert ([xs[0].l] + ls)[1..] == ls;
        ls := [xs[0].l] + ls;
      }
    }
  }

  /** The lease session recorded for a published success. */
  ghost function SessionOf(c: World, p: Success): SL.Session
    requires SuccessOk(c, p)
  {
    c.leases[p.ticket.key].sessions[p.ticket.session]
  }

  /**
   In every run whose renewals are at most 40 s late: two executions on one state key that overlapped
   in time never both published success. A receipt is only written after that, so they never both
   wrote one either.
   */
  lemma OverlappingNotBothPublished(h: Hashes, delay: real, now: int, xs: seq<Label>, p: Success, q: Success)
    requires delay <= 40.0
    requires p in Run(h, delay, Init(now), xs).published && q in Run(h, delay, Init(now), xs).published
    requires p.d.env.claims.stateKey == q.d.env.claims.stateKey && p.ticket != q.ticket
    ensures var c := Run(h, delay, Init(now), xs);
            SuccessOk(c, p) && SuccessOk(c, q) && !SL.Overlap(SessionOf(c, p), SessionOf(c, q))
  {
    InitHolds(now);
    RunKeeps(h, delay, Init(now), xs);
    hide Run, HoldsTicket, Separate, SL.Inv, SL.Overlap;
    var c := Run(h, delay, Init(now), xs);
    assert SuccessOk(c, p) && SuccessOk(c, q);
    SL.InvExcludes(c.leases[p.ticket.key]);
  }
}
