/** Which outcome events a job can have on record, over every run. */
module RunnerEvents {
  import opened Wrappers
  import opened Text
  import opened Contracts
  import opened BlobStore
  import opened RunnerProtocol
  import opened RunnerInvariant
  import opened RunnerTheorems
  import opened RunnerDelivery
  import Gate = ExecutionGate

  /** This step publishes an outcome of job `e`: a success after the work, or a failure from a handler. */
  ghost predicate Publishes(h: Hashes, v: World, l: Label, e: Envelope, success: bool) {
    if success then l.Publish? && Enabled(h, v, l) && v.runners[l.r].phase.d.env == e
    else l.Handle? && Enabled(h, v, l) && l.published
         && v.runners[l.r].phase.env == Some(e) && !v.runners[l.r].phase.failure.Other?
  }

  ghost predicate Published(h: Hashes, w: World, ls: seq<Label>, e: Envelope, success: bool) {
    exists i :: 0 <= i < |ls| && Publishes(h, Run(h, w, ls[..i]), ls[i], e, success)
  }

  /** Events come from these two kinds of step only. */
  lemma EventSource(h: Hashes, v: World, l: Label, x: Event)
    requires Enabled(h, v, l) && x in Do(h, v, l).events && x !in v.events
    ensures l.Publish? || l.Handle?
    ensures l.Publish? ==> x == EventOf(h, v.runners[l.r].phase.d.env, true)
    ensures l.Handle? ==> l.published && v.runners[l.r].phase.env.Some? && !v.runners[l.r].phase.failure.Other?
                          && x == EventOf(h, v.runners[l.r].phase.env.value, false)
  {
    hide DecodePhase, FaultPhase, EnvelopeOf, EventOf, GateOpen, MayDownload, MayClaim, MaySave, ReceiptNameOf, AfterProtect,
      Finally, Working, Gate.Accepts, ScopeOf;
  }

  lemma PublishesEvent(h: Hashes, v: World, l: Label, e: Envelope, success: bool)
    requires Publishes(h, v, l, e, success)
    ensures EventOf(h, e, success) in Step(h, v, l).events
  {
    hide EventOf, Finally;
  }

  /** Two validated jobs with one event are one job with one outcome. */
  lemma EventNamesJob(h: Hashes, d: Envelope, e: Envelope, x: bool, y: bool)
    requires CollisionFree(h) && Valid(h, d) && Valid(h, e) && EventOf(h, d, x) == EventOf(h, e, y)
    ensures d == e && x == y
  {
    hide Valid, CollisionFree;
    assert d.jobDigest == e.jobDigest;
    SameDigestSameEnvelope(h, d, e);
  }

  lemma NewEventIsPublished(h: Hashes, v: World, l: Label, e: Envelope, success: bool)
    requires CollisionFree(h) && Inv(h, v) && Valid(h, e)
    requires EventOf(h, e, success) in Step(h, v, l).events && EventOf(h, e, success) !in v.events
    ensures Publishes(h, v, l, e, success)
  {
    hide Valid, CollisionFree, Inv, Do, EventOf, EnvelopeOf, Decodes, Gate.Accepts, GateOpen, PlanBytes, ClaimHeld, ReceiptNameOf;
    EventSource(h, v, l, EventOf(h, e, success));
    RunnerParts(h, v, l.r);
    if l.Publish? {
      EventNamesJob(h, v.runners[l.r].phase.d.env, e, true, success);
    } else {
      EventNamesJob(h, v.runners[l.r].phase.env.value, e, false, success);
    }
  }

  /** In every run, an outcome event of a job is on record exactly when some step published it for a
      delivery of that job. */
  lemma {:induction false} EventsExactly(h: Hashes, now: int, ls: seq<Label>, e: Envelope, success: bool)
    requires CollisionFree(h) && Valid(h, e)
    ensures EventOf(h, e, success) in Run(h, Init(now), ls).events <==> Published(h, Init(now), ls, e, success)
    decreases |ls|
  {
    hide CollisionFree, Valid, EventOf, Publishes, Step, Inv, Grows;
    if ls == [] {
      NoEventsYet(h, now);
    } else {
      var k := |ls| - 1;
      var front, v := ls[..k], Run(h, Init(now), ls[..k]);
      assert ls == front + [ls[k]];
      RunSnoc(h, Init(now), front, ls[k]);
      EventsExactly(h, now, front, e, success);
      ReachableInv(h, now, front);
      EventsStay(h, v, ls[k]);
      hide Run;
      assert forall i :: 0 <= i < k ==> front[..i] == ls[..i] && front[i] == ls[i];
      if EventOf(h, e, success) in Step(h, v, ls[k]).events && EventOf(h, e, success) !in v.events {
        NewEventIsPublished(h, v, ls[k], e, success);
      }
      if Publishes(h, v, ls[k], e, success) {
        PublishesEvent(h, v, ls[k], e, success);
      }
    }
  }

  lemma NoEventsYet(h: Hashes, now: int)
    ensures Run(h, Init(now), []).events == {}
  {
  }

  lemma EventsStay(h: Hashes, v: World, l: Label)
    ensures v.events <= Step(h, v, l).events
  {
    hide Do, Enabled;
    if Enabled(h, v, l) {
      StepGrows(h, v, l);
    }
  }

  /** A job has both a success and a failure on record exactly when some delivery of it was published
      and some handler published a failure for a delivery of it. */
  lemma BothOutcomesExactly(h: Hashes, now: int, ls: seq<Label>, e: Envelope)
    requires CollisionFree(h) && Valid(h, e)
    ensures EventOf(h, e, true) in Run(h, Init(now), ls).events && EventOf(h, e, false) in Run(h, Init(now), ls).events
       <==> Published(h, Init(now), ls, e, true) && Published(h, Init(now), ls, e, false)
  {
    hide CollisionFree, Valid, EventOf, Published, Run;
    EventsExactly(h, now, ls, e, true);
    EventsExactly(h, now, ls, e, false);
  }

  // ---- The routes to both ---------------------------------------------------------------

  /** First route: anything that fails after the success was published, leaving the lease included. */
  lemma FailureAfterPublish(h: Hashes, w: World, r: Id, failure: Failure)
    requires Reachable(h, w) && r in w.runners && !failure.Other?
    requires w.runners[r].phase.Published? || w.runners[r].phase.Receipted? || w.runners[r].phase.Settled?
    ensures var e := w.runners[r].phase.d.env;
            var v := Step(h, Step(h, w, Fault(r, failure)), Handle(r, true, true, false));
            EventOf(h, e, true) in v.events && EventOf(h, e, false) in v.events
  {
    SuccessIsOut(h, w, r);
    hide Reachable, EventOf;
    var d := w.runners[r].phase.d;
    var v := Step(h, w, Fault(r, failure));
    assert v.runners[r].phase == Failing(d.msg, Some(d.env), failure, true) && v.events == w.events;
  }

  lemma SuccessIsOut(h: Hashes, w: World, r: Id)
    requires Reachable(h, w) && r in w.runners
    requires w.runners[r].phase.Published? || w.runners[r].phase.Receipted? || w.runners[r].phase.Settled?
    ensures EventOf(h, w.runners[r].phase.d.env, true) in w.events
  {
    hide Reachable, EventOf, Valid, GateOpen, ClaimHeld, PlanBytes, ReceiptNameOf, Gate.Accepts, Decodes, EnvelopeOf;
    ReachableIsInv(h, w);
    RunnerParts(h, w, r);
  }

  lemma FaultIsPublished(h: Hashes, v: World, s: Id, d: Delivery, failure: Failure)
    requires s in v.runners && v.runners[s].phase == Leased(d) && !failure.Other?
    ensures var x := Step(h, Step(h, v, Fault(s, failure)), Handle(s, true, true, false));
            v.events <= x.events && EventOf(h, d.env, false) in x.events
  {
    hide EventOf;
    var u := Step(h, v, Fault(s, failure));
    assert u.runners[s].phase == Failing(d.msg, Some(d.env), failure, true) && u.events == v.events;
  }

  /** Second route: a crash between event and receipt, then a redelivery that fails. The guards are those
      of any delivery: the message is pending, without a receipt, and decodes now. */
  lemma FailureOnRedelivery(h: Hashes, w: World, s: Id, m: Id, failure: Failure)
    requires m in w.messages && s in w.runners && w.runners[s].phase.Polling? && !failure.Other?
    requires Deliverable(h, w, m) && EventOf(h, EnvelopeOf(w.messages[m].payload), true) in w.events
    ensures var e := EnvelopeOf(w.messages[m].payload);
            var v := Run(h, w, Delivering(s, m)[..5] + [Fault(s, failure)] + [Handle(s, true, true, false)]);
            EventOf(h, e, true) in v.events && EventOf(h, e, false) in v.events
  {
    hide Deliverable, EventOf, EnvelopeOf, Delivering, Step, Run;
    Arrives(h, w, s, m);
    var front := Delivering(s, m)[..5];
    FaultIsPublished(h, Run(h, w, front), s, Delivery(m, EnvelopeOf(w.messages[m].payload), false), failure);
    RunSnoc(h, w, front, Fault(s, failure));
    RunSnoc(h, w, front + [Fault(s, failure)], Handle(s, true, true, false));
  }
}
