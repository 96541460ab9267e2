/** Which pending messages a delivery can still execute, and why apply is not exactly-once. */
module RunnerDelivery {
  import opened Wrappers
  import opened Text
  import opened Contracts
  import opened BlobStore
  import opened RunnerProtocol
  import opened RunnerInvariant
  import opened RunnerTheorems
  import Vmss = VmssRunner
  import Gate = ExecutionGate

  predicate TickFree(ls: seq<Label>) {
    forall l <- ls :: !l.Tick?
  }

  /** Runner `r` enters the executor with a delivery of message `m` somewhere in this continuation. */
  ghost predicate Executes(h: Hashes, w: World, ls: seq<Label>, r: Id, m: Id) {
    exists i :: 0 <= i < |ls| && EntersExecutor(h, Run(h, w, ls[..i]), ls[i], r, m)
  }

  ghost predicate EntersExecutor(h: Hashes, v: World, l: Label, r: Id, m: Id) {
    l.Admit? && l.r == r && Enabled(h, v, l) && v.runners[r].phase.d.msg == m
  }

  /** What a caller can check before the delivery: the message is pending and without a receipt, it
      decodes now for the queue it came from, and an apply is not claimed by another job. */
  predicate Deliverable(h: Hashes, w: World, m: Id)
    requires m in w.messages
  {
    var e := EnvelopeOf(w.messages[m].payload);
    && w.messages[m].state == Pending && ReceiptNameOf(e) !in w.blobs
    && Decodes(h, w.now, w.messages[m], e)
    && (e.claims.operation == "apply" ==> MayClaim(w.blobs, e))
  }

  // ---- Only then ------------------------------------------------------------------------

  /** What a runner that was polling at `w` and now works on `m` says about `w`. */
  ghost predicate Traces(h: Hashes, w: World, p: Phase, m: Id)
    requires m in w.messages
  {
    && (p.Received? && p.msg == m ==> w.messages[m].state == Pending)
    && (Working(p) && p.d.msg == m ==>
          && w.messages[m].state == Pending && Decodes(h, w.now, w.messages[m], p.d.env)
          && (!p.Decoded? ==> ReceiptNameOf(p.d.env) !in w.blobs))
  }

  ghost predicate Follows(h: Hashes, w: World, v: World, r: Id, m: Id)
    requires m in w.messages
  {
    && Grows(w, v) && v.now == w.now
    && (v.messages[m].state == Pending ==> w.messages[m].state == Pending)
    && r in v.runners && Traces(h, w, v.runners[r].phase, m)
  }

  /** A message never becomes pending again. */
  lemma PendingStep(h: Hashes, v: World, l: Label, m: Id)
    requires Enabled(h, v, l) && m in v.messages
    ensures m in Do(h, v, l).messages
    ensures Do(h, v, l).messages[m].state == Pending ==> v.messages[m].state == Pending
  {
    hide DecodePhase, FaultPhase, EnvelopeOf, EventOf, GateOpen, MayDownload, MayClaim, MaySave, ReceiptNameOf, AfterProtect,
      Finally, Working, Gate.Accepts, ScopeOf;
  }

  /** A step of another runner, or of a producer, leaves this one where it is. */
  lemma OthersStay(h: Hashes, v: World, l: Label, r: Id)
    requires Enabled(h, v, l) && r in v.runners && !Vmss.Concerns(l, r)
    ensures r in Do(h, v, l).runners && Do(h, v, l).runners[r] == v.runners[r]
  {
    hide DecodePhase, FaultPhase, EnvelopeOf, EventOf, GateOpen, MayDownload, MayClaim, MaySave, ReceiptNameOf, AfterProtect,
      Finally, Working, Gate.Accepts, ScopeOf;
  }

  lemma TracesEntry(h: Hashes, w: World, v: World, l: Label, r: Id, m: Id)
    requires m in w.messages && Follows(h, w, v, r, m) && Enabled(h, v, l) && Vmss.Concerns(l, r)
    requires l.Receive? || l.Decode? || l.CheckReceipt?
    ensures Traces(h, w, Vmss.NextPhase(h, v, l, r), m)
  {
    hide EventOf, ReceiptNameOf, EnvelopeOf, Canonical, Acceptable, Do;
  }

  lemma TracesRest(h: Hashes, w: World, v: World, l: Label, r: Id, m: Id)
    requires m in w.messages && Follows(h, w, v, r, m) && Enabled(h, v, l) && !l.Tick? && Vmss.Concerns(l, r)
    requires !l.Receive? && !l.Decode? && !l.CheckReceipt?
    ensures Traces(h, w, Vmss.NextPhase(h, v, l, r), m)
  {
    hide EventOf, ReceiptNameOf, EnvelopeOf, GateOpen, MayDownload, MaySave, MayClaim, Gate.Accepts, ScopeOf, Do, Decodes,
      DecodePhase, Grows, FromMapping;
  }

  lemma FollowsStep(h: Hashes, w: World, v: World, l: Label, r: Id, m: Id)
    requires m in w.messages && Follows(h, w, v, r, m) && !l.Tick?
    ensures Follows(h, w, Step(h, v, l), r, m)
  {
    if Enabled(h, v, l) {
      PendingStep(h, v, l, m);
      StepGrows(h, v, l);
      assert Do(h, v, l).now == v.now by { SameClock(h, v, l); }
      if Vmss.Concerns(l, r) {
        if l.Receive? || l.Decode? || l.CheckReceipt? { TracesEntry(h, w, v, l, r, m); } else { TracesRest(h, w, v, l, r, m); }
        Vmss.StepPhase(h, v, l, r);
      } else {
        OthersStay(h, v, l, r);
      }
      hide Do, Enabled, Grows, Traces, Vmss.NextPhase, Vmss.Concerns;
      GrowsTransitive(w, v, Do(h, v, l));
    }
  }

  lemma SameClock(h: Hashes, v: World, l: Label)
    requires Enabled(h, v, l) && !l.Tick?
    ensures Do(h, v, l).now == v.now
  {
    hide DecodePhase, FaultPhase, EnvelopeOf, EventOf, GateOpen, MayDownload, MayClaim, MaySave, ReceiptNameOf, AfterProtect,
      Finally, Working, Gate.Accepts, ScopeOf;
  }

  lemma {:induction false} FollowsRun(h: Hashes, w: World, ls: seq<Label>, r: Id, m: Id)
    requires m in w.messages && r in w.runners && w.runners[r].phase.Polling? && TickFree(ls)
    ensures Follows(h, w, Run(h, w, ls), r, m)
    decreases |ls|
  {
    hide Step;
    if ls == [] {
      GrowsRefl(w);
    } else {
      var k := |ls| - 1;
      assert TickFree(ls[..k]) && !ls[k].Tick? && ls == ls[..k] + [ls[k]];
      FollowsRun(h, w, ls[..k], r, m);
      RunSnoc(h, w, ls[..k], ls[k]);
      FollowsStep(h, w, Run(h, w, ls[..k]), ls[k], r, m);
    }
  }

  lemma ExecutesOnlyIf(h: Hashes, w: World, ls: seq<Label>, r: Id, m: Id)
    requires m in w.messages && r in w.runners && w.runners[r].phase.Polling? && TickFree(ls)
    requires Executes(h, w, ls, r, m)
    ensures Deliverable(h, w, m)
  {
    hide Run, Step, Decodes, ReceiptNameOf, EnvelopeOf, MayClaim;
    var i :| 0 <= i < |ls| && EntersExecutor(h, Run(h, w, ls[..i]), ls[i], r, m);
    assert TickFree(ls[..i]);
    FollowsRun(h, w, ls[..i], r, m);
    var v := Run(h, w, ls[..i]);
    var d := v.runners[r].phase.d;
    DecodedEnvelope(h, w.now, w.messages[m], d.env);
    if d.env.claims.operation == "apply" {
      ClaimWasOpen(h, w, v, d.env);
    }
  }

  // ---- A receipt bars every later delivery ----------------------------------------------

  /** A runner holding this message has not got past the receipt check. */
  ghost predicate Waits(w: World, p: Phase, m: Id)
    requires m in w.messages
  {
    Working(p) && p.d.msg == m ==> p.Decoded? && p.d.env == EnvelopeOf(w.messages[m].payload)
  }

  lemma WaitsEntry(h: Hashes, w: World, v: World, l: Label, r: Id, m: Id)
    requires m in w.messages && Grows(w, v) && Enabled(h, v, l) && Vmss.Concerns(l, r)
    requires r in v.runners && Waits(w, v.runners[r].phase, m) && ReceiptNameOf(EnvelopeOf(w.messages[m].payload)) in w.blobs
    requires l.Receive? || l.Decode? || l.CheckReceipt?
    ensures Waits(w, Vmss.NextPhase(h, v, l, r), m)
  {
    hide EventOf, ReceiptNameOf, Canonical, Acceptable, SectionsMatch, Do;
  }

  lemma WaitsRest(h: Hashes, w: World, v: World, l: Label, r: Id, m: Id)
    requires m in w.messages && Enabled(h, v, l) && Vmss.Concerns(l, r)
    requires r in v.runners && Waits(w, v.runners[r].phase, m)
    requires !l.Receive? && !l.Decode? && !l.CheckReceipt?
    ensures Waits(w, Vmss.NextPhase(h, v, l, r), m)
  {
    hide EventOf, ReceiptNameOf, EnvelopeOf, GateOpen, MayDownload, MaySave, MayClaim, Gate.Accepts, ScopeOf, Do, DecodePhase;
  }

  lemma {:induction false} WaitsRun(h: Hashes, w: World, ls: seq<Label>, r: Id, m: Id)
    requires m in w.messages && r in w.runners && w.runners[r].phase.Polling?
    requires ReceiptNameOf(EnvelopeOf(w.messages[m].payload)) in w.blobs
    ensures var v := Run(h, w, ls); Grows(w, v) && r in v.runners && Waits(w, v.runners[r].phase, m)
    decreases |ls|
  {
    hide Do, Enabled, Grows, Vmss.NextPhase, Vmss.Concerns, EnvelopeOf, ReceiptNameOf;
    if ls == [] {
      GrowsRefl(w);
    } else {
      var k := |ls| - 1;
      assert ls == ls[..k] + [ls[k]];
      WaitsRun(h, w, ls[..k], r, m);
      RunSnoc(h, w, ls[..k], ls[k]);
      var v, l := Run(h, w, ls[..k]), ls[k];
      hide Run, Waits;
      if Enabled(h, v, l) {
        StepGrows(h, v, l);
        if Vmss.Concerns(l, r) {
          if l.Receive? || l.Decode? || l.CheckReceipt? { WaitsEntry(h, w, v, l, r, m); } else { WaitsRest(h, w, v, l, r, m); }
          Vmss.StepPhase(h, v, l, r);
        } else {
          OthersStay(h, v, l, r);
        }
        GrowsTransitive(w, v, Do(h, v, l));
      }
    }
  }

  /** Once a message's job has its receipt, a runner that is polling never executes the message again,
      however the run goes on and however far the clock moves. */
  lemma ReceiptBarsDelivery(h: Hashes, w: World, ls: seq<Label>, r: Id, m: Id)
    requires m in w.messages && r in w.runners && w.runners[r].phase.Polling?
    requires ReceiptNameOf(EnvelopeOf(w.messages[m].payload)) in w.blobs
    ensures !Executes(h, w, ls, r, m)
  {
    hide Run, EnvelopeOf, ReceiptNameOf, MayClaim;
    forall i | 0 <= i < |ls| ensures !EntersExecutor(h, Run(h, w, ls[..i]), ls[i], r, m) {
      WaitsRun(h, w, ls[..i], r, m);
    }
  }

  lemma DecodedEnvelope(h: Hashes, now: int, m: Message, e: Envelope)
    requires Decodes(h, now, m, e)
    ensures e == EnvelopeOf(m.payload)
  {
  }

  lemma ClaimWasOpen(h: Hashes, w: World, v: World, e: Envelope)
    requires Grows(w, v) && MayClaim(v.blobs, e)
    ensures MayClaim(w.blobs, e)
  {
    hide ClaimNameOf, ClaimOf;
  }

  // ---- And then indeed ------------------------------------------------------------------

  /** The way of one delivery to the executor. */
  function Delivering(r: Id, m: Id): (ls: seq<Label>)
    ensures |ls| == 6
  {
    [Receive(r, m), Decode(r), CheckReceipt(r), Protect(r, Done), AcquireLease(r), Admit(r, "")]
  }

  /** Its first five steps stand before the executor. */
  lemma Arrives(h: Hashes, w: World, r: Id, m: Id)
    requires m in w.messages && r in w.runners && w.runners[r].phase.Polling? && Deliverable(h, w, m)
    ensures var v := Run(h, w, Delivering(r, m)[..5]); var d := Delivery(m, EnvelopeOf(w.messages[m].payload), false);
            && v.runners == w.runners[r := Runner(Leased(d), true, false)]
            && v == w.(runners := v.runners)
  {
    hide ReceiptNameOf, EnvelopeOf, MayClaim, Run, FromMapping;
    var ls := Delivering(r, m);
    var d := Delivery(m, EnvelopeOf(w.messages[m].payload), false);
    var w1 := Step(h, w, ls[0]);
    assert w1.runners[r].phase == Received(m, false);
    var w2 := Step(h, w1, ls[1]);
    assert w2.runners[r].phase == Decoded(d);
    var w3 := Step(h, w2, ls[2]);
    assert w3.runners[r].phase == Unprotected(d);
    var w4 := Step(h, w3, ls[3]);
    var w5 := Step(h, w4, ls[4]);
    hide Step;
    assert ls[..1] == [] + [ls[0]] && ls[..2] == ls[..1] + [ls[1]] && ls[..3] == ls[..2] + [ls[2]]
      && ls[..4] == ls[..3] + [ls[3]] && ls[..5] == ls[..4] + [ls[4]];
    RunNothing(h, w);
    RunSnoc(h, w, [], ls[0]);
    RunSnoc(h, w, ls[..1], ls[1]);
    RunSnoc(h, w, ls[..2], ls[2]);
    RunSnoc(h, w, ls[..3], ls[3]);
    RunSnoc(h, w, ls[..4], ls[4]);
    assert Run(h, w, ls[..5]) == w5;
  }

  lemma RunNothing(h: Hashes, w: World)
    ensures Run(h, w, []) == w
  {
  }

  /** A message delivered now is executed by some continuation at this moment if and only if it is
      pending without a receipt, decodes now for its queue, and is not claimed by another job. */
  lemma ExecutableExactly(h: Hashes, w: World, r: Id, m: Id)
    requires m in w.messages && r in w.runners && w.runners[r].phase.Polling?
    ensures (exists ls: seq<Label> :: TickFree(ls) && Executes(h, w, ls, r, m)) <==> Deliverable(h, w, m)
  {
    hide Run, Deliverable, Executes, TickFree;
    if Deliverable(h, w, m) {
      ExecutesIf(h, w, r, m);
    }
    forall ls: seq<Label> | TickFree(ls) && Executes(h, w, ls, r, m) ensures Deliverable(h, w, m) {
      ExecutesOnlyIf(h, w, ls, r, m);
    }
  }

  lemma ExecutesIf(h: Hashes, w: World, r: Id, m: Id)
    requires m in w.messages && r in w.runners && w.runners[r].phase.Polling? && Deliverable(h, w, m)
    ensures TickFree(Delivering(r, m)) && Executes(h, w, Delivering(r, m), r, m)
  {
    Arrives(h, w, r, m);
    hide Run, ReceiptNameOf, EnvelopeOf, MayClaim, Decodes;
    var ls := Delivering(r, m);
    assert ls[5].Admit?;
    assert EntersExecutor(h, Run(h, w, ls[..5]), ls[5], r, m);
  }

  // ---- Apply is not exactly-once --------------------------------------------------------

  lemma {:induction false} RunJoin(h: Hashes, w: World, a: seq<Label>, b: seq<Label>)
    ensures Run(h, w, a + b) == Run(h, Run(h, w, a), b)
    decreases |b|
  {
    hide Step;
    if b == [] {
      assert a + b == a;
    } else {
      var k := |b| - 1;
      RunJoin(h, w, a, b[..k]);
      assert a + b == (a + b[..k]) + [b[k]] && b == b[..k] + [b[k]];
      RunSnoc(h, w, a + b[..k], b[k]);
      RunSnoc(h, Run(h, w, a), b[..k], b[k]);
    }
  }

  /** The gate would still open for this approval at time `t`. */
  predicate StillLive(e: Envelope, t: int)
    requires IsApply(e)
  {
    t - e.claims.approval.value.approvedAt <= DAY && t < e.claims.approval.value.expiresAt
  }

  /** What the first execution left behind: the apply happened, but neither receipt nor settlement did. */
  ghost predicate AppliedUnsettled(w: World, r: Id, d: Delivery, a: Application)
  {
    && r in w.runners && w.runners[r].phase == Executed(d)
    && a in w.applied && a.env == d.env
    && d.msg in w.messages && w.messages[d.msg].state == Pending && ReceiptNameOf(d.env) !in w.blobs
  }

  /** It is what every first `terraform apply` of a message leaves behind. */
  lemma ApplyLeavesUnsettled(h: Hashes, w: World, r: Id, d: Delivery)
    requires r in w.runners && w.runners[r].phase.Gated? && w.runners[r].phase.d == d
    requires d.msg in w.messages && w.messages[d.msg].state == Pending && ReceiptNameOf(d.env) !in w.blobs
    ensures Enabled(h, w, Label.Apply(r))
    ensures var p := w.runners[r].phase;
            AppliedUnsettled(Step(h, w, Label.Apply(r)), r, d, Application(d.env, p.bytes, p.at))
  {
    hide ReceiptNameOf;
  }

  lemma UnsettledParts(h: Hashes, w: World, r: Id, d: Delivery, a: Application)
    requires Reachable(h, w) && AppliedUnsettled(w, r, d, a)
    ensures IsApply(d.env) && Valid(h, d.env) && d.env == EnvelopeOf(w.messages[d.msg].payload)
    ensures Deliverable(h, w, d.msg)
    ensures PlanBytes(h, w, d.env, a.bytes) && GateOpen(d.env, h.file(a.bytes), a.gatedAt)
    ensures forall b <- w.applied :: b.gatedAt <= w.now
  {
    hide Reachable, Decodes, EnvelopeOf, ReceiptNameOf, ClaimNameOf, ClaimOf, EventOf, Gate.Accepts;
    ReachableIsInv(h, w);
    assert AppliedOk(h, w, a) by { hide Valid, GateOpen; }
    RunnerParts(h, w, r);
    assert WorkOk(h, w, Executed(d), d) by { hide Valid, ClaimHeld; }
    hide Valid;
    forall b | b in w.applied ensures b.gatedAt <= w.now {
      assert AppliedOk(h, w, b);
    }
  }

  lemma DownloadsAgain(h: Hashes, w: World, v: World, e: Envelope, bytes: Bytes)
    requires PlanBytes(h, w, e, bytes) && Grows(w, v)
    ensures MayDownload(h, v.blobs, e.claims.savedPlan.value)
    ensures v.blobs[e.claims.savedPlan.value.blobName].content.bytes == bytes
  {
    hide IsSha256;
  }

  lemma CrashedWorld(h: Hashes, w: World, r: Id)
    requires r in w.runners
    ensures Run(h, w, [Crash(r)]) == w.(runners := w.runners[r := w.runners[r].(phase := Stopped)])
  {
    assert [Crash(r)][1..] == [];
  }

  /** Entering the executor once more, from where the delivery stands before it. */
  lemma AdmittedAgain(h: Hashes, v: World, s: Id, d: Delivery)
    requires s in v.runners && v.runners[s] == Runner(Leased(d), true, false) && IsApply(d.env) && MayClaim(v.blobs, d.env)
    ensures Enabled(h, v, Admit(s, ""))
    ensures var u := Step(h, v, Admit(s, ""));
            && u.runners == v.runners[s := Runner(Admitted(d), true, false)] && u.now == v.now
            && Grows(v, u) && u.applied == v.applied && u.messages == v.messages
            && (ReceiptNameOf(d.env) !in v.blobs ==> ReceiptNameOf(d.env) !in u.blobs)
  {
    NamespacesDisjoint("", d.env.claims.tenantId, d.env.claims.workflowId, d.env.jobDigest, d.env.claims.approval.value.approvalId);
    hide MayClaim, ReceiptBlob, ClaimBlob, ClaimOf;
    StepGrows(h, v, Admit(s, ""));
  }

  /** Download, gate and apply after the clock moved on, with the approval still live. */
  lemma AppliesNow(h: Hashes, v: World, s: Id, d: Delivery, bytes: Bytes, elapsed: nat)
    requires s in v.runners && v.runners[s] == Runner(Admitted(d), true, false) && IsApply(d.env)
    requires MayDownload(h, v.blobs, d.env.claims.savedPlan.value)
    requires v.blobs[d.env.claims.savedPlan.value.blobName].content.bytes == bytes
    requires GateOpen(d.env, h.file(bytes), v.now + elapsed)
    ensures var ls := [Label.Download(s), Tick(elapsed), PassGate(s), Label.Apply(s)];
            && Run(h, v, ls).applied == v.applied + {Application(d.env, bytes, v.now + elapsed)}
            && Run(h, v, ls).runners == v.runners[s := Runner(Executed(d), true, false)]
            && Run(h, v, ls).messages == v.messages && Run(h, v, ls).blobs == v.blobs
            && Run(h, v, ls).now == v.now + elapsed
  {
    hide MayDownload, GateOpen, IsApply;
    var ls := [Label.Download(s), Tick(elapsed), PassGate(s), Label.Apply(s)];
    RunFour(h, v, ls[0], ls[1], ls[2], ls[3]);
    var v1 := Step(h, v, ls[0]);
    assert v1.runners[s].phase == Downloaded(d, bytes);
    var v2 := Step(h, v1, ls[1]);
    var v3 := Step(h, v2, ls[2]);
    assert v3.runners[s].phase == Gated(d, bytes, v.now + elapsed);
    var v4 := Step(h, v3, ls[3]);
    hide Step, Run;
    assert v4.applied == v.applied + {Application(d.env, bytes, v.now + elapsed)};
    assert v4.runners == v.runners[s := Runner(Executed(d), true, false)];
  }

  /** A delivery from start to apply. */
  function Applying(s: Id, m: Id, elapsed: nat): seq<Label> {
    Delivering(s, m) + [Label.Download(s), Tick(elapsed), PassGate(s), Label.Apply(s)]
  }

  lemma DeliveryApplies(h: Hashes, w: World, s: Id, m: Id, e: Envelope, bytes: Bytes, elapsed: nat)
    requires m in w.messages && s in w.runners && w.runners[s].phase.Polling? && Deliverable(h, w, m)
    requires e == EnvelopeOf(w.messages[m].payload) && IsApply(e) && PlanBytes(h, w, e, bytes)
    requires GateOpen(e, h.file(bytes), w.now + elapsed)
    ensures var v := Run(h, w, Applying(s, m, elapsed));
            && v.applied == w.applied + {Application(e, bytes, w.now + elapsed)}
            && v.runners == w.runners[s := Runner(Executed(Delivery(m, e, false)), true, false)]
            && v.messages == w.messages && ReceiptNameOf(e) !in v.blobs && v.now == w.now + elapsed
  {
    hide Run, EnvelopeOf, ReceiptNameOf, Decodes, MayClaim, MayDownload, Step, Delivering, PlanBytes, GateOpen;
    Arrives(h, w, s, m);
    var again := Delivery(m, e, false);
    var v := Run(h, w, Delivering(s, m)[..5]);
    AdmittedAgain(h, v, s, again);
    DeliveringSplit(h, w, s, m);
    var u := Run(h, w, Delivering(s, m));
    DownloadsAgain(h, w, u, e, bytes);
    AppliesNow(h, u, s, again, bytes, elapsed);
    RunJoin(h, w, Delivering(s, m), [Label.Download(s), Tick(elapsed), PassGate(s), Label.Apply(s)]);
  }

  /**
   Apply is not exactly-once. From any reachable state in which a job's plan was applied and its receipt
   is not yet written, a crash and a redelivery apply the same bytes for the same job a second time, as
   long as the approval is live when the gate is passed again.
   */
  lemma ApplyRunsAgain(h: Hashes, w: World, r: Id, s: Id, d: Delivery, a: Application, elapsed: nat)
    requires Reachable(h, w) && AppliedUnsettled(w, r, d, a)
    requires s in w.runners && s != r && w.runners[s].phase.Polling? && 0 < elapsed
    requires IsApply(d.env) && StillLive(d.env, w.now + elapsed)
    ensures var v := Run(h, w, [Crash(r)] + Applying(s, d.msg, elapsed));
            && a in w.applied && Application(d.env, a.bytes, w.now + elapsed) !in w.applied
            && v.applied == w.applied + {Application(d.env, a.bytes, w.now + elapsed)}
  {
    UnsettledParts(h, w, r, d, a);
    CrashedWorld(h, w, r);
    hide Run, Reachable, EnvelopeOf, ReceiptNameOf, Decodes, MayClaim, Valid, Applying;
    var w1 := Run(h, w, [Crash(r)]);
    GateLater(d.env, h.file(a.bytes), a.gatedAt, w.now + elapsed);
    hide GateOpen;
    DeliveryApplies(h, w1, s, d.msg, d.env, a.bytes, elapsed);
    RunJoin(h, w, [Crash(r)], Applying(s, d.msg, elapsed));
  }

  /**
   It does happen: wherever one apply can be delivered while its approval is live, some continuation
   applies its plan twice, by two runners, with no message sent in between.
   */
  lemma TwoApplications(h: Hashes, w: World, r: Id, s: Id, m: Id, e: Envelope, bytes: Bytes)
    requires Reachable(h, w) && r != s && r in w.runners && s in w.runners
    requires w.runners[r].phase.Polling? && w.runners[s].phase.Polling?
    requires m in w.messages && Deliverable(h, w, m) && e == EnvelopeOf(w.messages[m].payload) && IsApply(e)
    requires PlanBytes(h, w, e, bytes) && GateOpen(e, h.file(bytes), w.now) && StillLive(e, w.now + 1)
    ensures var v := Run(h, w, Applying(r, m, 0) + ([Crash(r)] + Applying(s, m, 1)));
            && Application(e, bytes, w.now) in v.applied && Application(e, bytes, w.now + 1) in v.applied
  {
    hide Run, Reachable, EnvelopeOf, ReceiptNameOf, Decodes, MayClaim, Applying, PlanBytes, GateOpen;
    var v := Run(h, w, Applying(r, m, 0));
    assert GateOpen(e, h.file(bytes), w.now + 0);
    DeliveryApplies(h, w, r, m, e, bytes, 0);
    ReachableOn(h, w, Applying(r, m, 0));
    ApplyRunsAgain(h, v, r, s, Delivery(m, e, false), Application(e, bytes, w.now), 1);
    RunJoin(h, w, Applying(r, m, 0), [Crash(r)] + Applying(s, m, 1));
  }

  lemma ReachableOn(h: Hashes, w: World, ls: seq<Label>)
    requires Reachable(h, w)
    ensures Reachable(h, Run(h, w, ls))
  {
    hide Run, Init;
    var now: int, before: seq<Label> :| w == Run(h, Init(now), before);
    RunJoin(h, Init(now), before, ls);
  }

  lemma DeliveringSplit(h: Hashes, w: World, s: Id, m: Id)
    ensures Run(h, w, Delivering(s, m)) == Step(h, Run(h, w, Delivering(s, m)[..5]), Admit(s, ""))
  {
    hide Step;
    assert Delivering(s, m) == Delivering(s, m)[..5] + [Admit(s, "")];
    RunSnoc(h, w, Delivering(s, m)[..5], Admit(s, ""));
  }

  lemma GateLater(e: Envelope, sha: string, first: int, later: int)
    requires GateOpen(e, sha, first) && StillLive(e, later)
    ensures GateOpen(e, sha, later)
  {
  }
}
