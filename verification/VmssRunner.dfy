/**
 worker/vmss_main.py and worker/terraform_executor.py as one process writes them: ordered effects,
 exception paths and the `protected` flag. Every effect is one step of the runner protocol, so all
 that the process ever does is a run of it; whatever the outside world decides is left open.
 */
module VmssRunner {
  import opened Wrappers
  import opened Text
  import opened Contracts
  import opened BlobStore
  import opened RunnerProtocol
  import PlanSummary
  import Gate = ExecutionGate

  /** The steps this process takes, and the clock and producers it runs beside. */
  predicate Concerns(l: Label, id: Id) {
    l.Tick? || l.Produce? || l.r == id
  }

  /** Nothing that happened is taken back. */
  ghost predicate Extends(t: seq<Label>, trace: seq<Label>) {
    t <= trace
  }

  lemma ProtectPhase(x: Runner, outcome: ProtectOutcome)
    requires x.phase.Unprotected?
    ensures AfterProtect(x, outcome).phase ==
              if outcome == Done then Protected(x.phase.d) else Failing(x.phase.d.msg, Some(x.phase.d.env), SafetyGate, false)
  {
  }

  lemma OneOperation(h: Hashes, e: Envelope)
    requires Valid(h, e)
    ensures e.claims.operation == "plan" || IsApply(e)
  {
    hide ApplyBound, SavedPlanOk, GuardrailsOk, Canonical, StateKey;
  }

  /** Publishing sends the success event, the receipt follows, and neither is undone by what comes after. */
  lemma FinishingEffects(h: Hashes, w: World, l: Label)
    requires (l.Publish? || l.WriteReceipt? || l.CompleteMessage?) && Enabled(h, w, l)
    ensures var v, e := Do(h, w, l), w.runners[l.r].phase.d.env;
            && w.events <= v.events && w.blobs.Keys <= v.blobs.Keys
            && (l.Publish? ==> EventOf(h, e, true) in v.events)
            && (l.WriteReceipt? ==> ReceiptNameOf(e) in v.blobs)
  {
    hide EventOf, ReceiptNameOf;
  }

  lemma NoSlash(h: Hashes, e: Envelope)
    requires Valid(h, e)
    ensures '/' !in e.claims.subscriptionId && '/' !in e.claims.guardrails.resourceGroup
  {
    hide ApplyBound, SavedPlanOk, Canonical, StateKey;
    var s := e.claims.subscriptionId;
    assert forall i :: 0 <= i < |s| ==> s[i] != '/';
  }

  /** Where a step leaves the process that takes it. */
  ghost function NextPhase(h: Hashes, w: World, l: Label, id: Id): Phase
    requires id in w.runners && Enabled(h, w, l) && Concerns(l, id)
  {
    var p := w.runners[id].phase;
    match l
    case Tick(_) => p
    case Produce(_, _, _) => p
    case Crash(_) => Stopped
    case Receive(_, msg) => Received(msg, ReceiptNameOf(EnvelopeOf(w.messages[msg].payload)) in w.blobs)
    case Decode(_) => DecodePhase(h, w, p)
    case CheckReceipt(_) => if ReceiptNameOf(p.d.env) in w.blobs then Polling else Unprotected(p.d)
    case Protect(_, outcome) => AfterProtect(w.runners[id], outcome).phase
    case AcquireLease(_) => Leased(p.d)
    case Admit(_, _) => Admitted(p.d)
    case RunPlan(_, bytes, doc) => Planned(p.d, bytes, doc)
    case CheckGuardrails(_, inputs) => Guarded(p.d, p.bytes, p.doc, inputs)
    case StorePlan(_, _) => Executed(p.d)
    case Download(_) => Downloaded(p.d, w.blobs[p.d.env.claims.savedPlan.value.blobName].content.bytes)
    case PassGate(_) => Gated(p.d, p.bytes, w.now)
    case Apply(_) => Executed(p.d)
    case AssertLease(_) => Asserted(p.d)
    case Publish(_) => Published(p.d)
    case WriteReceipt(_, _) => Receipted(p.d)
    case CompleteMessage(_) => Settled(p.d)
    case LeaveLease(_) => Releasing(false)
    case Fault(_, failure) => FaultPhase(p, failure)
    case Handle(_, _, _, raising) => Finally(p.flag, raising)
    case Release(_, done, _) => if done && !p.raising then Polling else Stopped
  }

  lemma StepPhase(h: Hashes, w: World, l: Label, id: Id)
    requires id in w.runners && Enabled(h, w, l) && Concerns(l, id)
    ensures id in Do(h, w, l).runners && Do(h, w, l).runners[id].phase == NextPhase(h, w, l, id)
    ensures w.messages.Keys <= Do(h, w, l).messages.Keys
  {
    hide GateOpen, Gate.Accepts, MayClaim, MaySave, MayDownload, ReceiptNameOf, EnvelopeOf, EventOf, DecodePhase, FaultPhase;
  }

  method GuardrailsAccept(h: Hashes, e: Envelope, doc: PlanSummary.Document, inputs: Option<Gate.Inputs>)
    returns (accepted: bool)
    requires Valid(h, e)
    ensures accepted <==> Gate.Accepts(ScopeOf(e), doc, inputs)
  {
    hide Gate.Accepts, Valid;
    NoSlash(h, e);
    var summary := Gate.ValidatePlanGuardrails(ScopeOf(e), doc, inputs);
    return summary.Ok?;
  }

  class Process {
    const h: Hashes
    const id: Id
    var world: World
    ghost const start: World
    ghost var trace: seq<Label>

    /** All that happened since the process came up is a run of the protocol. */
    ghost predicate Valid()
      reads this
    {
      && world == Run(h, start, trace) && id in world.runners
      && forall l <- trace :: Concerns(l, id)
    }

    function Phase(): Phase
      requires id in world.runners
      reads this
    {
      world.runners[id].phase
    }

    /** `_process_message` before its handlers: `protected` is what the phase says it is. */
    ghost predicate Trying(protected: bool)
      requires id in world.runners
      reads this
    {
      (Phase().Polling? && !protected)
      || (Phase() == Releasing(false) && protected)
      || (Phase().Failing? && Phase().flag == protected)
    }

    /** The exception that ended the work on a protected instance, on its way to the handlers. */
    ghost predicate Raised(d: Delivery, failure: Failure)
      requires id in world.runners
      reads this
    {
      Phase() == Failing(d.msg, Some(d.env), failure, true)
    }

    constructor (h: Hashes, id: Id, world: World)
      requires id !in world.runners
      ensures Valid() && this.h == h && this.id == id && this.world == Step(h, world, Start(id))
      ensures Phase().Polling?
    {
      this.h := h;
      this.id := id;
      this.world := Do(h, world, Start(id));
      start := Do(h, world, Start(id));
      trace := [];
    }

    method Perform(l: Label)
      requires Valid() && Enabled(h, world, l) && Concerns(l, id)
      modifies this
      ensures Valid() && world == Do(h, old(world), l) && trace == old(trace) + [l]
      ensures Phase() == NextPhase(h, old(world), l, id)
      ensures old(world.messages.Keys) <= world.messages.Keys
      ensures forall t :: Extends(t, old(trace)) ==> Extends(t, trace)
    {
      hide Run, Do, Enabled;
      RunSnoc(h, start, trace, l);
      StepPhase(h, world, l, id);
      world := Do(h, world, l);
      trace := trace + [l];
    }

    /** An exception inside the `try` block after the job was decoded. */
    method Raise(failure: Failure)
      requires Valid() && Working(Phase())
      modifies this
      ensures Valid()
      ensures forall t :: Extends(t, old(trace)) ==> Extends(t, trace)
      ensures Phase() == Failing(old(Phase()).d.msg, Some(old(Phase()).d.env), failure, Shielded(old(Phase())))
    {
      Perform(Fault(id, failure));
    }

    // ---- One effect each; `raised` is the exception it ended in ---------------------------

    /** Entering the state lease. */
    method AcquireLease(d: Delivery) returns (raised: Option<Failure>)
      requires Valid() && Phase() == Protected(d)
      modifies this
      ensures Valid()
      ensures forall t :: Extends(t, old(trace)) ==> Extends(t, trace)
      ensures if raised.None? then Phase() == Leased(d) else Raised(d, raised.value)
    {
      hide Run, Extends;
      if * {
        Raise(Other);
        return Some(Other);
      }
      Perform(Label.AcquireLease(id));
      return None;
    }

    /** `claim_approval` for an apply; then the executor starts. */
    method ClaimApproval(d: Delivery) returns (raised: Option<Failure>)
      requires Valid() && Phase() == Leased(d)
      modifies this
      ensures Valid()
      ensures forall t :: Extends(t, old(trace)) ==> Extends(t, trace)
      ensures if raised.None? then Phase() == Admitted(d) else Raised(d, raised.value)
    {
      hide Run, Extends;
      var etag: string := *;
      if d.env.claims.operation == "apply" && !MayClaim(world.blobs, d.env) {
        Raise(SafetyGate);
        return Some(SafetyGate);
      }
      Perform(Admit(id, etag));
      return None;
    }

    /** Static checks, `terraform plan` and `terraform show`. */
    method TerraformPlan(d: Delivery) returns (raised: Option<Failure>)
      requires Valid() && Phase() == Admitted(d) && d.env.claims.operation == "plan"
      modifies this
      ensures Valid()
      ensures forall t :: Extends(t, old(trace)) ==> Extends(t, trace)
      ensures if raised.None? then Phase().Planned? && Phase().d == d else Raised(d, raised.value)
    {
      hide Run, Extends;
      if * {
        Raise(Tool);
        return Some(Tool);
      }
      var bytes: Bytes := *;
      var doc: PlanSummary.Document := *;
      Perform(RunPlan(id, bytes, doc));
      return None;
    }

    /** `validate_plan_guardrails` on the plan just made. */
    method ValidateGuardrails(d: Delivery) returns (raised: Option<Failure>)
      requires Valid() && Phase().Planned? && Phase().d == d && Contracts.Valid(h, d.env)
      modifies this
      ensures Valid()
      ensures forall t :: Extends(t, old(trace)) ==> Extends(t, trace)
      ensures if raised.None? then Phase().Guarded? && Phase().d == d else Raised(d, raised.value)
    {
      hide Run, Extends;
      hide Gate.Accepts, Contracts.Valid;
      var inputs: Option<Gate.Inputs> := *;
      var accepted := GuardrailsAccept(h, d.env, Phase().doc, inputs);
      if !accepted {
        Raise(SafetyGate);
        return Some(SafetyGate);
      }
      Perform(CheckGuardrails(id, inputs));
      return None;
    }

    /** `save_private_plan`: refused when the name holds another plan. */
    method SavePrivatePlan(d: Delivery) returns (raised: Option<Failure>)
      requires Valid() && Phase().Guarded? && Phase().d == d
      modifies this
      ensures Valid()
      ensures forall t :: Extends(t, old(trace)) ==> Extends(t, trace)
      ensures if raised.None? then Phase() == Executed(d) else Raised(d, raised.value)
    {
      hide Run, Extends;
      var etag: string := *;
      if !MaySave(world.blobs, d.env, h.file(Phase().bytes)) {
        Raise(SafetyGate);
        return Some(SafetyGate);
      }
      if * {
        Raise(Other);
        return Some(Other);
      }
      Perform(StorePlan(id, etag));
      return None;
    }

    /** `download_private_plan`, digest checked. */
    method DownloadPrivatePlan(d: Delivery) returns (raised: Option<Failure>)
      requires Valid() && Phase() == Admitted(d) && IsApply(d.env)
      modifies this
      ensures Valid()
      ensures forall t :: Extends(t, old(trace)) ==> Extends(t, trace)
      ensures if raised.None? then Phase().Downloaded? && Phase().d == d else Raised(d, raised.value)
    {
      hide Run, Extends;
      if * {
        Raise(Tool);
        return Some(Tool);
      }
      if !MayDownload(h, world.blobs, d.env.claims.savedPlan.value) {
        Raise(SafetyGate);
        return Some(SafetyGate);
      }
      Perform(Label.Download(id));
      return None;
    }

    /** `validate_saved_plan_gate` on the downloaded bytes. */
    method ValidateSavedPlanGate(d: Delivery) returns (raised: Option<Failure>)
      requires Valid() && Phase().Downloaded? && Phase().d == d
      modifies this
      ensures Valid()
      ensures forall t :: Extends(t, old(trace)) ==> Extends(t, trace)
      ensures if raised.None? then Phase().Gated? && Phase().d == d else Raised(d, raised.value)
    {
      hide Run, Extends;
      if !GateOpen(d.env, h.file(Phase().bytes), world.now) {
        Raise(SafetyGate);
        return Some(SafetyGate);
      }
      Perform(PassGate(id));
      return None;
    }

    /** `terraform apply` on exactly those bytes. */
    method TerraformApply(d: Delivery) returns (raised: Option<Failure>)
      requires Valid() && Phase().Gated? && Phase().d == d
      modifies this
      ensures Valid()
      ensures forall t :: Extends(t, old(trace)) ==> Extends(t, trace)
      ensures if raised.None? then Phase() == Executed(d) else Raised(d, raised.value)
    {
      hide Run, Extends;
      if * {
        Raise(Tool);
        return Some(Tool);
      }
      Perform(Label.Apply(id));
      return None;
    }

    /** `lease.assert_current`. */
    method AssertCurrent(d: Delivery) returns (raised: Option<Failure>)
      requires Valid() && Phase() == Executed(d)
      modifies this
      ensures Valid()
      ensures forall t :: Extends(t, old(trace)) ==> Extends(t, trace)
      ensures if raised.None? then Phase() == Asserted(d) else Raised(d, raised.value)
    {
      hide Run, Extends;
      if * {
        Raise(Other);
        return Some(Other);
      }
      Perform(AssertLease(id));
      return None;
    }

    /** The success event. */
    method PublishSuccess(d: Delivery) returns (raised: Option<Failure>)
      requires Valid() && Phase() == Asserted(d)
      modifies this
      ensures Valid()
      ensures forall t :: Extends(t, old(trace)) ==> Extends(t, trace)
      ensures if raised.None? then Phase() == Published(d) && EventOf(h, d.env, true) in world.events else Raised(d, raised.value)
    {
      hide Run, Extends;
      if * {
        Raise(Other);
        return Some(Other);
      }
      FinishingEffects(h, world, Publish(id));
      Perform(Publish(id));
      return None;
    }

    /** The receipt, written only if absent. */
    method MarkCompleted(d: Delivery) returns (raised: Option<Failure>)
      requires Valid() && Phase() == Published(d)
      modifies this
      ensures Valid()
      ensures forall t :: Extends(t, old(trace)) ==> Extends(t, trace)
      ensures raised.None? ==> old(world.events) <= world.events
      ensures if raised.None? then Phase() == Receipted(d) && ReceiptNameOf(d.env) in world.blobs else Raised(d, raised.value)
    {
      hide Run, Extends;
      if * {
        Raise(Other);
        return Some(Other);
      }
      var etag: string := *;
      FinishingEffects(h, world, WriteReceipt(id, etag));
      Perform(WriteReceipt(id, etag));
      return None;
    }

    /** `complete_message`, which fails when the message lock is gone. */
    method Complete(d: Delivery) returns (raised: Option<Failure>)
      requires Valid() && Phase() == Receipted(d)
      modifies this
      ensures Valid()
      ensures forall t :: Extends(t, old(trace)) ==> Extends(t, trace)
      ensures raised.None? ==> old(world.events) <= world.events && old(world.blobs.Keys) <= world.blobs.Keys
      ensures if raised.None? then Phase() == Settled(d) else Raised(d, raised.value)
    {
      hide Run, Extends;
      var lost: bool := *;
      if lost || d.msg !in world.messages || world.messages[d.msg].state != Pending {
        Raise(Other);
        return Some(Other);
      }
      FinishingEffects(h, world, CompleteMessage(id));
      Perform(CompleteMessage(id));
      return None;
    }

    // ---- The order of effects -------------------------------------------------------------

    /** `TerraformExecutor._plan`. */
    method Plan(d: Delivery) returns (raised: Option<Failure>)
      requires Valid() && Phase() == Admitted(d) && Contracts.Valid(h, d.env) && d.env.claims.operation == "plan"
      modifies this
      ensures Valid()
      ensures forall t :: Extends(t, old(trace)) ==> Extends(t, trace)
      ensures if raised.None? then Phase() == Executed(d) else Raised(d, raised.value)
    {
      hide Enabled, NextPhase, Working, Shielded, Do, Extends, Run, Contracts.Valid, EventOf, ReceiptNameOf, IsApply;
      raised := TerraformPlan(d);
      if raised.None? {
        raised := ValidateGuardrails(d);
      }
      if raised.None? {
        raised := SavePrivatePlan(d);
      }
    }

    /** `TerraformExecutor._apply`. */
    method Apply(d: Delivery) returns (raised: Option<Failure>)
      requires Valid() && Phase() == Admitted(d) && IsApply(d.env)
      modifies this
      ensures Valid()
      ensures forall t :: Extends(t, old(trace)) ==> Extends(t, trace)
      ensures if raised.None? then Phase() == Executed(d) else Raised(d, raised.value)
    {
      hide Enabled, NextPhase, Working, Shielded, Do, Extends, Run, Contracts.Valid, EventOf, ReceiptNameOf, IsApply;
      raised := DownloadPrivatePlan(d);
      if raised.None? {
        raised := ValidateSavedPlanGate(d);
      }
      if raised.None? {
        raised := TerraformApply(d);
      }
    }

    /** Inside the protected section: lease, claim, executor, lease check, event, receipt, completion. */
    method Work(d: Delivery) returns (raised: Option<Failure>)
      requires Valid() && Phase() == Protected(d) && Contracts.Valid(h, d.env)
      modifies this
      ensures Valid()
      ensures forall t :: Extends(t, old(trace)) ==> Extends(t, trace)
      ensures if raised.None? then Phase() == Settled(d) else Raised(d, raised.value)
      ensures raised.None? ==> ReceiptNameOf(d.env) in world.blobs && EventOf(h, d.env, true) in world.events
    {
      hide Enabled, NextPhase, Working, Shielded, Do, Extends, Run, Contracts.Valid, EventOf, ReceiptNameOf, IsApply;
      OneOperation(h, d.env);
      raised := AcquireLease(d);
      if raised.None? {
        raised := ClaimApproval(d);
      }
      if raised.None? {
        if d.env.claims.operation == "plan" {
          raised := Plan(d);
        } else {
          raised := Apply(d);
        }
      }
      if raised.None? {
        raised := AssertCurrent(d);
      }
      if raised.None? {
        raised := PublishSuccess(d);
      }
      if raised.None? {
        raised := MarkCompleted(d);
      }
      if raised.None? {
        raised := Complete(d);
      }
    }

    /** Decoding, the queue check and the receipt: the job that is left to do, if any. */
    method Begin() returns (job: Option<Delivery>)
      requires Valid() && Phase().Received? && Phase().msg in world.messages
      modifies this
      ensures Valid()
      ensures forall t :: Extends(t, old(trace)) ==> Extends(t, trace)
      ensures match job
              case Some(d) => Phase() == Unprotected(d) && Contracts.Valid(h, d.env)
              case None => Trying(false)
    {
      hide Extends, Run, Do, Contracts.Valid, Canonical, ReceiptNameOf, Acceptable, EnvelopeOf;
      if FromMapping(h, world.now, world.messages[Phase().msg].payload).Ok? {
        FromMappingValid(h, world.now, world.messages[Phase().msg].payload);
      }
      Perform(Decode(id));
      if Phase().Failing? {
        return None;
      }
      var d := Phase().d;
      if * {
        Raise(Other);
        return None;
      }
      Perform(CheckReceipt(id));
      return if Phase().Polling? then None else Some(d);
    }

    method TakeProtection(d: Delivery) returns (protected: bool)
      requires Valid() && Phase() == Unprotected(d)
      modifies this
      ensures Valid()
      ensures forall t :: Extends(t, old(trace)) ==> Extends(t, trace)
      ensures if protected then Phase() == Protected(d) else Trying(false)
    {
      hide Run, Extends;
      var outcome: ProtectOutcome := *;
      ProtectPhase(world.runners[id], outcome);
      Perform(Protect(id, outcome));
      return outcome == Done;
    }

    method LeaveLease(d: Delivery)
      requires Valid() && Phase() == Settled(d)
      modifies this
      ensures Valid() && Phase() == Releasing(false)
      ensures forall t :: Extends(t, old(trace)) ==> Extends(t, trace)
    {
      hide Run, Extends;
      Perform(Label.LeaveLease(id));
    }

    /** The `try` block. */
    method Try() returns (protected: bool)
      requires Valid() && Phase().Received? && Phase().msg in world.messages
      modifies this
      ensures Valid()
      ensures forall t :: Extends(t, old(trace)) ==> Extends(t, trace)
      ensures Trying(protected)
    {
      hide Enabled, NextPhase, Working, Shielded, Do, Extends, Run, Contracts.Valid, EventOf, ReceiptNameOf;
      var job := Begin();
      if job.None? {
        return false;
      }
      protected := TakeProtection(job.value);
      if protected {
        var raised := Work(job.value);
        if raised.None? {
          LeaveLease(job.value);
        }
      }
    }

    /** The whole of `_process_message`. `raised` is RunnerReconciliationRequired, or an error the broker raised. */
    method ProcessMessage() returns (raised: bool)
      requires Valid() && Phase().Received? && Phase().msg in world.messages
      modifies this
      ensures Valid()
      ensures forall t :: Extends(t, old(trace)) ==> Extends(t, trace)
      ensures Phase() == if raised then Stopped else Polling
    {
      hide Extends, Run, Do, Gate.Accepts, Contracts.Valid, Canonical, MetadataOf, PlanNameOf, ReceiptNameOf, ClaimNameOf, ClaimOf, EventOf, Acceptable;
      var protected := Try();
      var raising := false;
      if Phase().Failing? {
        var published: bool := *;
        var settled: bool := *;
        raising := *;
        Perform(Handle(id, published, settled, raising));
      }
      if protected {
        var done: bool := *;
        var effective: bool := *;
        Perform(Release(id, done, effective));
        return !done || raising;
      }
      return raising;
    }

    /** `main`: once a message raised, no further one is received. */
    method Poll(rounds: nat) returns (stopped: bool)
      requires Valid() && Phase().Polling?
      modifies this
      ensures Valid()
      ensures forall t :: Extends(t, old(trace)) ==> Extends(t, trace)
      ensures Phase() == if stopped then Stopped else Polling
    {
      hide Extends, Run, Do, Gate.Accepts, Contracts.Valid, Canonical, MetadataOf, PlanNameOf, ReceiptNameOf, ClaimNameOf, ClaimOf, EventOf, Acceptable;
      for i := 0 to rounds
        invariant Valid() && Phase().Polling?
        invariant forall t :: Extends(t, old(trace)) ==> Extends(t, trace)
      {
        var elapsed: nat := *;
        Perform(Tick(elapsed));
        var msg: Id := *;
        if msg in world.messages && world.messages[msg].state == Pending {
          Perform(Receive(id, msg));
          stopped := ProcessMessage();
          if stopped {
            return;
          }
        }
      }
      return false;
    }
  }
}
