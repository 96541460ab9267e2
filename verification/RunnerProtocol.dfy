/**
 worker/vmss_main.py and worker/terraform_executor.py: any number of runner processes taking
 plan and apply messages from an at-least-once broker. Each label is one external effect, so a
 crash may fall between any two of them.
 */
module RunnerProtocol {
  import opened Wrappers
  import opened Text
  import opened Contracts
  import opened BlobStore
  import PlanSummary
  import Gate = ExecutionGate

  type Id = nat

  datatype MessageState = Pending | Completed | DeadLettered
  datatype Message = Message(payload: Payload, queue: string, state: MessageState)

  /** One receipt of one message; the last field is history: was the receipt there already? */
  datatype Delivery = Delivery(msg: Id, env: Envelope, receiptAtStart: bool)

  datatype Failure = SafetyGate | Tool | Other

  /** Where a runner stands in `_process_message`; each line is passed in this order. */
  datatype Phase =
    | Polling
    | Received(msg: Id, receiptAtStart: bool)
    | Decoded(d: Delivery)
    | Unprotected(d: Delivery)
    | Protected(d: Delivery)
    | Leased(d: Delivery)
    | Admitted(d: Delivery)
    | Planned(d: Delivery, bytes: Bytes, doc: PlanSummary.Document)
    | Guarded(d: Delivery, bytes: Bytes, doc: PlanSummary.Document, inputs: Option<Gate.Inputs>)
    | Downloaded(d: Delivery, bytes: Bytes)
    | Gated(d: Delivery, bytes: Bytes, at: int)
    | Executed(d: Delivery)
    | Asserted(d: Delivery)
    | Published(d: Delivery)
    | Receipted(d: Delivery)
    | Settled(d: Delivery)
    | Failing(msg: Id, env: Option<Envelope>, failure: Failure, flag: bool)
    | Releasing(raising: bool)
    | Stopped

  /** `armed` is the scale-in protection Azure holds; `unsure`: a protect call raised after taking effect. */
  datatype Runner = Runner(phase: Phase, armed: bool, unsure: bool)

  datatype Event = Event(eventId: string, jobDigest: string, success: bool)

  /** History: plans saved after passing the guardrails, and bytes handed to `terraform apply`. */
  datatype Save = Save(env: Envelope, bytes: Bytes, doc: PlanSummary.Document, inputs: Option<Gate.Inputs>)
  datatype Application = Application(env: Envelope, bytes: Bytes, gatedAt: int)

  datatype World = World(
    now: int,
    blobs: Container,
    messages: map<Id, Message>,
    runners: map<Id, Runner>,
    events: set<Event>,
    saves: set<Save>,
    applied: set<Application>,
    executed: set<Delivery>
  )

  datatype ProtectOutcome = Done | RaisedBefore | RaisedAfter

  datatype Label =
    | Tick(elapsed: nat)
    | Produce(msg: Id, payload: Payload, queue: string)
    | Start(r: Id)
    | Crash(r: Id)
    | Receive(r: Id, msg: Id)
    | Decode(r: Id)
    | CheckReceipt(r: Id)
    | Protect(r: Id, outcome: ProtectOutcome)
    | AcquireLease(r: Id)
    | Admit(r: Id, etag: string)
    | RunPlan(r: Id, bytes: Bytes, doc: PlanSummary.Document)
    | CheckGuardrails(r: Id, inputs: Option<Gate.Inputs>)
    | StorePlan(r: Id, etag: string)
    | Download(r: Id)
    | PassGate(r: Id)
    | Apply(r: Id)
    | AssertLease(r: Id)
    | Publish(r: Id)
    | WriteReceipt(r: Id, etag: string)
    | CompleteMessage(r: Id)
    | LeaveLease(r: Id)
    | Fault(r: Id, failure: Failure)
    | Handle(r: Id, published: bool, settled: bool, raising: bool)
    | Release(r: Id, done: bool, effective: bool)

  // ---- Events ---------------------------------------------------------------------------

  function EventType(e: Envelope, success: bool): string {
    "terraform." + e.claims.operation + (if success then ".completed" else ".failed")
  }

  function EventText(tenant: string, workflow: string, job: string, eventType: string): string {
    "workflow-event.v1:" + tenant + ":" + workflow + ":" + job + ":" + eventType
  }

  function EventOf(h: Hashes, e: Envelope, success: bool): Event {
    Event("evt-" + h.text(EventText(e.claims.tenantId, e.claims.workflowId, e.claims.jobId, EventType(e, success))),
          e.jobDigest, success)
  }

  // ---- Reading the world ----------------------------------------------------------------

  /** The envelope a payload decodes to, whenever it decodes. */
  function EnvelopeOf(p: Payload): Envelope {
    Envelope(Canonical(p.claims), p.jobDigest, p.claims)
  }

  function ScopeOf(e: Envelope): Gate.Scope {
    Gate.Scope(e.claims.subscriptionId, e.claims.guardrails)
  }

  /** The phases inside the `try` block that hold a decoded envelope, in source order. */
  predicate Working(p: Phase) {
    p.Decoded? || p.Unprotected? || Shielded(p)
  }

  /** The phases after `protected = True`. */
  predicate Shielded(p: Phase) {
    p.Protected? || p.Leased? || Executing(p) || p.Asserted? || p.Published? || p.Receipted? || p.Settled?
  }

  /** Inside `executor.execute`, up to its return. */
  predicate Executing(p: Phase) {
    p.Admitted? || p.Planned? || p.Guarded? || p.Downloaded? || p.Gated? || p.Executed?
  }

  predicate At(w: World, r: Id) {
    r in w.runners
  }

  predicate GateOpen(e: Envelope, sha: string, now: int) {
    && IsApply(e)
    && sha == e.claims.savedPlan.value.sha256
    && now - e.claims.approval.value.approvedAt <= DAY
    && now < e.claims.approval.value.expiresAt
    && e.claims.approval.value.planSha256 == sha
    && e.claims.approval.value.bundleSha256 == e.claims.bundle.sha256
  }

  ghost predicate Enabled(h: Hashes, w: World, l: Label) {
    match l
    case Tick(_) => true
    case Produce(msg, _, _) => msg !in w.messages
    case Start(r) => r !in w.runners
    case Crash(r) => At(w, r)
    case Receive(r, msg) =>
      At(w, r) && w.runners[r].phase.Polling? && msg in w.messages && w.messages[msg].state == Pending
    case Decode(r) => At(w, r) && w.runners[r].phase.Received? && w.runners[r].phase.msg in w.messages
    case CheckReceipt(r) => At(w, r) && w.runners[r].phase.Decoded?
    case Protect(r, _) => At(w, r) && w.runners[r].phase.Unprotected?
    case AcquireLease(r) => At(w, r) && w.runners[r].phase.Protected?
    case Admit(r, _) =>
      At(w, r) && w.runners[r].phase.Leased?
      && (w.runners[r].phase.d.env.claims.operation == "apply" ==> MayClaim(w.blobs, w.runners[r].phase.d.env))
    case RunPlan(r, _, _) =>
      At(w, r) && w.runners[r].phase.Admitted? && w.runners[r].phase.d.env.claims.operation == "plan"
    case CheckGuardrails(r, inputs) =>
      At(w, r) && w.runners[r].phase.Planned?
      && Gate.Accepts(ScopeOf(w.runners[r].phase.d.env), w.runners[r].phase.doc, inputs)
    case StorePlan(r, _) =>
      At(w, r) && w.runners[r].phase.Guarded?
      && MaySave(w.blobs, w.runners[r].phase.d.env, h.file(w.runners[r].phase.bytes))
    case Download(r) =>
      At(w, r) && w.runners[r].phase.Admitted? && IsApply(w.runners[r].phase.d.env)
      && MayDownload(h, w.blobs, w.runners[r].phase.d.env.claims.savedPlan.value)
    case PassGate(r) =>
      At(w, r) && w.runners[r].phase.Downloaded?
      && GateOpen(w.runners[r].phase.d.env, h.file(w.runners[r].phase.bytes), w.now)
    case Apply(r) => At(w, r) && w.runners[r].phase.Gated?
    case AssertLease(r) => At(w, r) && w.runners[r].phase.Executed?
    case Publish(r) => At(w, r) && w.runners[r].phase.Asserted?
    case WriteReceipt(r, _) => At(w, r) && w.runners[r].phase.Published?
    case CompleteMessage(r) =>
      At(w, r) && w.runners[r].phase.Receipted?
      && w.runners[r].phase.d.msg in w.messages && w.messages[w.runners[r].phase.d.msg].state == Pending
    case LeaveLease(r) => At(w, r) && w.runners[r].phase.Settled?
    case Fault(r, _) => At(w, r) && (w.runners[r].phase.Received? || Working(w.runners[r].phase))
    case Handle(r, _, _, _) => At(w, r) && w.runners[r].phase.Failing?
    case Release(r, _, _) => At(w, r) && w.runners[r].phase.Releasing?
  }

  // ---- Writing the world ----------------------------------------------------------------

  function To(w: World, r: Id, phase: Phase): World
    requires r in w.runners
  {
    w.(runners := w.runners[r := w.runners[r].(phase := phase)])
  }

  function SetState(w: World, msg: Id, state: MessageState): World
    requires msg in w.messages
  {
    w.(messages := w.messages[msg := w.messages[msg].(state := state)])
  }

  function Settle(w: World, msg: Id, state: MessageState): World {
    if msg in w.messages && w.messages[msg].state == Pending then SetState(w, msg, state) else w
  }

  function AfterProtect(x: Runner, outcome: ProtectOutcome): Runner
    requires x.phase.Unprotected?
  {
    var d := x.phase.d;
    match outcome
    case Done => Runner(Protected(d), true, false)
    case RaisedBefore => x.(phase := Failing(d.msg, Some(d.env), SafetyGate, false))
    case RaisedAfter => Runner(Failing(d.msg, Some(d.env), SafetyGate, false), true, true)
  }

  /** After the handler: the finally block releases only what `protected` recorded. */
  function Finally(flag: bool, raising: bool): Phase {
    if flag then Releasing(raising) else if raising then Stopped else Polling
  }

  /** Phases after the runner has been received: where an exception lands. */
  function FaultPhase(p: Phase, failure: Failure): Phase
    requires p.Received? || Working(p)
  {
    if p.Received? then Failing(p.msg, None, failure, false)
    else Failing(p.d.msg, Some(p.d.env), failure, Shielded(p))
  }

  function DecodePhase(h: Hashes, w: World, p: Phase): Phase
    requires p.Received? && p.msg in w.messages
  {
    var m := w.messages[p.msg];
    var decoded := FromMapping(h, w.now, m.payload);
    if decoded.Err? then Failing(p.msg, None, SafetyGate, false)
    else if decoded.value.claims.operation != m.queue then Failing(p.msg, Some(decoded.value), SafetyGate, false)
    else Decoded(Delivery(p.msg, decoded.value, p.receiptAtStart))
  }

  /** A gate or tool failure may publish a failure event and dead-letter; every other one abandons. */
  function Handled(h: Hashes, w: World, p: Phase, published: bool, settled: bool): World
    requires p.Failing?
  {
    var told :=
      if published && p.env.Some? && !p.failure.Other?
      then w.(events := w.events + {EventOf(h, p.env.value, false)}) else w;
    if settled && !p.failure.Other? then Settle(told, p.msg, DeadLettered) else told
  }

  function Do(h: Hashes, w: World, l: Label): World
    requires Enabled(h, w, l)
  {
    match l
    case Tick(elapsed) => w.(now := w.now + elapsed)
    case Produce(msg, payload, queue) => w.(messages := w.messages[msg := Message(payload, queue, Pending)])
    case Start(r) => w.(runners := w.runners[r := Runner(Polling, false, false)])
    case Crash(r) => To(w, r, Stopped)
    case Receive(r, msg) => To(w, r, Received(msg, ReceiptNameOf(EnvelopeOf(w.messages[msg].payload)) in w.blobs))
    case Decode(r) => To(w, r, DecodePhase(h, w, w.runners[r].phase))
    case CheckReceipt(r) =>
      var d := w.runners[r].phase.d;
      if ReceiptNameOf(d.env) in w.blobs then To(Settle(w, d.msg, Completed), r, Polling) else To(w, r, Unprotected(d))
    case Protect(r, outcome) => w.(runners := w.runners[r := AfterProtect(w.runners[r], outcome)])
    case AcquireLease(r) => To(w, r, Leased(w.runners[r].phase.d))
    case Admit(r, etag) =>
      var d := w.runners[r].phase.d;
      To(w, r, Admitted(d)).(
        blobs := if d.env.claims.operation == "apply" then Claim(w.blobs, d.env, etag) else w.blobs,
        executed := w.executed + {d})
    case RunPlan(r, bytes, doc) => To(w, r, Planned(w.runners[r].phase.d, bytes, doc))
    case CheckGuardrails(r, inputs) =>
      To(w, r, Guarded(w.runners[r].phase.d, w.runners[r].phase.bytes, w.runners[r].phase.doc, inputs))
    case StorePlan(r, etag) =>
      var p := w.runners[r].phase;
      To(w, r, Executed(p.d)).(
        blobs := SavePlan(w.blobs, p.d.env, p.bytes, h.file(p.bytes), etag),
        saves := w.saves + {Save(p.d.env, p.bytes, p.doc, p.inputs)})
    case Download(r) =>
      var d := w.runners[r].phase.d;
      To(w, r, Downloaded(d, w.blobs[d.env.claims.savedPlan.value.blobName].content.bytes))
    case PassGate(r) => To(w, r, Gated(w.runners[r].phase.d, w.runners[r].phase.bytes, w.now))
    case Apply(r) =>
      var p := w.runners[r].phase;
      To(w, r, Executed(p.d)).(applied := w.applied + {Application(p.d.env, p.bytes, p.at)})
    case AssertLease(r) => To(w, r, Asserted(w.runners[r].phase.d))
    case Publish(r) =>
      var d := w.runners[r].phase.d;
      To(w, r, Published(d)).(events := w.events + {EventOf(h, d.env, true)})
    case WriteReceipt(r, etag) =>
      var d := w.runners[r].phase.d;
      To(w, r, Receipted(d)).(blobs := Receipt(w.blobs, d.env, etag))
    case CompleteMessage(r) =>
      var d := w.runners[r].phase.d;
      To(SetState(w, d.msg, Completed), r, Settled(d))
    case LeaveLease(r) => To(w, r, Releasing(false))
    case Fault(r, failure) => To(w, r, FaultPhase(w.runners[r].phase, failure))
    case Handle(r, published, settled, raising) =>
      var p := w.runners[r].phase;
      To(Handled(h, w, p, published, settled), r, Finally(p.flag, raising))
    case Release(r, done, effective) =>
      var x := w.runners[r];
      if done then w.(runners := w.runners[r := Runner(if x.phase.raising then Stopped else Polling, false, false)])
      else w.(runners := w.runners[r := x.(phase := Stopped, armed := x.armed && !effective)])
  }

  ghost function Step(h: Hashes, w: World, l: Label): World {
    if Enabled(h, w, l) then Do(h, w, l) else w
  }

  ghost function Run(h: Hashes, w: World, ls: seq<Label>): World
    decreases |ls|
  {
    if ls == [] then w else Run(h, Step(h, w, ls[0]), ls[1..])
  }

  function Init(now: int): World {
    World(now, map[], map[], map[], {}, {}, {}, {})
  }

  lemma {:induction false} RunSnoc(h: Hashes, w: World, ls: seq<Label>, l: Label)
    ensures Run(h, w, ls + [l]) == Step(h, Run(h, w, ls), l)
    decreases |ls|
  {
    hide Step;
    if ls == [] {
      assert [l][1..] == [];
    } else {
      assert (ls + [l])[1..] == ls[1..] + [l];
      RunSnoc(h, Step(h, w, ls[0]), ls[1..], l);
    }
  }
}
