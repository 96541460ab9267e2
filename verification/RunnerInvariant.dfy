/** The invariant of the plan/apply protocol, kept by every label. */
module RunnerInvariant {
  import opened Wrappers
  import opened Text
  import opened Contracts
  import opened BlobStore
  import opened RunnerProtocol
  import PlanSummary
  import Gate = ExecutionGate

  // ---- What is written down stays written down ------------------------------------------

  ghost predicate Grows(w: World, v: World) {
    && w.now <= v.now
    && (forall name <- w.blobs.Keys :: name in v.blobs && v.blobs[name] == w.blobs[name])
    && (forall m <- w.messages.Keys :: m in v.messages && v.messages[m].payload == w.messages[m].payload
                                                && v.messages[m].queue == w.messages[m].queue)
    && w.saves <= v.saves && w.events <= v.events && w.applied <= v.applied && w.executed <= v.executed
  }

  predicate WritesBlobs(l: Label) {
    l.Admit? || l.StorePlan? || l.WriteReceipt?
  }

  lemma BlobStepGrows(h: Hashes, w: World, l: Label)
    requires Enabled(h, w, l) && WritesBlobs(l)
    ensures Grows(w, Do(h, w, l))
  {
    hide MayClaim, MaySave, PlanNameOf, ReceiptNameOf, ClaimNameOf, MetadataOf, ClaimOf;
  }

  predicate SettlesMessages(l: Label) {
    l.CheckReceipt? || l.CompleteMessage? || l.Handle? || l.Produce?
  }

  lemma MessageStepGrows(h: Hashes, w: World, l: Label)
    requires Enabled(h, w, l) && SettlesMessages(l)
    ensures Grows(w, Do(h, w, l))
  {
    hide EnvelopeOf, EventOf, ReceiptNameOf, Finally;
  }

  lemma OtherStepGrows(h: Hashes, w: World, l: Label)
    requires Enabled(h, w, l) && !WritesBlobs(l) && !SettlesMessages(l)
    ensures Grows(w, Do(h, w, l))
  {
    hide DecodePhase, FaultPhase, EnvelopeOf, EventOf, GateOpen, MayDownload, ReceiptNameOf, AfterProtect, Finally,
      Working, Gate.Accepts, ScopeOf;
  }

  lemma StepGrows(h: Hashes, w: World, l: Label)
    requires Enabled(h, w, l)
    ensures Grows(w, Do(h, w, l))
  {
    hide Enabled, Do, Grows;
    if WritesBlobs(l) { BlobStepGrows(h, w, l); }
    else if SettlesMessages(l) { MessageStepGrows(h, w, l); }
    else { OtherStepGrows(h, w, l); }
  }

  lemma GrowsTransitive(u: World, v: World, w: World)
    requires Grows(u, v) && Grows(v, w)
    ensures Grows(u, w)
  {
  }

  // ---- The parts ------------------------------------------------------------------------

  /** The message decodes to this envelope, for the queue it came from. */
  predicate Decodes(h: Hashes, now: int, m: Message, e: Envelope) {
    FromMapping(h, now, m.payload) == Ok(e) && e.claims.operation == m.queue
  }

  ghost predicate DeliveryOk(h: Hashes, w: World, d: Delivery) {
    d.msg in w.messages && d.env == EnvelopeOf(w.messages[d.msg].payload) && Valid(h, d.env)
    && Decodes(h, w.now, w.messages[d.msg], d.env)
  }

  /** What decodes now decodes later: the clock only ever relaxes a check. */
  lemma DecodesLater(h: Hashes, now: int, later: int, m: Message, n: Message, e: Envelope)
    requires Decodes(h, now, m, e) && now <= later && m.payload == n.payload && m.queue == n.queue
    ensures Decodes(h, later, n, e)
  {
    hide BundleOk, InputsOk, GuardrailsOk, SavedPlanOk, ApplyBound, VersionOk, SafePath, IsSha256, IsUuid, Canonical, StateKey;
  }

  ghost predicate SavedAs(h: Hashes, s: Save, name: string, bytes: Bytes) {
    && Valid(h, s.env) && s.env.claims.operation == "plan" && s.bytes == bytes
    && name == PlanNameOf(s.env, h.file(bytes))
    && Gate.Accepts(ScopeOf(s.env), s.doc, s.inputs)
  }

  ghost predicate BlobOk(h: Hashes, w: World, name: string)
    requires name in w.blobs
  {
    match w.blobs[name].content
    case PlanContent(bytes, _) => exists s <- w.saves :: SavedAs(h, s, name, bytes)
    case ClaimContent(claim) =>
      exists e: Envelope :: Valid(h, e) && IsApply(e) && name == ClaimNameOf(e) && claim == ClaimOf(e)
    case ReceiptContent(_, _) =>
      exists e: Envelope :: Valid(h, e) && name == ReceiptNameOf(e) && EventOf(h, e, true) in w.events
  }

  ghost predicate ClaimHeld(w: World, e: Envelope) {
    e.claims.operation == "apply" ==>
      IsApply(e) && ClaimNameOf(e) in w.blobs && w.blobs[ClaimNameOf(e)].content == ClaimContent(ClaimOf(e))
  }

  ghost predicate PlanBytes(h: Hashes, w: World, e: Envelope, bytes: Bytes) {
    && IsApply(e)
    && e.claims.savedPlan.value.blobName in w.blobs
    && w.blobs[e.claims.savedPlan.value.blobName].content.PlanContent?
    && w.blobs[e.claims.savedPlan.value.blobName].content.bytes == bytes
    && w.blobs[e.claims.savedPlan.value.blobName].etag == e.claims.savedPlan.value.etag
    && h.file(bytes) == e.claims.savedPlan.value.sha256
    && IsSha256(e.claims.savedPlan.value.sha256)
  }

  ghost predicate AppliedOk(h: Hashes, w: World, a: Application) {
    && Valid(h, a.env) && PlanBytes(h, w, a.env, a.bytes)
    && GateOpen(a.env, h.file(a.bytes), a.gatedAt) && a.gatedAt <= w.now
  }

  ghost predicate ExecutedOk(h: Hashes, w: World, d: Delivery) {
    DeliveryOk(h, w, d) && !d.receiptAtStart && ClaimHeld(w, d.env)
  }

  ghost predicate MessageOk(h: Hashes, w: World, m: Id)
    requires m in w.messages
  {
    w.messages[m].state == MessageState.Completed ==>
      Valid(h, EnvelopeOf(w.messages[m].payload)) && ReceiptNameOf(EnvelopeOf(w.messages[m].payload)) in w.blobs
  }

  ghost predicate EventOk(h: Hashes, v: Event) {
    v.success ==> exists e: Envelope :: Valid(h, e) && v == EventOf(h, e, true)
  }

  /** Data carried by a phase. */
  ghost predicate PhaseOk(h: Hashes, w: World, p: Phase) {
    && (p.Received? ==> p.msg in w.messages && (p.receiptAtStart ==> ReceiptNameOf(EnvelopeOf(w.messages[p.msg].payload)) in w.blobs))
    && (Working(p) ==> WorkOk(h, w, p, p.d))
    && (p.Failing? && p.env.Some? ==> Valid(h, p.env.value))
    && (p.Guarded? ==> Gate.Accepts(ScopeOf(p.d.env), p.doc, p.inputs))
    && (p.Downloaded? || p.Gated? ==> PlanBytes(h, w, p.d.env, p.bytes))
    && (p.Gated? ==> GateOpen(p.d.env, h.file(p.bytes), p.at) && p.at <= w.now)
  }

  ghost predicate WorkOk(h: Hashes, w: World, p: Phase, d: Delivery) {
    && DeliveryOk(h, w, d)
    && (p.Decoded? && d.receiptAtStart ==> ReceiptNameOf(d.env) in w.blobs)
    && (!p.Decoded? ==> !d.receiptAtStart)
    && (Shielded(p) && !p.Protected? && !p.Leased? ==> ClaimHeld(w, d.env))
    && (p.Planned? || p.Guarded? ==> d.env.claims.operation == "plan")
    && (p.Published? || p.Receipted? || p.Settled? ==> EventOf(h, d.env, true) in w.events)
    && (p.Receipted? || p.Settled? ==> ReceiptNameOf(d.env) in w.blobs)
  }

  /** Scale-in protection as the flag records it, against what Azure holds. */
  predicate ShieldOk(x: Runner) {
    && (Shielded(x.phase) || x.phase.Releasing? || (x.phase.Failing? && x.phase.flag) ==> x.armed)
    && (x.armed && !Shielded(x.phase) && !x.phase.Releasing? && !(x.phase.Failing? && x.phase.flag) && !x.phase.Stopped? ==>
          x.unsure)
    && (x.unsure && !x.phase.Stopped? ==> x.armed)
  }

  ghost predicate Inv(h: Hashes, w: World) {
    && (forall name <- w.blobs.Keys :: BlobOk(h, w, name))
    && (forall m <- w.messages.Keys :: MessageOk(h, w, m))
    && (forall r <- w.runners.Keys :: PhaseOk(h, w, w.runners[r].phase) && ShieldOk(w.runners[r]))
    && (forall v <- w.events :: EventOk(h, v))
    && (forall a <- w.applied :: AppliedOk(h, w, a))
    && (forall d <- w.executed :: ExecutedOk(h, w, d))
  }

  // ---- Growth keeps every part ----------------------------------------------------------

  lemma BlobGrows(h: Hashes, w: World, v: World, name: string)
    requires Grows(w, v) && name in w.blobs && BlobOk(h, w, name)
    ensures name in v.blobs && BlobOk(h, v, name)
  {
    hide Valid, SavedAs, EventOf, EnvelopeOf;
    match w.blobs[name].content
    case PlanContent(bytes, _) =>
      var s :| s in w.saves && SavedAs(h, s, name, bytes);
      assert s in v.saves;
    case ClaimContent(claim) =>
    case ReceiptContent(_, _) =>
      var e: Envelope :| Valid(h, e) && name == ReceiptNameOf(e) && EventOf(h, e, true) in w.events;
      assert EventOf(h, e, true) in v.events;
  }

  lemma WorkGrows(h: Hashes, w: World, v: World, p: Phase, d: Delivery)
    requires Grows(w, v) && WorkOk(h, w, p, d)
    ensures WorkOk(h, v, p, d)
  {
    hide Valid, EventOf, EnvelopeOf, Decodes, ReceiptNameOf, ClaimNameOf, ClaimOf;
    DecodesLater(h, w.now, v.now, w.messages[d.msg], v.messages[d.msg], d.env);
  }

  lemma PhaseGrows(h: Hashes, w: World, v: World, p: Phase)
    requires Grows(w, v) && PhaseOk(h, w, p)
    ensures PhaseOk(h, v, p)
  {
    hide GateOpen, EnvelopeOf, WorkOk, Gate.Accepts, ReceiptNameOf;
    if Working(p) {
      WorkGrows(h, w, v, p, p.d);
    }
  }

  lemma HistoryGrows(h: Hashes, w: World, v: World)
    requires Grows(w, v) && Inv(h, w)
    ensures forall a <- w.applied :: AppliedOk(h, v, a)
    ensures forall d <- w.executed :: ExecutedOk(h, v, d)
  {
    hide Valid, GateOpen, EventOf, EnvelopeOf, PhaseOk, BlobOk, MessageOk, EventOk, Decodes;
    forall d | d in w.executed ensures ExecutedOk(h, v, d) {
      assert ExecutedOk(h, w, d);
      DecodesLater(h, w.now, v.now, w.messages[d.msg], v.messages[d.msg], d.env);
    }
  }

  /** What one step may add, each addition justified in the new state. */
  ghost predicate Justified(h: Hashes, w: World, v: World) {
    && (forall name <- v.blobs.Keys :: name !in w.blobs ==> BlobOk(h, v, name))
    && (forall m <- v.messages.Keys ::
          (m in w.messages && v.messages[m].state == w.messages[m].state) || MessageOk(h, v, m))
    && (forall r <- v.runners.Keys ::
          (r in w.runners && v.runners[r] == w.runners[r]) || (PhaseOk(h, v, v.runners[r].phase) && ShieldOk(v.runners[r])))
    && (forall e <- v.events :: e in w.events || EventOk(h, e))
    && (forall a <- v.applied :: a in w.applied || AppliedOk(h, v, a))
    && (forall d <- v.executed :: d in w.executed || ExecutedOk(h, v, d))
  }

  lemma JustifiedKeeps(h: Hashes, w: World, v: World)
    requires Inv(h, w) && Grows(w, v) && Justified(h, w, v)
    ensures Inv(h, v)
  {
    hide Valid, GateOpen, EventOf, EnvelopeOf, BlobOk, PhaseOk, AppliedOk, ExecutedOk, EventOk, ShieldOk;
    forall name | name in v.blobs ensures BlobOk(h, v, name) {
      if name in w.blobs { BlobGrows(h, w, v, name); }
    }
    forall r | r in v.runners ensures PhaseOk(h, v, v.runners[r].phase) && ShieldOk(v.runners[r]) {
      if r in w.runners && v.runners[r] == w.runners[r] { PhaseGrows(h, w, v, w.runners[r].phase); }
    }
    forall m | m in v.messages ensures MessageOk(h, v, m) {
      if m in w.messages { assert MessageOk(h, w, m); }
    }
    HistoryGrows(h, w, v);
  }

  // ---- One label at a time --------------------------------------------------------------

  /** Labels that move one runner and write nothing else. */
  predicate MovesOnly(l: Label) {
    l.Receive? || l.Decode? || l.Protect? || l.AcquireLease? || l.RunPlan? || l.CheckGuardrails? || l.Download?
    || l.PassGate? || l.AssertLease? || l.LeaveLease? || l.Fault? || l.Release? || l.Crash? || l.Start?
  }

  lemma MoveKeeps(h: Hashes, w: World, v: World, r: Id, x: Runner)
    requires Inv(h, w) && v == w.(runners := w.runners[r := x])
    requires PhaseOk(h, v, x.phase) && ShieldOk(x)
    ensures Inv(h, v)
  {
    hide Decodes, Valid, GateOpen, EventOf, EnvelopeOf, BlobOk, PhaseOk, AppliedOk, ExecutedOk, EventOk, ShieldOk, MessageOk;
    assert Justified(h, w, v);
    JustifiedKeeps(h, w, v);
  }

  lemma DecodeOk(h: Hashes, w: World, r: Id)
    requires Inv(h, w) && Enabled(h, w, Decode(r))
    ensures PhaseOk(h, w, DecodePhase(h, w, w.runners[r].phase))
    ensures !Shielded(DecodePhase(h, w, w.runners[r].phase)) && !DecodePhase(h, w, w.runners[r].phase).Releasing?
    ensures DecodePhase(h, w, w.runners[r].phase).Failing? ==> !DecodePhase(h, w, w.runners[r].phase).flag
  {
    hide Acceptable, Canonical, Valid;
    var p := w.runners[r].phase;
    assert PhaseOk(h, w, p);
    var payload := w.messages[p.msg].payload;
    if FromMapping(h, w.now, payload).Ok? {
      FromMappingValid(h, w.now, payload);
    }
  }

  lemma MovesOk(h: Hashes, w: World, l: Label)
    requires Inv(h, w) && Enabled(h, w, l) && MovesOnly(l)
    ensures Inv(h, Do(h, w, l))
  {
    hide Decodes, Inv, FromMapping, DecodePhase, Valid, Canonical, GateOpen, MayDownload;
    var v := Do(h, w, l);
    if l.Start? {
      MoveKeeps(h, w, v, l.r, v.runners[l.r]);
    } else {
      RunnerParts(h, w, l.r);
      if l.Decode? { DecodeOk(h, w, l.r); }
      MovedPhase(h, w, l);
      MoveKeeps(h, w, v, l.r, v.runners[l.r]);
    }
  }

  lemma RunnerParts(h: Hashes, w: World, r: Id)
    requires Inv(h, w) && r in w.runners
    ensures PhaseOk(h, w, w.runners[r].phase) && ShieldOk(w.runners[r])
  {
  }

  lemma MovedPhase(h: Hashes, w: World, l: Label)
    requires Enabled(h, w, l) && MovesOnly(l) && !l.Start?
    requires PhaseOk(h, w, w.runners[l.r].phase) && ShieldOk(w.runners[l.r])
    requires l.Decode? ==>
               var p := DecodePhase(h, w, w.runners[l.r].phase);
               PhaseOk(h, w, p) && !Shielded(p) && !p.Releasing? && (p.Failing? ==> !p.flag)
    ensures var v := Do(h, w, l);
            && v == w.(runners := w.runners[l.r := v.runners[l.r]])
            && PhaseOk(h, v, v.runners[l.r].phase) && ShieldOk(v.runners[l.r])
  {
    hide Decodes, PhaseOk, Enabled, Do, ShieldOk;
    if l.PassGate? || l.Download? { GatePhase(h, w, l); }
    else if l.Receive? || l.Decode? || l.Protect? { EntryPhase(h, w, l); }
    else if l.Fault? { FaultMoves(h, w, l); }
    else if l.Release? || l.Crash? { ExitPhase(h, w, l); }
    else if l.AcquireLease? || l.LeaveLease? { LeasePhase(h, w, l); }
    else { InnerPhase(h, w, l); }
  }

  lemma EntryPhase(h: Hashes, w: World, l: Label)
    requires Enabled(h, w, l) && (l.Receive? || l.Decode? || l.Protect?)
    requires PhaseOk(h, w, w.runners[l.r].phase) && ShieldOk(w.runners[l.r])
    requires l.Decode? ==>
               var p := DecodePhase(h, w, w.runners[l.r].phase);
               PhaseOk(h, w, p) && !Shielded(p) && !p.Releasing? && (p.Failing? ==> !p.flag)
    ensures var v := Do(h, w, l);
            && v == w.(runners := w.runners[l.r := v.runners[l.r]])
            && PhaseOk(h, v, v.runners[l.r].phase) && ShieldOk(v.runners[l.r])
  {
    hide Decodes, DecodePhase, Valid, EnvelopeOf, EventOf, ScopeOf, ReceiptNameOf, Gate.Accepts, GateOpen, MayDownload, ClaimHeld, PlanBytes;
  }

  lemma InnerPhase(h: Hashes, w: World, l: Label)
    requires Enabled(h, w, l) && (l.RunPlan? || l.CheckGuardrails? || l.AssertLease?)
    requires PhaseOk(h, w, w.runners[l.r].phase) && ShieldOk(w.runners[l.r])
    ensures var v := Do(h, w, l);
            && v == w.(runners := w.runners[l.r := v.runners[l.r]])
            && PhaseOk(h, v, v.runners[l.r].phase) && ShieldOk(v.runners[l.r])
  {
    hide Decodes, DecodePhase, Valid, EnvelopeOf, EventOf, ScopeOf, ReceiptNameOf, Gate.Accepts, GateOpen, MayDownload, PlanBytes;
  }

  lemma LeasePhase(h: Hashes, w: World, l: Label)
    requires Enabled(h, w, l) && (l.AcquireLease? || l.LeaveLease?)
    requires PhaseOk(h, w, w.runners[l.r].phase) && ShieldOk(w.runners[l.r])
    ensures var v := Do(h, w, l);
            && v == w.(runners := w.runners[l.r := v.runners[l.r]])
            && PhaseOk(h, v, v.runners[l.r].phase) && ShieldOk(v.runners[l.r])
  {
    hide Decodes, DecodePhase, Valid, EnvelopeOf, EventOf, ScopeOf, ReceiptNameOf, Gate.Accepts, GateOpen, MayDownload, PlanBytes, ClaimHeld;
  }

  lemma FaultMoves(h: Hashes, w: World, l: Label)
    requires Enabled(h, w, l) && l.Fault?
    requires PhaseOk(h, w, w.runners[l.r].phase) && ShieldOk(w.runners[l.r])
    ensures var v := Do(h, w, l);
            && v == w.(runners := w.runners[l.r := v.runners[l.r]])
            && PhaseOk(h, v, v.runners[l.r].phase) && ShieldOk(v.runners[l.r])
  {
    hide Decodes, DecodePhase, Valid, EnvelopeOf, EventOf, ScopeOf, ReceiptNameOf, Gate.Accepts, GateOpen, MayDownload, ClaimHeld, PlanBytes;
  }

  lemma ExitPhase(h: Hashes, w: World, l: Label)
    requires Enabled(h, w, l) && (l.Release? || l.Crash?)
    requires PhaseOk(h, w, w.runners[l.r].phase) && ShieldOk(w.runners[l.r])
    ensures var v := Do(h, w, l);
            && v == w.(runners := w.runners[l.r := v.runners[l.r]])
            && PhaseOk(h, v, v.runners[l.r].phase) && ShieldOk(v.runners[l.r])
  {
    hide Decodes, DecodePhase, Valid, EnvelopeOf, EventOf, ScopeOf, ReceiptNameOf, Gate.Accepts, GateOpen, MayDownload, ClaimHeld, PlanBytes;
  }

  lemma GatePhase(h: Hashes, w: World, l: Label)
    requires Enabled(h, w, l) && (l.PassGate? || l.Download?)
    requires PhaseOk(h, w, w.runners[l.r].phase) && ShieldOk(w.runners[l.r])
    ensures var v := Do(h, w, l);
            && v == w.(runners := w.runners[l.r := v.runners[l.r]])
            && PhaseOk(h, v, v.runners[l.r].phase) && ShieldOk(v.runners[l.r])
  {
    hide Decodes, DecodePhase, Valid, EnvelopeOf, EventOf, ScopeOf, ReceiptNameOf, Gate.Accepts, GateOpen;
  }

  /** The runner that acts, moved to `x`; nothing else about runners changed. */
  lemma EffectKeeps(h: Hashes, w: World, v: World, r: Id)
    requires Inv(h, w) && Grows(w, v) && r in w.runners && r in v.runners
    requires v.runners == w.runners[r := v.runners[r]]
    requires PhaseOk(h, v, v.runners[r].phase) && ShieldOk(v.runners[r])
    requires forall name <- v.blobs.Keys :: name !in w.blobs ==> BlobOk(h, v, name)
    requires v.messages.Keys == w.messages.Keys
    requires forall m <- v.messages.Keys :: v.messages[m].state == w.messages[m].state || MessageOk(h, v, m)
    requires forall e <- v.events :: e in w.events || EventOk(h, e)
    requires forall a <- v.applied :: a in w.applied || AppliedOk(h, v, a)
    requires forall d <- v.executed :: d in w.executed || ExecutedOk(h, v, d)
    ensures Inv(h, v)
  {
    hide Decodes, Valid, GateOpen, EventOf, EnvelopeOf, BlobOk, PhaseOk, AppliedOk, ExecutedOk, EventOk, ShieldOk, MessageOk, Grows;
    assert Justified(h, w, v);
    JustifiedKeeps(h, w, v);
  }

  lemma ProduceKeeps(h: Hashes, w: World, l: Label)
    requires Inv(h, w) && Enabled(h, w, l) && (l.Tick? || l.Produce?)
    ensures Inv(h, Do(h, w, l))
  {
    StepGrows(h, w, l);
    hide Decodes, Valid, GateOpen, EventOf, EnvelopeOf, BlobOk, PhaseOk, AppliedOk, ExecutedOk, EventOk, ShieldOk, Grows;
    var v := Do(h, w, l);
    assert forall m <- v.messages.Keys :: m !in w.messages ==> MessageOk(h, v, m);
    assert Justified(h, w, v);
    JustifiedKeeps(h, w, v);
  }

  lemma CheckReceiptKeeps(h: Hashes, w: World, l: Label)
    requires Inv(h, w) && Enabled(h, w, l) && l.CheckReceipt?
    ensures Inv(h, Do(h, w, l))
  {
    hide Decodes, Inv, Valid, GateOpen, EventOf, EnvelopeOf, BlobOk, AppliedOk, ExecutedOk, EventOk, Grows, ClaimHeld, PlanBytes, ReceiptNameOf;
    StepGrows(h, w, l);
    RunnerParts(h, w, l.r);
    var v := Do(h, w, l);
    EffectKeeps(h, w, v, l.r);
  }

  /** What admission puts in place for the delivery. */
  lemma AdmittedHolds(h: Hashes, w: World, l: Label)
    requires Enabled(h, w, l) && l.Admit? && PhaseOk(h, w, w.runners[l.r].phase) && ShieldOk(w.runners[l.r])
    ensures var v := Do(h, w, l); var d := w.runners[l.r].phase.d;
            && v.runners == w.runners[l.r := v.runners[l.r]] && v.runners[l.r].phase == Admitted(d)
            && ShieldOk(v.runners[l.r]) && ClaimHeld(v, d.env)
            && v.executed == w.executed + {d}
            && (d.env.claims.operation != "apply" ==> v.blobs == w.blobs)
            && (d.env.claims.operation == "apply" ==>
                  IsApply(d.env) && (forall name <- v.blobs.Keys :: (name in w.blobs
                    || (name == ClaimNameOf(d.env) && v.blobs[name].content == ClaimContent(ClaimOf(d.env))))))
  {
    hide Decodes, EventOf, EnvelopeOf, PlanBytes, ReceiptNameOf, ClaimNameOf, ClaimOf, Valid;
  }

  lemma AdmitKeeps(h: Hashes, w: World, l: Label)
    requires Inv(h, w) && Enabled(h, w, l) && l.Admit?
    ensures Inv(h, Do(h, w, l))
  {
    hide Decodes, Inv, EventOf, EnvelopeOf, AppliedOk, EventOk, Grows, PlanBytes, ReceiptNameOf, ClaimNameOf, ClaimOf,
      MessageOk, Valid, ClaimHeld, ShieldOk, MayClaim, Claim;
    StepGrows(h, w, l);
    RunnerParts(h, w, l.r);
    AdmittedHolds(h, w, l);
    var v, p := Do(h, w, l), w.runners[l.r].phase;
    WorkGrows(h, w, v, p, p.d);
    forall name | name in v.blobs && name !in w.blobs ensures BlobOk(h, v, name) {
    }
    EffectKeeps(h, w, v, l.r);
  }

  lemma OperationOf(h: Hashes, w: World, d: Delivery)
    requires DeliveryOk(h, w, d)
    ensures Valid(h, d.env)
    ensures d.env.claims.operation == "plan" || d.env.claims.operation == "apply"
    ensures d.env.claims.operation == "apply" ==> IsApply(d.env)
  {
  }

  lemma StorePlanKeeps(h: Hashes, w: World, l: Label)
    requires Inv(h, w) && Enabled(h, w, l) && l.StorePlan?
    ensures Inv(h, Do(h, w, l))
  {
    hide Decodes, Inv, GateOpen, EventOf, EnvelopeOf, AppliedOk, EventOk, Grows, PlanBytes, ReceiptNameOf, PlanNameOf, MetadataOf, MessageOk,
      Valid, ScopeOf, Gate.Accepts, ClaimHeld, ExecutedOk;
    StepGrows(h, w, l);
    RunnerParts(h, w, l.r);
    PhaseGrows(h, w, Do(h, w, l), w.runners[l.r].phase);
    var v := Do(h, w, l);
    var p := w.runners[l.r].phase;
    forall name | name in v.blobs && name !in w.blobs ensures BlobOk(h, v, name) {
      var s := Save(p.d.env, p.bytes, p.doc, p.inputs);
      assert s in v.saves && SavedAs(h, s, name, p.bytes);
    }
    EffectKeeps(h, w, v, l.r);
  }

  lemma ApplyKeeps(h: Hashes, w: World, l: Label)
    requires Inv(h, w) && Enabled(h, w, l) && l.Apply?
    ensures Inv(h, Do(h, w, l))
  {
    hide Decodes, Inv, GateOpen, EventOf, EnvelopeOf, BlobOk, EventOk, Grows, ReceiptNameOf, MessageOk, Valid, ClaimHeld, ExecutedOk;
    StepGrows(h, w, l);
    RunnerParts(h, w, l.r);
    PhaseGrows(h, w, Do(h, w, l), w.runners[l.r].phase);
    EffectKeeps(h, w, Do(h, w, l), l.r);
  }

  lemma PublishKeeps(h: Hashes, w: World, l: Label)
    requires Inv(h, w) && Enabled(h, w, l) && l.Publish?
    ensures Inv(h, Do(h, w, l))
  {
    hide Decodes, Inv, GateOpen, EnvelopeOf, BlobOk, Grows, ReceiptNameOf, MessageOk, Valid, ClaimHeld, ExecutedOk, AppliedOk;
    StepGrows(h, w, l);
    RunnerParts(h, w, l.r);
    PhaseGrows(h, w, Do(h, w, l), w.runners[l.r].phase);
    EffectKeeps(h, w, Do(h, w, l), l.r);
  }

  lemma WriteReceiptKeeps(h: Hashes, w: World, l: Label)
    requires Inv(h, w) && Enabled(h, w, l) && l.WriteReceipt?
    ensures Inv(h, Do(h, w, l))
  {
    hide Decodes, Inv, GateOpen, EnvelopeOf, EventOf, Grows, ReceiptNameOf, MessageOk, Valid, ClaimHeld, ExecutedOk, AppliedOk;
    StepGrows(h, w, l);
    RunnerParts(h, w, l.r);
    PhaseGrows(h, w, Do(h, w, l), w.runners[l.r].phase);
    var v := Do(h, w, l);
    forall name | name in v.blobs && name !in w.blobs ensures BlobOk(h, v, name) {
      assert name == ReceiptNameOf(w.runners[l.r].phase.d.env);
    }
    EffectKeeps(h, w, v, l.r);
  }

  lemma CompleteKeeps(h: Hashes, w: World, l: Label)
    requires Inv(h, w) && Enabled(h, w, l) && l.CompleteMessage?
    ensures Inv(h, Do(h, w, l))
  {
    hide Decodes, Inv, GateOpen, EventOf, BlobOk, Grows, ReceiptNameOf, Valid, ClaimHeld, ExecutedOk, AppliedOk, EnvelopeOf;
    StepGrows(h, w, l);
    RunnerParts(h, w, l.r);
    PhaseGrows(h, w, Do(h, w, l), w.runners[l.r].phase);
    EffectKeeps(h, w, Do(h, w, l), l.r);
  }

  lemma HandleKeeps(h: Hashes, w: World, l: Label)
    requires Inv(h, w) && Enabled(h, w, l) && l.Handle?
    ensures Inv(h, Do(h, w, l))
  {
    hide Decodes, Inv, GateOpen, BlobOk, Grows, ReceiptNameOf, Valid, ClaimHeld, ExecutedOk, AppliedOk, EnvelopeOf, PlanBytes;
    hide DecodePhase, FaultPhase, MayClaim, MaySave, MayDownload, Gate.Accepts;
    StepGrows(h, w, l);
    RunnerParts(h, w, l.r);
    PhaseGrows(h, w, Do(h, w, l), w.runners[l.r].phase);
    EffectKeeps(h, w, Do(h, w, l), l.r);
  }

  lemma StepKeeps(h: Hashes, w: World, l: Label)
    requires Inv(h, w)
    ensures Inv(h, Step(h, w, l))
  {
    hide Decodes, Inv, Do, Enabled;
    if Enabled(h, w, l) {
      if MovesOnly(l) { MovesOk(h, w, l); }
      else {
        match l
        case Tick(_) => ProduceKeeps(h, w, l);
        case Produce(_, _, _) => ProduceKeeps(h, w, l);
        case CheckReceipt(_) => CheckReceiptKeeps(h, w, l);
        case Admit(_, _) => AdmitKeeps(h, w, l);
        case StorePlan(_, _) => StorePlanKeeps(h, w, l);
        case Apply(_) => ApplyKeeps(h, w, l);
        case Publish(_) => PublishKeeps(h, w, l);
        case WriteReceipt(_, _) => WriteReceiptKeeps(h, w, l);
        case CompleteMessage(_) => CompleteKeeps(h, w, l);
        case Handle(_, _, _, _) => HandleKeeps(h, w, l);
      }
    }
  }

  lemma {:induction false} RunKeeps(h: Hashes, w: World, ls: seq<Label>)
    requires Inv(h, w)
    ensures Inv(h, Run(h, w, ls)) && Grows(w, Run(h, w, ls))
    decreases |ls|
  {
    hide Decodes, Inv, Do, Enabled, Grows;
    if ls == [] {
      GrowsRefl(w);
    } else {
      StepKeeps(h, w, ls[0]);
      if Enabled(h, w, ls[0]) { StepGrows(h, w, ls[0]); } else { GrowsRefl(w); }
      RunKeeps(h, Step(h, w, ls[0]), ls[1..]);
      GrowsTransitive(w, Step(h, w, ls[0]), Run(h, w, ls));
    }
  }

  lemma GrowsRefl(w: World)
    ensures Grows(w, w)
  {
  }

  /** Every state of every run. */
  lemma ReachableInv(h: Hashes, now: int, ls: seq<Label>)
    ensures Inv(h, Run(h, Init(now), ls))
  {
    hide Decodes, Run;
    assert Inv(h, Init(now));
    RunKeeps(h, Init(now), ls);
  }
}
