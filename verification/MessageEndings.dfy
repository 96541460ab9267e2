/** How a message leaves the queue: over every run, exactly which steps complete or dead-letter it. */
module MessageEndings {
  import opened Wrappers
  import opened Text
  import opened Contracts
  import opened BlobStore
  import opened RunnerProtocol
  import opened RunnerInvariant
  import opened RunnerTheorems
  import Gate = ExecutionGate

  ghost predicate Waiting(v: World, m: Id) {
    m in v.messages && v.messages[m].state == MessageState.Pending
  }

  /** A safety or tool failure of one of its deliveries, settled by the handler. */
  ghost predicate DeadLetters(h: Hashes, v: World, l: Label, m: Id) {
    l.Handle? && Enabled(h, v, l) && Waiting(v, m) && l.settled && v.runners[l.r].phase.msg == m
    && (v.runners[l.r].phase.failure == SafetyGate || v.runners[l.r].phase.failure == Tool)
  }

  /** The last step of its own work, or a delivery that finds the job's receipt. */
  ghost predicate Completes(h: Hashes, v: World, l: Label, m: Id) {
    Enabled(h, v, l) && Waiting(v, m) &&
    (|| (l.CompleteMessage? && v.runners[l.r].phase.d.msg == m)
     || (l.CheckReceipt? && v.runners[l.r].phase.d.msg == m && ReceiptOf(v.runners[l.r].phase.d.env) in v.blobs))
  }

  function ReceiptOf(e: Envelope): string {
    "receipts/" + e.claims.tenantId + "/" + e.claims.workflowId + "/" + e.jobDigest + ".json"
  }

  ghost predicate Settling(l: Label) {
    l.Handle? || l.CompleteMessage? || l.CheckReceipt?
  }

  /** Every other step leaves the messages alone, apart from adding one. */
  lemma QuietStep(h: Hashes, v: World, l: Label, m: Id)
    requires m in v.messages && Enabled(h, v, l) && !Settling(l)
    ensures m in Do(h, v, l).messages && Do(h, v, l).messages[m] == v.messages[m]
  {
    hide DecodePhase, FaultPhase, EnvelopeOf, EventOf, GateOpen, MayDownload, MayClaim, MaySave, AfterProtect,
      Finally, Working, Gate.Accepts, ScopeOf, IsApply, Claim, SavePlan, Receipt, ReceiptNameOf;
  }

  lemma SettlingStep(h: Hashes, v: World, l: Label, m: Id)
    requires m in v.messages && Enabled(h, v, l) && Settling(l)
    ensures m in Do(h, v, l).messages
    ensures Do(h, v, l).messages[m].payload == v.messages[m].payload && Do(h, v, l).messages[m].queue == v.messages[m].queue
    ensures Do(h, v, l).messages[m].state
         == if DeadLetters(h, v, l, m) then DeadLettered else if Completes(h, v, l, m) then MessageState.Completed
            else v.messages[m].state
  {
    hide EventOf, Finally, ReceiptOf, ReceiptNameOf;
    if l.CheckReceipt? { SameReceipt(v.runners[l.r].phase.d.env); }
  }

  lemma SameReceipt(e: Envelope)
    ensures ReceiptOf(e) == ReceiptNameOf(e)
  {
  }

  /** One step and one message: it leaves the queue in one of these two ways, or stays as it is. */
  lemma MessageStep(h: Hashes, v: World, l: Label, m: Id)
    requires m in v.messages
    ensures m in Step(h, v, l).messages
    ensures Step(h, v, l).messages[m].payload == v.messages[m].payload && Step(h, v, l).messages[m].queue == v.messages[m].queue
    ensures Step(h, v, l).messages[m].state
         == if DeadLetters(h, v, l, m) then DeadLettered else if Completes(h, v, l, m) then MessageState.Completed
            else v.messages[m].state
  {
    if Enabled(h, v, l) {
      hide Enabled, Do;
      if Settling(l) {
        SettlingStep(h, v, l, m);
      } else {
        QuietStep(h, v, l, m);
      }
    }
  }

  lemma NewMessage(h: Hashes, v: World, l: Label, m: Id)
    requires m !in v.messages && m in Step(h, v, l).messages
    ensures l.Produce? && Step(h, v, l).messages[m] == Message(l.payload, l.queue, MessageState.Pending)
    ensures forall k :: !DeadLetters(h, v, k, m) && !Completes(h, v, k, m)
  {
    hide DecodePhase, FaultPhase, EnvelopeOf, EventOf, GateOpen, MayDownload, MayClaim, MaySave, AfterProtect,
      Finally, Working, Gate.Accepts, ScopeOf, IsApply, Claim, SavePlan, Receipt, ReceiptOf, ReceiptNameOf;
  }

  ghost predicate DeadLetteredAt(h: Hashes, w: World, ls: seq<Label>, m: Id) {
    exists i :: 0 <= i < |ls| && DeadLetters(h, Run(h, w, ls[..i]), ls[i], m)
  }

  ghost predicate CompletedAt(h: Hashes, w: World, ls: seq<Label>, m: Id) {
    exists i :: 0 <= i < |ls| && Completes(h, Run(h, w, ls[..i]), ls[i], m)
  }

  lemma Extended(h: Hashes, w: World, front: seq<Label>, l: Label, m: Id)
    ensures var ls := front + [l];
            && (DeadLetteredAt(h, w, ls, m) <==> DeadLetteredAt(h, w, front, m) || DeadLetters(h, Run(h, w, front), l, m))
            && (CompletedAt(h, w, ls, m) <==> CompletedAt(h, w, front, m) || Completes(h, Run(h, w, front), l, m))
  {
    hide Run, DeadLetters, Completes;
    var ls := front + [l];
    assert ls[..|front|] == front && ls[|front|] == l;
    assert forall i :: 0 <= i < |front| ==> ls[..i] == front[..i] && ls[i] == front[i];
    if DeadLetteredAt(h, w, front, m) {
      var i :| 0 <= i < |front| && DeadLetters(h, Run(h, w, front[..i]), front[i], m);
      assert DeadLetters(h, Run(h, w, ls[..i]), ls[i], m);
    }
    if CompletedAt(h, w, front, m) {
      var i :| 0 <= i < |front| && Completes(h, Run(h, w, front[..i]), front[i], m);
      assert Completes(h, Run(h, w, ls[..i]), ls[i], m);
    }
    if DeadLetters(h, Run(h, w, front), l, m) { assert DeadLetters(h, Run(h, w, ls[..|front|]), ls[|front|], m); }
    if Completes(h, Run(h, w, front), l, m) { assert Completes(h, Run(h, w, ls[..|front|]), ls[|front|], m); }
  }

  /** In every run a message is dead-lettered exactly if a handler settled a safety or tool failure of one
      of its deliveries while it was pending, completed exactly if its own work ended or a delivery found
      the receipt, never both, and otherwise still pending. */
  lemma {:induction false} EndingsExactly(h: Hashes, now: int, ls: seq<Label>, m: Id)
    ensures var v := Run(h, Init(now), ls);
            if m in v.messages
            then && (v.messages[m].state == DeadLettered <==> DeadLetteredAt(h, Init(now), ls, m))
                 && (v.messages[m].state == MessageState.Completed <==> CompletedAt(h, Init(now), ls, m))
            else !DeadLetteredAt(h, Init(now), ls, m) && !CompletedAt(h, Init(now), ls, m)
    decreases |ls|
  {
    if ls != [] {
      var k := |ls| - 1;
      var front, v := ls[..k], Run(h, Init(now), ls[..k]);
      assert ls == front + [ls[k]];
      EndingsExactly(h, now, front, m);
      Extended(h, Init(now), front, ls[k], m);
      RunSnoc(h, Init(now), front, ls[k]);
      if m in v.messages {
        MessageStep(h, v, ls[k], m);
        NotBoth(h, v, ls[k], m);
      } else if m in Step(h, v, ls[k]).messages {
        NewMessage(h, v, ls[k], m);
      } else {
        NotThere(h, v, ls[k], m);
      }
      hide Run, Step, DeadLetters, Completes, DeadLetteredAt, CompletedAt;
    }
  }

  lemma NotBoth(h: Hashes, v: World, l: Label, m: Id)
    ensures !(DeadLetters(h, v, l, m) && Completes(h, v, l, m))
    ensures DeadLetters(h, v, l, m) || Completes(h, v, l, m) ==> Waiting(v, m)
  {
  }

  lemma NotThere(h: Hashes, v: World, l: Label, m: Id)
    requires m !in v.messages
    ensures !DeadLetters(h, v, l, m) && !Completes(h, v, l, m)
  {
  }

  /** The id and content of an outcome event. */
  lemma EventText(h: Hashes, e: Envelope, success: bool)
    ensures EventOf(h, e, success) ==
              Event("evt-" + h.text("workflow-event.v1:" + e.claims.tenantId + ":" + e.claims.workflowId + ":" + e.claims.jobId
                                    + ":" + ("terraform." + e.claims.operation + (if success then ".completed" else ".failed"))),
                    e.jobDigest, success)
  {
  }
}
