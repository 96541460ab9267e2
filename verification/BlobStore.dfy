/**
 worker/azure_adapters.py: write-once blobs in the executor container. Saved plans, approval
 claims and completion receipts share one container and are told apart by name alone.
 */
module BlobStore {
  import opened Wrappers
  import opened Text
  import opened Contracts
  import AcceptedMessages

  // ---- Names ----------------------------------------------------------------------------

  function PlanBlob(tenant: string, workflow: string, job: string, sha: string): string {
    PlanPrefix(tenant, workflow) + job + "/" + sha + ".tfplan"
  }

  function ReceiptBlob(tenant: string, workflow: string, digest: string): string {
    "receipts/" + tenant + "/" + workflow + "/" + digest + ".json"
  }

  function ClaimBlob(tenant: string, approval: string): string {
    "approval-claims/" + tenant + "/" + approval + ".json"
  }

  /** A name under one tenant's and workflow's plan prefix belongs to that tenant and workflow. */
  lemma PlanPrefixDecodes(t: string, w: string, rest: string, t': string, w': string)
    requires |t| == |t'| == 36 && |w| == |w'| == 36
    requires StartsWith(PlanPrefix(t, w) + rest, PlanPrefix(t', w'))
    ensures t == t' && w == w'
  {
    var p, q := PlanPrefix(t, w), PlanPrefix(t', w');
    assert |p| == |q|;
    assert (p + rest)[..|q|] == p;
    assert p[8..44] == t && q[8..44] == t';
    assert p[55..91] == w && q[55..91] == w';
  }

  lemma PlanNameDecodes(t: string, w: string, j: string, sha: string, t': string, w': string, j': string, sha': string)
    requires |t| == |t'| == 36 && |w| == |w'| == 36 && |j| == |j'| == 36
    requires PlanBlob(t, w, j, sha) == PlanBlob(t', w', j', sha')
    ensures t == t' && w == w' && j == j' && sha == sha'
  {
    var n := PlanBlob(t, w, j, sha);
    assert n == PlanPrefix(t, w) + (j + "/" + sha + ".tfplan");
    assert n[..|PlanPrefix(t', w')|] == PlanPrefix(t', w');
    PlanPrefixDecodes(t, w, j + "/" + sha + ".tfplan", t', w');
    var k := |PlanPrefix(t, w)|;
    assert n[k..k + 36] == j && PlanBlob(t', w', j', sha')[k..k + 36] == j';
    assert n[k + 37..|n| - 7] == sha && PlanBlob(t', w', j', sha')[k + 37..|n| - 7] == sha';
  }

  lemma ReceiptNameDecodes(t: string, w: string, d: string, t': string, w': string, d': string)
    requires |t| == |t'| == 36 && |w| == |w'| == 36
    requires ReceiptBlob(t, w, d) == ReceiptBlob(t', w', d')
    ensures t == t' && w == w' && d == d'
  {
    var n, m := ReceiptBlob(t, w, d), ReceiptBlob(t', w', d');
    assert n[9..45] == t && m[9..45] == t';
    assert n[46..82] == w && m[46..82] == w';
    assert n[83..|n| - 5] == d && m[83..|m| - 5] == d';
  }

  lemma ClaimNameDecodes(t: string, a: string, t': string, a': string)
    requires |t| == |t'| == 36
    requires ClaimBlob(t, a) == ClaimBlob(t', a')
    ensures t == t' && a == a'
  {
    var n, m := ClaimBlob(t, a), ClaimBlob(t', a');
    assert n[16..52] == t && m[16..52] == t';
    assert n[53..|n| - 5] == a && m[53..|m| - 5] == a';
  }

  /** The three families never meet. */
  lemma NamespacesDisjoint(name: string, t: string, w: string, x: string, y: string)
    ensures StartsWith(name, "tenants/") ==> name != ReceiptBlob(t, w, x) && name != ClaimBlob(t, x)
    ensures ReceiptBlob(t, w, x) != ClaimBlob(t, y)
  {
    assert ReceiptBlob(t, w, x)[0] == 'r' && ClaimBlob(t, x)[0] == 'a' && ClaimBlob(t, y)[0] == 'a';
    if StartsWith(name, "tenants/") {
      assert name[..8][0] == 't';
    }
  }

  // ---- Contents -------------------------------------------------------------------------

  datatype PlanMetadata = PlanMetadata(
    sha256: string, planJobDigest: string, bundleSha256: string, inputsSha256: string,
    scopeDigest: string, policyDigest: string)

  /** The JSON document an approval claim hashes into its metadata. */
  datatype ClaimRecord = ClaimRecord(
    approvalId: string, applyJobId: string, applyJobDigest: string, planSha256: string,
    scopeDigest: string, policyDigest: string, costSha256: string)

  datatype Content =
    | PlanContent(bytes: Bytes, metadata: PlanMetadata)
    | ClaimContent(claim: ClaimRecord)
    | ReceiptContent(digest: string, operation: string)

  datatype Blob = Blob(content: Content, etag: string)

  type Container = map<string, Blob>

  /** upload_blob(overwrite=False): the first writer wins. */
  function PutIfAbsent(c: Container, name: string, blob: Blob): Container {
    if name in c then c else c[name := blob]
  }

  // ---- The five operations --------------------------------------------------------------

  function MetadataOf(e: Envelope, sha: string): PlanMetadata {
    PlanMetadata(sha, e.jobDigest, e.claims.bundle.sha256, e.claims.inputs.sha256,
                 e.claims.guardrails.scopeDigest, e.claims.guardrails.policyDigest)
  }

  function PlanNameOf(e: Envelope, sha: string): string {
    PlanBlob(e.claims.tenantId, e.claims.workflowId, e.claims.jobId, sha)
  }

  function ReceiptNameOf(e: Envelope): string {
    ReceiptBlob(e.claims.tenantId, e.claims.workflowId, e.jobDigest)
  }

  function ClaimNameOf(e: Envelope): string
    requires e.claims.approval.Some?
  {
    ClaimBlob(e.claims.tenantId, e.claims.approval.value.approvalId)
  }

  predicate MaySave(c: Container, e: Envelope, sha: string) {
    PlanNameOf(e, sha) in c ==>
      c[PlanNameOf(e, sha)].content.PlanContent? && c[PlanNameOf(e, sha)].content.metadata == MetadataOf(e, sha)
  }

  function SavePlan(c: Container, e: Envelope, bytes: Bytes, sha: string, etag: string): Container {
    PutIfAbsent(c, PlanNameOf(e, sha), Blob(PlanContent(bytes, MetadataOf(e, sha)), etag))
  }

  /** A download under an ETag condition, verified against the digest in the reference. */
  predicate MayDownload(h: Hashes, c: Container, p: SavedPlan) {
    && p.blobName in c && c[p.blobName].etag == p.etag && c[p.blobName].content.PlanContent?
    && IsSha256(p.sha256) && h.file(c[p.blobName].content.bytes) == p.sha256
  }

  function ClaimOf(e: Envelope): ClaimRecord
    requires e.claims.approval.Some? && e.claims.savedPlan.Some?
  {
    ClaimRecord(e.claims.approval.value.approvalId, e.claims.jobId, e.jobDigest, e.claims.savedPlan.value.sha256,
                e.claims.guardrails.scopeDigest, e.claims.guardrails.policyDigest, e.claims.approval.value.costSha256)
  }

  predicate IsApply(e: Envelope) {
    e.claims.operation == "apply" && e.claims.approval.Some? && e.claims.savedPlan.Some?
  }

  predicate MayClaim(c: Container, e: Envelope) {
    && IsApply(e)
    && (ClaimNameOf(e) in c ==> c[ClaimNameOf(e)].content == ClaimContent(ClaimOf(e)))
  }

  function Claim(c: Container, e: Envelope, etag: string): Container
    requires IsApply(e)
  {
    PutIfAbsent(c, ClaimNameOf(e), Blob(ClaimContent(ClaimOf(e)), etag))
  }

  function Receipt(c: Container, e: Envelope, etag: string): Container {
    PutIfAbsent(c, ReceiptNameOf(e), Blob(ReceiptContent(e.jobDigest, e.claims.operation), etag))
  }

  class AzureBlobArtifactStore {
    var blobs: Container

    constructor ()
      ensures blobs == map[]
    {
      blobs := map[];
    }

    /** `etag` is what the service assigns to a new blob. */
    method SavePrivatePlan(e: Envelope, bytes: Bytes, sha: string, etag: string) returns (r: Option<SavedPlan>)
      modifies this
      ensures r.Some? <==> MaySave(old(blobs), e, sha)
      ensures blobs == SavePlan(old(blobs), e, bytes, sha, etag)
      ensures r.Some? ==> r.value.blobName == PlanNameOf(e, sha) && r.value.blobName in blobs
                          && r.value.etag == blobs[r.value.blobName].etag && r.value.sha256 == sha
                          && r.value.planJobDigest == e.jobDigest
      ensures var name := "tenants/" + e.claims.tenantId + "/workflows/" + e.claims.workflowId + "/plans/" + e.claims.jobId + "/"
                          + sha + ".tfplan";
              var stored := PlanContent(bytes, PlanMetadata(sha, e.jobDigest, e.claims.bundle.sha256, e.claims.inputs.sha256,
                                                            e.claims.guardrails.scopeDigest, e.claims.guardrails.policyDigest));
              && blobs == (if name in old(blobs) then old(blobs) else old(blobs)[name := Blob(stored, etag)])
              && (r.Some? <==> name !in old(blobs) || (old(blobs)[name].content.PlanContent?
                                                       && old(blobs)[name].content.metadata == stored.metadata))
              && (r.Some? ==> r.value == SavedPlan(name, blobs[name].etag, sha, e.jobDigest, e.claims.bundle.sha256,
                                e.claims.inputs.sha256, e.claims.guardrails.scopeDigest, e.claims.guardrails.policyDigest))
    {
      var name := PlanNameOf(e, sha);
      if name !in blobs {
        blobs := blobs[name := Blob(PlanContent(bytes, MetadataOf(e, sha)), etag)];
      } else if blobs[name].content.PlanContent? && blobs[name].content.metadata == MetadataOf(e, sha) {
      } else {
        return None;
      }
      return Some(SavedPlan(name, blobs[name].etag, sha, e.jobDigest, e.claims.bundle.sha256,
        e.claims.inputs.sha256, e.claims.guardrails.scopeDigest, e.claims.guardrails.policyDigest));
    }

    method DownloadPrivatePlan(h: Hashes, p: SavedPlan) returns (r: Option<Bytes>)
      ensures r.Some? <==> MayDownload(h, blobs, p)
      ensures r.Some? ==> r.value == blobs[p.blobName].content.bytes && h.file(r.value) == p.sha256
      ensures r.Some? <==>
                && p.blobName in blobs && blobs[p.blobName].etag == p.etag && blobs[p.blobName].content.PlanContent?
                && AcceptedMessages.Digest(p.sha256)
                && p.sha256 == h.file(blobs[p.blobName].content.bytes)
    {
      AcceptedMessages.DigestMeaning(p.sha256);
      if p.blobName !in blobs || blobs[p.blobName].etag != p.etag || !blobs[p.blobName].content.PlanContent? {
        return None;
      }
      var bytes := blobs[p.blobName].content.bytes;
      if !IsSha256(p.sha256) || h.file(bytes) != p.sha256 {
        return None;
      }
      return Some(bytes);
    }

    method ClaimApproval(e: Envelope, etag: string) returns (admitted: bool)
      modifies this
      ensures admitted <==> MayClaim(old(blobs), e)
      ensures blobs == if IsApply(e) then Claim(old(blobs), e, etag) else old(blobs)
      ensures e.claims.operation != "apply" || e.claims.approval.None? || e.claims.savedPlan.None? ==>
                !admitted && blobs == old(blobs)
      ensures e.claims.operation == "apply" && e.claims.approval.Some? && e.claims.savedPlan.Some? ==>
                var name := "approval-claims/" + e.claims.tenantId + "/" + e.claims.approval.value.approvalId + ".json";
                var record := ClaimContent(ClaimRecord(e.claims.approval.value.approvalId, e.claims.jobId, e.jobDigest,
                                e.claims.savedPlan.value.sha256, e.claims.guardrails.scopeDigest,
                                e.claims.guardrails.policyDigest, e.claims.approval.value.costSha256));
                && blobs == (if name in old(blobs) then old(blobs) else old(blobs)[name := Blob(record, etag)])
                && (admitted <==> blobs[name].content == record)
    {
      if !IsApply(e) {
        return false;
      }
      var name := ClaimNameOf(e);
      if name !in blobs {
        blobs := blobs[name := Blob(ClaimContent(ClaimOf(e)), etag)];
        return true;
      }
      return blobs[name].content == ClaimContent(ClaimOf(e));
    }

    method WasCompleted(e: Envelope) returns (done: bool)
      ensures done <==> ReceiptNameOf(e) in blobs
      ensures done <==> "receipts/" + e.claims.tenantId + "/" + e.claims.workflowId + "/" + e.jobDigest + ".json" in blobs
    {
      done := ReceiptNameOf(e) in blobs;
    }

    method MarkCompleted(e: Envelope, etag: string)
      modifies this
      ensures blobs == Receipt(old(blobs), e, etag)
      ensures ReceiptNameOf(e) in blobs
      ensures var name := "receipts/" + e.claims.tenantId + "/" + e.claims.workflowId + "/" + e.jobDigest + ".json";
              blobs == if name in old(blobs) then old(blobs)
                       else old(blobs)[name := Blob(ReceiptContent(e.jobDigest, e.claims.operation), etag)]
    {
      if ReceiptNameOf(e) !in blobs {
        blobs := blobs[ReceiptNameOf(e) := Blob(ReceiptContent(e.jobDigest, e.claims.operation), etag)];
      }
    }
  }
}
