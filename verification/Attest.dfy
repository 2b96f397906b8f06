/** Build attestations: the verdict recorded for a deployed artifact. Signature checking is a
    parameter, as are the bytes it covers. */
module Attest {
  import opened Prelude
  import opened Lifecycle

  type Builder = string

  datatype Payload = Payload(artifactHash: Hash, kernelHash: Hash, builder: Builder, rest: Bytes)

  datatype Attestation = Attestation(payload: Payload, signature: Bytes)

  datatype Verdict = Verified | Unverified | Drift

  /** What a deploy request carried in its `attestation` field. */
  datatype Carried = Nothing | Malformed | Carried(att: Attestation)

  function VerifySignature(valid: Attestation -> bool, att: Attestation): Option<Builder> {
    if valid(att) then Some(att.payload.builder) else None
  }

  predicate Binds(att: Attestation, artifact: Hash, kernel: Hash) {
    att.payload.artifactHash == artifact && att.payload.kernelHash == kernel
  }

  function Assess(valid: Attestation -> bool, att: Attestation, artifact: Hash, kernel: Hash, trusted: set<Builder>)
    : (Verdict, Option<Builder>)
  {
    match VerifySignature(valid, att)
    case Some(builder) =>
      if !Binds(att, artifact, kernel) then (Drift, Some(builder))
      else if builder in trusted then (Verified, Some(builder))
      else (Unverified, Some(builder))
    case None => (Drift, None)
  }

  function AssessCarried(valid: Attestation -> bool, c: Carried, artifact: Hash, kernel: Hash, trusted: set<Builder>)
    : (Verdict, Option<Builder>)
  {
    match c
    case Nothing => (Unverified, None)
    case Malformed => (Drift, None)
    case Carried(att) => Assess(valid, att, artifact, kernel, trusted)
  }

  /** The evidence a "verified" reading stands for. */
  predicate Evidence(valid: Attestation -> bool, c: Carried, artifact: Hash, kernel: Hash, trusted: set<Builder>) {
    && c.Carried? && valid(c.att)
    && c.att.payload.artifactHash == artifact && c.att.payload.kernelHash == kernel
    && c.att.payload.builder in trusted
  }

  /** Something that claims to be an attestation of this artifact and is not: it cannot be read,
      its signature does not check, or it names other hashes. */
  predicate Tampered(valid: Attestation -> bool, c: Carried, artifact: Hash, kernel: Hash) {
    || c.Malformed?
    || (c.Carried? && (!valid(c.att) || c.att.payload.artifactHash != artifact || c.att.payload.kernelHash != kernel))
  }

  /** No attestation at all, or a good one by a builder who is not trusted. */
  predicate Untrusted(valid: Attestation -> bool, c: Carried, artifact: Hash, kernel: Hash, trusted: set<Builder>) {
    || c.Nothing?
    || (c.Carried? && valid(c.att) && c.att.payload.artifactHash == artifact && c.att.payload.kernelHash == kernel
        && c.att.payload.builder !in trusted)
  }

  /** Who signed, if the signature checks. */
  predicate SignedBy(valid: Attestation -> bool, c: Carried, builder: Option<Builder>) {
    if c.Carried? && valid(c.att) then builder == Some(c.att.payload.builder) else builder == None
  }

  lemma VerifiedIffEvidence(valid: Attestation -> bool, c: Carried, artifact: Hash, kernel: Hash, trusted: set<Builder>)
    ensures AssessCarried(valid, c, artifact, kernel, trusted).0.Verified?
            <==> Evidence(valid, c, artifact, kernel, trusted)
  {
  }

  /** The whole verdict, case by case. */
  lemma VerdictTable(valid: Attestation -> bool, c: Carried, artifact: Hash, kernel: Hash, trusted: set<Builder>)
    ensures var v := AssessCarried(valid, c, artifact, kernel, trusted);
            && (v.0.Verified? <==> Evidence(valid, c, artifact, kernel, trusted))
            && (v.0.Drift? <==> Tampered(valid, c, artifact, kernel))
            && (v.0.Unverified? <==> Untrusted(valid, c, artifact, kernel, trusted))
            && SignedBy(valid, c, v.1)
  {
    VerifiedIffEvidence(valid, c, artifact, kernel, trusted);
  }
}
