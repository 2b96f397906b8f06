/** The content-addressed artifact store, and what its hashes do and do not pin down. */
module ContentStore {
  import opened Prelude
  import opened Lifecycle
  import opened Control
  import opened HostMachine

  function WriteFiles(s: StoreState, h: Hash, jam: Option<Bytes>, bin: Bytes): StoreState {
    StoreState(s.bins[h := bin], if jam.Some? then s.jams[h := jam.value] else s.jams)
  }

  /** A hash with both files is left alone. */
  function PutInto(s: StoreState, h: Hash, jam: Option<Bytes>, bin: Bytes): StoreState {
    if Has(s, h) then s else WriteFiles(s, h, jam, bin)
  }

  class Store {
    var bins: map<Hash, Bytes>
    var jams: map<Hash, Bytes>

    constructor ()
      ensures Files() == StoreState(map[], map[])
    {
      bins, jams := map[], map[];
    }

    function Files(): StoreState
      reads this
    {
      StoreState(bins, jams)
    }

    method Put(env: Env, jam: Option<Bytes>, bin: Bytes, triple: Bytes) returns (rec: Record)
      modifies this
      ensures rec == ComputeHashes(env, jam, bin, triple)
      ensures Files() == PutInto(old(Files()), rec.artifact, jam, bin)
    {
      rec := ComputeHashes(env, jam, bin, triple);
      if Has(Files(), rec.artifact) {
        return;
      }
      if jam.Some? {
        jams := jams[rec.artifact := jam.value];
      }
      bins := bins[rec.artifact := bin];
    }

    /** Copy the kernel, if there is one, into the app's state dir. A failure may leave
        anything there. */
    method StageJam(artifact: Hash, host: Host, name: Name, luck: Spawn) returns (ok: bool)
      modifies host`staged
      ensures ok == !luck.StageFails?
      ensures forall n :: n != name ==> Lookup(host.staged, n) == old(Lookup(host.staged, n))
      ensures Lookup(host.staged, name) ==
        if !ok then luck.left
        else if artifact in jams then Some(jams[artifact])
        else old(Lookup(host.staged, name))
    {
      ok := !luck.StageFails?;
      if !ok {
        host.WriteKernel(name, luck.left);
      } else if artifact in jams {
        host.WriteKernel(name, Some(jams[artifact]));
      }
    }
  }

  // ---------- what a put leaves behind ----------

  predicate Holds(s: StoreState, h: Hash, jam: Option<Bytes>, bin: Bytes) {
    Lookup(s.bins, h) == Some(bin) && Lookup(s.jams, h) == jam
  }

  /** A put stores exactly what was uploaded if and only if the files already complete under
      the hash are those, or, when they are not complete, an upload without a kernel meets no
      kernel file left by another. */
  lemma PutStoresUploadIff(s: StoreState, h: Hash, jam: Option<Bytes>, bin: Bytes)
    ensures Holds(PutInto(s, h, jam, bin), h, jam, bin)
            <==> if Has(s, h) then s.bins[h] == bin && jam == Some(s.jams[h]) else jam.Some? || h !in s.jams
    ensures forall g :: g != h ==>
              && Lookup(PutInto(s, h, jam, bin).bins, g) == Lookup(s.bins, g)
              && Lookup(PutInto(s, h, jam, bin).jams, g) == Lookup(s.jams, g)
  {
  }

  /** The same upload again changes nothing. */
  lemma PutIdempotent(s: StoreState, h: Hash, jam: Option<Bytes>, bin: Bytes)
    ensures PutInto(PutInto(s, h, jam, bin), h, jam, bin) == PutInto(s, h, jam, bin)
  {
    var s1 := PutInto(s, h, jam, bin);
    if !Has(s1, h) {
      assert s1.bins[h := bin] == s1.bins;
      assert s1.jams == s.jams;
    }
  }

  /** Later puts under the hash are no-ops exactly when a kernel file is there: a binary-only
      artifact is written again every time. */
  lemma FrozenIffKernel(s: StoreState, h: Hash, jam: Option<Bytes>, bin: Bytes)
    ensures (forall jam', bin' :: PutInto(PutInto(s, h, jam, bin), h, jam', bin') == PutInto(s, h, jam, bin))
            <==> jam.Some? || h in s.jams
  {
    var s1 := PutInto(s, h, jam, bin);
    if jam.None? && h !in s.jams {
      var s2 := PutInto(s1, h, None, bin + [0]);
      assert s2.bins[h] == bin + [0] && s1.bins[h] == bin;
      assert |bin + [0]| != |bin|;
      assert s2 != s1;
    }
  }

  /** After staging, the state dir holds the artifact's kernel and nothing else exactly when
      the artifact has one or there was none before: a binary-only artifact is started beside
      the kernel of its predecessor. */
  lemma StagedIsKernelIff(c: Cell, kernel: Option<Bytes>)
    ensures Staged(c, kernel).staged == kernel <==> kernel.Some? || c.staged.None?
  {
  }

  // ---------- what the hashes identify ----------

  ghost predicate Injective(env: Env) {
    forall a: Bytes, b: Bytes :: env.blake3(a) == env.blake3(b) ==> a == b
  }

  /** Even with a perfect hash, artifacts are told apart only by kernel, binary and triple run
      together. */
  lemma SameArtifactIff(env: Env, jam: Option<Bytes>, bin: Bytes, triple: Bytes, jam': Option<Bytes>, bin': Bytes,
                        triple': Bytes)
    requires Injective(env)
    ensures ComputeHashes(env, jam, bin, triple).artifact == ComputeHashes(env, jam', bin', triple').artifact
            <==> JamBytes(jam) + bin + triple == JamBytes(jam') + bin' + triple'
  {
  }

  /** Under any hash, moving the kernel into the binary keeps the artifact hash, and the second
      upload replaces the binary of the first. */
  lemma BoundaryOverwrites(env: Env, s: StoreState, jam: Bytes, bin: Bytes, triple: Bytes)
    requires jam != []
    requires ComputeHashes(env, None, jam + bin, triple).artifact !in s.jams
    ensures var h := ComputeHashes(env, None, jam + bin, triple).artifact;
            var s1 := PutInto(s, h, None, jam + bin);
            var s2 := PutInto(s1, h, Some(jam), bin);
            && ComputeHashes(env, Some(jam), bin, triple).artifact == h
            && Holds(s1, h, None, jam + bin)
            && Holds(s2, h, Some(jam), bin) && s2.bins[h] != s1.bins[h]
  {
    assert JamBytes(None) + (jam + bin) + triple == JamBytes(Some(jam)) + bin + triple;
    assert |jam + bin| != |bin|;
  }

  /** Both hashes together, which is what an attestation binds, do pin the upload down for a
      given triple. */
  lemma RecordPinsUpload(env: Env, jam: Option<Bytes>, bin: Bytes, jam': Option<Bytes>, bin': Bytes, triple: Bytes)
    requires Injective(env) && forall a: Bytes :: env.blake3(a) != ""
    ensures ComputeHashes(env, jam, bin, triple) == ComputeHashes(env, jam', bin', triple)
            <==> jam == jam' && bin == bin'
  {
    if ComputeHashes(env, jam, bin, triple) == ComputeHashes(env, jam', bin', triple) {
      assert jam == jam';
      SameArtifactIff(env, jam, bin, triple, jam', bin', triple);
      MiddleEqual(JamBytes(jam), bin, bin', triple);
    }
  }

  lemma MiddleEqual(front: Bytes, a: Bytes, b: Bytes, back: Bytes)
    requires front + a + back == front + b + back
    ensures a == b
  {
    assert |a| == |b|;
    assert (front + a + back)[|front|..|front| + |a|] == a;
    assert (front + b + back)[|front|..|front| + |b|] == b;
  }
}
