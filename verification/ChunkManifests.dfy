/**
 Chunk manifests.  A digest is the content it was computed from, seen through equality
 only: SHA-256 (FIPS 180-4, section 6.2) taken as an injective function.
 */
module ChunkManifests {
  import opened Wrappers

  newtype Byte = n: int | 0 <= n < 256

  type Bytes = seq<Byte>

  datatype Digest = Digest(content: Bytes)

  function Sha256(content: Bytes): Digest {
    Digest(content)
  }

  /** Storage keys: `{prefix}/part-{index:06d}.bin`, or any other name. */
  datatype Key = Part(prefix: string, index: nat) | Named(name: string)

  type Objects = map<Key, Bytes>

  datatype ChunkEntry = ChunkEntry(index: nat, name: Key, offset: nat, size: nat, sha256: Digest)

  datatype ChunkManifest = ChunkManifest(
    sourceName: string, totalSize: nat, wholeSha256: Digest, partSize: nat, parts: seq<ChunkEntry>)

  datatype ManifestError =
    | IndexOutOfOrder(position: nat) | NotContiguous(position: nat) | WrongCoverage
    | NotPositive | UnknownProfile

  const STORAGE_PROFILES: map<string, nat> :=
    map["chatgpt_upload" := 95_000_000, "colab_processing" := 1_073_741_824, "unstable_network" := 268_435_456]
  const DEFAULT_PROFILE := "colab_processing"

  /** An explicit size wins over a profile; an absent or empty profile is the default one. */
  function ResolvePartSize(profile: Option<string>, partSizeBytes: Option<int>): (r: Result<nat, ManifestError>)
    ensures r.Ok? ==> r.value > 0
    ensures partSizeBytes.Some? ==>
      (r.Ok? <==> partSizeBytes.value > 0) && (r.Ok? ==> r.value == partSizeBytes.value) && r != Err(UnknownProfile)
    ensures partSizeBytes.None? && profile.Some? && profile.value != "" ==>
      && (r.Ok? <==> profile.value in {"chatgpt_upload", "colab_processing", "unstable_network"})
      && (r.Ok? ==> r.value == STORAGE_PROFILES[profile.value]) && r != Err(NotPositive)
    ensures partSizeBytes.None? && (profile.None? || profile == Some("")) ==> r == Ok(1_073_741_824)
    ensures r.Err? ==> r.error in {NotPositive, UnknownProfile}
  {
    match partSizeBytes
    case Some(size) => if size <= 0 then Err(NotPositive) else Ok(size)
    case None =>
      var name := if profile.None? || profile.value == "" then DEFAULT_PROFILE else profile.value;
      if name !in STORAGE_PROFILES then Err(UnknownProfile) else Ok(STORAGE_PROFILES[name])
  }

  /** Where part `k` must start: the sizes of the parts before it. */
  function OffsetOf(parts: seq<ChunkEntry>, k: nat): nat
    requires k <= |parts|
  {
    if k == 0 then 0 else OffsetOf(parts, k - 1) + parts[k - 1].size
  }

  lemma {:induction false} OffsetOfPrefix(parts: seq<ChunkEntry>, n: nat, k: nat)
    requires k <= n <= |parts|
    ensures OffsetOf(parts[..n], k) == OffsetOf(parts, k)
    decreases k
  {
    if k > 0 { OffsetOfPrefix(parts, n, k - 1); }
  }

  predicate InPlace(parts: seq<ChunkEntry>, k: nat)
    requires k < |parts|
  {
    parts[k].index == k && parts[k].offset == OffsetOf(parts, k)
  }

  ghost predicate Contiguous(m: ChunkManifest) {
    && (forall k | 0 <= k < |m.parts| :: InPlace(m.parts, k))
    && (m.parts != [] ==> OffsetOf(m.parts, |m.parts|) == m.totalSize)
  }

  /** The manifest validator: it accepts exactly the contiguous manifests and names the first fault. */
  method CheckContiguity(m: ChunkManifest) returns (r: Result<(), ManifestError>)
    ensures r.Ok? <==> Contiguous(m)
    ensures forall p: nat :: r == Err(IndexOutOfOrder(p)) ==>
      p < |m.parts| && m.parts[p].index != p && forall k | 0 <= k < p :: InPlace(m.parts, k)
    ensures forall p: nat :: r == Err(NotContiguous(p)) ==>
      p < |m.parts| && m.parts[p].index == p && m.parts[p].offset != OffsetOf(m.parts, p)
      && forall k | 0 <= k < p :: InPlace(m.parts, k)
    ensures r == Err(WrongCoverage) ==>
      (forall k | 0 <= k < |m.parts| :: InPlace(m.parts, k)) && OffsetOf(m.parts, |m.parts|) != m.totalSize
    ensures r.Err? ==> r.error.IndexOutOfOrder? || r.error.NotContiguous? || r.error.WrongCoverage?
  {
    var expected := 0;
    for position := 0 to |m.parts|
      invariant expected == OffsetOf(m.parts, position)
      invariant forall k | 0 <= k < position :: InPlace(m.parts, k)
    {
      var part := m.parts[position];
      if part.index != position {
        assert !InPlace(m.parts, position);
        return Err(IndexOutOfOrder(position));
      }
      if part.offset != expected {
        assert !InPlace(m.parts, position);
        return Err(NotContiguous(position));
      }
      expected := expected + part.size;
    }
    if m.parts != [] && expected != m.totalSize {
      return Err(WrongCoverage);
    }
    return Ok(());
  }

  predicate Covers(part: ChunkEntry, position: nat) {
    part.offset <= position < part.offset + part.size
  }

  lemma {:induction false} OffsetsGrow(parts: seq<ChunkEntry>, j: nat, k: nat)
    requires j <= k <= |parts|
    ensures OffsetOf(parts, j) <= OffsetOf(parts, k)
  {
    if j < k { OffsetsGrow(parts, j, k - 1); }
  }

  lemma {:induction false} FindPart(parts: seq<ChunkEntry>, k: nat, position: nat) returns (i: nat)
    requires k <= |parts| && position < OffsetOf(parts, k)
    requires forall j | 0 <= j < |parts| :: InPlace(parts, j)
    ensures i < k && Covers(parts[i], position)
  {
    assert InPlace(parts, k - 1);
    if position < OffsetOf(parts, k - 1) {
      i := FindPart(parts, k - 1, position);
    } else {
      i := k - 1;
    }
  }

  /** What contiguity is for: every byte of the source lies in exactly one part, and no part beyond it. */
  lemma ContiguousTiles(m: ChunkManifest, position: nat)
    requires Contiguous(m) && m.parts != []
    ensures position < m.totalSize <==> exists i :: 0 <= i < |m.parts| && Covers(m.parts[i], position)
    ensures forall i, j | 0 <= i < |m.parts| && 0 <= j < |m.parts| ::
      Covers(m.parts[i], position) && Covers(m.parts[j], position) ==> i == j
  {
    forall i, j | 0 <= i < j < |m.parts|
      ensures m.parts[i].offset + m.parts[i].size <= m.parts[j].offset
    {
      assert InPlace(m.parts, i) && InPlace(m.parts, j);
      OffsetsGrow(m.parts, i + 1, j);
    }
    forall i | 0 <= i < |m.parts| && Covers(m.parts[i], position) ensures position < m.totalSize {
      assert InPlace(m.parts, i);
      OffsetsGrow(m.parts, i + 1, |m.parts|);
    }
    if position < m.totalSize {
      var i := FindPart(m.parts, |m.parts|, position);
    }
  }
}
