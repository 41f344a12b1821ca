/** Splitting a source into parts, resuming a stopped split, and putting the source together again. */
module Splitting {
  import opened Wrappers
  import opened ChunkManifests

  const READ_BLOCK: nat := 4 * 1024 * 1024

  datatype StorageError =
    | StorageFault | InvalidPartSize | Truncated | SourceChanged | FileNotFound | EndedEarly | ChecksumMismatch

  datatype SplitReport = SplitReport(manifest: ChunkManifest, written: nat, reused: nat)

  // ---------- What a split should produce ----------

  /** The source cut every `p` bytes; one empty part for an empty source. */
  function Chunks(source: Bytes, p: nat): (cs: seq<Bytes>)
    requires p > 0
    ensures cs != []
    decreases |source|
  {
    if |source| <= p then [source] else [source[..p]] + Chunks(source[p..], p)
  }

  function Entries(prefix: string, cs: seq<Bytes>, index: nat, offset: nat): (es: seq<ChunkEntry>)
    ensures |es| == |cs|
    decreases |cs|
  {
    if cs == [] then []
    else [ChunkEntry(index, Part(prefix, index), offset, |cs[0]|, Sha256(cs[0]))]
         + Entries(prefix, cs[1..], index + 1, offset + |cs[0]|)
  }

  function ManifestFor(source: Bytes, p: nat, prefix: string, name: string): ChunkManifest
    requires p > 0
  {
    ChunkManifest(name, |source|, Sha256(source), p, Entries(prefix, Chunks(source, p), 0, 0))
  }

  /** The objects after the first `k` parts are published. */
  function WithParts(objects: Objects, prefix: string, cs: seq<Bytes>, k: nat): Objects
    requires k <= |cs|
  {
    if k == 0 then objects else WithParts(objects, prefix, cs, k - 1)[Part(prefix, k - 1) := cs[k - 1]]
  }

  /** Part `i` is not stored, or stored with other bytes. */
  predicate Differs(objects: Objects, prefix: string, cs: seq<Bytes>, i: nat)
    requires i < |cs|
  {
    Part(prefix, i) !in objects || objects[Part(prefix, i)] != cs[i]
  }

  /** The parts among the first `k` that have to be uploaded, in order. */
  function Rewritten(objects: Objects, prefix: string, cs: seq<Bytes>, k: nat): seq<Key>
    requires k <= |cs|
  {
    if k == 0 then []
    else
      Rewritten(objects, prefix, cs, k - 1)
      + (if Differs(objects, prefix, cs, k - 1) then [Part(prefix, k - 1)] else [])
  }

  function Concat(cs: seq<Bytes>): Bytes {
    if cs == [] then [] else cs[0] + Concat(cs[1..])
  }

  // ---------- Properties of that specification ----------

  lemma {:induction false} ChunksConcat(source: Bytes, p: nat)
    requires p > 0
    ensures Concat(Chunks(source, p)) == source
    decreases |source|
  {
    if |source| <= p {
      assert Chunks(source, p)[1..] == [];
    } else {
      ChunksConcat(source[p..], p);
      assert Chunks(source, p)[1..] == Chunks(source[p..], p);
    }
  }

  /** ceil(size / part size) parts, one for an empty source; all full but the last, which is not empty. */
  lemma {:induction false} ChunkSizes(source: Bytes, p: nat)
    requires p > 0
    ensures var cs := Chunks(source, p);
      && |cs| == (if source == [] then 1 else (|source| + p - 1) / p)
      && (forall i | 0 <= i < |cs| - 1 :: |cs[i]| == p)
      && |cs[|cs| - 1]| <= p && (source != [] ==> cs[|cs| - 1] != [])
    decreases |source|
  {
    if |source| <= p {
      if source != [] {
        assert (|source| + p - 1) / p == 1 by { DivBetween(|source| + p - 1, p, 1); }
      }
    } else {
      ChunkSizes(source[p..], p);
      OneMore(|source| - 1, p);
    }
  }

  lemma OneMore(x: nat, p: nat)
    requires p > 0
    ensures (x + p) / p == x / p + 1
  {
    DivBetween(x + p, p, x / p + 1);
  }

  lemma DivBetween(x: nat, p: nat, q: nat)
    requires p > 0 && q * p <= x < q * p + p
    ensures x / p == q
  {
    var r := x / p;
    assert r * p <= x < r * p + p;
    MulLess(r, q, p);
    MulLess(q, r, p);
  }

  lemma {:induction false} MulLess(a: nat, b: nat, p: nat)
    ensures a < b ==> a * p + p <= b * p
  {
    if a + 1 < b { MulLess(a, b - 1, p); }
  }

  lemma {:induction false} EntryAt(prefix: string, cs: seq<Bytes>, index: nat, offset: nat, k: nat)
    requires k < |cs|
    ensures var e := Entries(prefix, cs, index, offset)[k];
      && e.index == index + k && e.name == Part(prefix, index + k)
      && e.size == |cs[k]| && e.sha256 == Sha256(cs[k])
    decreases k
  {
    if k > 0 { EntryAt(prefix, cs[1..], index + 1, offset + |cs[0]|, k - 1); }
  }

  lemma {:induction false} EntryOffsets(prefix: string, cs: seq<Bytes>, index: nat, offset: nat, k: nat)
    requires k <= |cs|
    ensures var es := Entries(prefix, cs, index, offset);
      && (k < |cs| ==> es[k].offset == offset + OffsetOf(es, k))
      && (k == |cs| ==> OffsetOf(es, k) == |Concat(cs)|)
    decreases |cs|
  {
    var es := Entries(prefix, cs, index, offset);
    if cs != [] {
      var tail := Entries(prefix, cs[1..], index + 1, offset + |cs[0]|);
      assert es[1..] == tail;
      if k > 0 {
        EntryOffsets(prefix, cs[1..], index + 1, offset + |cs[0]|, k - 1);
        OffsetShift(es, k);
      }
    }
  }

  lemma {:induction false} OffsetShift(es: seq<ChunkEntry>, k: nat)
    requires 0 < k <= |es|
    ensures OffsetOf(es, k) == es[0].size + OffsetOf(es[1..], k - 1)
  {
    if k > 1 { OffsetShift(es, k - 1); }
  }

  /** Every manifest a split builds passes the validator, covers the source and is complete. */
  lemma ManifestContiguous(source: Bytes, p: nat, prefix: string, name: string)
    requires p > 0
    ensures var m := ManifestFor(source, p, prefix, name);
      && Contiguous(m) && m.parts != [] && m.totalSize == |source|
      && |m.parts| == (if source == [] then 1 else (|source| + p - 1) / p)
      && var last := m.parts[|m.parts| - 1]; last.offset + last.size == m.totalSize
  {
    var cs := Chunks(source, p);
    var m := ManifestFor(source, p, prefix, name);
    forall k | 0 <= k < |m.parts| ensures InPlace(m.parts, k) {
      EntryAt(prefix, cs, 0, 0, k);
      EntryOffsets(prefix, cs, 0, 0, k);
    }
    EntryOffsets(prefix, cs, 0, 0, |cs|);
    ChunksConcat(source, p);
    ChunkSizes(source, p);
    assert InPlace(m.parts, |m.parts| - 1);
  }

  lemma {:induction false} PartStored(objects: Objects, prefix: string, cs: seq<Bytes>, k: nat, i: nat)
    requires k <= |cs|
    ensures i < k ==> Part(prefix, i) in WithParts(objects, prefix, cs, k)
                      && WithParts(objects, prefix, cs, k)[Part(prefix, i)] == cs[i]
    ensures i >= k && Part(prefix, i) in objects ==>
      Part(prefix, i) in WithParts(objects, prefix, cs, k)
      && WithParts(objects, prefix, cs, k)[Part(prefix, i)] == objects[Part(prefix, i)]
    ensures i >= k && Part(prefix, i) !in objects ==> Part(prefix, i) !in WithParts(objects, prefix, cs, k)
  {
    if k > 0 { PartStored(objects, prefix, cs, k - 1, i); }
  }

  /** Nothing but part keys of this prefix is touched. */
  lemma {:induction false} OthersUntouched(objects: Objects, prefix: string, cs: seq<Bytes>, k: nat, key: Key)
    requires k <= |cs| && (key.Part? ==> key.prefix != prefix)
    ensures key in WithParts(objects, prefix, cs, k) <==> key in objects
    ensures key in objects ==> WithParts(objects, prefix, cs, k)[key] == objects[key]
  {
    if k > 0 { OthersUntouched(objects, prefix, cs, k - 1, key); }
  }

  lemma {:induction false} RewrittenIn(objects: Objects, prefix: string, cs: seq<Bytes>, k: nat, key: Key)
    requires k <= |cs|
    ensures key in Rewritten(objects, prefix, cs, k) <==>
      key.Part? && key.prefix == prefix && key.index < k && Differs(objects, prefix, cs, key.index)
  {
    if k > 0 { RewrittenIn(objects, prefix, cs, k - 1, key); }
  }

  /** Parts of this prefix below index `k`, each at most once, in the order of their indices. */
  predicate PartsInOrder(keys: seq<Key>, prefix: string, k: nat) {
    && (forall i | 0 <= i < |keys| :: keys[i].Part? && keys[i].prefix == prefix && keys[i].index < k)
    && (forall i, j | 0 <= i < j < |keys| :: keys[i].index < keys[j].index)
  }

  lemma {:induction false} RewrittenInOrder(objects: Objects, prefix: string, cs: seq<Bytes>, k: nat)
    requires k <= |cs|
    ensures PartsInOrder(Rewritten(objects, prefix, cs, k), prefix, k)
  {
    if k > 0 {
      RewrittenInOrder(objects, prefix, cs, k - 1);
      var before := Rewritten(objects, prefix, cs, k - 1);
      assert PartsInOrder(before + [Part(prefix, k - 1)], prefix, k);
      assert PartsInOrder(before + [], prefix, k);
    }
  }

  /**
   Resuming a split that was stopped after `k` parts uploads exactly the later parts whose
   stored bytes are missing or different.
   */
  lemma ResumeUploadsTheRest(objects: Objects, prefix: string, cs: seq<Bytes>, k: nat, key: Key)
    requires k <= |cs|
    ensures key in Rewritten(WithParts(objects, prefix, cs, k), prefix, cs, |cs|) <==>
      && key.Part? && key.prefix == prefix && k <= key.index < |cs|
      && Differs(objects, prefix, cs, key.index)
  {
    RewrittenIn(WithParts(objects, prefix, cs, k), prefix, cs, |cs|, key);
    if key.Part? && key.prefix == prefix { PartStored(objects, prefix, cs, k, key.index); }
  }

  /** After a complete split a further run uploads nothing. */
  lemma RerunUploadsNothing(objects: Objects, prefix: string, cs: seq<Bytes>)
    ensures Rewritten(WithParts(objects, prefix, cs, |cs|), prefix, cs, |cs|) == []
  {
    var again := Rewritten(WithParts(objects, prefix, cs, |cs|), prefix, cs, |cs|);
    if again != [] {
      var key := again[0];
      assert key in again;
      ResumeUploadsTheRest(objects, prefix, cs, |cs|, key);
    }
  }

  /** What is stored beside the parts of this split. */
  ghost predicate SameElsewhere(a: Objects, b: Objects, prefix: string, n: nat) {
    forall key: Key | !(key.Part? && key.prefix == prefix && key.index < n) ::
      (key in a <==> key in b) && (key in a ==> a[key] == b[key])
  }

  /** A split stopped by an error: the first `k` parts are there, and part `k` may hold anything. */
  ghost predicate Stopped(before: Objects, after: Objects, prefix: string, cs: seq<Bytes>) {
    exists k: nat :: k <= |cs| && StoppedAt(before, after, prefix, cs, k)
  }

  ghost predicate StoppedAt(before: Objects, after: Objects, prefix: string, cs: seq<Bytes>, k: nat)
    requires k <= |cs|
  {
    var done := WithParts(before, prefix, cs, k);
    after == done || (k < |cs| && Part(prefix, k) in after && after == done[Part(prefix, k) := after[Part(prefix, k)]])
  }

  lemma StoppedSameElsewhere(before: Objects, after: Objects, prefix: string, cs: seq<Bytes>)
    requires Stopped(before, after, prefix, cs)
    ensures SameElsewhere(before, after, prefix, |cs|)
  {
    var k: nat :| k <= |cs| && StoppedAt(before, after, prefix, cs, k);
    forall key: Key | !(key.Part? && key.prefix == prefix && key.index < |cs|)
      ensures (key in before <==> key in after) && (key in before ==> before[key] == after[key])
    {
      if key.Part? && key.prefix == prefix {
        PartStored(before, prefix, cs, k, key.index);
      } else {
        OthersUntouched(before, prefix, cs, k, key);
      }
    }
  }

  /** Where and how a split stopped does not matter: a full run afterwards ends in the same objects. */
  lemma ResumeSameObjects(before: Objects, after: Objects, prefix: string, cs: seq<Bytes>)
    requires Stopped(before, after, prefix, cs)
    ensures WithParts(after, prefix, cs, |cs|) == WithParts(before, prefix, cs, |cs|)
  {
    StoppedSameElsewhere(before, after, prefix, cs);
    var a, b := WithParts(after, prefix, cs, |cs|), WithParts(before, prefix, cs, |cs|);
    forall key ensures key in a <==> key in b
               ensures key in a ==> a[key] == b[key]
    {
      if key.Part? && key.prefix == prefix {
        PartStored(after, prefix, cs, |cs|, key.index);
        PartStored(before, prefix, cs, |cs|, key.index);
      } else {
        OthersUntouched(after, prefix, cs, |cs|, key);
        OthersUntouched(before, prefix, cs, |cs|, key);
      }
    }
  }

  // ---------- Verification and reassembly as specified ----------

  datatype Problem = Missing(index: nat) | SizeMismatch(index: nat) | ContentMismatch(index: nat)

  function ProblemsOf(objects: Objects, part: ChunkEntry): seq<Problem> {
    if part.name !in objects then [Missing(part.index)]
    else if |objects[part.name]| != part.size then [SizeMismatch(part.index)]
    else if Sha256(objects[part.name]) != part.sha256 then [ContentMismatch(part.index)]
    else []
  }

  function Problems(objects: Objects, parts: seq<ChunkEntry>): seq<Problem> {
    if parts == [] then [] else Problems(objects, parts[..|parts| - 1]) + ProblemsOf(objects, parts[|parts| - 1])
  }

  /** The first `size` bytes of the part's object; an empty part is not even looked up. */
  function PieceOf(objects: Objects, part: ChunkEntry): Result<Bytes, StorageError> {
    if part.size == 0 then Ok([])
    else if part.name !in objects then Err(FileNotFound)
    else if |objects[part.name]| < part.size then Err(EndedEarly)
    else Ok(objects[part.name][..part.size])
  }

  function CheckedPiece(objects: Objects, part: ChunkEntry, verify: bool): Result<Bytes, StorageError> {
    var piece :- PieceOf(objects, part);
    if verify && Sha256(piece) != part.sha256 then Err(ChecksumMismatch) else Ok(piece)
  }

  function Gathered(objects: Objects, parts: seq<ChunkEntry>, verify: bool): Result<Bytes, StorageError> {
    if parts == [] then Ok([])
    else
      var before :- Gathered(objects, parts[..|parts| - 1], verify);
      var piece :- CheckedPiece(objects, parts[|parts| - 1], verify);
      Ok(before + piece)
  }

  /** The content `reassemble` produces, or the error it raises. */
  function Reassembled(objects: Objects, m: ChunkManifest, verify: bool): Result<Bytes, StorageError> {
    var content :- Gathered(objects, m.parts, verify);
    if verify && Sha256(content) != m.wholeSha256 then Err(ChecksumMismatch) else Ok(content)
  }

  /** `content` holds, from `start` on, what the part's object begins with, and its digest agrees. */
  predicate Held(objects: Objects, part: ChunkEntry, start: nat, content: Bytes, verify: bool) {
    && start + part.size <= |content|
    && (part.size > 0 ==>
          && part.name in objects && part.size <= |objects[part.name]|
          && content[start..start + part.size] == objects[part.name][..part.size])
    && (verify ==> Sha256(content[start..start + part.size]) == part.sha256)
  }

  /** `content` is what the parts' objects hold, one after another, with the digests the parts name. */
  ghost predicate Joined(objects: Objects, parts: seq<ChunkEntry>, content: Bytes, verify: bool) {
    && |content| == OffsetOf(parts, |parts|)
    && forall k | 0 <= k < |parts| :: Held(objects, parts[k], OffsetOf(parts, k), content, verify)
  }

  lemma HeldBefore(objects: Objects, part: ChunkEntry, start: nat, before: Bytes, piece: Bytes, verify: bool)
    requires start + part.size <= |before|
    ensures Held(objects, part, start, before + piece, verify) <==> Held(objects, part, start, before, verify)
  {
    assert (before + piece)[start..start + part.size] == before[start..start + part.size];
  }

  lemma HeldLast(objects: Objects, part: ChunkEntry, before: Bytes, piece: Bytes, verify: bool)
    requires |piece| == part.size
    ensures Held(objects, part, |before|, before + piece, verify) <==> CheckedPiece(objects, part, verify) == Ok(piece)
  {
    assert (before + piece)[|before|..|before| + part.size] == piece;
  }

  lemma EarlierHeld(objects: Objects, parts: seq<ChunkEntry>, k: nat, before: Bytes, piece: Bytes, verify: bool)
    requires k < |parts| - 1 && |before| == OffsetOf(parts, |parts| - 1)
    ensures var first := parts[..|parts| - 1];
      Held(objects, parts[k], OffsetOf(parts, k), before + piece, verify) <==>
      Held(objects, first[k], OffsetOf(first, k), before, verify)
  {
    OffsetOfPrefix(parts, |parts| - 1, k);
    OffsetsGrow(parts, k + 1, |parts| - 1);
    HeldBefore(objects, parts[k], OffsetOf(parts, k), before, piece, verify);
  }

  lemma LastHeld(objects: Objects, parts: seq<ChunkEntry>, before: Bytes, piece: Bytes, verify: bool)
    requires parts != [] && |before| == OffsetOf(parts, |parts| - 1) && |piece| == parts[|parts| - 1].size
    ensures |before + piece| == OffsetOf(parts, |parts|)
    ensures OffsetOf(parts[..|parts| - 1], |parts| - 1) == OffsetOf(parts, |parts| - 1)
    ensures Held(objects, parts[|parts| - 1], OffsetOf(parts, |parts| - 1), before + piece, verify) <==>
      CheckedPiece(objects, parts[|parts| - 1], verify) == Ok(piece)
  {
    HeldLast(objects, parts[|parts| - 1], before, piece, verify);
    OffsetOfPrefix(parts, |parts| - 1, |parts| - 1);
  }

  /** Dropping the last part of a joined content. */
  lemma JoinedPrefix(objects: Objects, parts: seq<ChunkEntry>, before: Bytes, piece: Bytes, verify: bool)
    requires parts != [] && |before| == OffsetOf(parts, |parts| - 1) && |piece| == parts[|parts| - 1].size
    requires Joined(objects, parts, before + piece, verify)
    ensures Joined(objects, parts[..|parts| - 1], before, verify)
    ensures CheckedPiece(objects, parts[|parts| - 1], verify) == Ok(piece)
  {
    hide Held, OffsetOf, CheckedPiece;
    var n := |parts| - 1;
    var first := parts[..n];
    LastHeld(objects, parts, before, piece, verify);
    forall k | 0 <= k < n ensures Held(objects, first[k], OffsetOf(first, k), before, verify) {
      EarlierHeld(objects, parts, k, before, piece, verify);
    }
  }

  lemma JoinedNext(objects: Objects, parts: seq<ChunkEntry>, before: Bytes, piece: Bytes, verify: bool)
    requires parts != [] && Joined(objects, parts[..|parts| - 1], before, verify)
    requires |before| == OffsetOf(parts, |parts| - 1) && |piece| == parts[|parts| - 1].size
    requires CheckedPiece(objects, parts[|parts| - 1], verify) == Ok(piece)
    ensures Joined(objects, parts, before + piece, verify)
  {
    hide Held, OffsetOf, CheckedPiece;
    var n := |parts| - 1;
    var first := parts[..n];
    LastHeld(objects, parts, before, piece, verify);
    forall k | 0 <= k <= n ensures Held(objects, parts[k], OffsetOf(parts, k), before + piece, verify) {
      if k < n {
        EarlierHeld(objects, parts, k, before, piece, verify);
        assert Held(objects, first[k], OffsetOf(first, k), before, verify);
      }
    }
  }

  lemma {:induction false} GatheredJoined(objects: Objects, parts: seq<ChunkEntry>, verify: bool)
    ensures var gathered := Gathered(objects, parts, verify);
      gathered.Ok? ==> Joined(objects, parts, gathered.value, verify)
  {
    var gathered := Gathered(objects, parts, verify);
    if parts != [] && gathered.Ok? {
      var n := |parts| - 1;
      GatheredJoined(objects, parts[..n], verify);
      OffsetOfPrefix(parts, n, n);
      JoinedNext(objects, parts, Gathered(objects, parts[..n], verify).value,
                 CheckedPiece(objects, parts[n], verify).value, verify);
    }
  }

  lemma {:induction false} JoinedGathers(objects: Objects, parts: seq<ChunkEntry>, content: Bytes, verify: bool)
    requires Joined(objects, parts, content, verify)
    ensures Gathered(objects, parts, verify) == Ok(content)
  {
    if parts != [] {
      var n := |parts| - 1;
      var cut := OffsetOf(parts, n);
      hide Held;
      assert content == content[..cut] + content[cut..];
      JoinedPrefix(objects, parts, content[..cut], content[cut..], verify);
      JoinedGathers(objects, parts[..n], content[..cut], verify);
    }
  }

  lemma GatheredIs(objects: Objects, parts: seq<ChunkEntry>, content: Bytes, verify: bool)
    ensures Gathered(objects, parts, verify) == Ok(content) <==> Joined(objects, parts, content, verify)
  {
    GatheredJoined(objects, parts, verify);
    if Joined(objects, parts, content, verify) { JoinedGathers(objects, parts, content, verify); }
  }

  /**
   `reassemble` succeeds with exactly this content when every non-empty part's object is
   there and long enough, the content is what they hold, and under verification the digests
   of all parts and of the whole agree.
   */
  lemma ReassembledIff(objects: Objects, m: ChunkManifest, content: Bytes, verify: bool)
    ensures Reassembled(objects, m, verify) == Ok(content) <==>
      Joined(objects, m.parts, content, verify) && (verify ==> Sha256(content) == m.wholeSha256)
  {
    GatheredIs(objects, m.parts, content, verify);
  }

  predicate Intact(objects: Objects, part: ChunkEntry) {
    part.name in objects && |objects[part.name]| == part.size && Sha256(objects[part.name]) == part.sha256
  }

  lemma {:induction false} NoProblemsIffIntact(objects: Objects, parts: seq<ChunkEntry>)
    ensures Problems(objects, parts) == [] <==> forall i | 0 <= i < |parts| :: Intact(objects, parts[i])
  {
    if parts != [] {
      var p, last := parts[..|parts| - 1], parts[|parts| - 1];
      NoProblemsIffIntact(objects, p);
      assert parts == p + [last];
      assert ProblemsOf(objects, last) == [] <==> Intact(objects, last);
    }
  }

  /** What is wrong with a part: its object is missing, has another size, or other bytes of that size. */
  predicate IsProblem(objects: Objects, part: ChunkEntry, problem: Problem) {
    problem.index == part.index &&
    match problem
    case Missing(_) => part.name !in objects
    case SizeMismatch(_) => part.name in objects && |objects[part.name]| != part.size
    case ContentMismatch(_) =>
      part.name in objects && |objects[part.name]| == part.size && Sha256(objects[part.name]) != part.sha256
  }

  /** One problem for each damaged part, in the order of the parts; `at` are their positions. */
  ghost predicate Diagnosed(objects: Objects, parts: seq<ChunkEntry>, problems: seq<Problem>, at: seq<nat>) {
    && |at| == |problems|
    && (forall i | 0 <= i < |at| :: at[i] < |parts| && IsProblem(objects, parts[at[i]], problems[i]))
    && (forall i, j | 0 <= i < j < |at| :: at[i] < at[j])
    && (forall k | 0 <= k < |parts| && !Intact(objects, parts[k]) :: k in at)
  }

  lemma {:induction false} ProblemsDiagnosed(objects: Objects, parts: seq<ChunkEntry>) returns (at: seq<nat>)
    ensures Diagnosed(objects, parts, Problems(objects, parts), at)
  {
    at := [];
    if parts != [] {
      var n := |parts| - 1;
      at := ProblemsDiagnosed(objects, parts[..n]);
      DiagnosedNext(objects, parts, Problems(objects, parts[..n]), at);
      if !Intact(objects, parts[n]) { at := at + [n]; }
    }
  }

  lemma DiagnosedNext(objects: Objects, parts: seq<ChunkEntry>, problems: seq<Problem>, at: seq<nat>)
    requires parts != [] && Diagnosed(objects, parts[..|parts| - 1], problems, at)
    ensures var n := |parts| - 1;
      if Intact(objects, parts[n]) then Diagnosed(objects, parts, problems, at) && ProblemsOf(objects, parts[n]) == []
      else Diagnosed(objects, parts, problems + ProblemsOf(objects, parts[n]), at + [n])
  {
    var n := |parts| - 1;
    assert |ProblemsOf(objects, parts[n])| == if Intact(objects, parts[n]) then 0 else 1;
    forall problem | problem in ProblemsOf(objects, parts[n]) ensures IsProblem(objects, parts[n], problem) {
    }
    hide Intact, IsProblem, ProblemsOf;
    assert forall k | 0 <= k < n :: parts[..n][k] == parts[k];
    assert (at + [n])[|at|] == n;
  }

  lemma {:induction false} GatheredIff(objects: Objects, parts: seq<ChunkEntry>, verify: bool)
    ensures Gathered(objects, parts, verify).Ok? <==>
      forall i | 0 <= i < |parts| :: CheckedPiece(objects, parts[i], verify).Ok?
  {
    if parts != [] {
      var p, last := parts[..|parts| - 1], parts[|parts| - 1];
      GatheredIff(objects, p, verify);
      assert parts == p + [last];
    }
  }

  /**
   `verify_parts` reporting nothing is exactly: reassembly accepts every part, and every
   object is stored and has no bytes beyond its part.
   */
  lemma VerifiedIff(objects: Objects, parts: seq<ChunkEntry>)
    ensures Problems(objects, parts) == [] <==>
      && Gathered(objects, parts, true).Ok?
      && forall i | 0 <= i < |parts| :: parts[i].name in objects && |objects[parts[i].name]| == parts[i].size
  {
    NoProblemsIffIntact(objects, parts);
    GatheredIff(objects, parts, true);
    forall i | 0 <= i < |parts|
      ensures Intact(objects, parts[i]) <==>
        && CheckedPiece(objects, parts[i], true).Ok?
        && parts[i].name in objects && |objects[parts[i].name]| == parts[i].size
    {
      if parts[i].name in objects && |objects[parts[i].name]| == parts[i].size {
        assert objects[parts[i].name][..parts[i].size] == objects[parts[i].name];
      }
    }
  }

  /** The converse of verification fails: reassembly reads only the first `size` bytes. */
  lemma LongerObjectReassembles(name: Key)
    ensures var part := ChunkEntry(0, name, 0, 1, Sha256([7]));
      && Gathered(map[name := [7, 8]], [part], true) == Ok([7])
      && Problems(map[name := [7, 8]], [part]) == [SizeMismatch(0)]
  {
    var part := ChunkEntry(0, name, 0, 1, Sha256([7]));
    assert [part][..0] == [];
    assert map[name := [7, 8]][name][..1] == [7];
    assert [] + [7] == [7];
  }

  lemma {:induction false} GatherChunks(objects: Objects, prefix: string, cs: seq<Bytes>, k: nat, verify: bool)
    requires k <= |cs|
    ensures Gathered(WithParts(objects, prefix, cs, |cs|), Entries(prefix, cs, 0, 0)[..k], verify) ==
      Ok(Concat(cs[..k]))
  {
    var es := Entries(prefix, cs, 0, 0);
    if k > 0 {
      GatherChunks(objects, prefix, cs, k - 1, verify);
      assert es[..k][..k - 1] == es[..k - 1];
      EntryAt(prefix, cs, 0, 0, k - 1);
      PartStored(objects, prefix, cs, |cs|, k - 1);
      assert cs[k - 1][..|cs[k - 1]|] == cs[k - 1];
      ConcatSnoc(cs[..k - 1], cs[k - 1]);
      assert cs[..k] == cs[..k - 1] + [cs[k - 1]];
    } else {
      assert es[..0] == [] && cs[..0] == [];
    }
  }

  lemma {:induction false} ConcatSnoc(cs: seq<Bytes>, c: Bytes)
    ensures Concat(cs + [c]) == Concat(cs) + c
  {
    if cs == [] {
      assert (cs + [c])[1..] == [];
    } else {
      ConcatSnoc(cs[1..], c);
      assert (cs + [c])[1..] == cs[1..] + [c];
    }
  }

  /**
   Round trip: whatever was stored under the part keys before, once all parts of a split
   are published, verification reports nothing and reassembly yields exactly the source.
   */
  lemma RoundTrip(objects: Objects, source: Bytes, p: nat, prefix: string, name: string, verify: bool)
    requires p > 0
    ensures var cs, m := Chunks(source, p), ManifestFor(source, p, prefix, name);
      var stored := WithParts(objects, prefix, cs, |cs|);
      Reassembled(stored, m, verify) == Ok(source) && Problems(stored, m.parts) == []
  {
    var cs, m := Chunks(source, p), ManifestFor(source, p, prefix, name);
    var stored := WithParts(objects, prefix, cs, |cs|);
    GatherChunks(objects, prefix, cs, |cs|, verify);
    assert m.parts[..|cs|] == m.parts && cs[..|cs|] == cs;
    ChunksConcat(source, p);
    forall i | 0 <= i < |m.parts| ensures Intact(stored, m.parts[i]) {
      EntryAt(prefix, cs, 0, 0, i);
      PartStored(objects, prefix, cs, |cs|, i);
    }
    NoProblemsIffIntact(stored, m.parts);
  }
}
