/** The splitter and the reassembler as they work on a storage backend that may fail at any call. */
module SplitStores {
  import opened Wrappers
  import opened ChunkManifests
  import opened Splitting

  /** How one put goes: it may raise before or after storing, or store other bytes and report their digest. */
  datatype Fault = Fine | RaisesBefore | RaisesAfter | Damages(stored: Bytes)

  function Min(a: int, b: int): int {
    if a < b then a else b
  }

  /** What the outer loop has done: the backend's state and the loop's variables. */
  datatype Stage = Stage(objects: Objects, puts: seq<Key>, index: nat, offset: nat, parts: seq<ChunkEntry>,
                         written: nat, reused: nat, whole: Bytes)

  /** Part `index` of the split starts at `offset`. */
  ghost predicate At(content: Bytes, p: nat, index: nat, offset: nat)
    requires p > 0
  {
    var cs := Chunks(content, p);
    && index <= |cs| && offset <= |content|
    && (index < |cs| <==> offset < |content| || (content == [] && index == 0))
    && (index < |cs| ==> Chunks(content[offset..], p) == cs[index..])
  }

  /** The first `index` parts are done and nothing else is. */
  ghost predicate Progress(before: Objects, puts: seq<Key>, content: Bytes, p: nat, prefix: string, s: Stage)
    requires p > 0
  {
    var cs := Chunks(content, p);
    var es := Entries(prefix, cs, 0, 0);
    && At(content, p, s.index, s.offset)
    && s.offset == OffsetOf(es, s.index) && s.parts == es[..s.index] && s.whole == content[..s.offset]
    && s.objects == WithParts(before, prefix, cs, s.index)
    && s.puts == puts + Rewritten(before, prefix, cs, s.index)
    && s.written == |Rewritten(before, prefix, cs, s.index)| && s.written + s.reused == s.index
  }

  lemma AtNext(content: Bytes, p: nat, index: nat, offset: nat)
    requires p > 0 && At(content, p, index, offset) && index < |Chunks(content, p)|
    ensures var cs, next := Chunks(content, p), offset + Min(p, |content| - offset);
      && cs[index] == content[offset..next] && At(content, p, index + 1, next)
  {
    var cs, rest := Chunks(content, p), content[offset..];
    var tail := Chunks(rest, p);
    FirstChunk(rest, p);
    hide Chunks;
    assert tail[0] == cs[index] && tail[1..] == cs[index + 1..];
    if |rest| > p {
      assert content[offset + p..] == rest[p..];
    }
  }

  lemma FirstChunk(source: Bytes, p: nat)
    requires p > 0
    ensures Chunks(source, p)[0] == if |source| > p then source[..p] else source
    ensures Chunks(source, p)[1..] == if |source| > p then Chunks(source[p..], p) else []
  {
  }

  lemma ProgressStarts(before: Objects, puts: seq<Key>, content: Bytes, p: nat, prefix: string)
    requires p > 0
    ensures Progress(before, puts, content, p, prefix, Stage(before, puts, 0, 0, [], 0, 0, []))
  {
    assert content[0..] == content && Chunks(content, p)[0..] == Chunks(content, p);
  }

  lemma InRange(before: Objects, puts: seq<Key>, content: Bytes, p: nat, prefix: string, s: Stage)
    requires p > 0 && Progress(before, puts, content, p, prefix, s)
    requires s.offset < |content| || (content == [] && s.index == 0)
    ensures s.index < |Chunks(content, p)|
  {
  }

  /** Publishing the next part. */
  lemma ProgressStep(before: Objects, puts: seq<Key>, content: Bytes, p: nat, prefix: string,
                     s: Stage, piece: Bytes, uploaded: bool)
    requires p > 0 && Progress(before, puts, content, p, prefix, s)
    requires s.offset < |content| || (content == [] && s.index == 0)
    requires piece == content[s.offset..s.offset + Min(p, |content| - s.offset)]
    requires var key := Part(prefix, s.index);
      uploaded <==> key !in s.objects || s.objects[key] != piece
    ensures var key := Part(prefix, s.index);
      Progress(before, puts, content, p, prefix,
               Stage(s.objects[key := piece], if uploaded then s.puts + [key] else s.puts,
                     s.index + 1, s.offset + |piece|,
                     s.parts + [ChunkEntry(s.index, key, s.offset, |piece|, Sha256(piece))],
                     if uploaded then s.written + 1 else s.written,
                     if uploaded then s.reused else s.reused + 1,
                     s.whole + piece))
  {
    hide At, Chunks;
    var cs := Chunks(content, p);
    InRange(before, puts, content, p, prefix, s);
    AtNext(content, p, s.index, s.offset);
    EntryAt(prefix, cs, 0, 0, s.index);
    EntryOffsets(prefix, cs, 0, 0, s.index);
    PartStored(before, prefix, cs, s.index, s.index);
    assert uploaded <==> Differs(before, prefix, cs, s.index);
  }

  lemma ProgressStops(before: Objects, after: Objects, puts: seq<Key>, content: Bytes, p: nat, prefix: string, s: Stage)
    requires p > 0 && Progress(before, puts, content, p, prefix, s)
    requires var key := Part(prefix, s.index);
      || after == s.objects
      || (s.index < |Chunks(content, p)| && key in after && after == s.objects[key := after[key]])
    ensures Stopped(before, after, prefix, Chunks(content, p))
  {
    hide Chunks, WithParts, Rewritten, OffsetOf, Entries;
    assert StoppedAt(before, after, prefix, Chunks(content, p), s.index);
  }

  lemma ProgressEnds(before: Objects, puts: seq<Key>, content: Bytes, p: nat, prefix: string, s: Stage)
    requires p > 0 && Progress(before, puts, content, p, prefix, s)
    requires s.offset == |content| && (content == [] ==> s.index > 0)
    ensures var cs := Chunks(content, p);
      && s.parts == Entries(prefix, cs, 0, 0) && s.whole == content
      && s.objects == WithParts(before, prefix, cs, |cs|)
      && s.puts == puts + Rewritten(before, prefix, cs, |cs|)
      && s.written == |Rewritten(before, prefix, cs, |cs|)| && s.written + s.reused == |cs|
  {
    hide Chunks, WithParts, Rewritten, OffsetOf, Entries;
    assert s.index == |Chunks(content, p)|;
  }

  /** The inner reading loop: blocks may come short, but `expected` bytes come or the source has ended. */
  method ReadPart(source: Bytes, offset: nat, expected: nat, reliable: bool) returns (r: Result<Bytes, StorageError>)
    requires offset <= |source|
    ensures r.Ok? ==> offset + expected <= |source| && r.value == source[offset..offset + expected]
    ensures r.Err? ==> r.error == StorageFault || (r.error == Truncated && offset + expected > |source|)
    ensures reliable ==> r != Err(StorageFault)
  {
    var piece: Bytes := [];
    while |piece| < expected
      invariant |piece| <= expected && offset + |piece| <= |source|
      invariant piece == source[offset..offset + |piece|]
    {
      var block := ReadRange(source, offset + |piece|, Min(READ_BLOCK, expected - |piece|), reliable);
      if block.Err? {
        return block;
      }
      if block.value == [] {
        return Err(Truncated);
      }
      piece := piece + block.value;
    }
    return Ok(piece);
  }

  /** A ranged read: some bytes from `offset` on, none only at the end; reliable storage does not raise. */
  method ReadRange(content: Bytes, offset: nat, length: nat, reliable: bool)
    returns (r: Result<Bytes, StorageError>)
    requires length > 0
    ensures r.Err? ==> r.error == StorageFault && !reliable
    ensures r.Ok? ==> |r.value| <= length && (r.value == [] <==> offset >= |content|)
    ensures r.Ok? && r.value != [] ==>
      offset + |r.value| <= |content| && r.value == content[offset..offset + |r.value|]
  {
    var raises: bool := *;
    if raises && !reliable {
      return Err(StorageFault);
    }
    if offset >= |content| {
      return Ok([]);
    }
    var most: nat := Min(length, |content| - offset);
    var n :| 1 <= n <= most;
    return Ok(content[offset..offset + n]);
  }

  class Backend {
    var objects: Objects
    var manifests: map<string, ChunkManifest>
    ghost var puts: seq<Key>
    /** Its calls never raise and never damage what they store. */
    const reliable: bool

    constructor (reliable: bool)
      ensures objects == map[] && manifests == map[] && puts == [] && this.reliable == reliable
    {
      objects, manifests, puts, this.reliable := map[], map[], [], reliable;
    }

    method PutFile(key: Key, content: Bytes) returns (r: Result<Digest, StorageError>)
      modifies `objects, `puts
      ensures r.Ok? ==>
        key in objects && objects == old(objects)[key := objects[key]] && r.value == Sha256(objects[key])
      ensures r.Err? ==> r.error == StorageFault && objects in {old(objects), old(objects)[key := content]}
      ensures puts == old(puts) + [key] || (r.Err? && puts == old(puts) && objects == old(objects))
      ensures reliable ==> r.Ok? && objects[key] == content
    {
      var fault: Fault := *;
      match if reliable then Fine else fault {
        case RaisesBefore =>
          return Err(StorageFault);
        case RaisesAfter =>
          objects, puts := objects[key := content], puts + [key];
          return Err(StorageFault);
        case Damages(stored) =>
          objects, puts := objects[key := stored], puts + [key];
          return Ok(Sha256(stored));
        case Fine =>
          objects, puts := objects[key := content], puts + [key];
          return Ok(Sha256(content));
      }
    }

    /** `_publish_part`: upload unless the stored bytes are already these; true when uploaded and verified. */
    method Publish(key: Key, content: Bytes) returns (r: Result<bool, StorageError>)
      modifies `objects, `puts
      ensures r.Ok? ==> objects == old(objects)[key := content]
      ensures r.Ok? ==> (r.value <==> key !in old(objects) || old(objects)[key] != content)
      ensures r.Ok? ==> puts == if r.value then old(puts) + [key] else old(puts)
      ensures r.Err? ==> r.error == StorageFault && !reliable
      ensures r.Err? ==> objects == old(objects) || (key in objects && objects == old(objects)[key := objects[key]])
    {
      var raises: bool := *;
      if raises && !reliable {
        return Err(StorageFault);
      }
      if key in objects && |objects[key]| == |content| && Sha256(objects[key]) == Sha256(content) {
        assert objects == objects[key := content];
        return Ok(false);
      }
      var uploaded :- PutFile(key, content);
      if uploaded != Sha256(content) || |objects[key]| != |content| {
        return Err(StorageFault);
      }
      return Ok(true);
    }

    method PutManifest(prefix: string, m: ChunkManifest) returns (r: Result<(), StorageError>)
      modifies `manifests
      ensures r.Ok? ==> manifests == old(manifests)[prefix := m]
      ensures r.Err? ==> r.error == StorageFault && manifests in {old(manifests), old(manifests)[prefix := m]}
      ensures reliable ==> r.Ok?
    {
      var stores: bool := *;
      var raises: bool := *;
      raises := raises && !reliable;
      if stores || !raises {
        manifests := manifests[prefix := m];
      }
      return if raises then Err(StorageFault) else Ok(());
    }

    /**
     `split_file`.  `source` is what reading the file delivers, `announced` its size at the
     start, and `stable` whether size and modification time are the same at the end.
     */
    method Split(source: Bytes, announced: nat, stable: bool, prefix: string, name: string,
                 profile: Option<string>, partSizeBytes: Option<int>)
      returns (r: Result<SplitReport, StorageError>)
      modifies this
      ensures var size := ResolvePartSize(profile, partSizeBytes);
        && (r == Err(InvalidPartSize) <==> size.Err?)
        && (size.Err? ==> objects == old(objects) && manifests == old(manifests) && puts == old(puts))
        && (size.Ok? ==>
              var content := source[..Min(announced, |source|)];
              var cs, m := Chunks(content, size.value), ManifestFor(content, size.value, prefix, name);
              && (r.Ok? ==>
                    && stable && announced <= |source|
                    && objects == WithParts(old(objects), prefix, cs, |cs|)
                    && manifests == old(manifests)[prefix := m]
                    && puts == old(puts) + Rewritten(old(objects), prefix, cs, |cs|)
                    && r.value.manifest == m && m.sourceName == name && m.partSize == size.value
                    && m.totalSize == announced && m.wholeSha256 == Sha256(content)
                    && r.value.written + r.value.reused == |cs|
                    && r.value.written == |Rewritten(old(objects), prefix, cs, |cs|)|)
              && (r.Err? ==> Stopped(old(objects), objects, prefix, cs))
              && (r.Err? ==> r.error in {StorageFault, Truncated, SourceChanged})
              && (reliable ==> (r.Ok? <==> stable && announced <= |source|) && r != Err(StorageFault))
              && (r == Err(Truncated) ==> announced > |source|)
              && (r == Err(SourceChanged) ==> !stable && announced <= |source|)
              && (r.Err? && manifests != old(manifests) ==>
                    && r.error == StorageFault && stable && announced <= |source|
                    && manifests == old(manifests)[prefix := m]
                    && objects == WithParts(old(objects), prefix, cs, |cs|)))
    {
      hide Progress, At, Chunks, Entries, WithParts, Rewritten, OffsetOf, Stopped, StoppedAt;
      var size := ResolvePartSize(profile, partSizeBytes);
      if size.Err? {
        return Err(InvalidPartSize);
      }
      var p := size.value;
      ghost var content := source[..Min(announced, |source|)];
      var written: nat, reused: nat, index: nat, offset: nat := 0, 0, 0, 0;
      var parts: seq<ChunkEntry>, whole: Bytes := [], [];
      ghost var s := Stage(objects, puts, 0, 0, [], 0, 0, []);
      ProgressStarts(objects, puts, content, p, prefix);
      while offset < announced || (announced == 0 && index == 0)
        invariant Progress(old(objects), old(puts), content, p, prefix, s)
        invariant s == Stage(objects, puts, index, offset, parts, written, reused, whole)
        invariant manifests == old(manifests) && offset <= |content| && offset <= announced
        decreases announced - offset + (if index == 0 then 1 else 0)
      {
        var expected := if announced == 0 then 0 else Min(p, announced - offset);
        var piece := ReadPart(source, offset, expected, reliable);
        ProgressStops(old(objects), objects, old(puts), content, p, prefix, s);
        if piece.Err? {
          return Err(piece.error);
        }
        assert piece.value == content[offset..offset + Min(p, |content| - offset)];
        whole := whole + piece.value;
        var uploaded := Publish(Part(prefix, index), piece.value);
        if uploaded.Err? {
          InRange(old(objects), old(puts), content, p, prefix, s);
          ProgressStops(old(objects), objects, old(puts), content, p, prefix, s);
          return Err(uploaded.error);
        }
        ProgressStep(old(objects), old(puts), content, p, prefix, s, piece.value, uploaded.value);
        if uploaded.value {
          written := written + 1;
        } else {
          reused := reused + 1;
        }
        parts := parts + [ChunkEntry(index, Part(prefix, index), offset, |piece.value|, Sha256(piece.value))];
        offset, index := offset + |piece.value|, index + 1;
        s := Stage(objects, puts, index, offset, parts, written, reused, whole);
        if announced == 0 {
          break;
        }
      }
      ProgressStops(old(objects), objects, old(puts), content, p, prefix, s);
      if !stable {
        return Err(SourceChanged);
      }
      ProgressEnds(old(objects), old(puts), content, p, prefix, s);
      var m := ChunkManifest(name, announced, Sha256(whole), p, parts);
      assert m == ManifestFor(content, p, prefix, name);
      var _ :- PutManifest(prefix, m);
      return Ok(SplitReport(m, written, reused));
    }

    /** `verify_parts`. */
    method VerifyParts(m: ChunkManifest) returns (problems: seq<Problem>, ghost at: seq<nat>)
      ensures problems == Problems(objects, m.parts)
      ensures Diagnosed(objects, m.parts, problems, at)
      ensures problems == [] <==> forall i | 0 <= i < |m.parts| :: Intact(objects, m.parts[i])
    {
      problems := [];
      for k := 0 to |m.parts|
        invariant problems == Problems(objects, m.parts[..k])
      {
        var part := m.parts[k];
        assert m.parts[..k + 1][..k] == m.parts[..k];
        if part.name !in objects {
          problems := problems + [Missing(part.index)];
        } else if |objects[part.name]| != part.size {
          problems := problems + [SizeMismatch(part.index)];
        } else if Sha256(objects[part.name]) != part.sha256 {
          problems := problems + [ContentMismatch(part.index)];
        }
      }
      assert m.parts[..|m.parts|] == m.parts;
      at := ProblemsDiagnosed(objects, m.parts);
      NoProblemsIffIntact(objects, m.parts);
    }

    /** The block loop of `reassemble` for one part. */
    method ReadPiece(part: ChunkEntry) returns (r: Result<Bytes, StorageError>)
      ensures r == PieceOf(objects, part) || (r == Err(StorageFault) && !reliable)
    {
      var consumed: Bytes := [];
      while |consumed| < part.size
        invariant |consumed| <= part.size
        invariant consumed != [] ==> part.name in objects && |consumed| <= |objects[part.name]|
                                     && consumed == objects[part.name][..|consumed|]
      {
        if part.name !in objects {
          return Err(FileNotFound);
        }
        var block := ReadRange(objects[part.name], |consumed|, Min(READ_BLOCK, part.size - |consumed|), reliable);
        if block.Err? {
          return Err(StorageFault);
        }
        if block.value == [] {
          return Err(EndedEarly);
        }
        consumed := consumed + block.value;
      }
      return Ok(consumed);
    }

    /**
     `reassemble`: the target is replaced only when everything was read and verified, and the
     partial file is gone afterwards.  Only a storage fault makes it fail where the
     specification succeeds.
     */
    method Reassemble(m: ChunkManifest, target: TargetFile, verify: bool) returns (r: Result<Digest, StorageError>)
      modifies target
      ensures target.partial == None
      ensures r.Ok? ==>
        target.content.Some? && Reassembled(objects, m, verify) == Ok(target.content.value)
        && Joined(objects, m.parts, target.content.value, verify)
        && r.value == Sha256(target.content.value) && (verify ==> r.value == m.wholeSha256)
      ensures r.Err? ==> target.content == old(target.content)
      ensures r.Err? && r.error != StorageFault ==> Reassembled(objects, m, verify) == Err(r.error)
      ensures r.Err? && r.error != StorageFault ==> forall content ::
        !(Joined(objects, m.parts, content, verify) && (verify ==> Sha256(content) == m.wholeSha256))
      ensures r.Err? ==> Blamed(objects, m, verify, r.error)
      ensures reliable ==> r != Err(StorageFault)
    {
      var out: Bytes := [];
      target.partial := Some(out);
      for k := 0 to |m.parts|
        invariant target.partial == Some(out) && target.content == old(target.content)
        invariant Gathered(objects, m.parts[..k], verify) == Ok(out)
      {
        var part := m.parts[k];
        assert m.parts[..k + 1][..k] == m.parts[..k];
        var piece := ReadPiece(part);
        if piece.Ok? && verify && Sha256(piece.value) != part.sha256 {
          piece := Err(ChecksumMismatch);
        }
        if piece.Err? {
          target.partial := None;
          if piece.error != StorageFault {
            GatheredStops(objects, m.parts, k, verify);
            Unrestorable(objects, m, verify);
            PieceBlamed(objects, m, k, verify);
          }
          return Err(piece.error);
        }
        out := out + piece.value;
        target.partial := Some(out);
      }
      assert m.parts[..|m.parts|] == m.parts;
      if verify && Sha256(out) != m.wholeSha256 {
        target.partial := None;
        Unrestorable(objects, m, verify);
        GatheredIs(objects, m.parts, out, verify);
        return Err(ChecksumMismatch);
      }
      GatheredIs(objects, m.parts, out, verify);
      target.content, target.partial := target.partial, None;
      return Ok(Sha256(out));
    }

    /** `reassemble_from_prefix`: the stored manifest decides. */
    method ReassembleFromPrefix(prefix: string, target: TargetFile, verify: bool)
      returns (r: Result<Digest, StorageError>)
      modifies target
      ensures prefix !in manifests ==>
        r == Err(FileNotFound) && target.content == old(target.content) && target.partial == old(target.partial)
      ensures prefix in manifests ==> target.partial == None
      ensures prefix in manifests && r.Ok? ==>
        target.content.Some? && Reassembled(objects, manifests[prefix], verify) == Ok(target.content.value)
        && Joined(objects, manifests[prefix].parts, target.content.value, verify)
        && r.value == Sha256(target.content.value) && (verify ==> r.value == manifests[prefix].wholeSha256)
      ensures r.Err? ==> target.content == old(target.content)
      ensures prefix in manifests && r.Err? && r.error != StorageFault ==>
        Reassembled(objects, manifests[prefix], verify) == Err(r.error)
      ensures prefix in manifests && r.Err? ==> Blamed(objects, manifests[prefix], verify, r.error)
      ensures reliable ==> r != Err(StorageFault)
    {
      if prefix !in manifests {
        return Err(FileNotFound);
      }
      r := Reassemble(manifests[prefix], target, verify);
    }

    /**
     A client of the class: split a file of `source`, verify its parts and put it together
     again.  Only storage errors can keep it from ending with exactly the source.
     */
    method SplitAndRestore(source: Bytes, prefix: string, name: string, size: nat, target: TargetFile, verify: bool)
      returns (r: Result<Digest, StorageError>)
      requires size > 0
      modifies this, target
      ensures r.Ok? ==> target.content == Some(source) && r.value == Sha256(source)
      ensures r.Err? ==> r.error == StorageFault && !reliable && target.content == old(target.content)
    {
      hide Chunks, ManifestFor, WithParts, Rewritten, Stopped, Problems, Reassembled, Joined, Blamed, Diagnosed, Intact;
      ghost var before := objects;
      var split :- Split(source, |source|, true, prefix, name, None, Some(size));
      assert source[..Min(|source|, |source|)] == source;
      RoundTrip(before, source, size, prefix, name, verify);
      var problems, _ := VerifyParts(split.manifest);
      assert problems == [];
      r := ReassembleFromPrefix(prefix, target, verify);
    }
  }

  class TargetFile {
    var content: Option<Bytes>
    var partial: Option<Bytes>

    constructor (content: Option<Bytes>)
      ensures this.content == content && partial == None
    {
      this.content, partial := content, None;
    }
  }

  /** What an error of `reassemble` tells about the objects. */
  ghost predicate Blamed(objects: Objects, m: ChunkManifest, verify: bool, error: StorageError) {
    match error
    case FileNotFound => exists k :: 0 <= k < |m.parts| && m.parts[k].size > 0 && m.parts[k].name !in objects
    case EndedEarly =>
      exists k ::
        0 <= k < |m.parts| && m.parts[k].name in objects && |objects[m.parts[k].name]| < m.parts[k].size
    case ChecksumMismatch =>
      verify &&
      ((exists k :: 0 <= k < |m.parts| && WrongDigest(objects, m.parts[k]))
       || exists content :: Joined(objects, m.parts, content, verify) && Sha256(content) != m.wholeSha256)
    case StorageFault => true
    case _ => false
  }

  predicate WrongDigest(objects: Objects, part: ChunkEntry) {
    if part.size == 0 then Sha256([]) != part.sha256
    else part.name in objects && part.size <= |objects[part.name]|
         && Sha256(objects[part.name][..part.size]) != part.sha256
  }

  lemma PieceBlamed(objects: Objects, m: ChunkManifest, k: nat, verify: bool)
    requires k < |m.parts| && CheckedPiece(objects, m.parts[k], verify).Err?
    ensures Blamed(objects, m, verify, CheckedPiece(objects, m.parts[k], verify).error)
  {
    var part := m.parts[k];
    if PieceOf(objects, part).Ok? { assert WrongDigest(objects, part); }
  }

  lemma Unrestorable(objects: Objects, m: ChunkManifest, verify: bool)
    requires Reassembled(objects, m, verify).Err?
    ensures forall content ::
      !(Joined(objects, m.parts, content, verify) && (verify ==> Sha256(content) == m.wholeSha256))
  {
    forall content
      ensures !(Joined(objects, m.parts, content, verify) && (verify ==> Sha256(content) == m.wholeSha256))
    {
      ReassembledIff(objects, m, content, verify);
    }
  }

  /** The first part that cannot be used decides the error. */
  lemma {:induction false} GatheredStops(objects: Objects, parts: seq<ChunkEntry>, k: nat, verify: bool)
    requires k < |parts| && Gathered(objects, parts[..k], verify).Ok?
    requires CheckedPiece(objects, parts[k], verify).Err?
    ensures Gathered(objects, parts, verify) == CheckedPiece(objects, parts[k], verify)
    decreases |parts|
  {
    var before := parts[..|parts| - 1];
    if k < |before| {
      assert before[..k] == parts[..k];
      GatheredStops(objects, before, k, verify);
    }
  }
}
