/** The texts that name stored objects, and when two of them are the same. */
module StorageKeys {
  import opened Texts
  import opened ChunkManifests
  import opened QueueProtocol

  lemma AppendSame(a: string, b: string, tail: string)
    requires a + tail == b + tail
    ensures a == b
  {
    assert a == (a + tail)[..|a|] && b == (b + tail)[..|b|];
  }

  lemma PrependSame(head: string, a: string, b: string)
    requires head + a == head + b
    ensures a == b
  {
    assert a == (head + a)[|head|..] && b == (head + b)[|head|..];
  }

  // ---------- Split parts ----------

  /** `{prefix}/part-{index:06d}.bin` */
  function PartKey(prefix: string, index: nat): string {
    prefix + ['/'] + ("part-" + (Padded(index, 6) + ".bin"))
  }

  /** `{prefix}/manifest.json` */
  function ManifestKey(prefix: string): string {
    prefix + ['/'] + "manifest.json"
  }

  lemma NoSlash(index: nat)
    ensures '/' !in "part-" + (Padded(index, 6) + ".bin")
  {
    PaddedValue(index, 6);
  }

  /** Part keys differ whenever prefix or index does, also beyond six digits. */
  lemma PartKeysDiffer(prefix: string, index: nat, prefix': string, index': nat)
    requires PartKey(prefix, index) == PartKey(prefix', index')
    ensures prefix == prefix' && index == index'
  {
    NoSlash(index);
    NoSlash(index');
    PaddedValue(index, 6);
    PaddedValue(index', 6);
    hide Padded, Value;
    SplitAtLast(prefix, "part-" + (Padded(index, 6) + ".bin"), prefix', "part-" + (Padded(index', 6) + ".bin"), '/');
    PrependSame("part-", Padded(index, 6) + ".bin", Padded(index', 6) + ".bin");
    AppendSame(Padded(index, 6), Padded(index', 6), ".bin");
  }

  /** A manifest never lies under a part key. */
  lemma ManifestIsNoPart(prefix: string, prefix': string, index: nat)
    ensures ManifestKey(prefix) != PartKey(prefix', index)
  {
    var name := "part-" + (Padded(index, 6) + ".bin");
    NoSlash(index);
    assert name[0] == 'p' && "manifest.json"[0] == 'm';
    if ManifestKey(prefix) == PartKey(prefix', index) {
      SplitAtLast(prefix, "manifest.json", prefix', name, '/');
    }
  }

  // ---------- Queue records ----------

  datatype RecordKey =
    | QueuedKey(resource: Resource, id: string)
    | RunningKey(id: string) | LeaseKey(id: string) | HeartbeatKey(id: string)
    | CheckpointKey(id: string) | TerminalKey(status: Terminal, id: string)

  /** `^[A-Za-z0-9][A-Za-z0-9._-]{0,127}$` */
  predicate SafeId(id: string) {
    && 1 <= |id| <= 128 && Alphanumeric(id[0])
    && forall i | 0 <= i < |id| :: Alphanumeric(id[i]) || id[i] in "._-"
  }

  predicate Alphanumeric(c: char) {
    IsDigit(c) || 'a' <= c <= 'z' || 'A' <= c <= 'Z'
  }

  function Folder(k: RecordKey): string {
    match k
    case QueuedKey(Cpu, _) => "queues/cpu"
    case QueuedKey(HighRam, _) => "queues/high_ram"
    case QueuedKey(Gpu, _) => "queues/gpu"
    case QueuedKey(Tpu, _) => "queues/tpu"
    case QueuedKey(Storage, _) => "queues/storage"
    case RunningKey(_) => "running"
    case LeaseKey(_) => "running"
    case HeartbeatKey(_) => "running"
    case CheckpointKey(_) => "checkpoints"
    case TerminalKey(Completed, _) => "completed"
    case TerminalKey(Failed, _) => "failed"
    case TerminalKey(Blocked, _) => "blocked"
  }

  function Suffix(k: RecordKey): string {
    match k
    case LeaseKey(_) => ".lease"
    case HeartbeatKey(_) => ".heartbeat"
    case _ => ""
  }

  function Path(root: string, k: RecordKey): string {
    (root + (['/'] + Folder(k))) + ['/'] + (k.id + Suffix(k) + ".json")
  }

  lemma StemHasNoSlash(k: RecordKey)
    requires SafeId(k.id)
    ensures '/' !in k.id + Suffix(k) + ".json"
  {
    var stem := k.id + Suffix(k) + ".json";
    forall i | 0 <= i < |stem| ensures stem[i] != '/' {
      assert stem[i] in k.id || stem[i] in Suffix(k) || stem[i] in ".json";
    }
  }

  lemma SamePathIff(root: string, a: RecordKey, b: RecordKey)
    requires SafeId(a.id) && SafeId(b.id)
    ensures Path(root, a) == Path(root, b) <==> Folder(a) == Folder(b) && a.id + Suffix(a) == b.id + Suffix(b)
  {
    if Path(root, a) == Path(root, b) {
      StemHasNoSlash(a);
      StemHasNoSlash(b);
      hide Folder, Suffix, SafeId;
      SplitAtLast(root + (['/'] + Folder(a)), a.id + Suffix(a) + ".json", root + (['/'] + Folder(b)),
                  b.id + Suffix(b) + ".json", '/');
      PrependSame(root, ['/'] + Folder(a), ['/'] + Folder(b));
      PrependSame(['/'], Folder(a), Folder(b));
      AppendSame(a.id + Suffix(a), b.id + Suffix(b), ".json");
    }
  }

  /** `a` is a running job whose id looks like the lease or heartbeat of `b`. */
  predicate Shadows(a: RecordKey, b: RecordKey) {
    a.RunningKey? && (b.LeaseKey? || b.HeartbeatKey?) && a.id == b.id + Suffix(b)
  }

  lemma FoldersTell(a: RecordKey, b: RecordKey)
    requires Folder(a) == Folder(b)
    ensures a.QueuedKey? ==> b.QueuedKey? && a.resource == b.resource
    ensures a.TerminalKey? ==> b.TerminalKey? && a.status == b.status
    ensures a.CheckpointKey? <==> b.CheckpointKey?
    ensures a.RunningKey? || a.LeaseKey? || a.HeartbeatKey? <==> b.RunningKey? || b.LeaseKey? || b.HeartbeatKey?
  {
    assert |Folder(a)| == |Folder(b)|;
    if Folder(a) != [] {
      assert Folder(a)[0] == Folder(b)[0] && Folder(a)[|Folder(a)| - 1] == Folder(b)[|Folder(b)| - 1];
    }
  }

  /**
   Two records of the queue have the same key exactly when they are the same record, or one
   is the running record of a job whose id is the other job's id with ".lease" or
   ".heartbeat" at the end.
   */
  lemma KeysCollideIff(root: string, a: RecordKey, b: RecordKey)
    requires SafeId(a.id) && SafeId(b.id)
    ensures Path(root, a) == Path(root, b) <==> a == b || Shadows(a, b) || Shadows(b, a)
  {
    SamePathIff(root, a, b);
    assert b.id + "" == b.id && a.id + "" == a.id;
    if Folder(a) == Folder(b) && a.id + Suffix(a) == b.id + Suffix(b) {
      FoldersTell(a, b);
      if Suffix(a) == Suffix(b) {
        AppendSame(a.id, b.id, Suffix(a));
      } else if a.LeaseKey? && b.HeartbeatKey? {
        LastCharacter(a.id, ".lease", b.id, ".heartbeat");
      } else if a.HeartbeatKey? && b.LeaseKey? {
        LastCharacter(a.id, ".heartbeat", b.id, ".lease");
      }
    }
  }

  lemma LastCharacter(a: string, x: string, b: string, y: string)
    requires x != "" && y != "" && a + x == b + y
    ensures x[|x| - 1] == y[|y| - 1]
  {
    assert (a + x)[|a + x| - 1] == x[|x| - 1] && (b + y)[|b + y| - 1] == y[|y| - 1];
  }

  predicate EndsWith(s: string, t: string) {
    |t| <= |s| && s[|s| - |t|..] == t
  }

  /** `reclaim_expired` passes over this key. */
  predicate Skipped(path: string) {
    EndsWith(path, ".lease.json") || EndsWith(path, ".heartbeat.json") || EndsWith(path, ".checkpoint.json")
  }

  lemma EndsWithAppend(s: string, t: string, tail: string)
    ensures EndsWith(s + tail, t + tail) <==> EndsWith(s, t)
  {
    if |t| <= |s| {
      assert (s + tail)[|s| - |t|..] == s[|s| - |t|..] + tail;
      if s[|s| - |t|..] + tail == t + tail { AppendSame(s[|s| - |t|..], t, tail); }
    }
  }

  lemma EndsWithPrepend(head: string, s: string, t: string)
    requires |t| <= |s|
    ensures EndsWith(head + s, t) <==> EndsWith(s, t)
  {
    assert (head + s)[|head + s| - |t|..] == s[|s| - |t|..];
  }

  /**
   A running job is recovered by `reclaim_expired` exactly when its id does not end like
   a lease, a heartbeat or a checkpoint file.
   */
  lemma RecoverySkipsIff(root: string, id: string)
    requires SafeId(id)
    ensures Skipped(Path(root, RunningKey(id))) <==>
      EndsWith(id, ".lease") || EndsWith(id, ".heartbeat") || EndsWith(id, ".checkpoint")
  {
    hide EndsWith;
    var head := root + (['/'] + "running");
    assert Path(root, RunningKey(id)) == (head + ['/']) + (id + ".json") by { assert id + "" == id; }
    SkipsSuffix(head, id, ".lease");
    SkipsSuffix(head, id, ".heartbeat");
    SkipsSuffix(head, id, ".checkpoint");
    assert ".lease" + ".json" == ".lease.json" && ".heartbeat" + ".json" == ".heartbeat.json";
    assert ".checkpoint" + ".json" == ".checkpoint.json";
  }

  lemma SkipsSuffix(head: string, id: string, suffix: string)
    requires SafeId(id) && suffix != "" && '/' !in suffix
    ensures EndsWith((head + ['/']) + (id + ".json"), suffix + ".json") <==> EndsWith(id, suffix)
  {
    var path := (head + ['/']) + id;
    assert (head + ['/']) + (id + ".json") == path + ".json";
    EndsWithAppend(path, suffix, ".json");
    if |suffix| <= |id| {
      EndsWithPrepend(head + ['/'], id, suffix);
    } else {
      NoLongSuffix(head, id, suffix);
    }
  }

  lemma NoLongSuffix(head: string, id: string, suffix: string)
    requires |suffix| > |id| && '/' !in suffix
    ensures !EndsWith((head + ['/']) + id, suffix)
  {
    var path := (head + ['/']) + id;
    assert path[|path| - |id| - 1] == '/';
    if |suffix| <= |path| {
      assert path[|path| - |suffix|..][|suffix| - |id| - 1] == '/';
    }
  }
}
