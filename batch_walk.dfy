/**
 * The batching walk of `process_commands` (gfx-lib/src/renderer.rs) on
 * values: `Walk` is what one pass over the sorted commands does to the
 * batches and the descriptor pools, and the lemmas here say what that
 * leaves behind: for every key of the commands, one batch whose mesh holds
 * exactly that key's commands in input order, and every other batch as it
 * was.
 */
module BatchWalk {
  import opened Types
  import opened Commands
  import opened StableSort
  import opened Batches

  /**
   * One pass over `sorted` from state `st`: a command with the key of the
   * command before it goes into the open batch; any other command first
   * opens the batch of its key (`CreateBatch`: created, or emptied if it is
   * there). The first panic ends the pass.
   */
  ghost function Walk(env: Env, st: Batching, sorted: seq<RenderCommand>): (r: Result<Batching>)
    requires |env.memoryTypes| <= 64 && PoolsValid(st.sets)
    ensures r.Ok? ==> PoolsValid(r.value.sets)
    ensures r.Ok? && sorted != [] ==> Key(sorted[|sorted| - 1]) in r.value.batches
    decreases |sorted|
  {
    if sorted == [] then Ok(st)
    else
      var done, c := sorted[..|sorted| - 1], sorted[|sorted| - 1];
      match Walk(env, st, done)
      case Panic(e) => Panic(e)
      case Ok(mid) => Step(env, mid, done != [] && Key(done[|done| - 1]) == Key(c), c)
  }

  /**
   * The turn of command `c` in the pass: into the open batch of its key when
   * `open`, otherwise into the batch `CreateBatch` opens for it.
   */
  ghost function Step(env: Env, mid: Batching, open: bool, c: RenderCommand): (r: Result<Batching>)
    requires |env.memoryTypes| <= 64 && PoolsValid(mid.sets)
    requires open ==> Key(c) in mid.batches
    ensures r.Ok? ==> PoolsValid(r.value.sets) && Key(c) in r.value.batches
  {
    var k: u64 := Key(c);
    if open then Ok(mid.(batches := mid.batches[k := mid.batches[k].ProcessCommand(c)]))
    else
      match CreateBatch(env, mid, c.transparency, c.layer, c.shaderProgramId, c.texId)
      case Panic(e) => Panic(e)
      case Ok(made) => Ok(made.1.(batches := made.1.batches[k := made.1.batches[k].ProcessCommand(c)]))
  }

  /** The pass over the first `i + 1` commands is the pass over the first `i` and the turn of command `i`. */
  lemma WalkNext(env: Env, st: Batching, s: seq<RenderCommand>, i: nat)
    requires |env.memoryTypes| <= 64 && PoolsValid(st.sets) && i < |s|
    ensures Walk(env, st, s[..i + 1]) ==
      match Walk(env, st, s[..i])
      case Panic(e) => Panic(e)
      case Ok(mid) => Step(env, mid, i > 0 && Key(s[i - 1]) == Key(s[i]), s[i])
  {
    assert s[..i + 1][..i] == s[..i];
  }

  /**
   * The pass over the first `i` commands of `s`, counted by position rather
   * than by prefix: the form the loop of `process_commands` keeps.
   */
  ghost function WalkUpTo(env: Env, st: Batching, s: seq<RenderCommand>, i: nat): (r: Result<Batching>)
    requires |env.memoryTypes| <= 64 && PoolsValid(st.sets) && i <= |s|
    ensures r.Ok? ==> PoolsValid(r.value.sets)
    ensures r.Ok? && i > 0 ==> Key(s[i - 1]) in r.value.batches
  {
    if i == 0 then Ok(st)
    else
      match WalkUpTo(env, st, s, i - 1)
      case Panic(e) => Panic(e)
      case Ok(mid) => Step(env, mid, i > 1 && Key(s[i - 2]) == Key(s[i - 1]), s[i - 1])
  }

  /** Counting by position is the pass over the prefix. */
  lemma {:induction false} WalkUpToPrefix(env: Env, st: Batching, s: seq<RenderCommand>, i: nat)
    requires |env.memoryTypes| <= 64 && PoolsValid(st.sets) && i <= |s|
    ensures WalkUpTo(env, st, s, i) == Walk(env, st, s[..i])
  {
    if i > 0 {
      WalkUpToPrefix(env, st, s, i - 1);
      WalkNext(env, st, s, i - 1);
    }
  }

  /** Once a prefix of the commands panics, the whole pass panics, for the same reason. */
  lemma {:induction false} WalkPanicExtends(env: Env, st: Batching, s: seq<RenderCommand>, j: nat)
    requires |env.memoryTypes| <= 64 && PoolsValid(st.sets)
    requires j <= |s| && Walk(env, st, s[..j]).Panic?
    ensures Walk(env, st, s) == Walk(env, st, s[..j])
    decreases |s|
  {
    if j < |s| {
      var done := s[..|s| - 1];
      assert done[..j] == s[..j];
      WalkPanicExtends(env, st, done, j);
    } else {
      assert s[..j] == s;
    }
  }

  // ---------------------------------------------------------------------------
  // What the walk leaves behind

  /** Every key in `keys` has a batch, holding the commands of `cmds` with that key. */
  ghost predicate MeshesHold(view: map<int, RenderBatch>, keys: set<int>, cmds: seq<RenderCommand>, key: RenderCommand -> int) {
    forall k :: k in keys ==> MeshHolds(view, k, cmds, key)
  }

  /** The batch of key `k` is there and holds the commands of `cmds` with that key. */
  ghost predicate MeshHolds(view: map<int, RenderBatch>, k: int, cmds: seq<RenderCommand>, key: RenderCommand -> int) {
    k in view && Holds(view[k], Filter(cmds, key, k))
  }

  /** The batches are those of `before` plus one for each key in `keys`; the others are as in `before`. */
  ghost predicate KeptOthers(view: map<int, RenderBatch>, before: map<int, RenderBatch>, keys: set<int>) {
    && view.Keys == before.Keys + keys
    && forall k :: k in before && k !in keys ==> Kept(view, before, k)
  }

  /** The batch of key `k` is as it was in `before`. */
  ghost predicate Kept(view: map<int, RenderBatch>, before: map<int, RenderBatch>, k: int)
    requires k in before
  {
    k in view && view[k] == before[k]
  }

  /**
   * The batches once the commands `done` are walked: one per key seen,
   * holding that key's commands so far, and every other batch as it was in
   * `before`.
   */
  ghost predicate Walked(view: map<int, RenderBatch>, done: seq<RenderCommand>, key: RenderCommand -> int,
                         before: map<int, RenderBatch>)
  {
    && KeptOthers(view, before, KeySet(done, key))
    && MeshesHold(view, KeySet(done, key), done, key)
  }

  /** Half-way through the turn of command `c`: its batch is open and holds the commands of its key before it. */
  ghost predicate Opened(view: map<int, RenderBatch>, done: seq<RenderCommand>, c: RenderCommand, key: RenderCommand -> int,
                         before: map<int, RenderBatch>)
  {
    && KeptOthers(view, before, KeySet(done + [c], key))
    && MeshesHold(view, KeySet(done + [c], key), done, key)
  }

  /** A command with the same key as the one before it continues the open run. */
  lemma OpenSameRun(view: map<int, RenderBatch>, done: seq<RenderCommand>, c: RenderCommand, key: RenderCommand -> int,
                    before: map<int, RenderBatch>)
    requires Walked(view, done, key, before)
    requires done != [] && key(done[|done| - 1]) == key(c)
    ensures Opened(view, done, c, key, before)
  {
    KeySetSnoc(done, c, key);
    LastKeySeen(done, key, |done|);
    assert done[..|done|] == done;
  }

  /**
   * A command whose key is not among the keys walked starts its key's run,
   * on a batch emptied or created for it.
   */
  lemma OpenNewRun(view: map<int, RenderBatch>, done: seq<RenderCommand>, c: RenderCommand, key: RenderCommand -> int,
                   before: map<int, RenderBatch>, empty: RenderBatch)
    requires Walked(view, done, key, before)
    requires Filter(done, key, key(c)) == [] && Holds(empty, [])
    ensures Opened(view[key(c) := empty], done, c, key, before)
  {
    KeySetSnoc(done, c, key);
    NewRunMeshes(view, done, c, key, empty);
    NewRunOthers(view, before, KeySet(done, key), key(c), empty);
  }

  lemma NewRunMeshes(view: map<int, RenderBatch>, done: seq<RenderCommand>, c: RenderCommand, key: RenderCommand -> int,
                     empty: RenderBatch)
    requires MeshesHold(view, KeySet(done, key), done, key)
    requires Filter(done, key, key(c)) == [] && Holds(empty, [])
    requires KeySet(done + [c], key) == KeySet(done, key) + {key(c)}
    ensures MeshesHold(view[key(c) := empty], KeySet(done + [c], key), done, key)
  {
    var view' := view[key(c) := empty];
    forall k | k in KeySet(done + [c], key) ensures MeshHolds(view', k, done, key) {
      if k != key(c) {
        assert view'[k] == view[k];
      }
    }
  }

  lemma NewRunOthers(view: map<int, RenderBatch>, before: map<int, RenderBatch>, keys: set<int>, k0: int, b: RenderBatch)
    requires KeptOthers(view, before, keys)
    ensures KeptOthers(view[k0 := b], before, keys + {k0})
  {
    assert view[k0 := b].Keys == view.Keys + {k0};
  }

  /** Adding the command to its open batch completes its turn. */
  lemma AddToRun(view: map<int, RenderBatch>, done: seq<RenderCommand>, c: RenderCommand, key: RenderCommand -> int,
                 before: map<int, RenderBatch>)
    requires Opened(view, done, c, key, before)
    ensures key(c) in view
    ensures Walked(view[key(c) := view[key(c)].ProcessCommand(c)], done + [c], key, before)
  {
    KeySetSnoc(done, c, key);
    AddedMeshes(view, done, c, key);
    AddedOthers(view, before, KeySet(done + [c], key), key(c), view[key(c)].ProcessCommand(c));
  }

  lemma AddedMeshes(view: map<int, RenderBatch>, done: seq<RenderCommand>, c: RenderCommand, key: RenderCommand -> int)
    requires MeshesHold(view, KeySet(done + [c], key), done, key)
    requires key(c) in KeySet(done + [c], key)
    ensures key(c) in view
    ensures MeshesHold(view[key(c) := view[key(c)].ProcessCommand(c)], KeySet(done + [c], key), done + [c], key)
  {
    var keys := KeySet(done + [c], key);
    assert MeshHolds(view, key(c), done, key);
    var view' := view[key(c) := view[key(c)].ProcessCommand(c)];
    forall k | k in keys ensures MeshHolds(view', k, done + [c], key) {
      assert MeshHolds(view, k, done, key);
      AddedMesh(view, done, c, key, k);
    }
  }

  lemma AddedMesh(view: map<int, RenderBatch>, done: seq<RenderCommand>, c: RenderCommand, key: RenderCommand -> int, k: int)
    requires k in view && Holds(view[k], Filter(done, key, k)) && key(c) in view
    ensures var view' := view[key(c) := view[key(c)].ProcessCommand(c)];
      Holds(view'[k], Filter(done + [c], key, k))
  {
    FilterSnoc(done, c, key, k);
    if k == key(c) {
      HoldsAppended(view[k], Filter(done, key, k), c);
    } else {
      assert Filter(done, key, k) + [] == Filter(done, key, k);
    }
  }

  /** Replacing a batch that is already there keeps the set of batches. */
  lemma AddedOthers(view: map<int, RenderBatch>, before: map<int, RenderBatch>, keys: set<int>, k0: int, b: RenderBatch)
    requires KeptOthers(view, before, keys) && k0 in keys
    ensures KeptOthers(view[k0 := b], before, keys)
  {
    assert view[k0 := b].Keys == view.Keys;
  }

  /** The key of the last command walked is among the keys walked. */
  lemma LastKeySeen(s: seq<RenderCommand>, key: RenderCommand -> int, i: nat)
    requires 0 < i <= |s|
    ensures key(s[i - 1]) in KeySet(s[..i], key)
  {
    assert s[..i][..i - 1] == s[..i - 1];
  }

  /**
   * A pass over commands sorted by key leaves one batch per key, holding that
   * key's commands in order, and every other batch as it was.
   */
  lemma {:induction false} WalkHolds(env: Env, st: Batching, s: seq<RenderCommand>)
    requires |env.memoryTypes| <= 64 && PoolsValid(st.sets)
    requires SortedBy(s, Key) && Walk(env, st, s).Ok?
    ensures Walked(Walk(env, st, s).value.batches, s, Key, st.batches)
    decreases |s|
  {
    if s == [] {
      assert Walk(env, st, s).value == st;
    } else {
      var done := s[..|s| - 1];
      WalkLast(env, st, s);
      SortedPrefix(s, Key);
      WalkHolds(env, st, done);
      StepSorted(env, Walk(env, st, done).value, s, st.batches);
    }
  }

  /** Whether the last command of `s` continues the run of the command before it. */
  function Continues(s: seq<RenderCommand>): bool
    requires s != []
  {
    |s| > 1 && Key(s[|s| - 2]) == Key(s[|s| - 1])
  }

  /** In a sorted list, the turn of the last command keeps `Walked`. */
  lemma StepSorted(env: Env, mid: Batching, s: seq<RenderCommand>, before: map<u64, RenderBatch>)
    requires |env.memoryTypes| <= 64 && PoolsValid(mid.sets)
    requires s != [] && SortedBy(s, Key)
    requires Walked(mid.batches, s[..|s| - 1], Key, before)
    requires Continues(s) ==> Key(s[|s| - 1]) in mid.batches
    requires Step(env, mid, Continues(s), s[|s| - 1]).Ok?
    ensures Walked(Step(env, mid, Continues(s), s[|s| - 1]).value.batches, s, Key, before)
  {
    if !Continues(s) {
      RunStartFilter(s, Key, |s| - 1);
    }
    StepHolds(env, mid, s, before);
  }

  /** A pass that succeeds succeeded up to its last command, and ends with that command's turn. */
  lemma WalkLast(env: Env, st: Batching, s: seq<RenderCommand>)
    requires |env.memoryTypes| <= 64 && PoolsValid(st.sets)
    requires s != [] && Walk(env, st, s).Ok?
    ensures Walk(env, st, s[..|s| - 1]).Ok?
    ensures Continues(s) ==> Key(s[|s| - 1]) in Walk(env, st, s[..|s| - 1]).value.batches
    ensures Walk(env, st, s) == Step(env, Walk(env, st, s[..|s| - 1]).value, Continues(s), s[|s| - 1])
  {
  }

  /** The turn of the last command keeps `Walked`, when a command that opens a run finds no earlier command of its key. */
  lemma StepHolds(env: Env, mid: Batching, s: seq<RenderCommand>, before: map<u64, RenderBatch>)
    requires |env.memoryTypes| <= 64 && PoolsValid(mid.sets) && s != []
    requires Walked(mid.batches, s[..|s| - 1], Key, before)
    requires !Continues(s) ==> Filter(s[..|s| - 1], Key, Key(s[|s| - 1])) == []
    requires Continues(s) ==> Key(s[|s| - 1]) in mid.batches
    requires Step(env, mid, Continues(s), s[|s| - 1]).Ok?
    ensures Walked(Step(env, mid, Continues(s), s[|s| - 1]).value.batches, s, Key, before)
  {
    var done, c := s[..|s| - 1], s[|s| - 1];
    Snoc(s);
    if Continues(s) {
      OpenSameRun(mid.batches, done, c, Key, before);
      AddToRun(mid.batches, done, c, Key, before);
    } else {
      CreateBatchSpec(env, mid, c.transparency, c.layer, c.shaderProgramId, c.texId);
      var made := CreateBatch(env, mid, c.transparency, c.layer, c.shaderProgramId, c.texId).value;
      OpenNewRun(mid.batches, done, c, Key, before, made.1.batches[made.0]);
      AddToRun(made.1.batches, done, c, Key, before);
    }
  }

  lemma Snoc<T>(s: seq<T>)
    requires s != []
    ensures s == s[..|s| - 1] + [s[|s| - 1]]
  {
  }

  lemma SortedPrefix<T>(s: seq<T>, key: T -> int)
    requires s != [] && SortedBy(s, key)
    ensures SortedBy(s[..|s| - 1], key)
  {
  }

  /**
   * With room in every pool for one set per command and memory for batch
   * buffers, a pass over commands of known shader programs does not panic,
   * and leaves room for the rest.
   */
  lemma {:induction false} WalkSucceeds(env: Env, st: Batching, s: seq<RenderCommand>, n: nat)
    requires PoolsValid(st.sets) && Room(env.memoryTypes, env.masks, st.sets, n) && |s| <= n
    requires forall c :: c in s ==> c.shaderProgramId in SHADER_PROGRAMS
    ensures Walk(env, st, s).Ok?
    ensures Room(env.memoryTypes, env.masks, Walk(env, st, s).value.sets, n - |s|)
    decreases |s|
  {
    if s != [] {
      var done, c := s[..|s| - 1], s[|s| - 1];
      assert forall x :: x in done ==> x in s;
      WalkSucceeds(env, st, done, n);
      var mid := Walk(env, st, done).value;
      assert c in s;
      assert !CreateFails(env, mid.sets, c.shaderProgramId);
      CreateBatchSpec(env, mid, c.transparency, c.layer, c.shaderProgramId, c.texId);
    }
  }

  /** Having walked the sorted commands is having batched every key's commands in input order. */
  lemma WalkedAll(view: map<int, RenderBatch>, commands: seq<RenderCommand>, key: RenderCommand -> int, before: map<int, RenderBatch>)
    requires Walked(view, SortBy(commands, key), key, before)
    ensures Walked(view, commands, key, before)
  {
    KeySetSortBy(commands, key);
    forall k | k in KeySet(commands, key) ensures MeshHolds(view, k, commands, key) {
      assert MeshHolds(view, k, SortBy(commands, key), key);
      SortFilter(commands, key, k);
    }
  }

  /**
   * `process_commands` as a whole: when the pass over the commands sorted by
   * key succeeds, every key of the commands has one batch holding exactly the
   * commands of that key, in the order they were given, and no other batch
   * is touched.
   */
  lemma ProcessedMeshes(env: Env, st: Batching, commands: seq<RenderCommand>)
    requires |env.memoryTypes| <= 64 && PoolsValid(st.sets)
    requires Walk(env, st, SortBy(commands, Key)).Ok?
    ensures Walked(Walk(env, st, SortBy(commands, Key)).value.batches, commands, Key, st.batches)
  {
    SortSorted(commands, Key);
    WalkHolds(env, st, SortBy(commands, Key));
    WalkedAll(Walk(env, st, SortBy(commands, Key)).value.batches, commands, Key, st.batches);
  }

  /** With enough room, the pass over the sorted commands succeeds. */
  lemma ProcessedSucceeds(env: Env, st: Batching, commands: seq<RenderCommand>)
    requires PoolsValid(st.sets) && Room(env.memoryTypes, env.masks, st.sets, |commands|)
    requires forall c :: c in commands ==> c.shaderProgramId in SHADER_PROGRAMS
    ensures Walk(env, st, SortBy(commands, Key)).Ok?
  {
    var sorted := SortBy(commands, Key);
    assert |sorted| == |multiset(sorted)| == |commands|;
    forall c | c in sorted ensures c.shaderProgramId in SHADER_PROGRAMS {
      assert c in multiset(sorted);
    }
    WalkSucceeds(env, st, sorted, |commands|);
  }
}
