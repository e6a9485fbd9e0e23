/**
 The file store's hash cache against a file system that other processes write to at any moment:
 between the stat and the read of one call, and between calls. The cache is sound exactly when the
 clock that stamps changes never lags true time by more than the trust margin.
 */
module FileStore {
  import opened Options

  type Path = string
  type Bytes = seq<nat>
  type Sha = nat

  datatype Stat = Stat(mtime: int, ctime: int, size: nat)

  datatype Hashed = Hashed(stat: Stat, sha: Sha)

  /** Two seconds, in nanoseconds. */
  const TRUST_MARGIN := 2_000_000_000

  predicate UnchangedSinceHashed(cached: Hashed, st: Stat) {
    st.mtime == cached.stat.mtime && st.ctime == cached.stat.ctime && st.size == cached.stat.size
  }

  predicate OldEnoughToCache(st: Stat, walkStart: int) {
    var newest := if st.mtime > st.ctime then st.mtime else st.ctime;
    newest < walkStart - TRUST_MARGIN
  }

  // ----- the code between two awaits, on the cache alone -----

  function Recorded(hashes: map<Path, Hashed>, rel: Path, st: Stat, walkStart: int, sha: Sha): map<Path, Hashed> {
    if OldEnoughToCache(st, walkStart) then hashes[rel := Hashed(st, sha)] else hashes
  }

  /** The cached sha, if the stat taken now is the one it was recorded with. */
  function Hit(hashes: map<Path, Hashed>, rel: Path, st: Stat): Option<Sha> {
    if rel in hashes && UnchangedSinceHashed(hashes[rel], st) then Some(hashes[rel].sha) else None
  }

  class HashCache {
    var hashes: map<Path, Hashed>

    constructor ()
      ensures hashes == map[]
    {
      hashes := map[];
    }

    /** From the stat to the read: a hit is recorded again at once and is the answer. */
    method AfterStat(rel: Path, st: Stat, walkStart: int) returns (sha: Option<Sha>)
      modifies this
      ensures sha == Hit(old(hashes), rel, st)
      ensures hashes == if sha.Some? then Recorded(old(hashes), rel, st, walkStart, sha.value) else old(hashes)
    {
      sha := None;
      if rel in hashes && UnchangedSinceHashed(hashes[rel], st) {
        var recorded := AfterRead(rel, st, walkStart, hashes[rel].sha);
        sha := Some(recorded);
      }
    }

    /** From the read on: record the sha under the stat that was taken before the read, and answer with it. */
    method AfterRead(rel: Path, st: Stat, walkStart: int, sha: Sha) returns (answer: Sha)
      modifies this
      ensures hashes == Recorded(old(hashes), rel, st, walkStart, sha) && answer == sha
    {
      var newest := if st.mtime > st.ctime then st.mtime else st.ctime;
      if newest < walkStart - TRUST_MARGIN {
        hashes := hashes[rel := Hashed(st, sha)];
      }
      answer := sha;
    }
  }

  // ----- the world -----

  datatype File = File(bytes: Bytes, stat: Stat)

  /** One call of `hashViaCache` under way, begun by action number `since`. */
  datatype Call =
    | Begun(path: Path, walkStart: int, since: nat)
    | Stated(path: Path, walkStart: int, since: nat, snap: File)
    | Read(path: Path, walkStart: int, since: nat, snap: File, bytes: Bytes)

  /** What a call answered, and the numbers of the actions that began and ended it. */
  datatype Answer = Answer(path: Path, sha: Option<Sha>, since: nat, until: nat)

  /** `step` is the number of the action to come. */
  datatype World = World(now: int, files: map<Path, File>, hashes: map<Path, Hashed>,
                         calls: map<nat, Call>, answers: seq<Answer>, step: nat)

  /** Every call names itself by a number; several may be under way at once. */
  datatype Action =
    | Tick(nanos: nat)
    | Change(path: Path, bytes: Bytes, mtime: int, lag: nat)
    | Delete(path: Path)
    | BeginCall(id: nat, path: Path, walkStart: int)
    | TakeStat(id: nat)
    | ReadFile(id: nat)
    | Finish(id: nat)

  function Answered(w: World, id: nat, sha: Option<Sha>, hashes: map<Path, Hashed>): World
    requires id in w.calls
  {
    w.(calls := w.calls - {id}, hashes := hashes,
       answers := w.answers + [Answer(w.calls[id].path, sha, w.calls[id].since, w.step)])
  }

  /**
   What an action does. A change of a file stamps its ctime from a clock that lags true time by at
   most `maxLag`; its mtime is the writer's to choose. An action that is not possible does nothing.
   */
  function Act(w: World, a: Action, maxLag: nat, hash: Bytes -> Sha): World {
    match a
    case Tick(nanos) => w.(now := w.now + nanos)
    case Change(path, bytes, mtime, lag) =>
      if lag > maxLag then w
      else w.(files := w.files[path := File(bytes, Stat(mtime, w.now - lag, |bytes|))])
    case Delete(path) => w.(files := w.files - {path})
    case BeginCall(id, path, walkStart) =>
      if id in w.calls || walkStart > w.now then w
      else w.(calls := w.calls[id := Begun(path, walkStart, w.step)])
    case TakeStat(id) => (
      if id !in w.calls || !w.calls[id].Begun? then w
      else
        var c := w.calls[id];
        if c.path !in w.files then Answered(w, id, None, w.hashes)
        else
          var file := w.files[c.path];
          var hit := Hit(w.hashes, c.path, file.stat);
          if hit.Some? then
            Answered(w, id, hit, Recorded(w.hashes, c.path, file.stat, c.walkStart, hit.value))
          else w.(calls := w.calls[id := Stated(c.path, c.walkStart, c.since, file)])
      )
    case ReadFile(id) => (
      if id !in w.calls || !w.calls[id].Stated? then w
      else
        var c := w.calls[id];
        if c.path !in w.files then Answered(w, id, None, w.hashes)
        else w.(calls := w.calls[id := Read(c.path, c.walkStart, c.since, c.snap, w.files[c.path].bytes)])
      )
    case Finish(id) =>
      if id !in w.calls || !w.calls[id].Read? then w
      else
        var c := w.calls[id];
        Answered(w, id, Some(hash(c.bytes)), Recorded(w.hashes, c.path, c.snap.stat, c.walkStart, hash(c.bytes)))
  }

  /** One step of the world. */
  function Do(w: World, a: Action, maxLag: nat, hash: Bytes -> Sha): World {
    Act(w, a, maxLag, hash).(step := w.step + 1)
  }

  function DoAll(w: World, actions: seq<Action>, maxLag: nat, hash: Bytes -> Sha): World {
    if actions == [] then w
    else Do(DoAll(w, actions[..|actions| - 1], maxLag, hash), actions[|actions| - 1], maxLag, hash)
  }

  /** A fresh store over files last changed at any time before now. */
  predicate Initial(w: World) {
    && w.hashes == map[] && w.calls == map[] && w.answers == [] && w.step == 0
    && forall p :: p in w.files ==> w.files[p].stat.size == |w.files[p].bytes|
  }

  /** What a file holds, if it is there. */
  function Content(w: World, path: Path): Option<Bytes> {
    if path in w.files then Some(w.files[path].bytes) else None
  }

  /** At some moment from action `since` to action `until` of a run the file held `content`, or was absent. */
  ghost predicate Held(w: World, actions: seq<Action>, path: Path, since: nat, until: nat, content: Option<Bytes>,
                       maxLag: nat, hash: Bytes -> Sha) {
    exists m :: since <= m <= until <= |actions|
      && Content(DoAll(w, actions[..m], maxLag, hash), path) == content
  }

  /** The sha is that of bytes the file held during the call, and is missing only if the file was. */
  ghost predicate SoundAnswer(w: World, actions: seq<Action>, a: Answer, maxLag: nat, hash: Bytes -> Sha) {
    match a.sha
    case None => Held(w, actions, a.path, a.since, a.until, None, maxLag, hash)
    case Some(sha) =>
      exists b :: Held(w, actions, a.path, a.since, a.until, Some(b), maxLag, hash) && hash(b) == sha
  }

  predicate Asks(a: Action) { a.TakeStat? || a.ReadFile? || a.Finish? }

  /** The answer is to the call that action `since` began, and was given by a later action of that call. */
  predicate OfItsCall(actions: seq<Action>, a: Answer) {
    && a.since < a.until < |actions|
    && actions[a.since].BeginCall? && actions[a.since].path == a.path
    && Asks(actions[a.until])
    && actions[a.until].id == actions[a.since].id
  }

  // ----- soundness -----

  /** The cache entry can never again describe other bytes than the ones it was computed from. */
  predicate EntrySound(w: World, p: Path, hash: Bytes -> Sha)
    requires p in w.hashes
  {
    var e := w.hashes[p];
    && e.stat.ctime < w.now - TRUST_MARGIN
    && (p in w.files && w.files[p].stat == e.stat ==> hash(w.files[p].bytes) == e.sha)
  }

  /** A file whose ctime is still outside the margin has not changed since the call took its stat. */
  predicate StillAsStated(w: World, c: Call)
    requires c.Stated? || c.Read?
  {
    c.path in w.files && w.files[c.path].stat.ctime < c.walkStart - TRUST_MARGIN ==>
      w.files[c.path] == c.snap && (c.Read? ==> c.bytes == c.snap.bytes)
  }

  predicate CallSound(w: World, c: Call) {
    && c.walkStart <= w.now
    && (c.Stated? || c.Read? ==> StillAsStated(w, c))
  }

  predicate Inv(w: World, hash: Bytes -> Sha) {
    && (forall p :: p in w.hashes ==> EntrySound(w, p, hash))
    && (forall id :: id in w.calls ==> CallSound(w, w.calls[id]))
  }

  lemma ChangeKeeps(w: World, path: Path, bytes: Bytes, mtime: int, lag: nat, maxLag: nat, hash: Bytes -> Sha)
    requires Inv(w, hash) && maxLag <= TRUST_MARGIN && lag <= maxLag
    ensures Inv(Do(w, Change(path, bytes, mtime, lag), maxLag, hash), hash)
  {
    var w' := Do(w, Change(path, bytes, mtime, lag), maxLag, hash);
    forall p | p in w'.hashes
      ensures EntrySound(w', p, hash)
    {
      assert EntrySound(w, p, hash);
    }
    forall id | id in w'.calls
      ensures CallSound(w', w'.calls[id])
    {
      assert CallSound(w, w.calls[id]);
    }
  }

  /** Recording a sha that is right for the stat as long as the file still has it keeps the cache sound. */
  lemma RecordedKeeps(w: World, id: nat, st: Stat, sha: Sha, hash: Bytes -> Sha)
    requires Inv(w, hash) && id in w.calls && w.calls[id].walkStart <= w.now
    requires var c := w.calls[id];
      st.ctime < c.walkStart - TRUST_MARGIN && c.path in w.files && w.files[c.path].stat == st ==>
        hash(w.files[c.path].bytes) == sha
    ensures var c := w.calls[id];
      Inv(Answered(w, id, Some(sha), Recorded(w.hashes, c.path, st, c.walkStart, sha)), hash)
  {
    var c := w.calls[id];
    var w' := Answered(w, id, Some(sha), Recorded(w.hashes, c.path, st, c.walkStart, sha));
    forall p | p in w'.hashes
      ensures EntrySound(w', p, hash)
    {
      if p in w.hashes { assert EntrySound(w, p, hash); }
    }
    forall k | k in w'.calls
      ensures CallSound(w', w'.calls[k])
    {
      assert CallSound(w, w.calls[k]);
    }
  }

  lemma StatKeeps(w: World, id: nat, maxLag: nat, hash: Bytes -> Sha)
    requires Inv(w, hash)
    ensures Inv(Do(w, TakeStat(id), maxLag, hash), hash)
  {
    if id in w.calls && w.calls[id].Begun? {
      var c := w.calls[id];
      assert CallSound(w, c);
      if c.path in w.files {
        var file := w.files[c.path];
        if Hit(w.hashes, c.path, file.stat).Some? {
          assert EntrySound(w, c.path, hash);
          RecordedKeeps(w, id, file.stat, w.hashes[c.path].sha, hash);
        }
      }
    }
  }

  lemma StepKeeps(w: World, a: Action, maxLag: nat, hash: Bytes -> Sha)
    requires Inv(w, hash) && maxLag <= TRUST_MARGIN
    ensures Inv(Do(w, a, maxLag, hash), hash)
  {
    match a
    case Change(path, bytes, mtime, lag) =>
      if lag <= maxLag { ChangeKeeps(w, path, bytes, mtime, lag, maxLag, hash); }
    case TakeStat(id) => StatKeeps(w, id, maxLag, hash);
    case Finish(id) =>
      if id in w.calls && w.calls[id].Read? {
        var c := w.calls[id];
        assert CallSound(w, c);
        RecordedKeeps(w, id, c.snap.stat, hash(c.bytes), hash);
      }
    case Tick(nanos) =>
      var w' := Do(w, a, maxLag, hash);
      assert forall p :: p in w'.hashes ==> EntrySound(w, p, hash);
      assert forall id :: id in w'.calls ==> CallSound(w, w.calls[id]);
    case Delete(path) =>
      var w' := Do(w, a, maxLag, hash);
      assert forall p :: p in w'.hashes ==> EntrySound(w, p, hash);
      assert forall id :: id in w'.calls ==> CallSound(w, w.calls[id]);
    case _ =>
  }

  lemma {:induction false} RunKeeps(w: World, actions: seq<Action>, maxLag: nat, hash: Bytes -> Sha)
    requires Inv(w, hash) && maxLag <= TRUST_MARGIN
    ensures Inv(DoAll(w, actions, maxLag, hash), hash)
  {
    if actions != [] {
      RunKeeps(w, actions[..|actions| - 1], maxLag, hash);
      StepKeeps(DoAll(w, actions[..|actions| - 1], maxLag, hash), actions[|actions| - 1], maxLag, hash);
    }
  }

  // ----- what a call saw -----

  lemma DoAllNext(w: World, actions: seq<Action>, a: Action, maxLag: nat, hash: Bytes -> Sha)
    ensures DoAll(w, actions + [a], maxLag, hash) == Do(DoAll(w, actions, maxLag, hash), a, maxLag, hash)
  {
    assert (actions + [a])[..|actions|] == actions;
  }

  lemma {:induction false} Steps(w: World, actions: seq<Action>, maxLag: nat, hash: Bytes -> Sha)
    requires w.step == 0
    ensures DoAll(w, actions, maxLag, hash).step == |actions|
  {
    if actions != [] { Steps(w, actions[..|actions| - 1], maxLag, hash); }
  }

  lemma HeldLater(w: World, actions: seq<Action>, a: Action, path: Path, since: nat, until: nat, later: nat,
                  content: Option<Bytes>, maxLag: nat, hash: Bytes -> Sha)
    requires Held(w, actions, path, since, until, content, maxLag, hash) && until <= later <= |actions| + 1
    ensures Held(w, actions + [a], path, since, later, content, maxLag, hash)
  {
    hide DoAll, Content;
    var m :| since <= m <= until <= |actions| && Content(DoAll(w, actions[..m], maxLag, hash), path) == content;
    assert (actions + [a])[..m] == actions[..m];
  }

  /** What the file holds as the next action is taken counts as held during it. */
  lemma HeldNow(w: World, actions: seq<Action>, a: Action, path: Path, since: nat, until: nat, maxLag: nat,
                hash: Bytes -> Sha)
    requires since <= |actions| <= until <= |actions| + 1
    ensures var content := Content(DoAll(w, actions, maxLag, hash), path);
      Held(w, actions + [a], path, since, until, content, maxLag, hash)
  {
    assert (actions + [a])[..|actions|] == actions;
  }

  /** What holds of a call under way: it was begun as it says, and read what its file held. */
  ghost predicate CallTrue(w: World, actions: seq<Action>, id: nat, c: Call, maxLag: nat, hash: Bytes -> Sha) {
    && c.since < |actions| && actions[c.since] == BeginCall(id, c.path, c.walkStart)
    && (c.Read? ==> Held(w, actions, c.path, c.since, |actions|, Some(c.bytes), maxLag, hash))
  }

  ghost predicate AnswerTrue(w: World, actions: seq<Action>, a: Answer, maxLag: nat, hash: Bytes -> Sha) {
    OfItsCall(actions, a) && SoundAnswer(w, actions, a, maxLag, hash)
  }

  ghost predicate RunTrue(w: World, actions: seq<Action>, maxLag: nat, hash: Bytes -> Sha) {
    var end := DoAll(w, actions, maxLag, hash);
    && (forall id :: id in end.calls ==> CallTrue(w, actions, id, end.calls[id], maxLag, hash))
    && (forall i :: 0 <= i < |end.answers| ==> AnswerTrue(w, actions, end.answers[i], maxLag, hash))
  }

  lemma AnswerStays(w: World, actions: seq<Action>, a: Action, was: Answer, maxLag: nat, hash: Bytes -> Sha)
    requires AnswerTrue(w, actions, was, maxLag, hash)
    ensures AnswerTrue(w, actions + [a], was, maxLag, hash)
  {
    hide Held;
    match was.sha
    case None =>
      HeldLater(w, actions, a, was.path, was.since, was.until, was.until, None, maxLag, hash);
    case Some(sha) =>
      var b :| Held(w, actions, was.path, was.since, was.until, Some(b), maxLag, hash) && hash(b) == sha;
      HeldLater(w, actions, a, was.path, was.since, was.until, was.until, Some(b), maxLag, hash);
  }

  lemma CallStays(w: World, actions: seq<Action>, a: Action, id: nat, c: Call, maxLag: nat, hash: Bytes -> Sha)
    requires CallTrue(w, actions, id, c, maxLag, hash)
    ensures CallTrue(w, actions + [a], id, c, maxLag, hash)
  {
    hide Held;
    if c.Read? {
      HeldLater(w, actions, a, c.path, c.since, |actions|, |actions| + 1, Some(c.bytes), maxLag, hash);
    }
  }

  /** The sha in an answer is of what the file holds or of what the call read; without it the file is not there. */
  predicate AnswersNow(w: World, c: Call, sha: Option<Sha>, hash: Bytes -> Sha) {
    match sha
    case None => Content(w, c.path) == None
    case Some(s) =>
      || (Content(w, c.path).Some? && hash(Content(w, c.path).value) == s)
      || (c.Read? && hash(c.bytes) == s)
  }

  /** The answer that an action gives, if it gives one. */
  lemma AnswerIs(w: World, a: Action, maxLag: nat, hash: Bytes -> Sha)
    requires Inv(w, hash)
    ensures var now := Do(w, a, maxLag, hash);
      || now.answers == w.answers
      || (&& Asks(a) && a.id in w.calls && |now.answers| == |w.answers| + 1
          && var c, sha := w.calls[a.id], now.answers[|w.answers|].sha;
             && now.answers == w.answers + [Answer(c.path, sha, c.since, w.step)]
             && AnswersNow(w, c, sha, hash))
  {
    if Asks(a) && a.id in w.calls && w.calls[a.id].path in w.hashes {
      assert EntrySound(w, w.calls[a.id].path, hash);
    }
    hide Recorded;
  }

  /** An answer that says what its file holds or what its call read is true of the run. */
  lemma AnswerIsTrue(w: World, actions: seq<Action>, a: Action, c: Call, sha: Option<Sha>, maxLag: nat,
                     hash: Bytes -> Sha)
    requires Asks(a) && CallTrue(w, actions, a.id, c, maxLag, hash)
    requires AnswersNow(DoAll(w, actions, maxLag, hash), c, sha, hash)
    ensures AnswerTrue(w, actions + [a], Answer(c.path, sha, c.since, |actions|), maxLag, hash)
  {
    HeldNow(w, actions, a, c.path, c.since, |actions|, maxLag, hash);
    if c.Read? {
      HeldLater(w, actions, a, c.path, c.since, |actions|, |actions|, Some(c.bytes), maxLag, hash);
    }
    hide DoAll, Held, Content;
  }

  lemma AnswerGiven(w: World, actions: seq<Action>, a: Action, maxLag: nat, hash: Bytes -> Sha)
    requires RunTrue(w, actions, maxLag, hash) && w.step == 0 && Inv(DoAll(w, actions, maxLag, hash), hash)
    ensures var was := DoAll(w, actions, maxLag, hash);
      var now := Do(was, a, maxLag, hash);
      && |was.answers| <= |now.answers| <= |was.answers| + 1 && now.answers[..|was.answers|] == was.answers
      && (|now.answers| > |was.answers| ==>
           AnswerTrue(w, actions + [a], now.answers[|was.answers|], maxLag, hash))
  {
    var was := DoAll(w, actions, maxLag, hash);
    Steps(w, actions, maxLag, hash);
    AnswerIs(was, a, maxLag, hash);
    hide Do, DoAll, Inv, CallTrue, AnswerTrue, AnswersNow;
    var now := Do(was, a, maxLag, hash);
    if now.answers != was.answers {
      var c := was.calls[a.id];
      assert CallTrue(w, actions, a.id, c, maxLag, hash);
      AnswerIsTrue(w, actions, a, c, now.answers[|was.answers|].sha, maxLag, hash);
    }
  }

  /** What becomes of a call: it goes on as it was, has just begun, or goes on with what its file says now. */
  lemma CallIs(w: World, a: Action, id: nat, maxLag: nat, hash: Bytes -> Sha)
    requires id in Do(w, a, maxLag, hash).calls
    ensures var c := Do(w, a, maxLag, hash).calls[id];
      if id !in w.calls then a == BeginCall(id, c.path, c.walkStart) && c == Begun(c.path, c.walkStart, w.step)
      else
        var was := w.calls[id];
        && c.path == was.path && c.since == was.since && c.walkStart == was.walkStart
        && (c.Read? ==> c == was || Content(w, c.path) == Some(c.bytes))
  {
    hide Hit, Recorded;
  }

  /** A call under way after the next action. */
  lemma CallGoesOn(w: World, actions: seq<Action>, a: Action, id: nat, maxLag: nat, hash: Bytes -> Sha)
    requires RunTrue(w, actions, maxLag, hash) && w.step == 0
    requires id in Do(DoAll(w, actions, maxLag, hash), a, maxLag, hash).calls
    ensures CallTrue(w, actions + [a], id, Do(DoAll(w, actions, maxLag, hash), a, maxLag, hash).calls[id], maxLag, hash)
  {
    var was := DoAll(w, actions, maxLag, hash);
    var c := Do(was, a, maxLag, hash).calls[id];
    Steps(w, actions, maxLag, hash);
    CallIs(was, a, id, maxLag, hash);
    hide Do, DoAll, Held, Content, AnswerTrue;
    if id in was.calls {
      assert CallTrue(w, actions, id, was.calls[id], maxLag, hash);
      CallStays(w, actions, a, id, was.calls[id], maxLag, hash);
      if c.Read? && c != was.calls[id] {
        HeldNow(w, actions, a, c.path, c.since, |actions| + 1, maxLag, hash);
      }
    }
  }

  lemma AnswersNext(w: World, earlier: seq<Action>, a: Action, i: nat, maxLag: nat, hash: Bytes -> Sha)
    requires RunTrue(w, earlier, maxLag, hash) && w.step == 0 && Inv(DoAll(w, earlier, maxLag, hash), hash)
    requires i < |DoAll(w, earlier + [a], maxLag, hash).answers|
    ensures AnswerTrue(w, earlier + [a], DoAll(w, earlier + [a], maxLag, hash).answers[i], maxLag, hash)
  {
    DoAllNext(w, earlier, a, maxLag, hash);
    AnswerGiven(w, earlier, a, maxLag, hash);
    hide Do, DoAll, AnswerTrue, CallTrue, Inv;
    var was, end := DoAll(w, earlier, maxLag, hash), DoAll(w, earlier + [a], maxLag, hash);
    if i < |was.answers| {
      assert AnswerTrue(w, earlier, was.answers[i], maxLag, hash);
      AnswerStays(w, earlier, a, was.answers[i], maxLag, hash);
      assert end.answers[i] == end.answers[..|was.answers|][i];
    }
  }

  lemma RunNext(w: World, earlier: seq<Action>, a: Action, maxLag: nat, hash: Bytes -> Sha)
    requires RunTrue(w, earlier, maxLag, hash) && w.step == 0 && Inv(DoAll(w, earlier, maxLag, hash), hash)
    ensures RunTrue(w, earlier + [a], maxLag, hash)
  {
    DoAllNext(w, earlier, a, maxLag, hash);
    hide Do, DoAll, AnswerTrue, CallTrue, Inv;
    var actions := earlier + [a];
    var end := DoAll(w, actions, maxLag, hash);
    forall i | 0 <= i < |end.answers|
      ensures AnswerTrue(w, actions, end.answers[i], maxLag, hash)
    {
      AnswersNext(w, earlier, a, i, maxLag, hash);
    }
    forall id | id in end.calls
      ensures CallTrue(w, actions, id, end.calls[id], maxLag, hash)
    {
      CallGoesOn(w, earlier, a, id, maxLag, hash);
    }
  }

  lemma {:induction false} RunIsTrue(w: World, actions: seq<Action>, maxLag: nat, hash: Bytes -> Sha)
    requires Initial(w) && maxLag <= TRUST_MARGIN
    ensures RunTrue(w, actions, maxLag, hash)
  {
    if actions != [] {
      var earlier, a := actions[..|actions| - 1], actions[|actions| - 1];
      assert actions == earlier + [a];
      RunIsTrue(w, earlier, maxLag, hash);
      RunKeeps(w, earlier, maxLag, hash);
      hide RunTrue, DoAll, Inv;
      RunNext(w, earlier, a, maxLag, hash);
    }
  }

  /**
   Every answer of every run from a fresh store is the hash of bytes the file held during its call, and no
   answer is without a sha unless the file was absent during its call.
   */
  ghost predicate AlwaysSound(maxLag: nat, hash: Bytes -> Sha) {
    forall w, actions, i ::
      Initial(w) && 0 <= i < |DoAll(w, actions, maxLag, hash).answers| ==>
        AnswerTrue(w, actions, DoAll(w, actions, maxLag, hash).answers[i], maxLag, hash)
  }

  lemma Sound(maxLag: nat, hash: Bytes -> Sha)
    requires maxLag <= TRUST_MARGIN
    ensures AlwaysSound(maxLag, hash)
  {
    forall w, actions, i | Initial(w) && 0 <= i < |DoAll(w, actions, maxLag, hash).answers|
      ensures AnswerTrue(w, actions, DoAll(w, actions, maxLag, hash).answers[i], maxLag, hash)
    {
      RunIsTrue(w, actions, maxLag, hash);
    }
  }

  /** At any moment of any run a hit is what hashing the file again would give. */
  lemma HitIsRehash(w: World, actions: seq<Action>, path: Path, maxLag: nat, hash: Bytes -> Sha)
    requires Initial(w) && maxLag <= TRUST_MARGIN
    ensures var end := DoAll(w, actions, maxLag, hash);
      path in end.files && Hit(end.hashes, path, end.files[path].stat).Some? ==>
        Hit(end.hashes, path, end.files[path].stat).value == hash(end.files[path].bytes)
  {
    RunKeeps(w, actions, maxLag, hash);
    var end := DoAll(w, actions, maxLag, hash);
    assert path in end.hashes ==> EntrySound(end, path, hash);
  }

  /** Others may do with the files as they like, at any time: only what stamps a change is bound by the lag. */
  lemma WritersAreFree(w: World, path: Path, bytes: Bytes, mtime: int, lag: nat, nanos: nat, maxLag: nat,
                       hash: Bytes -> Sha)
    ensures var later := Do(w, Tick(nanos), maxLag, hash);
      later == w.(now := later.now, step := later.step) && later.now - w.now == nanos
    ensures var gone := Do(w, Delete(path), maxLag, hash);
      && gone == w.(files := gone.files, step := gone.step) && path !in gone.files
      && forall p :: p in gone.files || p == path <==> p in w.files || p == path
    ensures lag <= maxLag ==>
      var changed := Do(w, Change(path, bytes, mtime, lag), maxLag, hash);
      && changed == w.(files := changed.files, step := changed.step)
      && Content(changed, path) == Some(bytes) && w.now - changed.files[path].stat.ctime == lag
      && forall p :: p != path ==> Content(changed, p) == Content(w, p)
  {
  }

  // ----- what the cache is for -----

  /**
   A file that is hashed and not changed after its stat: the next call finds its sha in the cache, without
   reading the file again, exactly when both of its times lie more than two seconds before the walk began.
   */
  lemma UnchangedReused(w: World, id: nat, next: nat, walkStart: int, maxLag: nat, hash: Bytes -> Sha)
    requires id in w.calls && w.calls[id].Read? && w.calls[id].path !in w.hashes && next !in w.calls - {id}
    requires walkStart <= w.now && w.calls[id].path in w.files && w.files[w.calls[id].path] == w.calls[id].snap
    ensures var c, sha := w.calls[id], hash(w.calls[id].bytes);
      var w1 := Do(w, Finish(id), maxLag, hash);
      var w2 := Do(Do(w1, BeginCall(next, c.path, walkStart), maxLag, hash), TakeStat(next), maxLag, hash);
      var st, edge := c.snap.stat, c.walkStart - 2_000_000_000;
      var trusted := st.mtime < edge && st.ctime < edge;
      && w1.answers == w.answers + [Answer(c.path, Some(sha), c.since, w.step)]
      && (trusted <==> next !in w2.calls)
      && (trusted ==> w2.answers == w1.answers + [Answer(c.path, Some(sha), w.step + 1, w.step + 2)])
      && (!trusted ==> w2.answers == w1.answers && w2.calls[next].Stated?)
  {
  }

  // ----- and no further -----

  function OldFile(path: Path, bytes: Bytes): World {
    World(TRUST_MARGIN + 1, map[path := File(bytes, Stat(0, 0, |bytes|))], map[], map[], [], 0)
  }

  /** A first call that hashes `was` and records it. */
  lemma FirstCall(path: Path, was: Bytes, maxLag: nat, hash: Bytes -> Sha) returns (actions: seq<Action>)
    ensures var w := DoAll(OldFile(path, was), actions, maxLag, hash);
      && w.now == TRUST_MARGIN + 1 && w.files == OldFile(path, was).files && w.calls == map[]
      && |w.answers| == 1 && |actions| == 4
      && w.hashes == map[path := Hashed(Stat(0, 0, |was|), hash(was))]
  {
    var w := OldFile(path, was);
    var a0 := BeginCall(0, path, TRUST_MARGIN + 1);
    actions := [a0];
    DoAllNext(w, [], a0, maxLag, hash);
    assert [] + [a0] == actions;
    DoAllNext(w, actions, TakeStat(0), maxLag, hash);
    actions := actions + [TakeStat(0)];
    DoAllNext(w, actions, ReadFile(0), maxLag, hash);
    actions := actions + [ReadFile(0)];
    DoAllNext(w, actions, Finish(0), maxLag, hash);
    actions := actions + [Finish(0)];
  }

  /** One nanosecond more of lag, and a rewrite that keeps size and mtime is hidden by the cache. */
  lemma StaleHit(path: Path, was: Bytes, now: Bytes, maxLag: nat, hash: Bytes -> Sha)
    requires maxLag > TRUST_MARGIN && |was| == |now| && hash(was) != hash(now)
    ensures !AlwaysSound(maxLag, hash)
  {
    var w := OldFile(path, was);
    var hashed := FirstCall(path, was, maxLag, hash);
    Steps(w, hashed, maxLag, hash);
    var change, begin := Change(path, now, 0, TRUST_MARGIN + 1), BeginCall(1, path, TRUST_MARGIN + 1);
    var changed := hashed + [change];
    var begun := changed + [begin];
    var actions := begun + [TakeStat(1)];
    DoAllNext(w, hashed, change, maxLag, hash);
    DoAllNext(w, changed, begin, maxLag, hash);
    DoAllNext(w, begun, TakeStat(1), maxLag, hash);
    assert DoAll(w, changed, maxLag, hash).files[path].bytes == now;
    assert DoAll(w, begun, maxLag, hash).files[path].bytes == now;
    assert DoAll(w, actions, maxLag, hash).answers[1] == Answer(path, Some(hash(was)), 5, 6);
    assert actions[..5] == changed && actions[..6] == begun;
    hide DoAll, Do;
    forall b | Held(w, actions, path, 5, 6, Some(b), maxLag, hash)
      ensures b == now
    {
      var m :| 5 <= m <= 6 && Content(DoAll(w, actions[..m], maxLag, hash), path) == Some(b);
    }
    assert Initial(w) && !SoundAnswer(w, actions, Answer(path, Some(hash(was)), 5, 6), maxLag, hash);
  }

  /** The cache is sound over every run exactly when no stamp lags true time by more than the margin. */
  lemma SoundIffWithinMargin(maxLag: nat, hash: Bytes -> Sha, was: Bytes, now: Bytes)
    requires |was| == |now| && hash(was) != hash(now)
    ensures AlwaysSound(maxLag, hash) <==> maxLag <= TRUST_MARGIN
  {
    if maxLag <= TRUST_MARGIN {
      Sound(maxLag, hash);
    } else {
      StaleHit("f", was, now, maxLag, hash);
    }
  }
}
