/** A swap cell whose value and version are published together, and a cache over it. */
module VersionedCell {

  import opened Options
  import opened Words
  import Runs

  datatype Snapshot<T> = Snapshot(version: nat, value: T)

  datatype CellEvent = Loaded(version: nat) | Stored(version: nat)

  // ---------- the cell and the cache, one caller at a time ----------

  /** `history` is every value ever published; the snapshot is its last. */
  class ModelArcSwap<T> {
    var inner: Snapshot<T>
    var nextVersion: nat
    var log: seq<CellEvent>
    ghost var history: seq<T>

    ghost predicate Valid()
      reads this
    {
      && |history| == inner.version + 1 && history[inner.version] == inner.value
      && nextVersion == inner.version <= U64_MAX
    }

    constructor (value: T)
      ensures Valid() && inner == Snapshot(0, value) && log == []
    {
      inner, nextVersion, log, history := Snapshot(0, value), 0, [], [value];
    }

    method Load() returns (snapshot: Snapshot<T>)
      requires Valid()
      modifies this`log
      ensures snapshot == inner && log == old(log) + [Loaded(inner.version)]
    {
      log := log + [Loaded(inner.version)];
      return inner;
    }

    /** Publishes the next version; with the counter exhausted the call panics and nothing is published. */
    method Store(value: T) returns (stored: bool)
      requires Valid()
      modifies this
      ensures Valid() && stored == (old(inner.version) < U64_MAX)
      ensures stored ==> inner == Snapshot(old(inner.version) + 1, value)
                         && history == old(history) + [value] && log == old(log) + [Stored(inner.version)]
      ensures !stored ==> inner == old(inner) && history == old(history) && log == old(log)
    {
      var bumped := CheckedIncrement(nextVersion);
      if bumped.None? {
        return false;
      }
      nextVersion := bumped.value;
      inner := Snapshot(nextVersion, value);
      history := history + [value];
      log := log + [Stored(nextVersion)];
      return true;
    }
  }

  class Cache<T> {
    const source: ModelArcSwap<T>
    var cached: T
    var cachedVersion: nat

    ghost predicate Valid()
      reads this, source
    {
      source.Valid() && cachedVersion < |source.history| && source.history[cachedVersion] == cached
    }

    constructor (source: ModelArcSwap<T>)
      requires source.Valid()
      ensures Valid() && this.source == source
    {
      this.source := source;
      cached, cachedVersion := source.inner.value, source.inner.version;
    }

    /** Returns what a fresh load of the cell would, keeping the cached value when its version stands. */
    method Load() returns (value: T)
      requires Valid()
      modifies this, source`log
      ensures Valid() && value == source.inner.value && cachedVersion == source.inner.version
      ensures source.log == old(source.log) + [Loaded(source.inner.version)]
    {
      var snapshot := source.Load();
      if snapshot.version != cachedVersion {
        cached := snapshot.value;
        cachedVersion := snapshot.version;
      }
      return cached;
    }
  }

  // ---------- concurrent stores and caches ----------

  /** The store that holds the version lock: its number is taken, then its value is
      published, then it is reported. */
  datatype Writer<T> = Idle | Numbered(version: nat, value: T) | Published(version: nat)

  /** One observer with its cache, and the load it is in: a snapshot has been read, then
      reported. The load is the cache's, if it goes on to revalidate it, or a direct one. */
  datatype Reader<T> = Reader(cached: T, cachedVersion: nat, pc: ReadPc<T>, seen: seq<nat>, answers: seq<(T, T)>)

  datatype ReadPc<T> = Outside | Read(snapshot: Snapshot<T>) | Told(snapshot: Snapshot<T>)

  /** `answers` pairs, for each completed cache load, the value a direct load at the moment
      of its read would have returned with the value it did return. */
  datatype State<T> = State(inner: Snapshot<T>, nextVersion: nat, writer: Writer<T>, poisoned: bool,
                            history: seq<T>, log: seq<CellEvent>, readers: seq<Reader<T>>)

  function Start<T>(value: T): State<T> {
    State(Snapshot(0, value), 0, Idle, false, [value], [], [])
  }

  datatype Action<T> =
    | BeginStore(value: T)
    | PublishStore
    | EndStore
    | NewCache
    | ReadSnapshot(reader: nat)
    | TellLoad(reader: nat)
    | Revalidate(reader: nat)
    | EndDirectLoad(reader: nat)

  function PutReader<T>(s: State<T>, r: nat, x: Reader<T>): State<T>
    requires r < |s.readers|
  {
    s.(readers := s.readers[r := x])
  }

  function Revalidated<T(==)>(x: Reader<T>, snapshot: Snapshot<T>): Reader<T> {
    var hit := snapshot.version == x.cachedVersion;
    var value := if hit then x.cached else snapshot.value;
    Reader(value, if hit then x.cachedVersion else snapshot.version, Outside, x.seen,
           x.answers + [(snapshot.value, value)])
  }

  function Step<T(==)>(s: State<T>, a: Action<T>): Option<State<T>> {
    match a
    case BeginStore(v) =>
      if s.writer != Idle || s.poisoned then None
      else
        (match CheckedIncrement(s.nextVersion)
         case None => Some(s.(poisoned := true))
         case Some(n) => Some(s.(nextVersion := n, writer := Numbered(n, v))))
    case PublishStore =>
      if s.writer.Numbered?
      then Some(s.(inner := Snapshot(s.writer.version, s.writer.value), writer := Published(s.writer.version),
                  history := s.history + [s.writer.value]))
      else None
    case EndStore =>
      if s.writer.Published? then Some(s.(writer := Idle, log := s.log + [Stored(s.writer.version)])) else None
    case NewCache => Some(s.(readers := s.readers + [Reader(s.inner.value, s.inner.version, Outside, [], [])]))
    case ReadSnapshot(r) =>
      if r < |s.readers| && s.readers[r].pc == Outside
      then Some(PutReader(s, r, s.readers[r].(pc := Read(s.inner), seen := s.readers[r].seen + [s.inner.version])))
      else None
    case TellLoad(r) =>
      if r < |s.readers| && s.readers[r].pc.Read?
      then
        var snapshot := s.readers[r].pc.snapshot;
        Some(PutReader(s, r, s.readers[r].(pc := Told(snapshot))).(log := s.log + [Loaded(snapshot.version)]))
      else None
    case Revalidate(r) =>
      if r < |s.readers| && s.readers[r].pc.Told?
      then Some(PutReader(s, r, Revalidated(s.readers[r], s.readers[r].pc.snapshot))) else None
    case EndDirectLoad(r) =>
      if r < |s.readers| && s.readers[r].pc.Told? then Some(PutReader(s, r, s.readers[r].(pc := Outside))) else None
  }

  ghost predicate InHistory<T>(history: seq<T>, version: nat, value: T) {
    version < |history| && history[version] == value
  }

  ghost predicate ReaderFits<T>(x: Reader<T>, history: seq<T>) {
    && InHistory(history, x.cachedVersion, x.cached)
    && (!x.pc.Outside? ==> InHistory(history, x.pc.snapshot.version, x.pc.snapshot.value))
    && (forall i :: 0 <= i < |x.seen| ==> x.seen[i] < |history|)
    && (forall i, j :: 0 <= i <= j < |x.seen| ==> x.seen[i] <= x.seen[j])
    && (forall i :: 0 <= i < |x.answers| ==> x.answers[i].0 == x.answers[i].1)
  }

  /** The stores a log reports, in order. */
  function Stores(log: seq<CellEvent>): seq<nat> {
    if log == [] then []
    else Stores(log[..|log| - 1]) + if log[|log| - 1].Stored? then [log[|log| - 1].version] else []
  }

  ghost predicate CellFits<T>(s: State<T>) {
    && |s.history| == s.inner.version + 1 && s.history[s.inner.version] == s.inner.value
    && s.nextVersion <= U64_MAX
    && s.nextVersion == s.inner.version + (if s.writer.Numbered? then 1 else 0)
    && (s.writer.Numbered? ==> s.writer.version == s.nextVersion)
    && (s.writer.Published? ==> s.writer.version == s.inner.version && s.inner.version > 0)
    && var stores := Stores(s.log);
       |stores| == s.inner.version - (if s.writer.Published? then 1 else 0)
       && forall i :: 0 <= i < |stores| ==> stores[i] == i + 1
  }

  ghost predicate Inv<T>(s: State<T>) {
    CellFits(s) && forall r :: 0 <= r < |s.readers| ==> ReaderFits(s.readers[r], s.history)
  }

  lemma StoresSnoc(log: seq<CellEvent>, e: CellEvent)
    ensures Stores(log + [e]) == Stores(log) + if e.Stored? then [e.version] else []
  {
    assert (log + [e])[..|log|] == log;
  }

  lemma CellStep<T>(s: State<T>, a: Action<T>)
    requires CellFits(s) && Step(s, a).Some?
    ensures CellFits(Step(s, a).value)
  {
    match a
    case EndStore => StoresSnoc(s.log, Stored(s.writer.version));
    case TellLoad(r) => StoresSnoc(s.log, Loaded(s.readers[r].pc.snapshot.version));
    case _ => assert Step(s, a).value.log == s.log;
  }

  lemma ReaderStep<T>(s: State<T>, a: Action<T>, r: nat)
    requires Inv(s) && Step(s, a).Some? && r < |Step(s, a).value.readers|
    ensures ReaderFits(Step(s, a).value.readers[r], Step(s, a).value.history)
  {
    if r < |s.readers| {
      assert ReaderFits(s.readers[r], s.history);
    }
  }

  function Reach<T(==)>(value: T, actions: seq<Action<T>>): Option<State<T>> {
    Runs.Execute((s: State<T>, a: Action<T>) => Step(s, a), Start(value), actions)
  }

  lemma Reachable<T(!new)>(value: T, actions: seq<Action<T>>)
    requires Reach(value, actions).Some?
    ensures Inv(Reach(value, actions).value)
  {
    var step := (s: State<T>, a: Action<T>) => Step(s, a);
    var inv := (s: State<T>) => Inv(s);
    forall s, a | inv(s) && step(s, a).Some?
      ensures inv(step(s, a).value)
    {
      CellStep(s, a);
      forall r: nat | r < |Step(s, a).value.readers|
        ensures ReaderFits(Step(s, a).value.readers[r], Step(s, a).value.history)
      {
        ReaderStep(s, a, r);
      }
    }
    Runs.Preserved(step, inv, Start(value), actions);
  }

  /** Whatever stores run beside it, every cache load returned the value a direct load at
      the moment of its read would have. */
  lemma CacheEqualsFreshLoad<T(!new)>(value: T, actions: seq<Action<T>>, r: nat, i: nat)
    requires Reach(value, actions).Some?
    requires r < |Reach(value, actions).value.readers| && i < |Reach(value, actions).value.readers[r].answers|
    ensures var answer := Reach(value, actions).value.readers[r].answers[i]; answer.0 == answer.1
  {
    Reachable(value, actions);
    assert ReaderFits(Reach(value, actions).value.readers[r], Reach(value, actions).value.history);
  }

  /** Stores are reported as versions 1, 2, 3, ... with no gap and no reordering. */
  lemma StoresAreNumberedInOrder<T(!new)>(value: T, actions: seq<Action<T>>, i: nat)
    requires Reach(value, actions).Some? && i < |Stores(Reach(value, actions).value.log)|
    ensures Stores(Reach(value, actions).value.log)[i] == i + 1
  {
    Reachable(value, actions);
  }

  /** The versions one observer sees never decrease, through its cache and directly. */
  lemma VersionsNeverDecrease<T(!new)>(value: T, actions: seq<Action<T>>, r: nat, i: nat, j: nat)
    requires Reach(value, actions).Some?
    requires r < |Reach(value, actions).value.readers| && i <= j < |Reach(value, actions).value.readers[r].seen|
    ensures var seen := Reach(value, actions).value.readers[r].seen; seen[i] <= seen[j]
  {
    Reachable(value, actions);
    assert ReaderFits(Reach(value, actions).value.readers[r], Reach(value, actions).value.history);
  }

  // ---------- read off the actions ----------

  /** Observer `r` makes no move in `actions`. */
  predicate Without<T>(actions: seq<Action<T>>, r: nat) {
    forall i :: 0 <= i < |actions| ==>
      actions[i] != ReadSnapshot(r) && actions[i] != TellLoad(r) && actions[i] != Revalidate(r)
      && actions[i] != EndDirectLoad(r)
  }

  lemma {:induction false} OthersLeave<T(!new)>(s: State<T>, actions: seq<Action<T>>, r: nat)
    requires Without(actions, r) && r < |s.readers|
    requires Runs.Execute((s: State<T>, a: Action<T>) => Step(s, a), s, actions).Some?
    ensures var end := Runs.Execute((s: State<T>, a: Action<T>) => Step(s, a), s, actions).value;
            r < |end.readers| && end.readers[r] == s.readers[r]
    decreases |actions|
  {
    if actions != [] {
      assert forall i :: 0 <= i < |actions[1..]| ==> actions[1..][i] == actions[i + 1];
      OthersLeave(Step(s, actions[0]).value, actions[1..], r);
    }
  }

  function Run<T(==)>(s: State<T>, actions: seq<Action<T>>): Option<State<T>> {
    Runs.Execute((s: State<T>, a: Action<T>) => Step(s, a), s, actions)
  }

  /** A cache load in full: whatever stores and other observers do between its three steps, it
      leaves the cache with the value and version that were current when it read. */
  lemma CacheLoadIsFresh<T(!new)>(
    value: T, before: seq<Action<T>>, r: nat, between: seq<Action<T>>, more: seq<Action<T>>)
    requires Reach(value, before).Some? && r < |Reach(value, before).value.readers|
    requires Reach(value, before).value.readers[r].pc == Outside
    requires Without(between, r) && Without(more, r)
    requires Reach(value, before + ([ReadSnapshot(r)] + between + [TellLoad(r)] + more + [Revalidate(r)])).Some?
    ensures var s := Reach(value, before).value;
            var load := [ReadSnapshot(r)] + between + [TellLoad(r)] + more + [Revalidate(r)];
            var end := Reach(value, before + load).value;
            && r < |end.readers|
            && end.readers[r].cached == s.inner.value && end.readers[r].cachedVersion == s.inner.version
  {
    var step := (s: State<T>, a: Action<T>) => Step(s, a);
    var s := Reach(value, before).value;
    var load := [ReadSnapshot(r)] + between + [TellLoad(r)] + more;
    var full := load + [Revalidate(r)];
    Runs.Concatenated(step, Start(value), before, full);
    Runs.LastStep(step, s, full);
    assert full[..|full| - 1] == load;
    var told := ReadAndTold(s, r, between, more);
    Runs.Concatenated(step, Start(value), before, load);
    Reachable(value, before + load);
    assert ReaderFits(told.readers[r], told.history);
    HistoryKept(value, before, load);
  }

  /** What was published stays in the history. */
  lemma {:induction false} HistoryGrows<T(!new)>(s: State<T>, actions: seq<Action<T>>)
    requires Run(s, actions).Some?
    ensures |s.history| <= |Run(s, actions).value.history|
    ensures Run(s, actions).value.history[..|s.history|] == s.history
    decreases |actions|
  {
    if actions != [] {
      HistoryGrows(Step(s, actions[0]).value, actions[1..]);
      var next := Step(s, actions[0]).value.history;
      assert next[..|s.history|] == s.history;
      assert Run(s, actions).value.history[..|next|][..|s.history|] == Run(s, actions).value.history[..|s.history|];
    }
  }

  lemma HistoryKept<T(!new)>(value: T, before: seq<Action<T>>, more: seq<Action<T>>)
    requires Reach(value, before).Some? && Reach(value, before + more).Some?
    ensures var s, end := Reach(value, before).value, Reach(value, before + more).value;
            && s.inner.version < |end.history| && end.history[s.inner.version] == s.inner.value
            && s.inner.version <= end.inner.version
  {
    var step := (s: State<T>, a: Action<T>) => Step(s, a);
    var s := Reach(value, before).value;
    Reachable(value, before);
    Reachable(value, before + more);
    Runs.Concatenated(step, Start(value), before, more);
    HistoryGrows(s, more);
    assert Reach(value, before + more).value.history[..|s.history|][s.inner.version] == s.history[s.inner.version];
  }

  lemma ReadAndTold<T(!new)>(s: State<T>, r: nat, between: seq<Action<T>>, more: seq<Action<T>>)
    returns (told: State<T>)
    requires r < |s.readers| && s.readers[r].pc == Outside && Without(between, r) && Without(more, r)
    requires Run(s, [ReadSnapshot(r)] + between + [TellLoad(r)] + more).Some?
    ensures Run(s, [ReadSnapshot(r)] + between + [TellLoad(r)] + more) == Some(told)
    ensures r < |told.readers| && told.readers[r].pc == Told(s.inner)
  {
    var step := (s: State<T>, a: Action<T>) => Step(s, a);
    var tail := [TellLoad(r)] + more;
    var all := [ReadSnapshot(r)] + between + [TellLoad(r)] + more;
    var s1 := Step(s, ReadSnapshot(r)).value;
    assert all[1..] == between + tail;
    Runs.PrefixRuns(step, s1, between, tail);
    Runs.Concatenated(step, s1, between, tail);
    OthersLeave(s1, between, r);
    var s2 := Run(s1, between).value;
    assert tail[1..] == more;
    var s3 := Step(s2, TellLoad(r)).value;
    OthersLeave(s3, more, r);
    told := Run(s3, more).value;
  }

  /** The cell's version never goes back, so neither do the versions anyone reads. */
  lemma VersionNeverGoesBack<T(!new)>(value: T, before: seq<Action<T>>, more: seq<Action<T>>)
    requires Reach(value, before).Some? && Reach(value, before + more).Some?
    ensures Reach(value, before).value.inner.version <= Reach(value, before + more).value.inner.version
  {
    HistoryKept(value, before, more);
  }

  /** A store can be run whenever no other has begun: it publishes the next version with its
      value and reports that version; with the counter exhausted it poisons the cell. */
  lemma StoreCompletes<T(!new)>(value: T, actions: seq<Action<T>>, v: T)
    requires Reach(value, actions).Some?
    requires Reach(value, actions).value.writer == Idle && !Reach(value, actions).value.poisoned
    ensures var s := Reach(value, actions).value;
            var end := Run(s, [BeginStore(v), PublishStore, EndStore]);
            if s.inner.version < U64_MAX then
              && end.Some? && end.value.inner == Snapshot(s.inner.version + 1, v)
              && end.value.log == s.log + [Stored(s.inner.version + 1)] && end.value.writer == Idle
            else Step(s, BeginStore(v)) == Some(s.(poisoned := true))
  {
    Reachable(value, actions);
    var s := Reach(value, actions).value;
    if s.inner.version < U64_MAX {
      var s1 := Step(s, BeginStore(v)).value;
      var s2 := Step(s1, PublishStore).value;
      var run: seq<Action<T>> := [BeginStore(v), PublishStore, EndStore];
      assert run[1..] == [PublishStore, EndStore] && run[1..][1..] == [EndStore];
      assert Run(s2, [EndStore]) == Step(s2, EndStore);
      assert Run(s1, [PublishStore, EndStore]) == Run(s2, [EndStore]);
    }
  }

}
