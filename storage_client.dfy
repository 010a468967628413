/**
  Partitioned storage state (`PartitionedStorageState` in
  `src/storage-client/src/client.rs`).

  A storage cluster runs as `parts` processes. Commands are fanned out to every
  process; each process answers with its own view of the collections' write
  frontiers. This state merges the answers so that the controller sees a single
  worker: per collection it keeps the upper last reported by each shard and a
  `MutableAntichain` counting, per time, how many shards sit at that time. A
  consolidated upper is forwarded only when it strictly advances, and a
  collection is reported dropped only once every shard has dropped it.
*/
module StorageClient {
  import opened Wrappers
  import opened Repr
  import opened Frontiers
  import opened StorageStatus

  /** The cluster configuration, split per process by the cluster client (kept opaque). */
  type TimelyConfig = nat

  /** The startup epoch of the cluster (kept opaque). */
  type ClusterStartupEpoch = nat

  /** Storage instance configuration parameters (kept opaque). */
  type StorageParameters = nat

  /** An ingestion, with the ids of its subsources (`IngestionDescription::subsource_ids`), as given. */
  datatype RunIngestionCommand = RunIngestionCommand(id: GlobalId, subsourceIds: seq<GlobalId>)

  /** An export to a sink, by id. */
  datatype RunSinkCommand = RunSinkCommand(id: GlobalId)

  datatype StorageCommand =
    | CreateTimely(config: TimelyConfig, epoch: ClusterStartupEpoch)
    | InitializationComplete
    | UpdateConfiguration(parameters: StorageParameters)
    | RunIngestions(ingestions: seq<RunIngestionCommand>)
    | AllowCompaction(frontiers: seq<(GlobalId, Antichain)>)
    | RunSinks(sinks: seq<RunSinkCommand>)

  /** A source or sink statistics record, by object id (its counters are not modelled). */
  datatype StatisticsUpdate = StatisticsUpdate(id: GlobalId)

  /** A status update for a source or sink; the timestamp is in milliseconds since the epoch. */
  datatype StatusUpdate = StatusUpdate(
    id: GlobalId,
    status: Status,
    timestamp: int,
    error: Option<string>,
    hints: set<string>,
    namespacedErrors: map<string, string>)

  datatype StorageResponse =
    | FrontierUppers(uppers: seq<(GlobalId, Antichain)>)
    | DroppedIds(ids: set<GlobalId>)
    | StatisticsUpdates(sourceStats: seq<StatisticsUpdate>, sinkStats: seq<StatisticsUpdate>)
    | StatusUpdates(updates: seq<StatusUpdate>)

  /** Why `absorb_response` panics: the id, and the shard when one is involved. */
  datatype Panic =
    | AbsentCollection(id: GlobalId)
    | ShardOutOfRange(id: GlobalId, shard: nat)
    | AbsentShard(id: GlobalId, shard: nat)
    | DoubleDrop(id: GlobalId, shard: nat)

  /** What `absorb_response` does: panic, or return a response to forward (if any). */
  datatype Outcome = Panicked(reason: Panic) | Returned(response: Option<StorageResponse>)

  /**
    What is kept per collection: the consolidated counts, and per shard the last
    upper it reported, or `None` once that shard has dropped the collection.
  */
  datatype Entry = Entry(frontier: MutableAntichain, shardFrontiers: seq<Option<Antichain>>)

  /** The entry of a newly installed collection: every shard at the minimum. */
  function FreshEntry(parts: nat): (e: Entry)
    ensures e.frontier.Valid()
    ensures forall t :: e.frontier.Count(t) == if t == MINIMUM then parts else 0
    ensures |e.shardFrontiers| == parts
    ensures forall i :: 0 <= i < parts ==> e.shardFrontiers[i] == Some(Singleton(MINIMUM))
  {
    Entry(MutableFrom(MINIMUM, parts), seq(parts, _ => Some(Singleton(MINIMUM))))
  }

  /**
    `insert_new_uppers` for a set of ids: untracked ids get a fresh entry, tracked
    ones keep theirs.
  */
  function WithNewUppers(uppers: map<GlobalId, Entry>, parts: nat, ids: set<GlobalId>): (r: map<GlobalId, Entry>)
    ensures r.Keys == uppers.Keys + ids
    ensures forall id :: id in uppers ==> r[id] == uppers[id]
    ensures forall id :: id in ids && id !in uppers ==> r[id] == FreshEntry(parts)
  {
    map id | id in uppers.Keys + ids :: if id in uppers then uppers[id] else FreshEntry(parts)
  }

  /** Installing two batches of ids one after the other is installing their union. */
  lemma WithNewUppersUnion(uppers: map<GlobalId, Entry>, parts: nat, a: set<GlobalId>, b: set<GlobalId>)
    ensures WithNewUppers(WithNewUppers(uppers, parts, a), parts, b) == WithNewUppers(uppers, parts, a + b)
  {
  }

  /** The ids listed in `s`. */
  function IdSet(s: seq<GlobalId>): (ids: set<GlobalId>)
    ensures forall id :: id in ids <==> id in s
  {
    set id | id in s
  }

  lemma IdSetSnoc(s: seq<GlobalId>, id: GlobalId)
    ensures IdSet(s + [id]) == IdSet(s) + {id}
  {
  }

  /** The ids of the ingestions' subsources. */
  function IngestionIds(ingestions: seq<RunIngestionCommand>): (ids: set<GlobalId>)
    ensures forall id :: id in ids <==> exists k :: 0 <= k < |ingestions| && id in ingestions[k].subsourceIds
  {
    set k, id | 0 <= k < |ingestions| && id in ingestions[k].subsourceIds :: id
  }

  /** The ids of the sinks. */
  function SinkIds(sinks: seq<RunSinkCommand>): (ids: set<GlobalId>)
    ensures forall id :: id in ids <==> exists k :: 0 <= k < |sinks| && sinks[k].id == id
  {
    set k | 0 <= k < |sinks| :: sinks[k].id
  }

  /** The ids whose uppers a command starts tracking. */
  function CommandIds(command: StorageCommand): (ids: set<GlobalId>)
    ensures command.RunIngestions? ==> ids == IngestionIds(command.ingestions)
    ensures command.RunSinks? ==> ids == SinkIds(command.sinks)
    ensures !command.RunIngestions? && !command.RunSinks? ==> ids == {}
  {
    match command
    case RunIngestions(ingestions) => IngestionIds(ingestions)
    case RunSinks(sinks) => SinkIds(sinks)
    case _ => {}
  }

  /**
    The commands sent to the processes: `CreateTimely` is split by the cluster
    client's split of its configuration (given as `timelySplit`); any other
    command goes, unchanged, to every one of the `parts` processes.
  */
  function Fanout(parts: nat, command: StorageCommand, timelySplit: seq<TimelyConfig>): (r: seq<Option<StorageCommand>>)
    ensures !command.CreateTimely? ==> |r| == parts && forall i :: 0 <= i < |r| ==> r[i] == Some(command)
    ensures command.CreateTimely? ==>
      && |r| == |timelySplit|
      && forall i :: 0 <= i < |r| ==> r[i] == Some(CreateTimely(timelySplit[i], command.epoch))
  {
    match command
    case CreateTimely(_, epoch) => seq(|timelySplit|, i requires 0 <= i < |timelySplit| => Some(CreateTimely(timelySplit[i], epoch)))
    case _ => seq(parts, _ => Some(command))
  }

  /** A shard may report on `id`: the id is tracked and the shard's slot exists and is live. */
  predicate Reportable(uppers: map<GlobalId, Entry>, shard: nat, id: GlobalId)
  {
    id in uppers && shard < |uppers[id].shardFrontiers| && uppers[id].shardFrontiers[shard].Some?
  }

  /** The panic a report from `shard` on an id it may not report on raises. */
  function AbsentPanic(uppers: map<GlobalId, Entry>, shard: nat, id: GlobalId): (p: Panic)
    requires !Reportable(uppers, shard, id)
    ensures p.id == id
  {
    if id !in uppers then AbsentCollection(id)
    else if shard >= |uppers[id].shardFrontiers| then ShardOutOfRange(id, shard)
    else AbsentShard(id, shard)
  }

  /**
    One `(id, upper)` pair of a `FrontierUppers` report from `shard`: retract the
    shard's previous upper from the counts, add the reported one, and join the
    report into the shard's slot.
  */
  function AbsorbUpper(e: Entry, shard: nat, report: Antichain): (r: Entry)
    requires e.frontier.Valid()
    requires shard < |e.shardFrontiers| && e.shardFrontiers[shard].Some?
    ensures r.frontier.Valid()
    ensures forall t ::
      r.frontier.Count(t) == e.frontier.Count(t)
        - (if t in e.shardFrontiers[shard].value.Elements() then 1 else 0)
        + (if t in report.Elements() then 1 else 0)
    ensures r.shardFrontiers == e.shardFrontiers[shard := Some(Frontiers.Join(e.shardFrontiers[shard].value, report))]
  {
    var slot := e.shardFrontiers[shard].value;
    Entry(e.frontier.UpdateIter(slot, -1).UpdateIter(report, 1), e.shardFrontiers[shard := Some(Frontiers.Join(slot, report))])
  }

  /** Every entry's counts are compacted. */
  ghost predicate AllValid(uppers: map<GlobalId, Entry>)
  {
    forall id :: id in uppers ==> uppers[id].frontier.Valid()
  }

  /** Which shards still hold the collection. */
  function LiveShards(slots: seq<Option<Antichain>>): (live: seq<bool>)
    ensures |live| == |slots| && forall i :: 0 <= i < |slots| ==> live[i] == slots[i].Some?
  {
    seq(|slots|, i requires 0 <= i < |slots| => slots[i].Some?)
  }

  /** The tracked ids with their live shards: what decides whether a report panics. */
  function Shape(uppers: map<GlobalId, Entry>): (r: map<GlobalId, seq<bool>>)
    ensures r.Keys == uppers.Keys
    ensures forall id :: id in r ==> r[id] == LiveShards(uppers[id].shardFrontiers)
  {
    map id | id in uppers :: LiveShards(uppers[id].shardFrontiers)
  }

  /** Maps of the same shape agree on who may report, and on the panic otherwise. */
  lemma ShapeReportable(a: map<GlobalId, Entry>, b: map<GlobalId, Entry>, shard: nat, id: GlobalId)
    requires Shape(a) == Shape(b)
    ensures Reportable(a, shard, id) == Reportable(b, shard, id)
    ensures !Reportable(a, shard, id) ==> AbsentPanic(a, shard, id) == AbsentPanic(b, shard, id)
  {
    if id in a {
      assert Shape(a)[id] == Shape(b)[id];
      if shard < |a[id].shardFrontiers| {
        assert Shape(a)[id][shard] == Shape(b)[id][shard];
      }
    }
  }

  /**
    The state after a whole `FrontierUppers` report from `shard`, absorbed pair
    by pair in order. When it does not panic, the ids and the live slots are
    unchanged.
  */
  function AbsorbUppers(uppers: map<GlobalId, Entry>, shard: nat, list: seq<(GlobalId, Antichain)>): (r: Result<map<GlobalId, Entry>, Panic>)
    requires AllValid(uppers)
    ensures r.Ok? ==> AllValid(r.value) && Shape(r.value) == Shape(uppers)
    decreases |list|
  {
    if list == [] then Ok(uppers)
    else
      var (id, report) := list[|list| - 1];
      match AbsorbUppers(uppers, shard, list[..|list| - 1])
      case Err(p) => Err(p)
      case Ok(m) =>
        if !Reportable(m, shard, id) then
          Err(AbsentPanic(m, shard, id))
        else
          var e := AbsorbUpper(m[id], shard, report);
          assert LiveShards(e.shardFrontiers) == LiveShards(m[id].shardFrontiers);
          assert Shape(m[id := e]) == Shape(m);
          Ok(m[id := e])
  }

  /**
    For each pair of a report, the entry of its id just before and just after
    the pair is absorbed.
  */
  function Steps(uppers: map<GlobalId, Entry>, shard: nat, list: seq<(GlobalId, Antichain)>): (r: seq<(Entry, Entry)>)
    requires AllValid(uppers) && AbsorbUppers(uppers, shard, list).Ok?
    ensures |r| == |list|
    decreases |list|
  {
    if list == [] then []
    else
      var n := |list| - 1;
      var m := AbsorbUppers(uppers, shard, list[..n]).value;
      var e := m[list[n].0];
      Steps(uppers, shard, list[..n]) + [(e, AbsorbUpper(e, shard, list[n].1))]
  }

  /** The consolidated frontiers before and after each step. */
  function StepFrontiers(steps: seq<(Entry, Entry)>): (r: seq<(Antichain, Antichain)>)
    ensures |r| == |steps|
    ensures forall i :: 0 <= i < |steps| ==> r[i] == (steps[i].0.frontier.Frontier(), steps[i].1.frontier.Frontier())
  {
    seq(|steps|, i requires 0 <= i < |steps| => (steps[i].0.frontier.Frontier(), steps[i].1.frontier.Frontier()))
  }

  /** A step strictly advanced the consolidated frontier, to `f`. */
  predicate Forwards(step: (Antichain, Antichain), f: Antichain)
  {
    Lt(step.0, step.1) && f == step.1
  }

  /** In order, each pair's id with its new consolidated frontier, for the steps that advanced it. */
  function Forwarded(list: seq<(GlobalId, Antichain)>, steps: seq<(Antichain, Antichain)>): (r: seq<(GlobalId, Antichain)>)
    requires |steps| == |list|
    ensures |r| <= |list|
    decreases |list|
  {
    if list == [] then []
    else
      var n := |list| - 1;
      var prev := Forwarded(list[..n], steps[..n]);
      if Lt(steps[n].0, steps[n].1) then prev + [(list[n].0, steps[n].1)] else prev
  }

  /** A forwarded pair comes from a step that advanced, and every such step is forwarded. */
  lemma {:induction false} ForwardedMembers(list: seq<(GlobalId, Antichain)>, steps: seq<(Antichain, Antichain)>, id: GlobalId, f: Antichain)
    requires |steps| == |list|
    ensures (id, f) in Forwarded(list, steps) <==>
      exists k: nat :: k < |list| && list[k].0 == id && Forwards(steps[k], f)
    decreases |list|
  {
    if list != [] {
      var n := |list| - 1;
      var init, prior := list[..n], steps[..n];
      ForwardedMembers(init, prior, id, f);
      assert forall k :: 0 <= k < n ==> init[k] == list[k] && prior[k] == steps[k];
      if exists k: nat :: k < |list| && list[k].0 == id && Forwards(steps[k], f) {
        var k: nat :| k < |list| && list[k].0 == id && Forwards(steps[k], f);
        if k < n {
          assert init[k].0 == id && Forwards(prior[k], f);
        }
      }
    }
  }

  /**
    The uppers a `FrontierUppers` report forwards: after each pair, the id with
    its consolidated frontier, when that frontier strictly advanced.
  */
  function EmittedUppers(uppers: map<GlobalId, Entry>, shard: nat, list: seq<(GlobalId, Antichain)>): (r: seq<(GlobalId, Antichain)>)
    requires AllValid(uppers) && AbsorbUppers(uppers, shard, list).Ok?
    ensures |r| <= |list|
  {
    Forwarded(list, StepFrontiers(Steps(uppers, shard, list)))
  }

  /** Absorbing one more pair forwards what the shorter report did, then that pair's advance, if any. */
  lemma EmittedUppersSnoc(uppers: map<GlobalId, Entry>, shard: nat, list: seq<(GlobalId, Antichain)>)
    requires AllValid(uppers) && AbsorbUppers(uppers, shard, list).Ok? && list != []
    ensures AbsorbUppers(uppers, shard, list[..|list| - 1]).Ok?
    ensures var n := |list| - 1;
      var e := AbsorbUppers(uppers, shard, list[..n]).value[list[n].0];
      var before, after := e.frontier.Frontier(), AbsorbUpper(e, shard, list[n].1).frontier.Frontier();
      EmittedUppers(uppers, shard, list) ==
        EmittedUppers(uppers, shard, list[..n]) + if Lt(before, after) then [(list[n].0, after)] else []
  {
    var n := |list| - 1;
    var steps := Steps(uppers, shard, list);
    SnocPrefix(Steps(uppers, shard, list[..n]), steps[n]);
    assert StepFrontiers(steps)[..n] == StepFrontiers(steps[..n]);
  }

  /** A report panics exactly when it names an id the shard may not report on, with that id's panic. */
  lemma {:induction false} AbsorbUppersPanics(uppers: map<GlobalId, Entry>, shard: nat, list: seq<(GlobalId, Antichain)>)
    requires AllValid(uppers)
    ensures AbsorbUppers(uppers, shard, list).Err? <==>
      exists k :: 0 <= k < |list| && !Reportable(uppers, shard, list[k].0)
    ensures AbsorbUppers(uppers, shard, list).Err? ==> exists k ::
      && 0 <= k < |list| && !Reportable(uppers, shard, list[k].0)
      && AbsorbUppers(uppers, shard, list).error == AbsentPanic(uppers, shard, list[k].0)
    decreases |list|
  {
    if list != [] {
      var n := |list| - 1;
      var init := list[..n];
      assert forall k :: 0 <= k < |init| ==> init[k] == list[k];
      AbsorbUppersPanics(uppers, shard, init);
      var prefix := AbsorbUppers(uppers, shard, init);
      var id := list[n].0;
      if prefix.Err? {
        var k :| 0 <= k < |init| && !Reportable(uppers, shard, init[k].0)
          && prefix.error == AbsentPanic(uppers, shard, init[k].0);
        assert AbsorbUppers(uppers, shard, list) == prefix;
        assert list[k] == init[k];
      } else {
        ShapeReportable(uppers, prefix.value, shard, id);
        if Reportable(uppers, shard, id) {
          ReportableSnoc(uppers, shard, list, init);
        } else {
          assert AbsorbUppers(uppers, shard, list) == Err(AbsentPanic(uppers, shard, id));
        }
      }
    }
  }

  /** Every id of a report is reportable when every id before the last one is, and the last one is. */
  lemma ReportableSnoc(uppers: map<GlobalId, Entry>, shard: nat, list: seq<(GlobalId, Antichain)>, init: seq<(GlobalId, Antichain)>)
    requires list != [] && init == list[..|list| - 1]
    requires forall k :: 0 <= k < |init| ==> Reportable(uppers, shard, init[k].0)
    requires Reportable(uppers, shard, list[|list| - 1].0)
    ensures forall k :: 0 <= k < |list| ==> Reportable(uppers, shard, list[k].0)
  {
    forall k | 0 <= k < |list| ensures Reportable(uppers, shard, list[k].0) {
      if k < |init| {
        assert list[k] == init[k];
      }
    }
  }

  /** A report leaves the entries of the ids it does not name alone. */
  lemma {:induction false} AbsorbUppersFrame(uppers: map<GlobalId, Entry>, shard: nat, list: seq<(GlobalId, Antichain)>)
    requires AllValid(uppers)
    ensures var r := AbsorbUppers(uppers, shard, list);
      r.Ok? ==> forall id :: id in uppers && (forall k :: 0 <= k < |list| ==> list[k].0 != id) ==>
        id in r.value && r.value[id] == uppers[id]
    decreases |list|
  {
    if list != [] {
      var n := |list| - 1;
      var init := list[..n];
      assert forall k :: 0 <= k < |init| ==> init[k] == list[k];
      AbsorbUppersFrame(uppers, shard, init);
    }
  }

  /** The ids a `FrontierUppers` report names. */
  function Named(list: seq<(GlobalId, Antichain)>): (ids: set<GlobalId>)
    ensures forall k :: 0 <= k < |list| ==> list[k].0 in ids
    ensures forall id :: id in ids ==> exists k :: 0 <= k < |list| && list[k].0 == id
  {
    set k | 0 <= k < |list| :: list[k].0
  }

  /** Only ids the report names are forwarded. */
  lemma EmittedUppersNamed(uppers: map<GlobalId, Entry>, shard: nat, list: seq<(GlobalId, Antichain)>)
    requires AllValid(uppers) && AbsorbUppers(uppers, shard, list).Ok?
    ensures forall p :: p in EmittedUppers(uppers, shard, list) ==> p.0 in Named(list)
  {
    forall p | p in EmittedUppers(uppers, shard, list) ensures p.0 in Named(list) {
      ForwardedMembers(list, StepFrontiers(Steps(uppers, shard, list)), p.0, p.1);
    }
  }

  /** Every prefix of a report that does not panic does not panic either. */
  lemma PrefixAbsorbs(uppers: map<GlobalId, Entry>, shard: nat, list: seq<(GlobalId, Antichain)>, j: nat)
    requires AllValid(uppers) && AbsorbUppers(uppers, shard, list).Ok? && j <= |list|
    ensures AbsorbUppers(uppers, shard, list[..j]).Ok?
  {
    if AbsorbUppers(uppers, shard, list[..j]).Err? {
      AbsorbUppersPanicPersists(uppers, shard, list, j);
    }
  }

  /** The entry of a tracked `id` once the first `j` pairs of a report are absorbed. */
  ghost function EntryAfterPrefix(
    uppers: map<GlobalId, Entry>, shard: nat, list: seq<(GlobalId, Antichain)>, j: nat, id: GlobalId): Entry
    requires AllValid(uppers) && AbsorbUppers(uppers, shard, list).Ok? && j <= |list| && id in uppers
  {
    PrefixAbsorbs(uppers, shard, list, j);
    var m := AbsorbUppers(uppers, shard, list[..j]).value;
    assert id in Shape(m);
    m[id]
  }

  /** Absorbing more of a report does not change what its first `j` pairs did. */
  lemma EntryAfterPrefixStable(
    uppers: map<GlobalId, Entry>, shard: nat, list: seq<(GlobalId, Antichain)>, n: nat, j: nat, id: GlobalId)
    requires AllValid(uppers) && AbsorbUppers(uppers, shard, list).Ok?
    requires j <= n <= |list| && id in uppers
    requires AbsorbUppers(uppers, shard, list[..n]).Ok?
    ensures EntryAfterPrefix(uppers, shard, list, j, id) == EntryAfterPrefix(uppers, shard, list[..n], j, id)
  {
    PrefixOfPrefix(list, n, j);
  }

  /** The `k`th step is the frontier of the `k`th pair's id after the first `k`, then `k + 1`, pairs. */
  lemma StepsMeaning(uppers: map<GlobalId, Entry>, shard: nat, list: seq<(GlobalId, Antichain)>, k: nat)
    requires AllValid(uppers) && AbsorbUppers(uppers, shard, list).Ok? && k < |list|
    ensures list[k].0 in uppers
    ensures Steps(uppers, shard, list)[k] == (
      EntryAfterPrefix(uppers, shard, list, k, list[k].0),
      EntryAfterPrefix(uppers, shard, list, k + 1, list[k].0))
  {
    var n := k + 1;
    var id := list[k].0;
    var head := list[..n];
    StepsPrefix(uppers, shard, list, n);
    LastStepMeaning(uppers, shard, head);
    assert head[k] == list[k];
    assert Steps(uppers, shard, list)[k] == Steps(uppers, shard, head)[k];
    EntryAfterPrefixStable(uppers, shard, list, n, k, id);
    EntryAfterPrefixStable(uppers, shard, list, n, n, id);
  }

  /** The steps of a prefix of a report are the first steps of the report. */
  lemma {:induction false} StepsPrefix(uppers: map<GlobalId, Entry>, shard: nat, list: seq<(GlobalId, Antichain)>, j: nat)
    requires AllValid(uppers) && AbsorbUppers(uppers, shard, list).Ok? && j <= |list|
    ensures AbsorbUppers(uppers, shard, list[..j]).Ok?
    ensures Steps(uppers, shard, list)[..j] == Steps(uppers, shard, list[..j])
    decreases |list|
  {
    if j == |list| {
      assert list[..j] == list;
    } else {
      var n := |list| - 1;
      StepsInit(uppers, shard, list);
      StepsPrefix(uppers, shard, list[..n], j);
      PrefixOfPrefix(list, n, j);
      PrefixOfPrefix(Steps(uppers, shard, list), n, j);
    }
  }

  /** Dropping the last pair of a report drops its last step. */
  lemma StepsInit(uppers: map<GlobalId, Entry>, shard: nat, list: seq<(GlobalId, Antichain)>)
    requires AllValid(uppers) && AbsorbUppers(uppers, shard, list).Ok? && list != []
    ensures AbsorbUppers(uppers, shard, list[..|list| - 1]).Ok?
    ensures Steps(uppers, shard, list)[..|list| - 1] == Steps(uppers, shard, list[..|list| - 1])
  {
    var n := |list| - 1;
    PrefixAbsorbs(uppers, shard, list, n);
    SnocPrefix(Steps(uppers, shard, list[..n]), Steps(uppers, shard, list)[n]);
  }

  lemma SnocPrefix<T>(s: seq<T>, x: T)
    ensures (s + [x])[..|s|] == s
  {
  }

  lemma PrefixOfPrefix<T>(s: seq<T>, n: nat, j: nat)
    requires j <= n <= |s|
    ensures s[..n][..j] == s[..j]
  {
  }

  lemma LastStepMeaning(uppers: map<GlobalId, Entry>, shard: nat, list: seq<(GlobalId, Antichain)>)
    requires AllValid(uppers) && AbsorbUppers(uppers, shard, list).Ok? && list != []
    ensures list[|list| - 1].0 in uppers
    ensures Steps(uppers, shard, list)[|list| - 1] == (
      EntryAfterPrefix(uppers, shard, list, |list| - 1, list[|list| - 1].0),
      EntryAfterPrefix(uppers, shard, list, |list|, list[|list| - 1].0))
  {
    var n := |list| - 1;
    var id := list[n].0;
    PrefixAbsorbs(uppers, shard, list, n);
    var m := AbsorbUppers(uppers, shard, list[..n]).value;
    assert Reportable(m, shard, id);
    assert id in uppers by { assert id in Shape(m); }
    assert list[..n + 1] == list;
    assert EntryAfterPrefix(uppers, shard, list, n, id) == m[id];
  }


  /**
    Forwarding, both ways: `(id, f)` is forwarded exactly when some pair of the
    report names `id`, that pair strictly advanced the id's consolidated
    frontier (the step `StepsMeaning` describes), and `f` is the frontier it
    advanced to.
  */
  lemma EmittedUppersAdvances(uppers: map<GlobalId, Entry>, shard: nat, list: seq<(GlobalId, Antichain)>)
    requires AllValid(uppers) && AbsorbUppers(uppers, shard, list).Ok?
    ensures forall id, f :: (id, f) in EmittedUppers(uppers, shard, list) <==>
      exists k: nat :: k < |list| && list[k].0 == id && Forwards(StepFrontiers(Steps(uppers, shard, list))[k], f)
  {
    forall id: GlobalId, f: Antichain
      ensures (id, f) in EmittedUppers(uppers, shard, list) <==>
        exists k: nat :: k < |list| && list[k].0 == id && Forwards(StepFrontiers(Steps(uppers, shard, list))[k], f)
    {
      ForwardedMembers(list, StepFrontiers(Steps(uppers, shard, list)), id, f);
    }
  }

  /** Re-reporting the upper a shard already has leaves the state alone and forwards nothing. */
  lemma RepeatedReportForwardsNothing(uppers: map<GlobalId, Entry>, shard: nat, id: GlobalId)
    requires AllValid(uppers) && Reportable(uppers, shard, id)
    ensures AbsorbUppers(uppers, shard, [(id, uppers[id].shardFrontiers[shard].value)]) == Ok(uppers)
    ensures EmittedUppers(uppers, shard, [(id, uppers[id].shardFrontiers[shard].value)]) == []
  {
    var list := [(id, uppers[id].shardFrontiers[shard].value)];
    assert list[..0] == [];
    RepeatedReportIsNoOp(uppers[id], shard);
    assert uppers[id := uppers[id]] == uppers;
  }

  /** Once a prefix of a report panics, the whole report panics with the same reason. */
  lemma {:induction false} AbsorbUppersPanicPersists(
    uppers: map<GlobalId, Entry>, shard: nat, list: seq<(GlobalId, Antichain)>, k: nat)
    requires AllValid(uppers) && k <= |list|
    requires AbsorbUppers(uppers, shard, list[..k]).Err?
    ensures AbsorbUppers(uppers, shard, list) == AbsorbUppers(uppers, shard, list[..k])
    decreases |list| - k
  {
    if k < |list| {
      assert list[..k + 1][..k] == list[..k];
      AbsorbUppersPanicPersists(uppers, shard, list, k + 1);
    } else {
      assert list[..k] == list;
    }
  }

  /** Dropping the collection at one shard: its slot becomes `None`; the counts are untouched. */
  function DropShard(e: Entry, shard: nat): (r: Entry)
    requires shard < |e.shardFrontiers|
    ensures r.frontier == e.frontier && |r.shardFrontiers| == |e.shardFrontiers|
    ensures r.shardFrontiers[shard].None?
    ensures forall i :: 0 <= i < |e.shardFrontiers| && i != shard ==> r.shardFrontiers[i] == e.shardFrontiers[i]
  {
    Entry(e.frontier, e.shardFrontiers[shard := None])
  }

  /** Every shard has dropped the collection. */
  predicate AllDropped(e: Entry)
  {
    forall i :: 0 <= i < |e.shardFrontiers| ==> e.shardFrontiers[i].None?
  }

  /** Every id of `ids` is one `shard` may report on (written out, so that membership triggers it). */
  predicate AllReportable(uppers: map<GlobalId, Entry>, shard: nat, ids: set<GlobalId>)
  {
    forall id :: id in ids ==>
      id in uppers && shard < |uppers[id].shardFrontiers| && uppers[id].shardFrontiers[shard].Some?
  }

  /**
    The state after a `DroppedIds` report from `shard` that does not panic: each
    named id has the shard's slot cleared, and is removed once no shard is left.
  */
  function AfterDrops(uppers: map<GlobalId, Entry>, shard: nat, ids: set<GlobalId>): (r: map<GlobalId, Entry>)
    requires AllReportable(uppers, shard, ids)
    ensures forall id :: id in r <==> id in uppers && !(id in ids && AllDropped(DropShard(uppers[id], shard)))
    ensures forall id :: id in r && id !in ids ==> r[id] == uppers[id]
    ensures forall id :: id in r && id in ids ==> r[id] == DropShard(uppers[id], shard)
  {
    map id | id in uppers && !(id in ids && AllDropped(DropShard(uppers[id], shard))) ::
      if id in ids then DropShard(uppers[id], shard) else uppers[id]
  }

  /** The ids a `DroppedIds` report from `shard` forwards: those no shard holds any more. */
  function DropsEmitted(uppers: map<GlobalId, Entry>, shard: nat, ids: set<GlobalId>): (r: set<GlobalId>)
    requires AllReportable(uppers, shard, ids)
    ensures forall id :: id in r <==> id in ids && AllDropped(DropShard(uppers[id], shard))
    ensures forall id :: id in r ==> id in uppers && id !in AfterDrops(uppers, shard, ids)
  {
    set id | id in ids && AllDropped(DropShard(uppers[id], shard))
  }

  /** How many shards last reported exactly `{t}`. */
  function Occurrences(slots: seq<Option<Antichain>>, t: Timestamp): (n: nat)
    ensures n <= |slots|
    ensures n > 0 <==> exists i :: 0 <= i < |slots| && slots[i] == Some(Singleton(t))
    decreases |slots|
  {
    if slots == [] then 0
    else
      var init := slots[..|slots| - 1];
      assert forall i :: 0 <= i < |init| ==> init[i] == slots[i];
      Occurrences(init, t) + (if slots[|slots| - 1] == Some(Singleton(t)) then 1 else 0)
  }

  /** Replacing one shard's upper moves one occurrence from the old upper to the new one. */
  lemma {:induction false} OccurrencesUpdate(slots: seq<Option<Antichain>>, i: nat, x: Option<Antichain>, t: Timestamp)
    requires i < |slots|
    ensures Occurrences(slots[i := x], t) == Occurrences(slots, t)
      - (if slots[i] == Some(Singleton(t)) then 1 else 0)
      + (if x == Some(Singleton(t)) then 1 else 0)
    decreases |slots|
  {
    var n := |slots| - 1;
    if i == n {
      assert slots[i := x][..n] == slots[..n];
    } else {
      OccurrencesUpdate(slots[..n], i, x, t);
      assert slots[i := x][..n] == slots[..n][i := x];
    }
  }

  /** `parts` shards all at the same upper. */
  lemma {:induction false} OccurrencesUniform(parts: nat, u: Antichain, t: Timestamp)
    ensures Occurrences(seq(parts, _ => Some(u)), t) == if u == Singleton(t) then parts else 0
  {
    if parts > 0 {
      assert seq(parts, _ => Some(u))[..parts - 1] == seq(parts - 1, _ => Some(u));
      OccurrencesUniform(parts - 1, u, t);
    }
  }

  /**
    The consolidation invariant: every shard holds the collection, and the count
    of each time is the number of shards whose last upper is exactly that time.
  */
  ghost predicate Tracks(e: Entry)
  {
    && e.frontier.Valid()
    && (forall i :: 0 <= i < |e.shardFrontiers| ==> e.shardFrontiers[i].Some?)
    && (forall t :: e.frontier.Count(t) == Occurrences(e.shardFrontiers, t))
  }

  /** The uppers the shards last reported. */
  function ShardUppers(e: Entry): (fs: set<Antichain>)
    ensures forall f :: f in fs <==> exists i :: 0 <= i < |e.shardFrontiers| && e.shardFrontiers[i] == Some(f)
  {
    set i | 0 <= i < |e.shardFrontiers| && e.shardFrontiers[i].Some? :: e.shardFrontiers[i].value
  }

  /** Under the invariant, the consolidated frontier is the meet of the shards' uppers. */
  lemma TrackedFrontier(e: Entry)
    requires Tracks(e)
    ensures e.frontier.Frontier() == MeetAll(ShardUppers(e))
  {
    assert e.frontier.PositiveTimes() == TimesOf(ShardUppers(e));
  }

  /** A new collection satisfies the invariant, at the minimum unless there are no shards. */
  lemma FreshEntryTracks(parts: nat)
    ensures Tracks(FreshEntry(parts))
    ensures FreshEntry(parts).frontier.Frontier() == if parts == 0 then Empty else Singleton(MINIMUM)
  {
    var e := FreshEntry(parts);
    assert e.shardFrontiers == seq(parts, _ => Some(Singleton(MINIMUM)));
    forall t ensures e.frontier.Count(t) == Occurrences(e.shardFrontiers, t) {
      OccurrencesUniform(parts, Singleton(MINIMUM), t);
    }
    if parts > 0 {
      assert e.frontier.Count(MINIMUM) > 0;
    }
  }

  /**
    A shard reporting an upper no earlier than its previous one keeps the
    invariant, and its slot becomes the report.
  */
  lemma AbsorbUpperTracks(e: Entry, shard: nat, report: Antichain)
    requires Tracks(e) && shard < |e.shardFrontiers|
    requires Le(e.shardFrontiers[shard].value, report)
    ensures Tracks(AbsorbUpper(e, shard, report))
    ensures AbsorbUpper(e, shard, report).shardFrontiers == e.shardFrontiers[shard := Some(report)]
  {
    var prev := e.shardFrontiers[shard].value;
    var r := AbsorbUpper(e, shard, report);
    LeReflexive(report);
    LeAntisymmetric(Frontiers.Join(prev, report), report);
    forall t ensures r.frontier.Count(t) == Occurrences(r.shardFrontiers, t) {
      OccurrencesUpdate(e.shardFrontiers, shard, Some(report), t);
    }
  }

  /** Under the invariant, a shard's upper advancing never moves the consolidated frontier back. */
  lemma AbsorbUpperMonotone(e: Entry, shard: nat, report: Antichain)
    requires Tracks(e) && shard < |e.shardFrontiers|
    requires Le(e.shardFrontiers[shard].value, report)
    ensures Le(e.frontier.Frontier(), AbsorbUpper(e, shard, report).frontier.Frontier())
  {
    var prev := e.shardFrontiers[shard].value;
    var r := AbsorbUpper(e, shard, report);
    AbsorbUpperTracks(e, shard, report);
    TrackedFrontier(e);
    TrackedFrontier(r);
    var before := MeetAll(ShardUppers(e));
    forall f | f in ShardUppers(r) ensures Le(before, f) {
      var i :| 0 <= i < |r.shardFrontiers| && r.shardFrontiers[i] == Some(f);
      assert e.shardFrontiers[i].value in ShardUppers(e);
      if i == shard {
        LeTransitive(before, prev, report);
      }
    }
  }

  /** Shards `0 .. k-1` each report `u`, in order. */
  ghost function ReportEach(e: Entry, u: Antichain, k: nat): (r: Entry)
    requires Tracks(e) && k <= |e.shardFrontiers|
    requires forall i :: 0 <= i < |e.shardFrontiers| ==> Le(e.shardFrontiers[i].value, u)
    ensures Tracks(r) && |r.shardFrontiers| == |e.shardFrontiers|
    ensures forall i :: 0 <= i < k ==> r.shardFrontiers[i] == Some(u)
    ensures forall i :: k <= i < |e.shardFrontiers| ==> r.shardFrontiers[i] == e.shardFrontiers[i]
  {
    if k == 0 then e
    else
      var prev := ReportEach(e, u, k - 1);
      ReportNext(e, prev, u, k);
      AbsorbUpper(prev, k - 1, u)
  }

  /** Shard `k-1` reporting `u` after shards `0 .. k-2` did. */
  lemma ReportNext(e: Entry, prev: Entry, u: Antichain, k: nat)
    requires Tracks(e) && 0 < k <= |e.shardFrontiers|
    requires forall i :: 0 <= i < |e.shardFrontiers| ==> Le(e.shardFrontiers[i].value, u)
    requires Tracks(prev) && |prev.shardFrontiers| == |e.shardFrontiers|
    requires forall i :: k - 1 <= i < |e.shardFrontiers| ==> prev.shardFrontiers[i] == e.shardFrontiers[i]
    ensures Tracks(AbsorbUpper(prev, k - 1, u))
    ensures AbsorbUpper(prev, k - 1, u).shardFrontiers == prev.shardFrontiers[k - 1 := Some(u)]
  {
    var shard := k - 1;
    assert prev.shardFrontiers[shard] == e.shardFrontiers[shard];
    AbsorbUpperTracks(prev, shard, u);
  }

  /**
    Once every shard has reported `u` (and none reported beyond it), the
    consolidated frontier is `u`: the merged state looks like a single worker.
  */
  lemma AllShardsReportedConsolidate(e: Entry, u: Antichain)
    requires Tracks(e) && |e.shardFrontiers| > 0
    requires forall i :: 0 <= i < |e.shardFrontiers| ==> Le(e.shardFrontiers[i].value, u)
    ensures ReportEach(e, u, |e.shardFrontiers|).frontier.Frontier() == u
  {
    var r := ReportEach(e, u, |e.shardFrontiers|);
    TrackedFrontier(r);
    assert ShardUppers(r) == {u} by {
      assert r.shardFrontiers[0] == Some(u);
    }
  }

  /** While some shard still reports an earlier upper, the consolidated frontier stays at or before it. */
  lemma LaggingShardHoldsFrontier(e: Entry, shard: nat)
    requires Tracks(e) && shard < |e.shardFrontiers|
    ensures Le(e.frontier.Frontier(), e.shardFrontiers[shard].value)
  {
    TrackedFrontier(e);
    assert e.shardFrontiers[shard].value in ShardUppers(e);
  }

  /** Reporting the upper a shard already has changes nothing, and so forwards nothing. */
  lemma RepeatedReportIsNoOp(e: Entry, shard: nat)
    requires e.frontier.Valid() && shard < |e.shardFrontiers| && e.shardFrontiers[shard].Some?
    ensures AbsorbUpper(e, shard, e.shardFrontiers[shard].value) == e
  {
    var u := e.shardFrontiers[shard].value;
    var r := AbsorbUpper(e, shard, u);
    CountExtensional(r.frontier, e.frontier);
    LeReflexive(u);
    LeAntisymmetric(Frontiers.Join(u, u), u);
    assert r.shardFrontiers == e.shardFrontiers;
  }

  /**
    Consolidation relies on each shard's uppers only advancing. With a single
    shard reporting `{5}`, then a stale `{3}`, then `{7}`: the counts take the
    stale report while the slot keeps `{5}`, so the later retraction misses and
    the frontier stays at `{3}` although the only shard is at `{7}`.
  */
  lemma StaleUpperPinsFrontier(e1: Entry, e2: Entry, e3: Entry)
    requires e1 == AbsorbUpper(FreshEntry(1), 0, Singleton(5))
    requires e2 == AbsorbUpper(e1, 0, Singleton(3))
    requires e3 == AbsorbUpper(e2, 0, Singleton(7))
    ensures e1.frontier.Frontier() == Singleton(5)
    ensures e2.frontier.Frontier() == Singleton(3) && e2.shardFrontiers == [Some(Singleton(5))]
    ensures e3.frontier.Frontier() == Singleton(3) && e3.shardFrontiers == [Some(Singleton(7))]
    ensures !Tracks(e3)
  {
    SingleShardAbsorb(FreshEntry(1), MINIMUM, 5);
    assert forall t :: e1.frontier.Count(t) == if t == 5 then 1 else 0;
    SingletonFrontier(e1.frontier, 5);
    SingleShardAbsorb(e1, 5, 3);
    assert forall t :: e2.frontier.Count(t) == if t == 3 then 1 else 0;
    SingletonFrontier(e2.frontier, 3);
    SingleShardAbsorb(e2, 5, 7);
    assert forall t :: e3.frontier.Count(t) == if t == 3 || t == 7 then 1 else if t == 5 then -1 else 0;
    SingletonFrontier(e3.frontier, 3);
    assert e3.frontier.Count(5) != Occurrences(e3.shardFrontiers, 5);
  }

  /** One report to an entry with a single shard whose slot holds `{slot}`. */
  lemma SingleShardAbsorb(e: Entry, slot: Timestamp, t: Timestamp)
    requires e.frontier.Valid() && e.shardFrontiers == [Some(Singleton(slot))]
    ensures AbsorbUpper(e, 0, Singleton(t)).shardFrontiers == [Some(Singleton(Repr.Join(slot, t)))]
    ensures var r := AbsorbUpper(e, 0, Singleton(t));
      forall u :: r.frontier.Count(u) == e.frontier.Count(u) - (if u == slot then 1 else 0) + (if u == t then 1 else 0)
  {
  }

  /** The entry after shards `ds` have dropped the collection, in order. */
  function DropShards(e: Entry, ds: seq<nat>): (r: Entry)
    requires forall k :: 0 <= k < |ds| ==> ds[k] < |e.shardFrontiers|
    ensures r.frontier == e.frontier && |r.shardFrontiers| == |e.shardFrontiers|
    ensures forall i :: 0 <= i < |e.shardFrontiers| ==>
      r.shardFrontiers[i] == if i in ds then None else e.shardFrontiers[i]
    decreases |ds|
  {
    if ds == [] then e
    else
      var init := ds[..|ds| - 1];
      assert forall k :: 0 <= k < |init| ==> init[k] == ds[k];
      assert forall i :: i in ds <==> i in init || i == ds[|ds| - 1];
      DropShard(DropShards(e, init), ds[|ds| - 1])
  }

  /**
    A collection is reported dropped exactly when the last of its shards drops
    it: dropping from the shards `ds` leaves no live slot exactly when `ds`
    covers every shard.
  */
  lemma AllDroppedExactlyWhenEveryShardDropped(e: Entry, ds: seq<nat>)
    requires forall k :: 0 <= k < |ds| ==> ds[k] < |e.shardFrontiers|
    requires forall i :: 0 <= i < |e.shardFrontiers| ==> e.shardFrontiers[i].Some?
    ensures AllDropped(DropShards(e, ds)) <==> forall i :: 0 <= i < |e.shardFrontiers| ==> i in ds
  {
  }

  /**
    Three shards drop collection 7 one after another: nothing is forwarded until
    the third, which forwards `{7}` and stops tracking it; a shard dropping it
    twice panics.
  */
  lemma ThreeShardDrop()
    ensures var u0 := map[7 := FreshEntry(3)];
      var u1 := AfterDrops(u0, 0, {7});
      && DropsEmitted(u0, 0, {7}) == {} && 7 in u1 && !Reportable(u1, 0, 7)
      && var u2 := AfterDrops(u1, 1, {7});
      && DropsEmitted(u1, 1, {7}) == {} && 7 in u2
      && DropsEmitted(u2, 2, {7}) == {7} && AfterDrops(u2, 2, {7}) == map[]
  {
    var u0 := map[7 := FreshEntry(3)];
    assert !AllDropped(DropShard(u0[7], 0)) by {
      assert DropShard(u0[7], 0).shardFrontiers[1].Some?;
    }
    var u1 := AfterDrops(u0, 0, {7});
    assert !AllDropped(DropShard(u1[7], 1)) by {
      assert DropShard(u1[7], 1).shardFrontiers[2].Some?;
    }
    var u2 := AfterDrops(u1, 1, {7});
    assert AllDropped(DropShard(u2[7], 2));
    assert DropsEmitted(u0, 0, {7}) == {};
    assert DropsEmitted(u1, 1, {7}) == {};
    assert DropsEmitted(u2, 2, {7}) == {7};
  }

  /**
    The partitioned state. `Valid()` says that every entry has one slot per
    process and compacted counts.
  */
  class PartitionedStorageState {
    const parts: nat
    var uppers: map<GlobalId, Entry>

    ghost predicate Valid()
      reads this
    {
      forall id :: id in uppers ==> uppers[id].frontier.Valid() && |uppers[id].shardFrontiers| == parts
    }

    /** `Partitionable::new`: nothing tracked yet. */
    constructor (parts: nat)
      ensures Valid()
      ensures this.parts == parts && uppers == map[]
    {
      this.parts := parts;
      uppers := map[];
    }

    /** `insert_new_uppers`: start tracking the ids not tracked yet, at the minimum on every shard. */
    method InsertNewUppers(ids: seq<GlobalId>)
      requires Valid()
      modifies this
      ensures Valid()
      ensures uppers == WithNewUppers(old(uppers), parts, IdSet(ids))
    {
      var i := 0;
      while i < |ids|
        invariant 0 <= i <= |ids|
        invariant Valid()
        invariant uppers == WithNewUppers(old(uppers), parts, IdSet(ids[..i]))
      {
        var id := ids[i];
        ghost var before := uppers;
        if id !in uppers {
          uppers := uppers[id := FreshEntry(parts)];
        }
        assert uppers == WithNewUppers(before, parts, {id});
        assert ids[..i + 1] == ids[..i] + [id];
        IdSetSnoc(ids[..i], id);
        WithNewUppersUnion(old(uppers), parts, IdSet(ids[..i]), {id});
        i := i + 1;
      }
      assert ids[..i] == ids;
    }

    /** `observe_command`: ingestions and sinks start tracking their ids; other commands change nothing. */
    method ObserveCommand(command: StorageCommand)
      requires Valid()
      modifies this
      ensures Valid()
      ensures uppers == WithNewUppers(old(uppers), parts, CommandIds(command))
    {
      match command {
        case RunIngestions(ingestions) =>
          ObserveIngestions(ingestions);
        case RunSinks(sinks) =>
          ObserveSinks(sinks);
        case _ =>
          assert WithNewUppers(uppers, parts, {}) == uppers;
      }
    }

    /** The `RunIngestions` arm of `observe_command`: each ingestion's subsource ids, in turn. */
    method ObserveIngestions(ingestions: seq<RunIngestionCommand>)
      requires Valid()
      modifies this
      ensures Valid()
      ensures uppers == WithNewUppers(old(uppers), parts, IngestionIds(ingestions))
    {
      var k := 0;
      while k < |ingestions|
        invariant 0 <= k <= |ingestions|
        invariant Valid()
        invariant uppers == WithNewUppers(old(uppers), parts, IngestionIds(ingestions[..k]))
      {
        InsertNewUppers(ingestions[k].subsourceIds);
        WithNewUppersUnion(old(uppers), parts, IngestionIds(ingestions[..k]), IdSet(ingestions[k].subsourceIds));
        assert IngestionIds(ingestions[..k + 1])
            == IngestionIds(ingestions[..k]) + (IdSet(ingestions[k].subsourceIds));
        k := k + 1;
      }
      assert ingestions[..k] == ingestions;
    }

    /** The `RunSinks` arm of `observe_command`: each sink's id, in turn. */
    method ObserveSinks(sinks: seq<RunSinkCommand>)
      requires Valid()
      modifies this
      ensures Valid()
      ensures uppers == WithNewUppers(old(uppers), parts, SinkIds(sinks))
    {
      var k := 0;
      while k < |sinks|
        invariant 0 <= k <= |sinks|
        invariant Valid()
        invariant uppers == WithNewUppers(old(uppers), parts, SinkIds(sinks[..k]))
      {
        InsertNewUppers([sinks[k].id]);
        WithNewUppersUnion(old(uppers), parts, SinkIds(sinks[..k]), IdSet([sinks[k].id]));
        assert SinkIds(sinks[..k + 1]) == SinkIds(sinks[..k]) + (IdSet([sinks[k].id]));
        k := k + 1;
      }
      assert sinks[..k] == sinks;
    }

    /** `split_command`: observe the command, then fan it out to the processes. */
    method SplitCommand(command: StorageCommand, timelySplit: seq<TimelyConfig>) returns (r: seq<Option<StorageCommand>>)
      requires Valid()
      modifies this
      ensures Valid()
      ensures uppers == WithNewUppers(old(uppers), parts, CommandIds(command))
      ensures r == Fanout(parts, command, timelySplit)
    {
      ObserveCommand(command);
      match command {
        case CreateTimely(_, epoch) =>
          r := [];
          var i := 0;
          while i < |timelySplit|
            invariant 0 <= i <= |timelySplit|
            invariant |r| == i
            invariant forall j :: 0 <= j < i ==> r[j] == Some(CreateTimely(timelySplit[j], epoch))
          {
            r := r + [Some(CreateTimely(timelySplit[i], epoch))];
            i := i + 1;
          }
        case _ =>
          r := seq(parts, _ => Some(command));
      }
    }

    /** The `FrontierUppers` arm of `absorb_response`. */
    method AbsorbFrontierUppers(shard: nat, list: seq<(GlobalId, Antichain)>) returns (outcome: Outcome)
      requires Valid()
      modifies this
      ensures Valid()
      ensures var spec := AbsorbUppers(old(uppers), shard, list);
        && (spec.Err? ==> outcome == Panicked(spec.error))
        && (spec.Ok? ==> uppers == spec.value)
        && (spec.Ok? ==> var emitted := EmittedUppers(old(uppers), shard, list);
              outcome == Returned(if emitted == [] then None else Some(FrontierUppers(emitted))))
    {
      var newUppers: seq<(GlobalId, Antichain)> := [];
      var i := 0;
      while i < |list|
        invariant 0 <= i <= |list|
        invariant Valid()
        invariant AbsorbUppers(old(uppers), shard, list[..i]) == Ok(uppers)
        invariant EmittedUppers(old(uppers), shard, list[..i]) == newUppers
      {
        var (id, report) := list[i];
        assert list[..i + 1][..i] == list[..i];
        assert list[..i + 1][i] == (id, report);
        if id !in uppers {
          AbsorbUppersPanicPersists(old(uppers), shard, list, i + 1);
          return Panicked(AbsentCollection(id));
        }
        var entry := uppers[id];
        if shard >= |entry.shardFrontiers| {
          AbsorbUppersPanicPersists(old(uppers), shard, list, i + 1);
          return Panicked(ShardOutOfRange(id, shard));
        }
        if entry.shardFrontiers[shard].None? {
          AbsorbUppersPanicPersists(old(uppers), shard, list, i + 1);
          return Panicked(AbsentShard(id, shard));
        }
        var shardUpper := entry.shardFrontiers[shard].value;
        var oldUpper := entry.frontier.Frontier();
        var frontier := entry.frontier.UpdateIter(shardUpper, -1);
        frontier := frontier.UpdateIter(report, 1);
        uppers := uppers[id := Entry(frontier, entry.shardFrontiers[shard := Some(Frontiers.Join(shardUpper, report))])];
        var newUpper := frontier.Frontier();
        EmittedUppersSnoc(old(uppers), shard, list[..i + 1]);
        if Lt(oldUpper, newUpper) {
          newUppers := newUppers + [(id, newUpper)];
        }
        i := i + 1;
      }
      assert list[..i] == list;
      if newUppers == [] {
        outcome := Returned(None);
      } else {
        outcome := Returned(Some(FrontierUppers(newUppers)));
      }
    }

    /** The `DroppedIds` arm of `absorb_response`. */
    method AbsorbDroppedIds(shard: nat, ids: set<GlobalId>) returns (outcome: Outcome)
      requires Valid()
      modifies this
      ensures Valid()
      ensures outcome.Panicked? <==> exists id :: id in ids && !Reportable(old(uppers), shard, id)
      ensures outcome.Panicked? ==>
        && outcome.reason.id in ids
        && !Reportable(old(uppers), shard, outcome.reason.id)
        && (outcome.reason.id in old(uppers) && shard < |old(uppers)[outcome.reason.id].shardFrontiers|
            ==> outcome.reason == DoubleDrop(outcome.reason.id, shard))
      ensures outcome.Returned? ==>
        && (forall id :: id in ids ==> Reportable(old(uppers), shard, id))
        && uppers == AfterDrops(old(uppers), shard, ids)
        && var dropped := DropsEmitted(old(uppers), shard, ids);
           outcome.response == if dropped == {} then None else Some(DroppedIds(dropped))
    {
      var newDrops: set<GlobalId> := {};
      var remaining := ids;
      ghost var done: set<GlobalId> := {};
      while remaining != {}
        invariant remaining <= ids && done == ids - remaining
        invariant Valid()
        invariant forall id :: id in done ==> Reportable(old(uppers), shard, id)
        invariant uppers == AfterDrops(old(uppers), shard, done)
        invariant newDrops == DropsEmitted(old(uppers), shard, done)
        decreases remaining
      {
        var id :| id in remaining;
        if id !in uppers {
          return Panicked(AbsentCollection(id));
        }
        var entry := uppers[id];
        assert entry == old(uppers)[id];
        if shard >= |entry.shardFrontiers| {
          return Panicked(ShardOutOfRange(id, shard));
        }
        if entry.shardFrontiers[shard].None? {
          return Panicked(DoubleDrop(id, shard));
        }
        var dropped := DropShard(entry, shard);
        ghost var next := done + {id};
        if AllDropped(dropped) {
          uppers := uppers - {id};
          newDrops := newDrops + {id};
        } else {
          uppers := uppers[id := dropped];
        }
        assert uppers == AfterDrops(old(uppers), shard, next);
        remaining := remaining - {id};
        done := next;
      }
      assert done == ids;
      if newDrops == {} {
        outcome := Returned(None);
      } else {
        outcome := Returned(Some(DroppedIds(newDrops)));
      }
    }

    /**
      `absorb_response` for a response from `shard`. Statistics and status
      updates are forwarded as they are and leave the state alone.
    */
    method AbsorbResponse(shard: nat, response: StorageResponse) returns (outcome: Outcome)
      requires Valid()
      modifies this
      ensures Valid()
      ensures response.FrontierUppers? ==> var spec := AbsorbUppers(old(uppers), shard, response.uppers);
        && (spec.Err? ==> outcome == Panicked(spec.error))
        && (spec.Ok? ==> uppers == spec.value)
        && (spec.Ok? ==> var emitted := EmittedUppers(old(uppers), shard, response.uppers);
              outcome == Returned(if emitted == [] then None else Some(FrontierUppers(emitted))))
      ensures response.DroppedIds? ==>
        && (outcome.Panicked? <==> exists id :: id in response.ids && !Reportable(old(uppers), shard, id))
        && (outcome.Returned? ==>
              && uppers == AfterDrops(old(uppers), shard, response.ids)
              && var dropped := DropsEmitted(old(uppers), shard, response.ids);
                 outcome.response == if dropped == {} then None else Some(DroppedIds(dropped)))
      ensures response.StatisticsUpdates? || response.StatusUpdates? ==>
        outcome == Returned(Some(response)) && uppers == old(uppers)
    {
      match response {
        case FrontierUppers(list) =>
          outcome := AbsorbFrontierUppers(shard, list);
        case DroppedIds(ids) =>
          outcome := AbsorbDroppedIds(shard, ids);
        case StatisticsUpdates(_, _) =>
          outcome := Returned(Some(response));
        case StatusUpdates(_) =>
          outcome := Returned(Some(response));
      }
    }
  }
}
