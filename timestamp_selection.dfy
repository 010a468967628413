/**
  Timestamp selection for reads (`src/adapter/src/coord/timestamp_selection.rs`).

  Given a bundle of collections, a `QueryWhen` policy and an isolation level, the
  coordinator computes the bundle's `since` (join of the read capabilities) and
  `upper` (union of the write frontiers), then builds a candidate timestamp by
  joining in, one after the other, the bounds the policy admits. The candidate
  is accepted only when `since` is less-equal to it.
*/
module TimestampSelection {
  import opened Wrappers
  import opened Repr
  import opened Frontiers

  datatype Timeline = EpochMilliseconds | External(name: string) | User(name: string)

  /** How a bundle relates to timelines, as classified upstream. */
  datatype TimelineContext =
    | TimelineDependent(timeline: Timeline)
    | TimestampDependent
    | TimestampIndependent

  datatype IsolationLevel = Serializable | StrictSerializable | StrongSessionSerializable

  /**
    The answers of a `QueryWhen` policy, with the AS OF / UP TO expression already
    evaluated to a timestamp.
  */
  datatype QueryWhen = QueryWhen(
    advanceToTimestamp: Option<Timestamp>,
    advanceToSince: bool,
    canAdvanceToUpper: bool,
    canAdvanceToTimelineTs: bool,
    mustAdvanceToTimelineTs: bool)

  /** The part of the session the determination reads. */
  datatype Session = Session(
    realTimeRecency: bool,
    // The session-local timestamp oracles, by timeline, with their read timestamp.
    timestampOracles: map<Timeline, Timestamp>)

  /** The timeline and timestamp context of a read. */
  datatype TimestampContext =
    | TimelineTimestamp(timeline: Timeline, chosenTs: Timestamp, oracleTs: Option<Timestamp>)
    | NoTimestamp
  {
    function MaybeTimelineTimestamp(): (r: Option<(Timeline, Timestamp)>)
      ensures r.Some? <==> TimelineTimestamp?
      ensures r.Some? ==> r.value == (timeline, chosenTs)
    {
      match this
      case TimelineTimestamp(timeline, chosenTs, _) => Some((timeline, chosenTs))
      case NoTimestamp => None
    }

    function MaybeTimeline(): (r: Option<Timeline>)
      ensures r.Some? <==> TimelineTimestamp?
      ensures r.Some? ==> r.value == timeline
    {
      match MaybeTimelineTimestamp()
      case Some(tt) => Some(tt.0)
      case None => None
    }

    function MaybeTimestamp(): (r: Option<Timestamp>)
      ensures r.Some? <==> TimelineTimestamp?
      ensures r.Some? ==> r.value == chosenTs
    {
      match MaybeTimelineTimestamp()
      case Some(tt) => Some(tt.1)
      case None => None
    }

    /**
      The chosen timestamp, or the maximum for a context without one: such reads
      are closed up to the end of time.
    */
    function TimestampOrDefault(): (r: Timestamp)
      ensures TimelineTimestamp? ==> r == chosenTs
      ensures NoTimestamp? ==> r == MAXIMUM
    {
      match this
      case TimelineTimestamp(_, chosenTs, _) => chosenTs
      case NoTimestamp => MAXIMUM
    }

    predicate ContainsTimestamp()
    {
      MaybeTimestamp().Some?
    }

    function ToAntichain(): (r: Antichain)
      ensures r.Elements() == {TimestampOrDefault()}
    {
      Singleton(TimestampOrDefault())
    }
  }

  /**
    Package a chosen timestamp. The source asserts that a transaction's timeline
    agrees with a timeline-dependent context.
  */
  function FromTimelineContext(
    chosenTs: Timestamp,
    oracleTs: Option<Timestamp>,
    transactionTimeline: Option<Timeline>,
    timelineContext: TimelineContext): (r: TimestampContext)
    requires timelineContext.TimelineDependent? && transactionTimeline.Some?
      ==> transactionTimeline.value == timelineContext.timeline
    ensures r.NoTimestamp? <==> timelineContext.TimestampIndependent?
    ensures r.TimelineTimestamp? ==> r.chosenTs == chosenTs && r.oracleTs == oracleTs
    ensures timelineContext.TimelineDependent? ==> r.MaybeTimeline() == Some(timelineContext.timeline)
    ensures timelineContext.TimestampDependent? ==>
      r.MaybeTimeline() == Some(if transactionTimeline.Some? then transactionTimeline.value else EpochMilliseconds)
  {
    match timelineContext
    case TimelineDependent(timeline) => TimelineTimestamp(timeline, chosenTs, oracleTs)
    case TimestampDependent =>
      TimelineTimestamp(
        if transactionTimeline.Some? then transactionTimeline.value else EpochMilliseconds,
        chosenTs, oracleTs)
    case TimestampIndependent => NoTimestamp
  }

  /** The timestamp a packaged context reads at: the chosen one, or the maximum when independent. */
  lemma {:induction false} ContextTimestampOrDefault(
    chosenTs: Timestamp,
    oracleTs: Option<Timestamp>,
    transactionTimeline: Option<Timeline>,
    timelineContext: TimelineContext)
    requires timelineContext.TimelineDependent? && transactionTimeline.Some?
      ==> transactionTimeline.value == timelineContext.timeline
    ensures var ctx := FromTimelineContext(chosenTs, oracleTs, transactionTimeline, timelineContext);
      && ctx.TimestampOrDefault() == (if timelineContext.TimestampIndependent? then MAXIMUM else chosenTs)
      && ctx.ContainsTimestamp() == !timelineContext.TimestampIndependent?
      && ctx.ToAntichain() == Singleton(ctx.TimestampOrDefault())
  {
  }

  /** The timeline of a bundle, defaulting to epoch milliseconds for timestamp-dependent ones. */
  function GetTimeline(timelineContext: TimelineContext): (r: Option<Timeline>)
    ensures r.None? <==> timelineContext.TimestampIndependent?
    ensures timelineContext.TimelineDependent? ==> r == Some(timelineContext.timeline)
    ensures timelineContext.TimestampDependent? ==> r == Some(EpochMilliseconds)
  {
    match timelineContext
    case TimelineDependent(timeline) => Some(timeline)
    case TimestampDependent => Some(EpochMilliseconds)
    case TimestampIndependent => None
  }

  /**
    The timeline whose oracle must provide a linearized read timestamp, if
    linearization is needed.
  */
  function GetLinearizedTimeline(
    isolationLevel: IsolationLevel,
    when: QueryWhen,
    timelineContext: TimelineContext): (r: Option<Timeline>)
    ensures r.Some? <==>
      && !timelineContext.TimestampIndependent?
      && (|| when.mustAdvanceToTimelineTs
          || (when.canAdvanceToTimelineTs && isolationLevel in {StrictSerializable, StrongSessionSerializable}))
    ensures r.Some? ==> r == GetTimeline(timelineContext)
  {
    var timeline := GetTimeline(timelineContext);
    match timeline
    case Some(t) =>
      if when.mustAdvanceToTimelineTs
         || (when.canAdvanceToTimelineTs
             && (isolationLevel == StrictSerializable || isolationLevel == StrongSessionSerializable))
      then Some(t)
      else None
    case None => None
  }

  /** The state of one compute collection, as its controller reports it. */
  datatype ComputeCollection = ComputeCollection(
    readFrontier: Antichain,
    readCapability: Antichain,
    writeFrontier: Antichain)

  /** The state of one storage collection, as its controller reports it. */
  datatype StorageCollection = StorageCollection(
    readCapabilities: Antichain,
    impliedCapability: Antichain,
    writeFrontier: Antichain)

  /**
    The frontiers the controllers hold, by collection: the `TimestampProvider`
    accessors read these maps.
  */
  datatype Provider = Provider(
    compute: map<(ComputeInstanceId, GlobalId), ComputeCollection>,
    storage: map<GlobalId, StorageCollection>)

  /** The storage collections and, per compute instance, the compute collections of a query. */
  datatype CollectionIdBundle = CollectionIdBundle(
    storageIds: set<GlobalId>,
    computeIds: map<ComputeInstanceId, set<GlobalId>>)

  /** The (instance, collection) pairs of the compute part of a bundle. */
  function ComputePairs(bundle: CollectionIdBundle): (r: set<(ComputeInstanceId, GlobalId)>)
    ensures forall inst, id :: (inst, id) in r <==> inst in bundle.computeIds && id in bundle.computeIds[inst]
  {
    set inst, id | inst in bundle.computeIds && id in bundle.computeIds[inst] :: (inst, id)
  }

  /** Every id of the bundle is known to its controller (the accessors `expect` it). */
  predicate Covers(p: Provider, bundle: CollectionIdBundle)
  {
    && bundle.storageIds <= p.storage.Keys
    && ComputePairs(bundle) <= p.compute.Keys
  }

  function ImpliedCapabilities(p: Provider, ids: set<GlobalId>): set<Antichain>
    requires ids <= p.storage.Keys
  {
    set id | id in ids :: p.storage[id].impliedCapability
  }

  function StorageWriteFrontiers(p: Provider, ids: set<GlobalId>): set<Antichain>
    requires ids <= p.storage.Keys
  {
    set id | id in ids :: p.storage[id].writeFrontier
  }

  function ComputeReadCapabilities(p: Provider, pairs: set<(ComputeInstanceId, GlobalId)>): set<Antichain>
    requires pairs <= p.compute.Keys
  {
    set pr | pr in pairs :: p.compute[pr].readCapability
  }

  function ComputeWriteFrontiers(p: Provider, pairs: set<(ComputeInstanceId, GlobalId)>): set<Antichain>
    requires pairs <= p.compute.Keys
  {
    set pr | pr in pairs :: p.compute[pr].writeFrontier
  }

  /** The read capabilities of the collections `ids` of one compute instance. */
  function InstanceReadCapabilities(p: Provider, instance: ComputeInstanceId, ids: set<GlobalId>): set<Antichain>
  {
    set id | id in ids && (instance, id) in p.compute :: p.compute[(instance, id)].readCapability
  }

  /** The write frontiers of the collections `ids` of one compute instance. */
  function InstanceWriteFrontiers(p: Provider, instance: ComputeInstanceId, ids: set<GlobalId>): set<Antichain>
  {
    set id | id in ids && (instance, id) in p.compute :: p.compute[(instance, id)].writeFrontier
  }

  lemma InstanceReadCapabilitiesAdd(p: Provider, instance: ComputeInstanceId, ids: set<GlobalId>, id: GlobalId)
    requires (instance, id) in p.compute
    ensures InstanceReadCapabilities(p, instance, ids + {id})
      == InstanceReadCapabilities(p, instance, ids) + {p.compute[(instance, id)].readCapability}
  {
  }

  lemma InstanceWriteFrontiersAdd(p: Provider, instance: ComputeInstanceId, ids: set<GlobalId>, id: GlobalId)
    requires (instance, id) in p.compute
    ensures InstanceWriteFrontiers(p, instance, ids + {id})
      == InstanceWriteFrontiers(p, instance, ids) + {p.compute[(instance, id)].writeFrontier}
  {
  }

  /** Every read capability that bounds a read of the bundle from below. */
  function ReadCapabilities(p: Provider, bundle: CollectionIdBundle): set<Antichain>
    requires Covers(p, bundle)
  {
    ImpliedCapabilities(p, bundle.storageIds) + ComputeReadCapabilities(p, ComputePairs(bundle))
  }

  /** Every write frontier of the bundle. */
  function WriteFrontiers(p: Provider, bundle: CollectionIdBundle): set<Antichain>
    requires Covers(p, bundle)
  {
    StorageWriteFrontiers(p, bundle.storageIds) + ComputeWriteFrontiers(p, ComputePairs(bundle))
  }

  /**
    `least_valid_read`: starting from `{minimum}`, join in the implied capability
    of every storage collection and the read capability of every compute
    collection of the bundle.
  */
  method LeastValidRead(p: Provider, bundle: CollectionIdBundle) returns (since: Antichain)
    requires Covers(p, bundle)
    ensures since == JoinAll(ReadCapabilities(p, bundle))
    ensures forall c :: c in ReadCapabilities(p, bundle) ==> Le(c, since)
    ensures since.Empty? <==> Empty in ReadCapabilities(p, bundle)
  {
    ghost var all := ReadCapabilities(p, bundle);
    // The capabilities joined in so far.
    ghost var seen: set<Antichain> := {};
    since := Singleton(MINIMUM);
    assert {MINIMUM} + TimesOf(seen) == {MINIMUM};
    var storageIds := bundle.storageIds;
    while storageIds != {}
      invariant storageIds <= bundle.storageIds
      invariant seen <= all && since == JoinAll(seen)
      invariant forall id :: id in bundle.storageIds && id !in storageIds ==> p.storage[id].impliedCapability in seen
      decreases storageIds
    {
      var id :| id in storageIds;
      var cap := p.storage[id].impliedCapability;
      JoinAllInsert(seen, cap);
      since := Frontiers.Join(since, cap);
      seen := seen + {cap};
      storageIds := storageIds - {id};
    }
    var instances := bundle.computeIds.Keys;
    while instances != {}
      invariant instances <= bundle.computeIds.Keys
      invariant seen <= all && since == JoinAll(seen)
      invariant forall id :: id in bundle.storageIds ==> p.storage[id].impliedCapability in seen
      invariant forall inst, id ::
        inst in bundle.computeIds && inst !in instances && id in bundle.computeIds[inst]
        ==> p.compute[(inst, id)].readCapability in seen
      decreases instances
    {
      var instance :| instance in instances;
      since, seen := JoinInstanceReads(p, bundle, instance, since, seen);
      instances := instances - {instance};
    }
    ReadCapabilitiesSeen(p, bundle, seen);
  }

  /** The inner loop of `least_valid_read`: join the read capabilities of one compute instance into `since`. */
  method JoinInstanceReads(
    p: Provider, bundle: CollectionIdBundle, instance: ComputeInstanceId, since0: Antichain, ghost seen0: set<Antichain>)
    returns (since: Antichain, ghost seen: set<Antichain>)
    requires Covers(p, bundle) && instance in bundle.computeIds
    requires seen0 <= ReadCapabilities(p, bundle) && since0 == JoinAll(seen0)
    ensures seen0 <= seen <= ReadCapabilities(p, bundle) && since == JoinAll(seen)
    ensures forall id :: id in bundle.computeIds[instance] ==> p.compute[(instance, id)].readCapability in seen
    ensures since == JoinAll(seen0 + InstanceReadCapabilities(p, instance, bundle.computeIds[instance]))
  {
    since, seen := since0, seen0;
    var computeIds := bundle.computeIds[instance];
    while computeIds != {}
      invariant computeIds <= bundle.computeIds[instance]
      invariant seen == seen0 + InstanceReadCapabilities(p, instance, bundle.computeIds[instance] - computeIds)
      invariant seen0 <= seen <= ReadCapabilities(p, bundle) && since == JoinAll(seen)
      decreases computeIds
    {
      var id :| id in computeIds;
      JoinInstanceReadsStep(p, bundle, instance, computeIds, id, seen0, seen, since);
      var cap := p.compute[(instance, id)].readCapability;
      since := Frontiers.Join(since, cap);
      seen := seen + {cap};
      computeIds := computeIds - {id};
    }
    assert bundle.computeIds[instance] - computeIds == bundle.computeIds[instance];
    forall id | id in bundle.computeIds[instance] ensures p.compute[(instance, id)].readCapability in seen {
      assert (instance, id) in ComputePairs(bundle);
    }
  }

  /** One iteration of the inner loop keeps its invariant. */
  lemma JoinInstanceReadsStep(
    p: Provider, bundle: CollectionIdBundle, instance: ComputeInstanceId, computeIds: set<GlobalId>, id: GlobalId,
    seen0: set<Antichain>, seen: set<Antichain>, since: Antichain)
    requires Covers(p, bundle) && instance in bundle.computeIds
    requires id in computeIds && computeIds <= bundle.computeIds[instance]
    requires seen <= ReadCapabilities(p, bundle) && since == JoinAll(seen)
    requires seen == seen0 + InstanceReadCapabilities(p, instance, bundle.computeIds[instance] - computeIds)
    ensures (instance, id) in p.compute
    ensures var c := p.compute[(instance, id)].readCapability;
      && seen + {c} <= ReadCapabilities(p, bundle)
      && Frontiers.Join(since, c) == JoinAll(seen + {c})
      && seen + {c} == seen0 + InstanceReadCapabilities(p, instance, bundle.computeIds[instance] - (computeIds - {id}))
  {
    assert (instance, id) in ComputePairs(bundle);
    InstanceReadCapabilitiesAdd(p, instance, bundle.computeIds[instance] - computeIds, id);
    assert bundle.computeIds[instance] - (computeIds - {id}) == bundle.computeIds[instance] - computeIds + {id};
    JoinAllInsert(seen, p.compute[(instance, id)].readCapability);
  }

  /** A set holding the read capability of every collection of the bundle holds `ReadCapabilities`. */
  lemma ReadCapabilitiesSeen(p: Provider, bundle: CollectionIdBundle, seen: set<Antichain>)
    requires Covers(p, bundle)
    requires forall id :: id in bundle.storageIds ==> p.storage[id].impliedCapability in seen
    requires forall inst, id :: inst in bundle.computeIds && id in bundle.computeIds[inst] ==>
      p.compute[(inst, id)].readCapability in seen
    ensures ReadCapabilities(p, bundle) <= seen
  {
    forall c | c in ReadCapabilities(p, bundle) ensures c in seen {
      if c !in ImpliedCapabilities(p, bundle.storageIds) {
        var pr :| pr in ComputePairs(bundle) && c == p.compute[pr].readCapability;
        assert pr == (pr.0, pr.1);
      }
    }
  }

  /**
    `least_valid_write`: starting from the empty antichain, extend with the write
    frontier of every storage and compute collection of the bundle.
  */
  method LeastValidWrite(p: Provider, bundle: CollectionIdBundle) returns (upper: Antichain)
    requires Covers(p, bundle)
    ensures upper == MeetAll(WriteFrontiers(p, bundle))
    ensures forall f :: f in WriteFrontiers(p, bundle) ==> Le(upper, f)
    ensures upper.Empty? <==> forall f :: f in WriteFrontiers(p, bundle) ==> f.Empty?
  {
    ghost var all := WriteFrontiers(p, bundle);
    // The frontiers merged in so far.
    ghost var seen: set<Antichain> := {};
    upper := Empty;
    var storageIds := bundle.storageIds;
    while storageIds != {}
      invariant storageIds <= bundle.storageIds
      invariant seen <= all && upper == MeetAll(seen)
      invariant forall id :: id in bundle.storageIds && id !in storageIds ==> p.storage[id].writeFrontier in seen
      decreases storageIds
    {
      var id :| id in storageIds;
      var frontier := p.storage[id].writeFrontier;
      MeetAllInsert(seen, frontier);
      upper := Frontiers.Meet(upper, frontier);
      seen := seen + {frontier};
      storageIds := storageIds - {id};
    }
    var instances := bundle.computeIds.Keys;
    while instances != {}
      invariant instances <= bundle.computeIds.Keys
      invariant seen <= all && upper == MeetAll(seen)
      invariant forall id :: id in bundle.storageIds ==> p.storage[id].writeFrontier in seen
      invariant forall inst, id ::
        inst in bundle.computeIds && inst !in instances && id in bundle.computeIds[inst]
        ==> p.compute[(inst, id)].writeFrontier in seen
      decreases instances
    {
      var instance :| instance in instances;
      upper, seen := MeetInstanceWrites(p, bundle, instance, upper, seen);
      instances := instances - {instance};
    }
    WriteFrontiersSeen(p, bundle, seen);
  }

  /** The inner loop of `least_valid_write`: extend `upper` with the write frontiers of one compute instance. */
  method MeetInstanceWrites(
    p: Provider, bundle: CollectionIdBundle, instance: ComputeInstanceId, upper0: Antichain, ghost seen0: set<Antichain>)
    returns (upper: Antichain, ghost seen: set<Antichain>)
    requires Covers(p, bundle) && instance in bundle.computeIds
    requires seen0 <= WriteFrontiers(p, bundle) && upper0 == MeetAll(seen0)
    ensures seen0 <= seen <= WriteFrontiers(p, bundle) && upper == MeetAll(seen)
    ensures forall id :: id in bundle.computeIds[instance] ==> p.compute[(instance, id)].writeFrontier in seen
    ensures upper == MeetAll(seen0 + InstanceWriteFrontiers(p, instance, bundle.computeIds[instance]))
  {
    upper, seen := upper0, seen0;
    var computeIds := bundle.computeIds[instance];
    while computeIds != {}
      invariant computeIds <= bundle.computeIds[instance]
      invariant seen == seen0 + InstanceWriteFrontiers(p, instance, bundle.computeIds[instance] - computeIds)
      invariant seen0 <= seen <= WriteFrontiers(p, bundle) && upper == MeetAll(seen)
      decreases computeIds
    {
      var id :| id in computeIds;
      MeetInstanceWritesStep(p, bundle, instance, computeIds, id, seen0, seen, upper);
      var frontier := p.compute[(instance, id)].writeFrontier;
      upper := Frontiers.Meet(upper, frontier);
      seen := seen + {frontier};
      computeIds := computeIds - {id};
    }
    assert bundle.computeIds[instance] - computeIds == bundle.computeIds[instance];
    forall id | id in bundle.computeIds[instance] ensures p.compute[(instance, id)].writeFrontier in seen {
      assert (instance, id) in ComputePairs(bundle);
    }
  }

  /** One iteration of the inner loop keeps its invariant. */
  lemma MeetInstanceWritesStep(
    p: Provider, bundle: CollectionIdBundle, instance: ComputeInstanceId, computeIds: set<GlobalId>, id: GlobalId,
    seen0: set<Antichain>, seen: set<Antichain>, upper: Antichain)
    requires Covers(p, bundle) && instance in bundle.computeIds
    requires id in computeIds && computeIds <= bundle.computeIds[instance]
    requires seen <= WriteFrontiers(p, bundle) && upper == MeetAll(seen)
    requires seen == seen0 + InstanceWriteFrontiers(p, instance, bundle.computeIds[instance] - computeIds)
    ensures (instance, id) in p.compute
    ensures var c := p.compute[(instance, id)].writeFrontier;
      && seen + {c} <= WriteFrontiers(p, bundle)
      && Frontiers.Meet(upper, c) == MeetAll(seen + {c})
      && seen + {c} == seen0 + InstanceWriteFrontiers(p, instance, bundle.computeIds[instance] - (computeIds - {id}))
  {
    assert (instance, id) in ComputePairs(bundle);
    InstanceWriteFrontiersAdd(p, instance, bundle.computeIds[instance] - computeIds, id);
    assert bundle.computeIds[instance] - (computeIds - {id}) == bundle.computeIds[instance] - computeIds + {id};
    MeetAllInsert(seen, p.compute[(instance, id)].writeFrontier);
  }

  /** A set holding the write frontier of every collection of the bundle holds `WriteFrontiers`. */
  lemma WriteFrontiersSeen(p: Provider, bundle: CollectionIdBundle, seen: set<Antichain>)
    requires Covers(p, bundle)
    requires forall id :: id in bundle.storageIds ==> p.storage[id].writeFrontier in seen
    requires forall inst, id :: inst in bundle.computeIds && id in bundle.computeIds[inst] ==>
      p.compute[(inst, id)].writeFrontier in seen
    ensures WriteFrontiers(p, bundle) <= seen
  {
    forall f | f in WriteFrontiers(p, bundle) ensures f in seen {
      if f !in StorageWriteFrontiers(p, bundle.storageIds) {
        var pr :| pr in ComputePairs(bundle) && f == p.compute[pr].writeFrontier;
        assert pr == (pr.0, pr.1);
      }
    }
  }

  /**
    The largest timestamp not in advance of `upper`: the predecessor of its
    element (the minimum when that element is the minimum, so as never to wait
    for data at a time that may never arrive), or the maximum when `upper` is
    empty and every time is complete.
  */
  function LargestNotInAdvanceOfUpper(upper: Antichain): (r: Timestamp)
    ensures upper.Empty? ==> r == MAXIMUM
    ensures upper.Singleton? ==> r == if upper.elem == MINIMUM then MINIMUM else upper.elem - 1
    ensures upper != Singleton(MINIMUM) ==>
      !upper.LessEqual(r) && forall t: Timestamp :: !upper.LessEqual(t) ==> t <= r
  {
    match upper.AsOption()
    case Some(u) =>
      (match StepBack(u)
       case Some(p) => p
       case None => MINIMUM)
    case None => MAXIMUM
  }

  /** The read timestamp of the session's own oracle, consulted only under strong session serializable. */
  function SessionOracleReadTs(
    session: Session,
    timeline: Option<Timeline>,
    isolationLevel: IsolationLevel): (r: Option<Timestamp>)
    ensures r.Some? <==>
      isolationLevel == StrongSessionSerializable && timeline.Some? && timeline.value in session.timestampOracles
    ensures r.Some? ==> r.value == session.timestampOracles[timeline.value]
  {
    if isolationLevel == StrongSessionSerializable && timeline.Some? && timeline.value in session.timestampOracles
    then Some(session.timestampOracles[timeline.value])
    else None
  }

  /** `join_assign` of an optional bound: the candidate is unchanged when the bound is absent. */
  function JoinBound(candidate: Timestamp, bound: Option<Timestamp>): (r: Timestamp)
    ensures candidate <= r
    ensures bound.Some? ==> bound.value <= r
    ensures r == candidate || bound == Some(r)
  {
    match bound
    case Some(b) => Repr.Join(candidate, b)
    case None => candidate
  }

  /**
    The bounds the candidate is advanced to, in the order `determine_timestamp_for`
    joins them: the AS OF time; `since`; the global oracle's timestamp (only when
    required under strong session serializable); the predecessor of `upper` (under
    serializable, or without a timeline); the real-time-recency timestamp; the
    session oracle's timestamp; and, under strong session serializable, the lesser
    of the predecessor of `upper` and the global oracle's timestamp.
  */
  function AdmittedBounds(
    since: Antichain,
    largestNotInAdvanceOfUpper: Timestamp,
    timeline: Option<Timeline>,
    when: QueryWhen,
    oracleReadTs: Option<Timestamp>,
    realTimeRecencyTs: Option<Timestamp>,
    sessionOracleReadTs: Option<Timestamp>,
    isolationLevel: IsolationLevel): seq<Option<Timestamp>>
  {
    [ when.advanceToTimestamp,
      if when.advanceToSince then since.AsOption() else None,
      if isolationLevel != StrongSessionSerializable || when.mustAdvanceToTimelineTs then oracleReadTs else None,
      if when.canAdvanceToUpper && (isolationLevel == Serializable || timeline.None?)
      then Some(largestNotInAdvanceOfUpper) else None,
      realTimeRecencyTs,
      sessionOracleReadTs,
      if isolationLevel == StrongSessionSerializable && when.canAdvanceToUpper && when.canAdvanceToTimelineTs
      then Some(match oracleReadTs
                case Some(o) => Repr.Meet(largestNotInAdvanceOfUpper, o)
                case None => largestNotInAdvanceOfUpper)
      else None ]
  }

  /**
    The candidate read timestamp: at or above every bound the policy and the
    isolation level admit, and no larger than needed (it is the minimum or one of
    those bounds).
  */
  function Candidate(
    since: Antichain,
    largestNotInAdvanceOfUpper: Timestamp,
    timeline: Option<Timeline>,
    when: QueryWhen,
    oracleReadTs: Option<Timestamp>,
    realTimeRecencyTs: Option<Timestamp>,
    sessionOracleReadTs: Option<Timestamp>,
    isolationLevel: IsolationLevel): (r: Timestamp)
    ensures when.advanceToTimestamp.Some? ==> when.advanceToTimestamp.value <= r
    ensures when.advanceToSince && since.Singleton? ==> since.LessEqual(r)
    ensures oracleReadTs.Some? && (isolationLevel != StrongSessionSerializable || when.mustAdvanceToTimelineTs)
      ==> oracleReadTs.value <= r
    ensures when.canAdvanceToUpper && (isolationLevel == Serializable || timeline.None?)
      ==> largestNotInAdvanceOfUpper <= r
    ensures realTimeRecencyTs.Some? ==> realTimeRecencyTs.value <= r
    ensures sessionOracleReadTs.Some? ==> sessionOracleReadTs.value <= r
    ensures isolationLevel == StrongSessionSerializable && when.canAdvanceToUpper && when.canAdvanceToTimelineTs
      ==> largestNotInAdvanceOfUpper <= r || (oracleReadTs.Some? && oracleReadTs.value <= r)
    ensures r == MINIMUM
      || Some(r) in AdmittedBounds(since, largestNotInAdvanceOfUpper, timeline, when, oracleReadTs,
                                   realTimeRecencyTs, sessionOracleReadTs, isolationLevel)
  {
    var bounds := AdmittedBounds(since, largestNotInAdvanceOfUpper, timeline, when, oracleReadTs,
                                 realTimeRecencyTs, sessionOracleReadTs, isolationLevel);
    assert bounds[0] in bounds && bounds[1] in bounds && bounds[2] in bounds && bounds[3] in bounds;
    assert bounds[4] in bounds && bounds[5] in bounds && bounds[6] in bounds;
    JoinBound(JoinBound(JoinBound(JoinBound(JoinBound(JoinBound(JoinBound(
      MINIMUM, bounds[0]), bounds[1]), bounds[2]), bounds[3]), bounds[4]), bounds[5]), bounds[6])
  }

  /** The one recoverable error: the candidate is not valid for every input. */
  datatype AdapterError = TimestampNotValid(
    candidate: Timestamp,
    // Compute collections of the query's instance whose read frontier is beyond the candidate.
    invalidIndexes: set<GlobalId>,
    // Storage collections whose read capabilities are beyond the candidate.
    invalidSources: set<GlobalId>)

  /** The collections whose read frontier rules the candidate out, for the error message. */
  function TimestampNotValidError(
    p: Provider,
    bundle: CollectionIdBundle,
    computeInstance: ComputeInstanceId,
    candidate: Timestamp): (e: AdapterError)
    requires Covers(p, bundle)
    ensures e.candidate == candidate
    ensures forall id :: id in e.invalidSources <==>
      id in bundle.storageIds && !p.storage[id].readCapabilities.LessEqual(candidate)
    ensures forall id :: id in e.invalidIndexes <==>
      && computeInstance in bundle.computeIds && id in bundle.computeIds[computeInstance]
      && !p.compute[(computeInstance, id)].readFrontier.LessEqual(candidate)
  {
    var invalidIndexes :=
      if computeInstance in bundle.computeIds
      then set id | id in bundle.computeIds[computeInstance]
                    && !p.compute[(computeInstance, id)].readFrontier.LessEqual(candidate)
      else {};
    var invalidSources :=
      set id | id in bundle.storageIds && !p.storage[id].readCapabilities.LessEqual(candidate);
    TimestampNotValid(candidate, invalidIndexes, invalidSources)
  }

  /** The outcome of a determination, produced once per query. */
  datatype TimestampDetermination = TimestampDetermination(
    timestampContext: TimestampContext,
    since: Antichain,
    upper: Antichain,
    largestNotInAdvanceOfUpper: Timestamp,
    oracleReadTs: Option<Timestamp>,
    sessionOracleReadTs: Option<Timestamp>)
  {
    /**
      Whether the result can be returned at once: there is no timestamp, or every
      input has already progressed past the chosen one.
    */
    predicate RespondImmediately()
      ensures RespondImmediately() <==>
        || timestampContext.NoTimestamp?
        || forall u :: u in upper.Elements() ==> timestampContext.chosenTs < u
    {
      match timestampContext
      case TimelineTimestamp(_, chosenTs, _) =>
        assert upper.Singleton? ==> upper.elem in upper.Elements();
        !upper.LessEqual(chosenTs)
      case NoTimestamp => true
    }
  }

  /**
    What `determine_timestamp_for` computes, stated over its inputs: the bundle's
    since and upper, the candidate built from the admitted bounds, success exactly
    when `since` is less-equal to the candidate, and the error naming the
    collections that rule it out otherwise.
  */
  function Determination(
    p: Provider,
    session: Session,
    bundle: CollectionIdBundle,
    when: QueryWhen,
    computeInstance: ComputeInstanceId,
    timelineContext: TimelineContext,
    oracleReadTs: Option<Timestamp>,
    realTimeRecencyTs: Option<Timestamp>,
    isolationLevel: IsolationLevel): (r: Result<TimestampDetermination, AdapterError>)
    requires Covers(p, bundle)
    ensures r.Ok? ==> r.value.since == JoinAll(ReadCapabilities(p, bundle))
    ensures r.Ok? ==> r.value.upper == MeetAll(WriteFrontiers(p, bundle))
    ensures r.Ok? && r.value.timestampContext.TimelineTimestamp? ==>
      r.value.since.LessEqual(r.value.timestampContext.chosenTs)
    ensures r.Ok? ==> (r.value.timestampContext.NoTimestamp? <==> timelineContext.TimestampIndependent?)
    ensures r.Ok? ==> r.value.largestNotInAdvanceOfUpper == LargestNotInAdvanceOfUpper(r.value.upper)
    ensures r.Ok? ==> r.value.oracleReadTs == oracleReadTs
    ensures r.Ok? ==> r.value.sessionOracleReadTs == SessionOracleReadTs(session, GetTimeline(timelineContext), isolationLevel)
    ensures r.Ok? && r.value.timestampContext.TimelineTimestamp? ==>
      && (when.advanceToTimestamp.Some? ==> when.advanceToTimestamp.value <= r.value.timestampContext.chosenTs)
      && (oracleReadTs.Some? && (isolationLevel != StrongSessionSerializable || when.mustAdvanceToTimelineTs)
          ==> oracleReadTs.value <= r.value.timestampContext.chosenTs)
      && (r.value.sessionOracleReadTs.Some? ==> r.value.sessionOracleReadTs.value <= r.value.timestampContext.chosenTs)
      && (realTimeRecencyTs.Some? ==> realTimeRecencyTs.value <= r.value.timestampContext.chosenTs)
    ensures r.Err? ==> !JoinAll(ReadCapabilities(p, bundle)).LessEqual(r.error.candidate)
    ensures r.Err? ==> r.error == TimestampNotValidError(p, bundle, computeInstance, r.error.candidate)
    ensures var since := JoinAll(ReadCapabilities(p, bundle));
      var timeline := GetTimeline(timelineContext);
      var candidate := Candidate(since, LargestNotInAdvanceOfUpper(MeetAll(WriteFrontiers(p, bundle))), timeline,
                                 when, oracleReadTs, realTimeRecencyTs,
                                 SessionOracleReadTs(session, timeline, isolationLevel), isolationLevel);
      && (r.Ok? <==> since.LessEqual(candidate))
      && (r.Ok? && r.value.timestampContext.TimelineTimestamp? ==> r.value.timestampContext.chosenTs == candidate)
      && (r.Err? ==> r.error.candidate == candidate)
  {
    var since := JoinAll(ReadCapabilities(p, bundle));
    var upper := MeetAll(WriteFrontiers(p, bundle));
    var largest := LargestNotInAdvanceOfUpper(upper);
    var timeline := GetTimeline(timelineContext);
    var sessionTs := SessionOracleReadTs(session, timeline, isolationLevel);
    var candidate := Candidate(since, largest, timeline, when, oracleReadTs, realTimeRecencyTs, sessionTs, isolationLevel);
    if since.LessEqual(candidate) then
      Ok(TimestampDetermination(
        FromTimelineContext(candidate, oracleReadTs, timeline, timelineContext),
        since, upper, largest, oracleReadTs, sessionTs))
    else
      Err(TimestampNotValidError(p, bundle, computeInstance, candidate))
  }

  /**
    The candidate-building steps of `determine_timestamp_for`: starting from the
    minimum, `join_assign` each bound the policy and isolation level admit, in
    order, recording the session oracle's timestamp when it is used.
  */
  method ChooseCandidate(
    since: Antichain,
    largest: Timestamp,
    timeline: Option<Timeline>,
    session: Session,
    when: QueryWhen,
    oracleReadTs: Option<Timestamp>,
    realTimeRecencyTs: Option<Timestamp>,
    isolationLevel: IsolationLevel) returns (candidate: Timestamp, sessionOracleReadTs: Option<Timestamp>)
    ensures sessionOracleReadTs == SessionOracleReadTs(session, timeline, isolationLevel)
    ensures candidate == Candidate(since, largest, timeline, when, oracleReadTs,
                                   realTimeRecencyTs, sessionOracleReadTs, isolationLevel)
  {
    ghost var bounds := AdmittedBounds(since, largest, timeline, when, oracleReadTs, realTimeRecencyTs,
                                       SessionOracleReadTs(session, timeline, isolationLevel), isolationLevel);
    candidate := JoinQueryBounds(since, largest, timeline, when, oracleReadTs, realTimeRecencyTs, isolationLevel);
    ghost var previous := candidate;
    candidate, sessionOracleReadTs :=
      JoinSessionBounds(candidate, largest, timeline, session, when, oracleReadTs, isolationLevel);
    assert candidate == JoinBound(JoinBound(previous, bounds[5]), bounds[6]);
  }

  /**
    The first five steps of `determine_timestamp_for`'s candidate: the AS OF
    time, `since`, the global oracle's timestamp, the predecessor of `upper` and
    the real-time-recency timestamp, each when admitted.
  */
  method JoinQueryBounds(
    since: Antichain,
    largest: Timestamp,
    timeline: Option<Timeline>,
    when: QueryWhen,
    oracleReadTs: Option<Timestamp>,
    realTimeRecencyTs: Option<Timestamp>,
    isolationLevel: IsolationLevel) returns (candidate: Timestamp)
    ensures var bounds := AdmittedBounds(since, largest, timeline, when, oracleReadTs, realTimeRecencyTs, None, isolationLevel);
      candidate == JoinBound(JoinBound(JoinBound(JoinBound(JoinBound(MINIMUM, bounds[0]), bounds[1]), bounds[2]), bounds[3]), bounds[4])
  {
    ghost var bounds := AdmittedBounds(since, largest, timeline, when, oracleReadTs, realTimeRecencyTs, None, isolationLevel);
    ghost var previous := MINIMUM;
    candidate := MINIMUM;

    if when.advanceToTimestamp.Some? {
      candidate := Repr.Join(candidate, when.advanceToTimestamp.value);
    }
    assert candidate == JoinBound(previous, bounds[0]);
    previous := candidate;

    if when.advanceToSince {
      candidate := AdvanceBy(candidate, since);
    }
    assert candidate == JoinBound(previous, bounds[1]);
    previous := candidate;

    if oracleReadTs.Some? {
      if isolationLevel != StrongSessionSerializable || when.mustAdvanceToTimelineTs {
        candidate := Repr.Join(candidate, oracleReadTs.value);
      }
    }
    assert candidate == JoinBound(previous, bounds[2]);
    previous := candidate;

    if when.canAdvanceToUpper && (isolationLevel == Serializable || timeline.None?) {
      candidate := Repr.Join(candidate, largest);
    }
    assert candidate == JoinBound(previous, bounds[3]);
    previous := candidate;

    if realTimeRecencyTs.Some? {
      candidate := Repr.Join(candidate, realTimeRecencyTs.value);
    }
    assert candidate == JoinBound(previous, bounds[4]);
  }

  /**
    The strong session serializable steps of `determine_timestamp_for`: join in
    the session oracle's timestamp, recording it, then the lesser of the
    predecessor of `upper` and the global oracle's timestamp when the policy
    allows both.
  */
  method JoinSessionBounds(
    candidate0: Timestamp,
    largest: Timestamp,
    timeline: Option<Timeline>,
    session: Session,
    when: QueryWhen,
    oracleReadTs: Option<Timestamp>,
    isolationLevel: IsolationLevel) returns (candidate: Timestamp, sessionOracleReadTs: Option<Timestamp>)
    ensures sessionOracleReadTs == SessionOracleReadTs(session, timeline, isolationLevel)
    ensures candidate == JoinBound(JoinBound(candidate0, sessionOracleReadTs),
      if isolationLevel == StrongSessionSerializable && when.canAdvanceToUpper && when.canAdvanceToTimelineTs
      then Some(match oracleReadTs
                case Some(o) => Repr.Meet(largest, o)
                case None => largest)
      else None)
  {
    candidate := candidate0;
    sessionOracleReadTs := None;
    if isolationLevel == StrongSessionSerializable {
      if timeline.Some? && timeline.value in session.timestampOracles {
        var sessionTs := session.timestampOracles[timeline.value];
        candidate := Repr.Join(candidate, sessionTs);
        sessionOracleReadTs := Some(sessionTs);
      }
      if when.canAdvanceToUpper && when.canAdvanceToTimelineTs {
        var advanceTo := largest;
        if oracleReadTs.Some? {
          advanceTo := Repr.Meet(advanceTo, oracleReadTs.value);
        }
        candidate := Repr.Join(candidate, advanceTo);
      }
    }
  }

  /**
    `determine_timestamp_for`. The source asserts that an oracle timestamp is
    supplied whenever linearization is needed, and that a real-time-recency
    timestamp is supplied only under strict serializable with the option on.
  */
  method DetermineTimestampFor(
    p: Provider,
    session: Session,
    bundle: CollectionIdBundle,
    when: QueryWhen,
    computeInstance: ComputeInstanceId,
    timelineContext: TimelineContext,
    oracleReadTs: Option<Timestamp>,
    realTimeRecencyTs: Option<Timestamp>,
    isolationLevel: IsolationLevel) returns (r: Result<TimestampDetermination, AdapterError>)
    requires Covers(p, bundle)
    requires GetLinearizedTimeline(isolationLevel, when, timelineContext).Some? ==> oracleReadTs.Some?
    requires realTimeRecencyTs.Some? ==> session.realTimeRecency && isolationLevel == StrictSerializable
    ensures r == Determination(p, session, bundle, when, computeInstance, timelineContext,
                               oracleReadTs, realTimeRecencyTs, isolationLevel)
  {
    var since := LeastValidRead(p, bundle);
    var upper := LeastValidWrite(p, bundle);
    var largest := LargestNotInAdvanceOfUpper(upper);
    var timeline := GetTimeline(timelineContext);

    var candidate, sessionOracleReadTs :=
      ChooseCandidate(since, largest, timeline, session, when, oracleReadTs, realTimeRecencyTs, isolationLevel);

    if since.LessEqual(candidate) {
      var timestampContext := FromTimelineContext(candidate, oracleReadTs, timeline, timelineContext);
      r := Ok(TimestampDetermination(timestampContext, since, upper, largest, oracleReadTs, sessionOracleReadTs));
    } else {
      r := Err(TimestampNotValidError(p, bundle, computeInstance, candidate));
    }
  }

  /**
    Under serializable isolation a read with no AS OF time, no oracle and no
    real-time recency, over inputs whose since is strictly below their upper, is
    placed just below the upper and so never waits for the inputs to catch up.
  */
  lemma SerializableReadRespondsImmediately(
    p: Provider,
    session: Session,
    bundle: CollectionIdBundle,
    when: QueryWhen,
    computeInstance: ComputeInstanceId,
    timelineContext: TimelineContext)
    requires Covers(p, bundle)
    requires when.advanceToTimestamp.None? && when.canAdvanceToUpper
    requires var since := JoinAll(ReadCapabilities(p, bundle));
      var upper := MeetAll(WriteFrontiers(p, bundle));
      since.Singleton? && upper.Singleton? && since.elem < upper.elem
    ensures var r := Determination(p, session, bundle, when, computeInstance, timelineContext,
                                   None, None, Serializable);
      && r.Ok?
      && r.value.RespondImmediately()
      && (r.value.timestampContext.TimelineTimestamp? ==>
            r.value.timestampContext.chosenTs == r.value.upper.elem - 1)
  {
    var since := JoinAll(ReadCapabilities(p, bundle));
    var upper := MeetAll(WriteFrontiers(p, bundle));
    var largest := LargestNotInAdvanceOfUpper(upper);
    var timeline := GetTimeline(timelineContext);
    var sessionTs := SessionOracleReadTs(session, timeline, Serializable);
    var bounds := AdmittedBounds(since, largest, timeline, when, None, None, sessionTs, Serializable);
    var candidate := Candidate(since, largest, timeline, when, None, None, sessionTs, Serializable);
    assert largest == upper.elem - 1;
    assert forall b :: Some(b) in bounds ==> b <= largest;
    assert candidate == largest;
  }

  /** The provider of the worked examples: one storage collection, since `{5}`, upper `{10}`. */
  function ExampleProvider(): Provider
  {
    Provider(map[], map[1 := StorageCollection(Singleton(5), Singleton(5), Singleton(10))])
  }

  function ExampleBundle(): CollectionIdBundle
  {
    CollectionIdBundle({1}, map[])
  }

  /** A query with no AS OF: advance to since, upper and the timeline's timestamp. */
  const Immediately := QueryWhen(None, true, true, true, false)

  /** The example bundle's since is `{5}` and its upper `{10}`. */
  lemma ExampleFrontiers()
    ensures Covers(ExampleProvider(), ExampleBundle())
    ensures JoinAll(ReadCapabilities(ExampleProvider(), ExampleBundle())) == Singleton(5)
    ensures MeetAll(WriteFrontiers(ExampleProvider(), ExampleBundle())) == Singleton(10)
  {
    var p, b := ExampleProvider(), ExampleBundle();
    assert ComputePairs(b) == {};
    assert ReadCapabilities(p, b) == {Singleton(5)};
    assert WriteFrontiers(p, b) == {Singleton(10)};
    assert TimesOf({Singleton(10)}) == {10} by {
      assert 10 in TimesOf({Singleton(10)});
    }
  }

  /** Serializable read of the example bundle: joined since `{5}` then upper's predecessor, read at 9. */
  lemma ExampleSerializable()
    ensures var r := Determination(ExampleProvider(), Session(false, map[]), ExampleBundle(), Immediately, 0,
                                   TimelineDependent(EpochMilliseconds), None, None, Serializable);
      && r.Ok?
      && r.value.largestNotInAdvanceOfUpper == 9
      && r.value.timestampContext == TimelineTimestamp(EpochMilliseconds, 9, None)
      && r.value.RespondImmediately()
  {
    ExampleFrontiers();
    SerializableReadRespondsImmediately(ExampleProvider(), Session(false, map[]), ExampleBundle(), Immediately, 0,
                                        TimelineDependent(EpochMilliseconds));
  }

  /**
    Strict serializable read of the example bundle, with an oracle timestamp of 3
    behind the since: the upper is withheld, so the read is at the since, 5, and
    may respond at once since the upper `{10}` is beyond it.
  */
  lemma ExampleStrictSerializable()
    ensures GetLinearizedTimeline(StrictSerializable, Immediately, TimelineDependent(EpochMilliseconds)).Some?
    ensures var r := Determination(ExampleProvider(), Session(false, map[]), ExampleBundle(), Immediately, 0,
                                   TimelineDependent(EpochMilliseconds), Some(3), None, StrictSerializable);
      && r.Ok?
      && r.value.timestampContext == TimelineTimestamp(EpochMilliseconds, 5, Some(3))
      && r.value.RespondImmediately()
  {
    ExampleFrontiers();
  }

  /** A read AS OF 2 of the example bundle, whose since is `{5}`, is refused, naming the collection. */
  lemma ExampleInvalidTimestamp()
    ensures var r := Determination(ExampleProvider(), Session(false, map[]), ExampleBundle(),
                                   QueryWhen(Some(2), false, false, false, false), 0,
                                   TimelineDependent(EpochMilliseconds), None, None, Serializable);
      r == Err(TimestampNotValid(2, {}, {1}))
  {
    ExampleFrontiers();
    var p, b := ExampleProvider(), ExampleBundle();
    var e := TimestampNotValidError(p, b, 0, 2);
    assert e.invalidSources == {1};
    assert e == TimestampNotValid(2, {}, {1});
  }
}
