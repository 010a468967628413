/**
  The controller's watch sets and readiness state machine (`Controller` in
  `src/controller/src/lib.rs`).

  A watch set is a token that the caller wants back once the write frontiers
  of a set of collections have all passed a time. The controller files one
  shared `(time, token)` allocation under every collection that has not yet
  passed the time; each frontier update drops the references of the
  collections that passed it, and the token is returned when the last
  reference goes. The shared allocation is modelled as a handle into `rcs`,
  whose `strong` field is the reference count.

  `ready` waits for one of several sources (storage, compute, metrics, the
  frontier-recording ticker); which one fires is an input here. `process`
  handles what `ready` recorded.
*/
module Controller {
  import opened Wrappers
  import opened Repr
  import opened Fr = Frontiers

  /** Which underlying source `process` should handle next. */
  datatype Readiness = NotReady | Storage | Compute | Metrics | Frontiers | Internal

  /** The branch of the `select!` in `ready` that fired. */
  datatype ReadyEvent = StorageReady | ComputeReady | MetricsReady | FrontiersTick

  /** The caller's token (a boxed value in the source), kept opaque. */
  type Token = nat

  /** The identity of one shared `(time, token)` allocation. */
  type Handle = nat

  datatype WatchSet = WatchSet(time: Timestamp, token: Token)

  /** A reference-counted allocation: its contents and its strong count. */
  datatype Rc = Rc(state: WatchSet, strong: nat)

  /** What the compute controller's `process` produced (payloads kept opaque). */
  datatype ComputeControllerResponse =
    | ComputePeek(uuid: nat)
    | ComputeSubscribe(id: GlobalId)
    | ComputeCopyTo(id: GlobalId)
    | ComputeFrontierUpper(id: GlobalId, upper: Antichain)

  datatype ControllerResponse =
    | PeekResponse(uuid: nat)
    | SubscribeResponse(id: GlobalId)
    | CopyToResponse(id: GlobalId)
    | ComputeReplicaMetrics(replica: nat)
    | WatchSetFinished(tokens: seq<Token>)

  /** The readiness the `select!` branch records. */
  function ReadinessFor(event: ReadyEvent): (r: Readiness)
    ensures r != NotReady && r != Internal
  {
    match event
    case StorageReady => Storage
    case ComputeReady => Compute
    case MetricsReady => Metrics
    case FrontiersTick => Frontiers
  }

  /** `ready`: only from `NotReady`; queued immediate watch sets take precedence over any event. */
  function ReadyTransition(readiness: Readiness, hasImmediate: bool, event: ReadyEvent): (r: Readiness)
    ensures r != NotReady
    ensures readiness != NotReady ==> r == readiness
    ensures readiness == NotReady && hasImmediate ==> r == Internal
    ensures readiness == NotReady && !hasImmediate ==> r == ReadinessFor(event)
  {
    if readiness != NotReady then readiness
    else if hasImmediate then Internal
    else ReadinessFor(event)
  }

  /** Calling `ready` again before `process` keeps the first choice. */
  lemma ReadyIsIdempotent(readiness: Readiness, hasImmediate: bool, first: ReadyEvent, second: ReadyEvent)
    ensures ReadyTransition(ReadyTransition(readiness, hasImmediate, first), hasImmediate, second)
         == ReadyTransition(readiness, hasImmediate, first)
  {
  }

  /** The write frontier `install_watch_set` consults: compute's collection first, else storage's. */
  function CurrentWriteFrontier(id: GlobalId, compute: map<GlobalId, Antichain>, storage: map<GlobalId, Antichain>): Option<Antichain>
  {
    if id in compute then Some(compute[id])
    else if id in storage then Some(storage[id])
    else None
  }

  /** A frontier has passed `t`: no element of it is at most `t`. */
  predicate Passes(frontier: Antichain, t: Timestamp)
  {
    !frontier.LessEqual(t)
  }

  /** The objects of a watch set whose write frontier has not passed `t`. */
  function StillBehind(objects: set<GlobalId>, t: Timestamp, compute: map<GlobalId, Antichain>, storage: map<GlobalId, Antichain>): (kept: set<GlobalId>)
    requires forall id :: id in objects ==> CurrentWriteFrontier(id, compute, storage).Some?
    ensures kept <= objects
    ensures forall id :: id in objects ==>
      (id in kept <==> !Passes(CurrentWriteFrontier(id, compute, storage).value, t))
  {
    set id | id in objects && CurrentWriteFrontier(id, compute, storage).value.LessEqual(t)
  }

  /** Every id of `ids` gets `h` appended to its list (a new, empty list if it had none). */
  function AddWatcher(ws: map<GlobalId, seq<Handle>>, ids: set<GlobalId>, h: Handle): (r: map<GlobalId, seq<Handle>>)
    ensures r.Keys == ws.Keys + ids
    ensures forall id :: id in ws && id !in ids ==> r[id] == ws[id]
    ensures forall id :: id in ids ==> r[id] == (if id in ws then ws[id] else []) + [h]
  {
    map id | id in ws.Keys + ids :: (if id in ws then ws[id] else []) + (if id in ids then [h] else [])
  }

  /** The allocations and the holder sets are indexed by the same handles. */
  ghost predicate SameHandles(rcs: map<Handle, Rc>, holders: map<Handle, set<GlobalId>>)
  {
    holders.Keys == rcs.Keys
  }

  /** The strong count of every live allocation is the number of ids holding it, and positive. */
  ghost predicate CountsHolders(rcs: map<Handle, Rc>, holders: map<Handle, set<GlobalId>>)
    requires SameHandles(rcs, holders)
  {
    forall h :: h in rcs ==> rcs[h].strong == |holders[h]| && rcs[h].strong > 0
  }

  /** No list is empty, and no list holds a handle twice. */
  ghost predicate ListsWellFormed(ws: map<GlobalId, seq<Handle>>)
  {
    forall id :: id in ws ==> ws[id] != [] && DupFree(ws[id])
  }

  predicate DupFree(s: seq<Handle>)
  {
    forall j, k :: 0 <= j < k < |s| ==> s[j] != s[k]
  }

  /** `holders[h]` is exactly the set of ids whose list holds `h`. */
  ghost predicate HoldersMatchLists(ws: map<GlobalId, seq<Handle>>, holders: map<Handle, set<GlobalId>>)
  {
    && (forall id, h :: id in ws && h in ws[id] ==> h in holders && id in holders[h])
    && (forall h, id :: h in holders && id in holders[h] ==> id in ws && h in ws[id])
  }

  /**
    The reference-counting invariant: `holders[h]` is the set of ids whose list
    holds `h`, each list holds a handle at most once and is never empty, and the
    strong count of every live allocation is the number of lists holding it.
  */
  ghost predicate Consistent(ws: map<GlobalId, seq<Handle>>, rcs: map<Handle, Rc>, holders: map<Handle, set<GlobalId>>)
  {
    && SameHandles(rcs, holders)
    && CountsHolders(rcs, holders)
    && ListsWellFormed(ws)
    && HoldersMatchLists(ws, holders)
  }

  lemma AddWatcherCounts(rcs: map<Handle, Rc>, holders: map<Handle, set<GlobalId>>, ids: set<GlobalId>, h: Handle, w: WatchSet)
    requires SameHandles(rcs, holders) && CountsHolders(rcs, holders) && ids != {}
    ensures SameHandles(rcs[h := Rc(w, |ids|)], holders[h := ids])
    ensures CountsHolders(rcs[h := Rc(w, |ids|)], holders[h := ids])
  {
  }

  lemma AddWatcherWellFormed(ws: map<GlobalId, seq<Handle>>, holders: map<Handle, set<GlobalId>>, ids: set<GlobalId>, h: Handle)
    requires ListsWellFormed(ws) && HoldersMatchLists(ws, holders) && h !in holders
    ensures ListsWellFormed(AddWatcher(ws, ids, h))
  {
    var ws' := AddWatcher(ws, ids, h);
    forall id | id in ws' ensures ws'[id] != [] && DupFree(ws'[id]) {
      if id in ids {
        var before := if id in ws then ws[id] else [];
        assert h !in before by {
          if id in ws {
            assert h in ws[id] ==> h in holders;
          }
        }
        DupFreeAppend(before, [h]);
        assert ws'[id] == before + [h];
      }
    }
  }

  /** Every entry of the extended lists is recorded among the new holders. */
  lemma AddWatcherListsHeld(ws: map<GlobalId, seq<Handle>>, holders: map<Handle, set<GlobalId>>, ids: set<GlobalId>, h: Handle)
    requires forall id, g :: id in ws && g in ws[id] ==> g in holders && id in holders[g]
    requires h !in holders
    ensures forall id, g :: id in AddWatcher(ws, ids, h) && g in AddWatcher(ws, ids, h)[id] ==>
      g in holders[h := ids] && id in holders[h := ids][g]
  {
    var ws', holders' := AddWatcher(ws, ids, h), holders[h := ids];
    forall id, g | id in ws' && g in ws'[id] ensures g in holders' && id in holders'[g] {
      if g != h {
        assert id in ws && g in ws[id];
      }
    }
  }

  /** Every new holder is listed in the extended lists. */
  lemma AddWatcherHoldersListed(ws: map<GlobalId, seq<Handle>>, holders: map<Handle, set<GlobalId>>, ids: set<GlobalId>, h: Handle)
    requires forall g, id :: g in holders && id in holders[g] ==> id in ws && g in ws[id]
    ensures forall g, id :: g in holders[h := ids] && id in holders[h := ids][g] ==>
      id in AddWatcher(ws, ids, h) && g in AddWatcher(ws, ids, h)[id]
  {
    var ws', holders' := AddWatcher(ws, ids, h), holders[h := ids];
    forall g, id | g in holders' && id in holders'[g] ensures id in ws' && g in ws'[id] {
      if g != h {
        assert g in holders && id in holders[g];
      }
    }
  }

  lemma AddWatcherHolders(ws: map<GlobalId, seq<Handle>>, holders: map<Handle, set<GlobalId>>, ids: set<GlobalId>, h: Handle)
    requires HoldersMatchLists(ws, holders) && h !in holders
    ensures HoldersMatchLists(AddWatcher(ws, ids, h), holders[h := ids])
  {
    AddWatcherListsHeld(ws, holders, ids, h);
    AddWatcherHoldersListed(ws, holders, ids, h);
  }

  lemma AddWatcherConsistent(
    ws: map<GlobalId, seq<Handle>>, rcs: map<Handle, Rc>, holders: map<Handle, set<GlobalId>>,
    ids: set<GlobalId>, h: Handle, w: WatchSet)
    requires Consistent(ws, rcs, holders) && h !in rcs && ids != {}
    ensures Consistent(AddWatcher(ws, ids, h), rcs[h := Rc(w, |ids|)], holders[h := ids])
  {
    AddWatcherCounts(rcs, holders, ids, h, w);
    AddWatcherWellFormed(ws, holders, ids, h);
    AddWatcherHolders(ws, holders, ids, h);
  }

  /** The handles in `id`'s list whose time the frontier has passed. */
  function PassingHandles(ws: map<GlobalId, seq<Handle>>, rcs: map<Handle, Rc>, id: GlobalId, frontier: Antichain): (p: set<Handle>)
    ensures forall h :: h in p <==> id in ws && h in ws[id] && h in rcs && Passes(frontier, rcs[h].state.time)
  {
    if id in ws then set h | h in ws[id] && h in rcs && Passes(frontier, rcs[h].state.time) else {}
  }

  /** Every passing handle loses one reference; those that lose their last one are freed. */
  function ReleaseRcs(rcs: map<Handle, Rc>, passing: set<Handle>): (r: map<Handle, Rc>)
    ensures forall h :: h in r <==> h in rcs && !(h in passing && rcs[h].strong <= 1)
    ensures forall h :: h in r ==> r[h].state == rcs[h].state
    ensures forall h :: h in r ==> r[h].strong == if h in passing then rcs[h].strong - 1 else rcs[h].strong
  {
    map h | h in rcs && !(h in passing && rcs[h].strong <= 1) ::
      if h in passing then Rc(rcs[h].state, rcs[h].strong - 1) else rcs[h]
  }

  /** Releasing no handle changes nothing. */
  lemma ReleaseNothing(rcs: map<Handle, Rc>, holders: map<Handle, set<GlobalId>>, id: GlobalId)
    ensures ReleaseRcs(rcs, {}) == rcs && ReleaseHolders(holders, id, {}) == holders
  {
  }

  /** `id` stops holding the passing handles; handles nobody holds any more are gone. */
  ghost function ReleaseHolders(holders: map<Handle, set<GlobalId>>, id: GlobalId, passing: set<Handle>): (r: map<Handle, set<GlobalId>>)
    ensures forall h :: h in r <==> h in holders && !(h in passing && holders[h] == {id})
    ensures forall h :: h in r ==> r[h] == if h in passing then holders[h] - {id} else holders[h]
  {
    map h | h in holders && !(h in passing && holders[h] == {id}) ::
      if h in passing then holders[h] - {id} else holders[h]
  }

  /** A set of one element that contains `x` is `{x}`. */
  lemma SingletonSet(s: set<GlobalId>, x: GlobalId)
    requires x in s
    ensures |s| == 1 <==> s == {x}
  {
    if |s| == 1 {
      assert |s - {x}| == 0;
      assert s - {x} == {};
    }
  }

  /** The list of `id` once the passing handles are gone: removed from the map if it is empty. */
  function WithList(ws: map<GlobalId, seq<Handle>>, id: GlobalId, list: seq<Handle>): (r: map<GlobalId, seq<Handle>>)
    ensures list == [] ==> r == ws - {id}
    ensures list != [] ==> r == ws[id := list]
  {
    if list == [] then ws - {id} else ws[id := list]
  }

  lemma ReleaseCounts(
    rcs: map<Handle, Rc>, holders: map<Handle, set<GlobalId>>, id: GlobalId, passing: set<Handle>)
    requires SameHandles(rcs, holders) && CountsHolders(rcs, holders)
    requires forall h :: h in passing ==> h in holders && id in holders[h]
    ensures SameHandles(ReleaseRcs(rcs, passing), ReleaseHolders(holders, id, passing))
    ensures CountsHolders(ReleaseRcs(rcs, passing), ReleaseHolders(holders, id, passing))
  {
    var rcs', holders' := ReleaseRcs(rcs, passing), ReleaseHolders(holders, id, passing);
    forall h | h in passing ensures rcs[h].strong <= 1 <==> holders[h] == {id} {
      SingletonSet(holders[h], id);
    }
    assert SameHandles(rcs', holders');
    forall h | h in rcs' ensures rcs'[h].strong == |holders'[h]| && rcs'[h].strong > 0 {
      if h in passing {
        SingletonSet(holders[h], id);
      }
    }
  }

  lemma ReleaseHoldersMatch(
    ws: map<GlobalId, seq<Handle>>, holders: map<Handle, set<GlobalId>>,
    id: GlobalId, passing: set<Handle>, list: seq<Handle>)
    requires HoldersMatchLists(ws, holders) && id in ws
    requires forall h :: h in list <==> h in ws[id] && h !in passing
    ensures HoldersMatchLists(WithList(ws, id, list), ReleaseHolders(holders, id, passing))
  {
    var ws', holders' := WithList(ws, id, list), ReleaseHolders(holders, id, passing);
    forall other, h | other in ws' && h in ws'[other] ensures h in holders' && other in holders'[h] {
      if other != id && h in passing {
        assert other in holders[h];
      }
    }
  }

  lemma ReleaseConsistent(
    ws: map<GlobalId, seq<Handle>>, rcs: map<Handle, Rc>, holders: map<Handle, set<GlobalId>>,
    id: GlobalId, frontier: Antichain, list: seq<Handle>)
    requires Consistent(ws, rcs, holders) && id in ws
    requires DupFree(list)
    requires forall h :: h in list <==> h in ws[id] && !Passes(frontier, rcs[h].state.time)
    ensures var passing := PassingHandles(ws, rcs, id, frontier);
      Consistent(WithList(ws, id, list), ReleaseRcs(rcs, passing), ReleaseHolders(holders, id, passing))
  {
    var passing := PassingHandles(ws, rcs, id, frontier);
    ReleaseCounts(rcs, holders, id, passing);
    ReleaseHoldersMatch(ws, holders, id, passing, list);
  }

  /** The ids of `h0` for which no update so far has passed `t`. */
  ghost function Pending(h0: set<GlobalId>, t: Timestamp, updates: seq<(GlobalId, Antichain)>): (r: set<GlobalId>)
    ensures forall id :: id in r <==> id in h0 && forall k :: 0 <= k < |updates| && updates[k].0 == id ==> !Passes(updates[k].1, t)
  {
    set id | id in h0 && forall k :: 0 <= k < |updates| && updates[k].0 == id ==> !Passes(updates[k].1, t)
  }

  lemma PendingSnoc(h0: set<GlobalId>, t: Timestamp, updates: seq<(GlobalId, Antichain)>, u: (GlobalId, Antichain))
    ensures Pending(h0, t, updates + [u]) == Pending(h0, t, updates) - (if Passes(u.1, t) then {u.0} else {})
  {
    var us := updates + [u];
    assert forall k :: 0 <= k < |updates| ==> us[k] == updates[k];
    assert us[|updates|] == u;
  }

  /**
    How the allocations stand after a sequence of frontier updates, relative to
    `rcs0`/`holders0` before them: no allocation is new, an allocation is still
    live exactly when some id holding it has not yet seen a frontier pass its
    time, those ids are its holders, and `released` lists, once each, the
    allocations that went.
  */
  ghost predicate ReleasedAfter(
    rcs0: map<Handle, Rc>, holders0: map<Handle, set<GlobalId>>, updates: seq<(GlobalId, Antichain)>,
    rcs: map<Handle, Rc>, holders: map<Handle, set<GlobalId>>, released: seq<Handle>)
  {
    && SameHandles(rcs0, holders0)
    && (forall h :: h in rcs ==> h in rcs0 && h in holders)
    && (forall h :: h in rcs0 ==> (h in rcs <==> Pending(holders0[h], rcs0[h].state.time, updates) != {}))
    && (forall h :: h in rcs ==>
          rcs[h].state == rcs0[h].state && holders[h] == Pending(holders0[h], rcs0[h].state.time, updates))
    && (forall h :: h in released <==> h in rcs0 && h !in rcs)
    && DupFree(released)
  }

  /** Before any update, nothing has been released. */
  lemma ReleasedAfterNothing(rcs: map<Handle, Rc>, holders: map<Handle, set<GlobalId>>)
    requires SameHandles(rcs, holders) && CountsHolders(rcs, holders)
    ensures ReleasedAfter(rcs, holders, [], rcs, holders, [])
  {
    forall h | h in rcs ensures Pending(holders[h], rcs[h].state.time, []) == holders[h] {
    }
  }

  /** Which handles one update passes, in terms of the holder sets. */
  lemma PassingByHolders(
    ws: map<GlobalId, seq<Handle>>, rcs: map<Handle, Rc>, holders: map<Handle, set<GlobalId>>,
    id: GlobalId, frontier: Antichain, h: Handle)
    requires Consistent(ws, rcs, holders) && h in rcs
    ensures h in PassingHandles(ws, rcs, id, frontier) <==> id in holders[h] && Passes(frontier, rcs[h].state.time)
    ensures h in PassingHandles(ws, rcs, id, frontier) ==> (rcs[h].strong == 1 <==> holders[h] == {id})
  {
    if id in holders[h] {
      assert id in ws && h in ws[id];
      SingletonSet(holders[h], id);
    }
  }

  /** One update, seen from one allocation: it loses the updated id if the frontier passed its time. */
  lemma ReleaseHandleStep(
    ws: map<GlobalId, seq<Handle>>, rcs: map<Handle, Rc>, holders: map<Handle, set<GlobalId>>,
    id: GlobalId, frontier: Antichain, h: Handle, h0: set<GlobalId>, updates: seq<(GlobalId, Antichain)>)
    requires Consistent(ws, rcs, holders)
    requires h in rcs ==> holders[h] == Pending(h0, rcs[h].state.time, updates)
    requires h in rcs ==> Pending(h0, rcs[h].state.time, updates) != {}
    ensures var passing := PassingHandles(ws, rcs, id, frontier);
      h in rcs ==>
        && (h in ReleaseRcs(rcs, passing) <==> Pending(h0, rcs[h].state.time, updates + [(id, frontier)]) != {})
        && (h in ReleaseRcs(rcs, passing) ==>
              ReleaseHolders(holders, id, passing)[h] == Pending(h0, rcs[h].state.time, updates + [(id, frontier)]))
  {
    if h in rcs {
      PendingSnoc(h0, rcs[h].state.time, updates, (id, frontier));
      PassingByHolders(ws, rcs, holders, id, frontier, h);
    }
  }

  /** One more update, handled by `ReleasePassed`, extends `ReleasedAfter` by that update. */
  lemma ReleasedAfterStep(
    ws: map<GlobalId, seq<Handle>>, rcs: map<Handle, Rc>, holders: map<Handle, set<GlobalId>>,
    id: GlobalId, frontier: Antichain,
    rcs0: map<Handle, Rc>, holders0: map<Handle, set<GlobalId>>, updates: seq<(GlobalId, Antichain)>,
    released: seq<Handle>, step: seq<Handle>)
    requires Consistent(ws, rcs, holders)
    requires ReleasedAfter(rcs0, holders0, updates, rcs, holders, released)
    requires forall h :: h in step <==> h in PassingHandles(ws, rcs, id, frontier) && rcs[h].strong == 1
    requires DupFree(step)
    ensures var passing := PassingHandles(ws, rcs, id, frontier);
      ReleasedAfter(rcs0, holders0, updates + [(id, frontier)],
        ReleaseRcs(rcs, passing), ReleaseHolders(holders, id, passing), released + step)
  {
    var passing := PassingHandles(ws, rcs, id, frontier);
    var rcs', holders' := ReleaseRcs(rcs, passing), ReleaseHolders(holders, id, passing);
    var updates' := updates + [(id, frontier)];
    forall h | h in rcs0
      ensures h in rcs' <==> Pending(holders0[h], rcs0[h].state.time, updates') != {}
      ensures h in rcs' ==> holders'[h] == Pending(holders0[h], rcs0[h].state.time, updates')
    {
      if h in rcs {
        ReleaseHandleStep(ws, rcs, holders, id, frontier, h, holders0[h], updates);
      } else {
        PendingSnoc(holders0[h], rcs0[h].state.time, updates, (id, frontier));
      }
    }
    forall h | h in step ensures h in rcs && h !in rcs' {
      PassingByHolders(ws, rcs, holders, id, frontier, h);
    }
    DupFreeAppend(released, step);
  }

  /**
    One iteration of `handle_frontier_updates`: what `ReleasePassed` did for
    `updates[i]` extends the released allocations and their tokens.
  */
  lemma HandleUpdateStep(
    ws1: map<GlobalId, seq<Handle>>, rcs1: map<Handle, Rc>, holders1: map<Handle, set<GlobalId>>,
    id: GlobalId, frontier: Antichain,
    rcs: map<Handle, Rc>, holders: map<Handle, set<GlobalId>>, step: seq<Handle>, f: seq<Token>,
    rcs0: map<Handle, Rc>, holders0: map<Handle, set<GlobalId>>, updates: seq<(GlobalId, Antichain)>, i: nat,
    released: seq<Handle>, finished: seq<Token>)
    requires Consistent(ws1, rcs1, holders1)
    requires i < |updates| && updates[i] == (id, frontier)
    requires ReleasedAfter(rcs0, holders0, updates[..i], rcs1, holders1, released)
    requires forall k :: 0 <= k < |released| ==> released[k] in rcs0
    requires finished == TokensOf(released, rcs0)
    requires var passing := PassingHandles(ws1, rcs1, id, frontier);
      && rcs == ReleaseRcs(rcs1, passing)
      && holders == ReleaseHolders(holders1, id, passing)
      && (forall h :: h in step <==> h in passing && rcs1[h].strong == 1)
      && DupFree(step)
      && (forall k :: 0 <= k < |step| ==> step[k] in rcs1)
      && f == TokensOf(step, rcs1)
    ensures ReleasedAfter(rcs0, holders0, updates[..i + 1], rcs, holders, released + step)
    ensures forall k :: 0 <= k < |released + step| ==> (released + step)[k] in rcs0
    ensures finished + f == TokensOf(released + step, rcs0)
  {
    ReleasedAfterStep(ws1, rcs1, holders1, id, frontier, rcs0, holders0, updates[..i], released, step);
    assert updates[..i + 1] == updates[..i] + [(id, frontier)];
    TokensOfSameState(step, rcs1, rcs0);
    TokensOfAppend(released, step, rcs0);
  }

  /** `ReleasedAfter` for the whole of `updates`, from the loop's prefix form. */
  lemma ReleasedAfterAll(
    rcs0: map<Handle, Rc>, holders0: map<Handle, set<GlobalId>>, updates: seq<(GlobalId, Antichain)>,
    rcs: map<Handle, Rc>, holders: map<Handle, set<GlobalId>>, released: seq<Handle>)
    requires ReleasedAfter(rcs0, holders0, updates[..|updates|], rcs, holders, released)
    ensures ReleasedAfter(rcs0, holders0, updates, rcs, holders, released)
  {
    assert updates[..|updates|] == updates;
  }

  /** Two duplicate-free sequences with no common element concatenate to a duplicate-free one. */
  lemma DupFreeAppend(a: seq<Handle>, b: seq<Handle>)
    requires DupFree(a) && DupFree(b) && forall h :: h in a ==> h !in b
    ensures DupFree(a + b)
  {
    var c := a + b;
    forall j, k | 0 <= j < k < |c| ensures c[j] != c[k] {
      if k >= |a| && j < |a| {
        assert c[j] in a && c[k] in b;
      }
    }
  }

  /** The tokens of the given live handles, in order. */
  function TokensOf(hs: seq<Handle>, rcs: map<Handle, Rc>): (r: seq<Token>)
    requires forall k :: 0 <= k < |hs| ==> hs[k] in rcs
    ensures |r| == |hs| && forall k :: 0 <= k < |hs| ==> r[k] == rcs[hs[k]].state.token
  {
    seq(|hs|, k requires 0 <= k < |hs| => rcs[hs[k]].state.token)
  }

  /** The tokens of a concatenation are the concatenated tokens. */
  lemma TokensOfAppend(a: seq<Handle>, b: seq<Handle>, rcs: map<Handle, Rc>)
    requires forall k :: 0 <= k < |a| ==> a[k] in rcs
    requires forall k :: 0 <= k < |b| ==> b[k] in rcs
    ensures TokensOf(a + b, rcs) == TokensOf(a, rcs) + TokensOf(b, rcs)
  {
    var c := a + b;
    assert forall k :: 0 <= k < |c| ==> c[k] == if k < |a| then a[k] else b[k - |a|];
  }

  /** Tokens read through two maps that agree on the allocations' contents are the same. */
  lemma TokensOfSameState(hs: seq<Handle>, rcs: map<Handle, Rc>, rcs': map<Handle, Rc>)
    requires forall k :: 0 <= k < |hs| ==> hs[k] in rcs && hs[k] in rcs' && rcs[hs[k]].state == rcs'[hs[k]].state
    ensures TokensOf(hs, rcs) == TokensOf(hs, rcs')
  {
  }

  /** `Vec::swap_remove`: the last element takes the place of the removed one. */
  function SwapRemove(s: seq<Handle>, i: nat): (r: seq<Handle>)
    requires i < |s|
    ensures |r| == |s| - 1
    ensures DupFree(s) ==> DupFree(r) && forall h :: h in r <==> h in s && h != s[i]
  {
    SwapRemoveDupFree(s, i);
    s[i := s[|s| - 1]][..|s| - 1]
  }

  lemma SwapRemoveDupFree(s: seq<Handle>, i: nat)
    requires i < |s|
    ensures var r := s[i := s[|s| - 1]][..|s| - 1];
      DupFree(s) ==> DupFree(r) && forall h :: h in r <==> h in s && h != s[i]
  {
    var last := |s| - 1;
    var r := s[i := s[last]][..last];
    assert forall k :: 0 <= k < last ==> r[k] == if k == i then s[last] else s[k];
    if DupFree(s) {
      forall h | h in s && h != s[i] ensures h in r {
        var k :| 0 <= k < |s| && s[k] == h;
        if k == last {
          assert r[i] == h;
        } else {
          assert r[k] == h;
        }
      }
      forall h | h in r ensures h in s && h != s[i] {
        var k :| 0 <= k < last && r[k] == h;
      }
    }
  }

  /**
    What `Sweep` has done to the allocations once it has dropped the
    references in `removed`: an allocation whose last reference went is gone
    and listed in `released`, with its token in `finished`; any other lost one
    reference.
  */
  ghost predicate SweptSoFar(
    rcs: map<Handle, Rc>, removed: set<Handle>, cur: map<Handle, Rc>, released: seq<Handle>, finished: seq<Token>)
  {
    && (forall g :: g in cur <==> g in rcs && !(g in removed && rcs[g].strong <= 1))
    && (forall g :: g in cur ==> cur[g] == if g in removed then Rc(rcs[g].state, rcs[g].strong - 1) else rcs[g])
    && (forall h :: h in released <==> h in removed && h in rcs && rcs[h].strong == 1)
    && DupFree(released)
    && (forall k :: 0 <= k < |released| ==> released[k] in rcs)
    && finished == TokensOf(released, rcs)
  }

  /** Dropping the reference to one more handle `h` keeps `SweptSoFar`. */
  lemma SweepStep(
    rcs: map<Handle, Rc>, removed: set<Handle>, cur: map<Handle, Rc>, released: seq<Handle>, finished: seq<Token>,
    h: Handle)
    requires SweptSoFar(rcs, removed, cur, released, finished)
    requires h in rcs && h !in removed && rcs[h].strong > 0
    ensures h in cur && cur[h] == rcs[h]
    ensures rcs[h].strong == 1 ==>
      SweptSoFar(rcs, removed + {h}, cur - {h}, released + [h], finished + [rcs[h].state.token])
    ensures rcs[h].strong != 1 ==>
      SweptSoFar(rcs, removed + {h}, cur[h := Rc(rcs[h].state, rcs[h].strong - 1)], released, finished)
  {
    if rcs[h].strong == 1 {
      DupFreeAppend(released, [h]);
      TokensOfAppend(released, [h], rcs);
    }
  }

  /**
    The `while i < x.len()` loop of `handle_frontier_updates` over one list:
    every entry whose time `frontier` has passed is `swap_remove`d and its
    allocation loses a reference; allocations losing their last reference are
    freed and return their token.
  */
  method Sweep(list: seq<Handle>, rcs: map<Handle, Rc>, frontier: Antichain, ghost passing: set<Handle>)
    returns (kept: seq<Handle>, rcs': map<Handle, Rc>, finished: seq<Token>, ghost released: seq<Handle>)
    requires DupFree(list)
    requires forall h :: h in list ==> h in rcs && rcs[h].strong > 0
    requires forall h :: h in passing <==> h in list && Passes(frontier, rcs[h].state.time)
    ensures DupFree(kept)
    ensures forall h :: h in kept <==> h in list && !Passes(frontier, rcs[h].state.time)
    ensures rcs' == ReleaseRcs(rcs, passing)
    ensures forall h :: h in released <==> h in list && Passes(frontier, rcs[h].state.time) && rcs[h].strong == 1
    ensures DupFree(released)
    ensures forall k :: 0 <= k < |released| ==> released[k] in rcs
    ensures finished == TokensOf(released, rcs)
  {
    ghost var removed: set<Handle> := {};
    kept, rcs', finished, released := list, rcs, [], [];
    var i := 0;
    while i < |kept|
      invariant 0 <= i <= |kept|
      invariant DupFree(kept)
      invariant forall h :: h in list <==> h in kept || h in removed
      invariant forall h :: h in kept ==> h !in removed
      invariant removed <= passing
      invariant forall k :: 0 <= k < i ==> kept[k] !in passing
      invariant SweptSoFar(rcs, removed, rcs', released, finished)
      decreases |kept| - i
    {
      var h := kept[i];
      var rc := rcs'[h];
      if Passes(frontier, rc.state.time) {
        SweepStep(rcs, removed, rcs', released, finished, h);
        kept := SwapRemove(kept, i);
        if rc.strong == 1 {
          rcs' := rcs' - {h};
          finished := finished + [rc.state.token];
          released := released + [h];
        } else {
          rcs' := rcs'[h := Rc(rc.state, rc.strong - 1)];
        }
        removed := removed + {h};
      } else {
        i := i + 1;
      }
    }
    assert removed == passing;
  }

  /** The smallest element of a non-empty set: `BTreeSet::retain` visits ids in ascending order. */
  method Least(s: set<GlobalId>) returns (m: GlobalId)
    requires s != {}
    ensures m in s && forall x :: x in s ==> m <= x
  {
    m :| m in s;
    var rest := s - {m};
    while rest != {}
      invariant rest <= s && m in s
      invariant forall x :: x in s && x !in rest ==> m <= x
      decreases rest
    {
      var x :| x in rest;
      if x < m {
        m := x;
      }
      rest := rest - {x};
    }
  }

  /** The loop of `install_watch_set` that appends the new allocation to the list of each remaining object. */
  method AppendToLists(ws0: map<GlobalId, seq<Handle>>, ids: set<GlobalId>, h: Handle) returns (ws: map<GlobalId, seq<Handle>>)
    ensures ws == AddWatcher(ws0, ids, h)
  {
    ws := ws0;
    var remaining := ids;
    while remaining != {}
      invariant remaining <= ids
      invariant ws == AddWatcher(ws0, ids - remaining, h)
      decreases remaining
    {
      var id :| id in remaining;
      var list := if id in ws then ws[id] else [];
      ws := ws[id := list + [h]];
      assert ws == AddWatcher(ws0, ids - (remaining - {id}), h);
      remaining := remaining - {id};
    }
    assert ids - {} == ids;
  }

  class Controller {
    var readiness: Readiness
    var watchSets: map<GlobalId, seq<Handle>>
    var rcs: map<Handle, Rc>
    var immediateWatchSets: seq<Token>
    var nextHandle: Handle
    /** For every live allocation, the ids whose list holds it. */
    ghost var holders: map<Handle, set<GlobalId>>

    ghost predicate Valid()
      reads this
    {
      && Consistent(watchSets, rcs, holders)
      && forall h :: h in rcs ==> h < nextHandle
    }

    constructor ()
      ensures Valid()
      ensures readiness == NotReady && watchSets == map[] && rcs == map[] && immediateWatchSets == []
    {
      readiness := NotReady;
      watchSets := map[];
      rcs := map[];
      immediateWatchSets := [];
      nextHandle := 0;
      holders := map[];
    }

    /**
      `ready`, with the `select!` outcome given as `event`: from `NotReady`,
      queued immediate watch sets make the controller `Internal`, otherwise the
      event decides; in any other state nothing changes.
    */
    method Ready(event: ReadyEvent)
      requires Valid()
      modifies this
      ensures Valid()
      ensures readiness == ReadyTransition(old(readiness), old(immediateWatchSets) != [], event)
      ensures watchSets == old(watchSets) && rcs == old(rcs) && immediateWatchSets == old(immediateWatchSets)
      ensures nextHandle == old(nextHandle) && holders == old(holders)
    {
      if readiness == NotReady {
        if immediateWatchSets != [] {
          readiness := Internal;
        } else {
          readiness := ReadinessFor(event);
        }
      }
    }

    /**
      `install_watch_set`. It panics (`missing`) when an object is known to
      neither controller. Otherwise the objects that have already passed `t` are
      dropped; if none is left the token is queued to be returned immediately,
      else one new allocation holding `(t, token)` is appended to the list of
      every remaining object.
    */
    method InstallWatchSet(
      objects: set<GlobalId>, t: Timestamp, token: Token,
      computeFrontiers: map<GlobalId, Antichain>, storageFrontiers: map<GlobalId, Antichain>)
      returns (missing: Option<GlobalId>)
      requires Valid()
      modifies this
      ensures Valid()
      ensures missing.Some? <==> exists id :: id in objects && CurrentWriteFrontier(id, computeFrontiers, storageFrontiers).None?
      ensures missing.Some? ==>
        && missing.value in objects && CurrentWriteFrontier(missing.value, computeFrontiers, storageFrontiers).None?
        && (forall id :: id in objects && CurrentWriteFrontier(id, computeFrontiers, storageFrontiers).None? ==> missing.value <= id)
        && watchSets == old(watchSets) && rcs == old(rcs) && immediateWatchSets == old(immediateWatchSets)
        && nextHandle == old(nextHandle)
      ensures readiness == old(readiness)
      ensures missing.None? ==> var kept := StillBehind(objects, t, computeFrontiers, storageFrontiers);
        && (kept == {} ==>
              && immediateWatchSets == old(immediateWatchSets) + [token]
              && watchSets == old(watchSets) && rcs == old(rcs) && nextHandle == old(nextHandle))
        && (kept != {} ==>
              && immediateWatchSets == old(immediateWatchSets)
              && old(nextHandle) !in old(rcs)
              && nextHandle == old(nextHandle) + 1
              && rcs == old(rcs)[old(nextHandle) := Rc(WatchSet(t, token), |kept|)]
              && watchSets == AddWatcher(old(watchSets), kept, old(nextHandle)))
    {
      var absent := set id | id in objects && CurrentWriteFrontier(id, computeFrontiers, storageFrontiers).None?;
      if absent != {} {
        var id := Least(absent);
        assert forall x :: x in objects && CurrentWriteFrontier(x, computeFrontiers, storageFrontiers).None? ==> x in absent;
        return Some(id);
      }
      assert forall id :: id in objects ==> id !in absent;
      missing := None;
      var kept := StillBehind(objects, t, computeFrontiers, storageFrontiers);
      if kept == {} {
        QueueImmediate(token);
      } else {
        Watch(kept, WatchSet(t, token));
      }
    }

    /** A watch set whose objects have all passed its time: its token is returned by the next `process`. */
    method QueueImmediate(token: Token)
      requires Valid()
      modifies this
      ensures Valid()
      ensures immediateWatchSets == old(immediateWatchSets) + [token]
      ensures readiness == old(readiness) && watchSets == old(watchSets) && rcs == old(rcs)
      ensures nextHandle == old(nextHandle) && holders == old(holders)
    {
      immediateWatchSets := immediateWatchSets + [token];
    }

    /** One new allocation, referenced once from the list of each object of `kept`. */
    method Watch(kept: set<GlobalId>, w: WatchSet)
      requires Valid() && kept != {}
      modifies this
      ensures Valid()
      ensures old(nextHandle) !in old(rcs) && nextHandle == old(nextHandle) + 1
      ensures rcs == old(rcs)[old(nextHandle) := Rc(w, |kept|)]
      ensures holders == old(holders)[old(nextHandle) := kept]
      ensures watchSets == AddWatcher(old(watchSets), kept, old(nextHandle))
      ensures readiness == old(readiness) && immediateWatchSets == old(immediateWatchSets)
    {
      var h := nextHandle;
      var ws0 := watchSets;
      ghost var rcs0, holders0 := rcs, holders;
      var ws := AppendToLists(ws0, kept, h);
      AddWatcherConsistent(ws0, rcs0, holders0, kept, h, w);
      watchSets := ws;
      rcs := rcs[h := Rc(w, |kept|)];
      holders := holders[h := kept];
      nextHandle := nextHandle + 1;
    }

    /**
      One `(id, frontier)` update of `handle_frontier_updates`: walk `id`'s
      list, `swap_remove` every entry whose time the frontier has passed, and
      drop its reference; an allocation whose last reference goes returns its
      token. An emptied list is removed.
    */
    method ReleasePassed(id: GlobalId, frontier: Antichain) returns (finished: seq<Token>, ghost released: seq<Handle>)
      requires Valid()
      modifies this
      ensures Valid()
      ensures readiness == old(readiness) && immediateWatchSets == old(immediateWatchSets) && nextHandle == old(nextHandle)
      ensures var passing := PassingHandles(old(watchSets), old(rcs), id, frontier);
        && rcs == ReleaseRcs(old(rcs), passing)
        && holders == ReleaseHolders(old(holders), id, passing)
        && (forall h :: h in released <==> h in passing && old(rcs)[h].strong == 1)
        && DupFree(released)
        && (forall k :: 0 <= k < |released| ==> released[k] in old(rcs))
        && finished == TokensOf(released, old(rcs))
      ensures forall other :: other != id ==>
        (other in watchSets <==> other in old(watchSets)) && (other in watchSets ==> watchSets[other] == old(watchSets)[other])
      ensures id in watchSets ==> id in old(watchSets) && forall h ::
        h in watchSets[id] <==> h in old(watchSets)[id] && !Passes(frontier, old(rcs)[h].state.time)
      ensures id in old(watchSets) && id !in watchSets ==> forall h ::
        h in old(watchSets)[id] ==> Passes(frontier, old(rcs)[h].state.time)
    {
      finished := [];
      released := [];
      if id !in watchSets {
        ReleaseNothing(rcs, holders, id);
        return;
      }
      var list := watchSets[id];
      var ws0, rcs0 := watchSets, rcs;
      ghost var holders0 := holders;
      ghost var passing := PassingHandles(ws0, rcs0, id, frontier);
      var x;
      x, rcs, finished, released := Sweep(list, rcs0, frontier, passing);
      ReleaseConsistent(ws0, rcs0, holders0, id, frontier, x);
      watchSets := WithList(ws0, id, x);
      holders := ReleaseHolders(holders0, id, passing);
    }

    /**
      One iteration of `handle_frontier_updates`: `updates[i]` goes through
      `ReleasePassed`, which extends the allocations released since `rcs0`
      and the tokens they returned.
    */
    method ReleaseUpdate(
      updates: seq<(GlobalId, Antichain)>, i: nat,
      ghost rcs0: map<Handle, Rc>, ghost holders0: map<Handle, set<GlobalId>>,
      ghost released: seq<Handle>, ghost finished: seq<Token>)
      returns (f: seq<Token>, ghost step: seq<Handle>)
      requires Valid() && i < |updates|
      requires ReleasedAfter(rcs0, holders0, updates[..i], rcs, holders, released)
      requires forall k :: 0 <= k < |released| ==> released[k] in rcs0
      requires finished == TokensOf(released, rcs0)
      modifies this
      ensures Valid()
      ensures readiness == old(readiness) && immediateWatchSets == old(immediateWatchSets) && nextHandle == old(nextHandle)
      ensures ReleasedAfter(rcs0, holders0, updates[..i + 1], rcs, holders, released + step)
      ensures forall k :: 0 <= k < |released + step| ==> (released + step)[k] in rcs0
      ensures finished + f == TokensOf(released + step, rcs0)
    {
      var (id, frontier) := updates[i];
      ghost var ws1, rcs1, holders1 := watchSets, rcs, holders;
      f, step := ReleasePassed(id, frontier);
      HandleUpdateStep(ws1, rcs1, holders1, id, frontier, rcs, holders, step, f,
                       rcs0, holders0, updates, i, released, finished);
    }

    /**
      `handle_frontier_updates`: each `(id, frontier)` in turn releases the
      allocations in `id`'s list that the frontier has passed. The tokens of
      the allocations whose last reference went are returned together, in the
      order they were freed, or nothing if there are none.
    */
    method HandleFrontierUpdates(updates: seq<(GlobalId, Antichain)>)
      returns (response: Option<ControllerResponse>, ghost released: seq<Handle>)
      requires Valid()
      modifies this
      ensures Valid()
      ensures readiness == old(readiness) && immediateWatchSets == old(immediateWatchSets) && nextHandle == old(nextHandle)
      ensures ReleasedAfter(old(rcs), old(holders), updates, rcs, holders, released)
      ensures forall k :: 0 <= k < |released| ==> released[k] in old(rcs)
      ensures response.None? <==> released == []
      ensures response.Some? ==> response.value == WatchSetFinished(TokensOf(released, old(rcs)))
    {
      ghost var rcs0, holders0 := rcs, holders;
      ReleasedAfterNothing(rcs, holders);
      var finished: seq<Token> := [];
      released := [];
      var i := 0;
      while i < |updates|
        invariant 0 <= i <= |updates|
        invariant Valid()
        invariant readiness == old(readiness) && immediateWatchSets == old(immediateWatchSets) && nextHandle == old(nextHandle)
        invariant ReleasedAfter(rcs0, holders0, updates[..i], rcs, holders, released)
        invariant forall k :: 0 <= k < |released| ==> released[k] in rcs0
        invariant finished == TokensOf(released, rcs0)
      {
        var f;
        ghost var step;
        f, step := ReleaseUpdate(updates, i, rcs0, holders0, released, finished);
        finished := finished + f;
        released := released + step;
        i := i + 1;
      }
      ReleasedAfterAll(rcs0, holders0, updates, rcs, holders, released);
      response := if finished == [] then None else Some(WatchSetFinished(finished));
    }

    /**
      `process`: handle what `ready` recorded and reset the readiness. The
      results of the storage controller's `process`, the compute controller's
      `process` and the metrics channel are inputs. Frontier updates from
      either controller go through `handle_frontier_updates`; a storage error
      is passed on; the queued immediate watch sets are returned all at once.
    */
    method Process(
      storageResult: Result<Option<seq<(GlobalId, Antichain)>>, string>,
      computeResult: Option<ComputeControllerResponse>,
      metrics: Option<nat>)
      returns (r: Result<Option<ControllerResponse>, string>, ghost released: seq<Handle>)
      requires Valid()
      modifies this
      ensures Valid()
      ensures readiness == NotReady && nextHandle == old(nextHandle)
      ensures old(readiness) != Internal ==> immediateWatchSets == old(immediateWatchSets)
      ensures (|| old(readiness) in {NotReady, Metrics, Frontiers, Internal}
               || (old(readiness) == Storage && !(storageResult.Ok? && storageResult.value.Some?))
               || (old(readiness) == Compute && !(computeResult.Some? && computeResult.value.ComputeFrontierUpper?)))
        ==> watchSets == old(watchSets) && rcs == old(rcs) && holders == old(holders) && released == []
      ensures old(readiness) == NotReady ==> r == Ok(None)
      ensures old(readiness) == Storage ==>
        match storageResult
        case Err(e) => r == Err(e)
        case Ok(None) => r == Ok(None)
        case Ok(Some(updates)) =>
          && r.Ok?
          && ReleasedAfter(old(rcs), old(holders), updates, rcs, holders, released)
          && (r.value.None? <==> released == [])
          && (forall k :: 0 <= k < |released| ==> released[k] in old(rcs))
          && (r.value.Some? ==> r.value.value == WatchSetFinished(TokensOf(released, old(rcs))))
      ensures old(readiness) == Compute ==>
        match computeResult
        case None => r == Ok(None)
        case Some(ComputePeek(uuid)) => r == Ok(Some(PeekResponse(uuid)))
        case Some(ComputeSubscribe(id)) => r == Ok(Some(SubscribeResponse(id)))
        case Some(ComputeCopyTo(id)) => r == Ok(Some(CopyToResponse(id)))
        case Some(ComputeFrontierUpper(id, upper)) =>
          && r.Ok?
          && ReleasedAfter(old(rcs), old(holders), [(id, upper)], rcs, holders, released)
          && (r.value.None? <==> released == [])
          && (forall k :: 0 <= k < |released| ==> released[k] in old(rcs))
          && (r.value.Some? ==> r.value.value == WatchSetFinished(TokensOf(released, old(rcs))))
      ensures old(readiness) == Metrics ==>
        r == Ok(if metrics.Some? then Some(ComputeReplicaMetrics(metrics.value)) else None)
      ensures old(readiness) == Frontiers ==> r == Ok(None)
      ensures old(readiness) == Internal ==>
        && immediateWatchSets == []
        && r == Ok(if old(immediateWatchSets) == [] then None else Some(WatchSetFinished(old(immediateWatchSets))))
    {
      var current := readiness;
      readiness := NotReady;
      released := [];
      match current
      case NotReady =>
        r := Ok(None);
      case Storage =>
        match storageResult {
          case Err(e) =>
            r := Err(e);
          case Ok(None) =>
            r := Ok(None);
          case Ok(Some(updates)) =>
            var response;
            response, released := HandleFrontierUpdates(updates);
            r := Ok(response);
        }
      case Compute =>
        match computeResult {
          case None =>
            r := Ok(None);
          case Some(ComputePeek(uuid)) =>
            r := Ok(Some(PeekResponse(uuid)));
          case Some(ComputeSubscribe(id)) =>
            r := Ok(Some(SubscribeResponse(id)));
          case Some(ComputeCopyTo(id)) =>
            r := Ok(Some(CopyToResponse(id)));
          case Some(ComputeFrontierUpper(id, upper)) =>
            var response;
            response, released := HandleFrontierUpdates([(id, upper)]);
            r := Ok(response);
        }
      case Metrics =>
        r := Ok(if metrics.Some? then Some(ComputeReplicaMetrics(metrics.value)) else None);
      case Frontiers =>
        r := Ok(None);
      case Internal =>
        var tokens := immediateWatchSets;
        immediateWatchSets := [];
        r := Ok(if tokens == [] then None else Some(WatchSetFinished(tokens)));
    }
  }
}
