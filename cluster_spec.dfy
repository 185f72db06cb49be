/**
 * The specification of the cluster state as values: the sets derived from the
 * state (matching pods, matching keys, contributive keys), the invariants that
 * tie the maps together, the state transformers the operations are proved
 * against, and the lemmas that the transformers keep the invariants.
 */
module ClusterSpec {
  import opened Model

  // ---------------------------------------------------------------------------
  // Derived sets.

  /** GetMatchingPods as a set: the pods whose namespace and labels match the VPA. */
  function MatchingPods(env: Env, labelSetMap: map<LabelSetKey, LabelSet>, pods: map<PodID, PodState>, vpa: Vpa): set<PodID> {
    set id | id in pods && PodLabelsMatchVpa(env, id.namespace, LabelsOf(labelSetMap, pods[id].labelSetKey), vpa.id.namespace, vpa.selector)
  }

  /** The keys among the given ones whose namespace and labels match the VPA. */
  function MatchingKeys(env: Env, labelSetMap: map<LabelSetKey, LabelSet>, keys: set<AggregateStateKey>, vpa: Vpa): set<AggregateStateKey> {
    set k | k in keys && VpaMatchesKey(env, labelSetMap, vpa, k)
  }

  /** The aggregation keys of the containers of one pod. */
  function ContainerKeys(pod: PodState): set<AggregateStateKey> {
    set c | c in pod.containers :: MakeAggregateStateKey(pod, c)
  }

  // ---------------------------------------------------------------------------
  // Invariants.

  /** Every interned handle is the canonical form of the label set it maps to. */
  ghost predicate InternerSound(env: Env, labelSetMap: map<LabelSetKey, LabelSet>) {
    forall h :: h in labelSetMap ==> env.labelString(labelSetMap[h]) == h
  }

  /** The interner only grows: every handle keeps its label set. */
  ghost predicate InternerExtends(before: map<LabelSetKey, LabelSet>, after: map<LabelSetKey, LabelSet>) {
    forall h :: h in before ==> h in after && after[h] == before[h]
  }

  /** Every container refers to the key derived from its pod's current labels. */
  ghost predicate ContainersCurrent(pod: PodState) {
    forall c :: c in pod.containers ==> pod.containers[c].aggregator == MakeAggregateStateKey(pod, c)
  }

  /** Pods are stored under their own ID, with interned labels and current container keys. */
  ghost predicate PodsWellFormed(labelSetMap: map<LabelSetKey, LabelSet>, pods: map<PodID, PodState>) {
    forall id :: id in pods ==> pods[id].id == id && pods[id].labelSetKey in labelSetMap && ContainersCurrent(pods[id])
  }

  /** Every aggregation key has an interned label set. */
  ghost predicate KeysInterned(labelSetMap: map<LabelSetKey, LabelSet>, keys: set<AggregateStateKey>) {
    forall k :: k in keys ==> k.labelSetKey in labelSetMap
  }

  /** VPAs are stored under their own ID and link exactly the index keys that match them. */
  ghost predicate LinksExact(env: Env, labelSetMap: map<LabelSetKey, LabelSet>, keys: set<AggregateStateKey>, vpas: map<VpaID, Vpa>) {
    forall id :: id in vpas ==> vpas[id].id == id && vpas[id].links == MatchingKeys(env, labelSetMap, keys, vpas[id])
  }

  /** Every VPA's pod count is the number of pods that match it. */
  ghost predicate PodCountsExact(env: Env, labelSetMap: map<LabelSetKey, LabelSet>, pods: map<PodID, PodState>, vpas: map<VpaID, Vpa>) {
    forall id :: id in vpas ==> vpas[id].podCount == |MatchingPods(env, labelSetMap, pods, vpas[id])|
  }

  /** All invariants of a cluster state, over its maps. */
  ghost predicate StateValid(env: Env, labelSetMap: map<LabelSetKey, LabelSet>, pods: map<PodID, PodState>,
                             index: map<AggregateStateKey, Aggregation>, vpas: map<VpaID, Vpa>) {
    && env.Valid()
    && InternerSound(env, labelSetMap)
    && PodsWellFormed(labelSetMap, pods)
    && KeysInterned(labelSetMap, index.Keys)
    && LinksExact(env, labelSetMap, index.Keys, vpas)
    && PodCountsExact(env, labelSetMap, pods, vpas)
  }

  // ---------------------------------------------------------------------------
  // State transformers.

  /** The pod stored under the ID, or the pod AddOrUpdatePod creates for an unknown ID: no labels, containers or phase. */
  function PodBase(pods: map<PodID, PodState>, podID: PodID): (p: PodState)
    ensures podID in pods ==> p == pods[podID]
    ensures podID !in pods ==> p == PodState(podID, "", map[], "")
  {
    if podID in pods then pods[podID] else PodState(podID, "", map[], "")
  }

  /** addPodToItsVpa (delta 1) and removePodFromItsVpa (delta -1). */
  function ShiftPodCounts(env: Env, labelSetMap: map<LabelSetKey, LabelSet>, vpas: map<VpaID, Vpa>, pod: PodState, delta: int): map<VpaID, Vpa> {
    map id | id in vpas :: ShiftVpa(env, labelSetMap, vpas[id], pod, delta)
  }

  /** The VPA's pod count moved by delta if the pod matches it. */
  function ShiftVpa(env: Env, labelSetMap: map<LabelSetKey, LabelSet>, vpa: Vpa, pod: PodState, delta: int): Vpa {
    if PodMatchesVpa(env, labelSetMap, pod, vpa) then vpa.(podCount := vpa.podCount + delta) else vpa
  }

  /** removePodFromItsVpa applied to the pod stored under the ID, if there is one. */
  function Uncount(env: Env, labelSetMap: map<LabelSetKey, LabelSet>, vpas: map<VpaID, Vpa>, pods: map<PodID, PodState>, podID: PodID): map<VpaID, Vpa> {
    if podID in pods then ShiftPodCounts(env, labelSetMap, vpas, pods[podID], -1) else vpas
  }

  /** Every VPA that matches the key links it. */
  function LinkIfMatching(env: Env, labelSetMap: map<LabelSetKey, LabelSet>, vpas: map<VpaID, Vpa>, k: AggregateStateKey): map<VpaID, Vpa> {
    map id | id in vpas :: LinkKey(env, labelSetMap, vpas[id], k)
  }

  /** UseAggregationIfMatching: the VPA links the key if it matches it. */
  function LinkKey(env: Env, labelSetMap: map<LabelSetKey, LabelSet>, vpa: Vpa, k: AggregateStateKey): Vpa {
    if VpaMatchesKey(env, labelSetMap, vpa, k) then vpa.(links := vpa.links + {k}) else vpa
  }

  /** The VPA links those of the given keys that match it. */
  function LinkVpa(env: Env, labelSetMap: map<LabelSetKey, LabelSet>, vpa: Vpa, ks: set<AggregateStateKey>): Vpa {
    vpa.(links := vpa.links + MatchingKeys(env, labelSetMap, ks, vpa))
  }

  /** Every VPA links those of the given keys that match it. */
  function LinkMatching(env: Env, labelSetMap: map<LabelSetKey, LabelSet>, vpas: map<VpaID, Vpa>, ks: set<AggregateStateKey>): map<VpaID, Vpa> {
    map id | id in vpas :: LinkVpa(env, labelSetMap, vpas[id], ks)
  }

  /** Every VPA drops its links to the given keys. */
  function Unlink(vpas: map<VpaID, Vpa>, dead: set<AggregateStateKey>): map<VpaID, Vpa> {
    map id | id in vpas :: UnlinkVpa(vpas[id], dead)
  }

  /** DeleteAggregation for each given key: the VPA drops its links to them. */
  function UnlinkVpa(vpa: Vpa, dead: set<AggregateStateKey>): Vpa {
    vpa.(links := vpa.links - dead)
  }

  /** The pod with the named container stored as c. */
  function PutContainer(pod: PodState, name: string, c: ContainerState): (p: PodState)
    ensures p.id == pod.id && p.labelSetKey == pod.labelSetKey && p.phase == pod.phase
    ensures p.containers.Keys == pod.containers.Keys + {name}
    ensures p.containers[name] == c
    ensures forall n :: n in pod.containers && n != name ==> p.containers[n] == pod.containers[n]
  {
    pod.(containers := pod.containers[name := c])
  }

  /** Some VPA matches the key, so UseAggregationIfMatching links it there. */
  predicate MatchedBySomeVpa(env: Env, labelSetMap: map<LabelSetKey, LabelSet>, vpas: map<VpaID, Vpa>, k: AggregateStateKey) {
    exists id :: id in vpas && VpaMatchesKey(env, labelSetMap, vpas[id], k)
  }

  /**
   * The aggregation findOrCreateAggregateContainerState creates for a missing
   * key once every VPA has been offered it: no samples, and under a VPA
   * exactly when some VPA matches the key.
   */
  function FreshAggregation(env: Env, labelSetMap: map<LabelSetKey, LabelSet>, vpas: map<VpaID, Vpa>, k: AggregateStateKey): Aggregation {
    NewAggregation.(underVpa := MatchedBySomeVpa(env, labelSetMap, vpas, k))
  }

  /** The index with a fresh aggregation, offered to the VPAs, under every given key it lacked. */
  function EnsureAggregations(env: Env, labelSetMap: map<LabelSetKey, LabelSet>, vpas: map<VpaID, Vpa>,
                              index: map<AggregateStateKey, Aggregation>, keys: set<AggregateStateKey>): (r: map<AggregateStateKey, Aggregation>)
    ensures r.Keys == index.Keys + keys
    ensures forall k :: k in index ==> r[k] == index[k]
    ensures forall k :: k in r && k !in index ==> r[k].samples == [] && (r[k].underVpa <==> MatchedBySomeVpa(env, labelSetMap, vpas, k))
  {
    map k | k in index.Keys + keys :: if k in index then index[k] else FreshAggregation(env, labelSetMap, vpas, k)
  }

  /**
   * The index after a new VPA is offered every aggregation: the aggregations
   * under the keys it links are marked as under a VPA.
   */
  function MarkUnderVpa(index: map<AggregateStateKey, Aggregation>, keys: set<AggregateStateKey>): (r: map<AggregateStateKey, Aggregation>)
    ensures r.Keys == index.Keys
    ensures forall k :: k in index ==> r[k].samples == index[k].samples
    ensures forall k :: k in index ==> r[k].underVpa == (index[k].underVpa || k in keys)
  {
    map k | k in index :: if k in keys then index[k].(underVpa := true) else index[k]
  }

  /** The index with the aggregations under the given keys marked not autoscaled. */
  function MarkNotAutoscaled(index: map<AggregateStateKey, Aggregation>, keys: set<AggregateStateKey>): (r: map<AggregateStateKey, Aggregation>)
    ensures r.Keys == index.Keys
    ensures forall k :: k in index ==> r[k].samples == index[k].samples
    ensures forall k :: k in index ==> r[k].underVpa == (index[k].underVpa && k !in keys)
  {
    map k | k in index :: if k in keys then index[k].MarkNotAutoscaled() else index[k]
  }

  /** The index with the sample forwarded to the aggregation under k, if there is one. */
  function WithSample(index: map<AggregateStateKey, Aggregation>, k: AggregateStateKey, s: UsageSample): (r: map<AggregateStateKey, Aggregation>)
    ensures r.Keys == index.Keys
    ensures k in index ==> r[k].samples == index[k].samples + [s] && r[k].underVpa == index[k].underVpa
    ensures forall j :: j in index && j != k ==> r[j] == index[j]
  {
    if k in index then index[k := index[k].(samples := index[k].samples + [s])] else index
  }

  /**
   * The garbage collector's test: (not contributive and empty) or expired. An
   * expired aggregation and an empty non-contributive one are always
   * obsolete; a contributive one only when it is expired; a non-empty one
   * only when it is expired.
   */
  predicate Obsolete(env: Env, agg: Aggregation, contributive: bool, now: Time)
    ensures env.isExpired(agg, now) ==> Obsolete(env, agg, contributive, now)
    ensures !contributive && env.isEmpty(agg) ==> Obsolete(env, agg, contributive, now)
    ensures contributive ==> (Obsolete(env, agg, contributive, now) <==> env.isExpired(agg, now))
    ensures !env.isEmpty(agg) ==> (Obsolete(env, agg, contributive, now) <==> env.isExpired(agg, now))
  {
    (!contributive && env.isEmpty(agg)) || env.isExpired(agg, now)
  }

  /**
   * The keys a sweep deletes, given the contributive keys: every expired
   * aggregation and every empty non-contributive one, and only aggregations
   * that are expired or empty.
   */
  function ObsoleteKeys(env: Env, index: map<AggregateStateKey, Aggregation>, contributive: set<AggregateStateKey>, now: Time): (r: set<AggregateStateKey>)
    ensures r <= index.Keys
    ensures forall k :: k in index && env.isExpired(index[k], now) ==> k in r
    ensures forall k :: k in index && k !in contributive && env.isEmpty(index[k]) ==> k in r
    ensures forall k :: k in r ==> env.isExpired(index[k], now) || env.isEmpty(index[k])
    ensures forall k :: k in r && k in contributive ==> env.isExpired(index[k], now)
  {
    set k | k in index && Obsolete(env, index[k], k in contributive, now)
  }

  // ---------------------------------------------------------------------------
  // Contributive keys.

  /** Some VPA that matches the pod targets a controller the fetcher finds. */
  ghost predicate SomeControllerFound(env: Env, labelSetMap: map<LabelSetKey, LabelSet>, vpas: map<VpaID, Vpa>, pod: PodState,
                                      fetch: ControllerKey -> Option<ControllerKey>) {
    exists id :: id in vpas && PodMatchesVpa(env, labelSetMap, pod, vpas[id]) && fetch(ControllerOf(vpas[id])).Some?
  }

  /** Some VPA matches the pod, and every VPA that does targets a controller the fetcher finds. */
  ghost predicate EveryControllerFound(env: Env, labelSetMap: map<LabelSetKey, LabelSet>, vpas: map<VpaID, Vpa>, pod: PodState,
                                       fetch: ControllerKey -> Option<ControllerKey>) {
    && (exists id :: id in vpas && PodMatchesVpa(env, labelSetMap, pod, vpas[id]))
    && (forall id :: id in vpas && PodMatchesVpa(env, labelSetMap, pod, vpas[id]) ==> fetch(ControllerOf(vpas[id])).Some?)
  }

  /** The container keys of the given pods. */
  ghost function KeysOfPods(pods: map<PodID, PodState>, ids: set<PodID>): set<AggregateStateKey> {
    set id, c | id in ids && id in pods && c in pods[id].containers :: MakeAggregateStateKey(pods[id], c)
  }

  /**
   * The pods that are contributive whichever matching VPA is taken as the
   * controlling one: active, or every matching VPA's controller exists.
   */
  ghost function SurelyContributive(env: Env, labelSetMap: map<LabelSetKey, LabelSet>, pods: map<PodID, PodState>, vpas: map<VpaID, Vpa>,
                                    fetch: ControllerKey -> Option<ControllerKey>): set<PodID> {
    set id | id in pods && (PodActive(pods[id]) || EveryControllerFound(env, labelSetMap, vpas, pods[id], fetch))
  }

  /**
   * The pods that are contributive for some choice of the controlling VPA:
   * active, or some matching VPA's controller exists.
   */
  ghost function PossiblyContributive(env: Env, labelSetMap: map<LabelSetKey, LabelSet>, pods: map<PodID, PodState>, vpas: map<VpaID, Vpa>,
                                      fetch: ControllerKey -> Option<ControllerKey>): set<PodID> {
    set id | id in pods && (PodActive(pods[id]) || SomeControllerFound(env, labelSetMap, vpas, pods[id], fetch))
  }

  // ---------------------------------------------------------------------------
  // Pod counts.

  /**
   * Putting a pod under its ID changes the number of pods matching a VPA by
   * minus one if the pod it replaces matched, plus one if the new pod matches.
   */
  lemma MatchingPodsAfterPut(env: Env, labelSetMap: map<LabelSetKey, LabelSet>, pods: map<PodID, PodState>, id: PodID, pod: PodState, vpa: Vpa)
    requires pod.id == id && (id in pods ==> pods[id].id == id)
    ensures |MatchingPods(env, labelSetMap, pods[id := pod], vpa)|
         == |MatchingPods(env, labelSetMap, pods, vpa)|
            - (if id in pods && PodMatchesVpa(env, labelSetMap, pods[id], vpa) then 1 else 0)
            + (if PodMatchesVpa(env, labelSetMap, pod, vpa) then 1 else 0)
  {
    var before := MatchingPods(env, labelSetMap, pods, vpa);
    var after := MatchingPods(env, labelSetMap, pods[id := pod], vpa);
    assert after - {id} == before - {id};
    CardinalityAfterSwap(before, after, id);
  }

  /** Two sets that agree except on x differ in size by whether each holds x. */
  lemma CardinalityAfterSwap<T>(before: set<T>, after: set<T>, x: T)
    requires after - {x} == before - {x}
    ensures |after| == |before| - (if x in before then 1 else 0) + (if x in after then 1 else 0)
  {
    var common := before - {x};
    if x in before {
      assert before == common + {x};
      assert |before| == |common| + 1;
    } else {
      assert before == common;
    }
    if x in after {
      assert after == common + {x};
      assert |after| == |common| + 1;
    } else {
      assert after == common;
    }
  }

  /** Deleting a pod lowers the number of pods matching a VPA by one exactly when the pod matched. */
  lemma MatchingPodsAfterDelete(env: Env, labelSetMap: map<LabelSetKey, LabelSet>, pods: map<PodID, PodState>, id: PodID, vpa: Vpa)
    requires id in pods ==> pods[id].id == id
    ensures |MatchingPods(env, labelSetMap, pods - {id}, vpa)|
         == |MatchingPods(env, labelSetMap, pods, vpa)| - (if id in pods && PodMatchesVpa(env, labelSetMap, pods[id], vpa) then 1 else 0)
  {
    var before := MatchingPods(env, labelSetMap, pods, vpa);
    var after := MatchingPods(env, labelSetMap, pods - {id}, vpa);
    assert after == before - {id};
    if id in before {
      assert before == after + {id};
    }
  }

  /** Replacing a pod by one with the same label handle leaves the matching pods as they are. */
  lemma MatchingPodsSameLabels(env: Env, labelSetMap: map<LabelSetKey, LabelSet>, pods: map<PodID, PodState>, id: PodID, pod: PodState, vpa: Vpa)
    requires id in pods && pods[id].labelSetKey == pod.labelSetKey
    ensures MatchingPods(env, labelSetMap, pods[id := pod], vpa) == MatchingPods(env, labelSetMap, pods, vpa)
  {
  }

  /**
   * Growing the interner changes no match of a pod or key whose label handle
   * was already interned.
   */
  lemma MatchingUnderInternerGrowth(env: Env, before: map<LabelSetKey, LabelSet>, after: map<LabelSetKey, LabelSet>,
                                    pods: map<PodID, PodState>, keys: set<AggregateStateKey>, vpa: Vpa)
    requires InternerExtends(before, after)
    requires forall id :: id in pods ==> pods[id].labelSetKey in before
    requires KeysInterned(before, keys)
    ensures MatchingPods(env, after, pods, vpa) == MatchingPods(env, before, pods, vpa)
    ensures MatchingKeys(env, after, keys, vpa) == MatchingKeys(env, before, keys, vpa)
  {
  }

  /** A pod that is counted by a VPA has its container keys linked by it, and otherwise none of them. */
  lemma CountedPodsKeysLinked(env: Env, labelSetMap: map<LabelSetKey, LabelSet>, index: map<AggregateStateKey, Aggregation>,
                              vpas: map<VpaID, Vpa>, pod: PodState, id: VpaID)
    requires LinksExact(env, labelSetMap, index.Keys, vpas)
    requires id in vpas
    ensures PodMatchesVpa(env, labelSetMap, pod, vpas[id]) ==> ContainerKeys(pod) * index.Keys <= vpas[id].links
    ensures !PodMatchesVpa(env, labelSetMap, pod, vpas[id]) ==> ContainerKeys(pod) !! vpas[id].links
  {
    forall k | k in ContainerKeys(pod)
      ensures VpaMatchesKey(env, labelSetMap, vpas[id], k) == PodMatchesVpa(env, labelSetMap, pod, vpas[id])
    {
      var c :| c in pod.containers && k == MakeAggregateStateKey(pod, c);
      PodMatchesIffKeyMatches(env, labelSetMap, pod, c, vpas[id]);
    }
  }

  /** What a VPA matches depends only on its namespace and selector. */
  lemma MatchingDependsOnSelector(env: Env, labelSetMap: map<LabelSetKey, LabelSet>, pods: map<PodID, PodState>,
                                  keys: set<AggregateStateKey>, v: Vpa, w: Vpa)
    requires v.id.namespace == w.id.namespace && v.selector == w.selector
    ensures MatchingPods(env, labelSetMap, pods, v) == MatchingPods(env, labelSetMap, pods, w)
    ensures MatchingKeys(env, labelSetMap, keys, v) == MatchingKeys(env, labelSetMap, keys, w)
  {
  }

  /** The container keys of the given containers of a pod. */
  function KeysOfContainers(pod: PodState, names: set<string>): set<AggregateStateKey> {
    set c | c in names && c in pod.containers :: MakeAggregateStateKey(pod, c)
  }

  /** The keys of one more container. */
  lemma KeysOfContainersAdd(pod: PodState, names: set<string>, name: string)
    requires name in pod.containers
    ensures KeysOfContainers(pod, names + {name}) == KeysOfContainers(pod, names) + {MakeAggregateStateKey(pod, name)}
  {
  }

  /** The keys of all containers. */
  lemma KeysOfAllContainers(pod: PodState)
    ensures KeysOfContainers(pod, pod.containers.Keys) == ContainerKeys(pod)
  {
  }

  /** A second write under a key replaces the first. */
  lemma PutTwice<K, V>(m: map<K, V>, k: K, a: V, b: V)
    ensures m[k := a][k := b] == m[k := b]
  {
  }

  /** What grew in two steps is what grew in the first step and what grew in the second. */
  lemma GrowthInTwoSteps<T>(a: set<T>, b: set<T>, c: set<T>)
    requires a <= b <= c
    ensures (b - a) + (c - b) == c - a
  {
  }

  // ---------------------------------------------------------------------------
  // Links.

  /** Adding a key to the index and linking it into the VPAs that match it keeps the links exact. */
  lemma LinksAfterCreate(env: Env, labelSetMap: map<LabelSetKey, LabelSet>, keys: set<AggregateStateKey>, vpas: map<VpaID, Vpa>, k: AggregateStateKey)
    requires LinksExact(env, labelSetMap, keys, vpas)
    ensures LinksExact(env, labelSetMap, keys + {k}, LinkIfMatching(env, labelSetMap, vpas, k))
  {
    var after := LinkIfMatching(env, labelSetMap, vpas, k);
    forall id | id in after
      ensures after[id].links == MatchingKeys(env, labelSetMap, keys + {k}, after[id])
    {
      assert MatchingKeys(env, labelSetMap, keys + {k}, after[id])
          == MatchingKeys(env, labelSetMap, keys, vpas[id]) + (if VpaMatchesKey(env, labelSetMap, vpas[id], k) then {k} else {});
    }
  }

  /** Linking no keys changes nothing. */
  lemma LinkMatchingNothing(env: Env, labelSetMap: map<LabelSetKey, LabelSet>, vpas: map<VpaID, Vpa>)
    ensures LinkMatching(env, labelSetMap, vpas, {}) == vpas
  {
    var after := LinkMatching(env, labelSetMap, vpas, {});
    forall id | id in vpas ensures after[id] == vpas[id] {
      assert MatchingKeys(env, labelSetMap, {}, vpas[id]) == {};
    }
  }

  /** One VPA linked to two sets of keys in turn is linked to both. */
  lemma LinkTwice(env: Env, labelSetMap: map<LabelSetKey, LabelSet>, v: Vpa, a: set<AggregateStateKey>, b: set<AggregateStateKey>)
    ensures LinkVpa(env, labelSetMap, LinkVpa(env, labelSetMap, v, a), b) == LinkVpa(env, labelSetMap, v, a + b)
  {
    var w := LinkVpa(env, labelSetMap, v, a);
    assert MatchingKeys(env, labelSetMap, b, w) == MatchingKeys(env, labelSetMap, b, v);
    assert MatchingKeys(env, labelSetMap, a + b, v) == MatchingKeys(env, labelSetMap, a, v) + MatchingKeys(env, labelSetMap, b, v);
  }

  /** Linking two sets of keys in turn links both. */
  lemma LinkMatchingTwice(env: Env, labelSetMap: map<LabelSetKey, LabelSet>, vpas: map<VpaID, Vpa>, a: set<AggregateStateKey>, b: set<AggregateStateKey>)
    ensures LinkMatching(env, labelSetMap, LinkMatching(env, labelSetMap, vpas, a), b) == LinkMatching(env, labelSetMap, vpas, a + b)
  {
    var mid := LinkMatching(env, labelSetMap, vpas, a);
    var lhs := LinkMatching(env, labelSetMap, mid, b);
    var rhs := LinkMatching(env, labelSetMap, vpas, a + b);
    forall id | id in vpas ensures lhs[id] == rhs[id] {
      assert lhs[id] == LinkVpa(env, labelSetMap, mid[id], b);
      LinkTwice(env, labelSetMap, vpas[id], a, b);
    }
  }

  /** Linking the key the index lacked is LinkIfMatching. */
  lemma LinkMatchingOne(env: Env, labelSetMap: map<LabelSetKey, LabelSet>, vpas: map<VpaID, Vpa>, k: AggregateStateKey)
    ensures LinkMatching(env, labelSetMap, vpas, {k}) == LinkIfMatching(env, labelSetMap, vpas, k)
  {
    var lhs := LinkMatching(env, labelSetMap, vpas, {k});
    var rhs := LinkIfMatching(env, labelSetMap, vpas, k);
    forall id | id in vpas ensures lhs[id] == rhs[id] {
      assert MatchingKeys(env, labelSetMap, {k}, vpas[id]) == if VpaMatchesKey(env, labelSetMap, vpas[id], k) then {k} else {};
    }
  }

  /** Adding keys to the index and linking them into the VPAs that match them keeps the links exact. */
  lemma LinksAfterLinkMatching(env: Env, labelSetMap: map<LabelSetKey, LabelSet>, keys: set<AggregateStateKey>, vpas: map<VpaID, Vpa>,
                               ks: set<AggregateStateKey>)
    requires LinksExact(env, labelSetMap, keys, vpas)
    ensures LinksExact(env, labelSetMap, keys + ks, LinkMatching(env, labelSetMap, vpas, ks))
  {
    var after := LinkMatching(env, labelSetMap, vpas, ks);
    forall id | id in after
      ensures after[id].links == MatchingKeys(env, labelSetMap, keys + ks, after[id])
    {
      assert MatchingKeys(env, labelSetMap, keys + ks, after[id])
          == MatchingKeys(env, labelSetMap, keys, vpas[id]) + MatchingKeys(env, labelSetMap, ks, vpas[id]);
    }
  }

  /** Removing keys from the index and from every VPA keeps the links exact. */
  lemma LinksAfterUnlink(env: Env, labelSetMap: map<LabelSetKey, LabelSet>, keys: set<AggregateStateKey>, vpas: map<VpaID, Vpa>, dead: set<AggregateStateKey>)
    requires LinksExact(env, labelSetMap, keys, vpas)
    ensures LinksExact(env, labelSetMap, keys - dead, Unlink(vpas, dead))
  {
    var after := Unlink(vpas, dead);
    forall id | id in after
      ensures after[id].links == MatchingKeys(env, labelSetMap, keys - dead, after[id])
    {
      assert MatchingKeys(env, labelSetMap, keys - dead, after[id]) == MatchingKeys(env, labelSetMap, keys, vpas[id]) - dead;
    }
  }

  // ---------------------------------------------------------------------------
  // Garbage collection.

  /**
   * Whatever contributive set the sweep computes between the surely and the
   * possibly contributive keys: a key of a surely contributive pod is deleted
   * only when expired, and an empty key of no possibly contributive pod is
   * deleted.
   */
  lemma SweepSafety(env: Env, index: map<AggregateStateKey, Aggregation>, contributive: set<AggregateStateKey>,
                    surely: set<AggregateStateKey>, possibly: set<AggregateStateKey>, now: Time, k: AggregateStateKey)
    requires surely <= contributive <= possibly
    requires k in index
    ensures k in surely && !env.isExpired(index[k], now) ==> k !in ObsoleteKeys(env, index, contributive, now)
    ensures k !in possibly && env.isEmpty(index[k]) ==> k in ObsoleteKeys(env, index, contributive, now)
    ensures env.isExpired(index[k], now) ==> k in ObsoleteKeys(env, index, contributive, now)
  {
  }

  /** Taking more pods gives more keys. */
  lemma KeysOfPodsMonotone(pods: map<PodID, PodState>, ids: set<PodID>, more: set<PodID>)
    requires ids <= more
    ensures KeysOfPods(pods, ids) <= KeysOfPods(pods, more)
  {
  }

  /** The keys of one more pod are the keys so far plus that pod's container keys. */
  lemma KeysOfPodsAdd(pods: map<PodID, PodState>, ids: set<PodID>, id: PodID)
    requires id in pods
    ensures KeysOfPods(pods, ids + {id}) == KeysOfPods(pods, ids) + ContainerKeys(pods[id])
  {
    var lhs := KeysOfPods(pods, ids + {id});
    var rhs := KeysOfPods(pods, ids) + ContainerKeys(pods[id]);
    forall k | k in rhs ensures k in lhs {
      if k in ContainerKeys(pods[id]) {
        var c :| c in pods[id].containers && k == MakeAggregateStateKey(pods[id], c);
        assert k in lhs;
      }
    }
  }

  /**
   * When every pod matches at most one VPA, the controlling VPA is unique and
   * the contributive pods are determined.
   */
  lemma ContributiveDeterminedByDisjointSelectors(env: Env, labelSetMap: map<LabelSetKey, LabelSet>, pods: map<PodID, PodState>,
                                                  vpas: map<VpaID, Vpa>, fetch: ControllerKey -> Option<ControllerKey>)
    requires forall p, v1, v2 ::
               (p in pods && v1 in vpas && v2 in vpas
                && PodMatchesVpa(env, labelSetMap, pods[p], vpas[v1]) && PodMatchesVpa(env, labelSetMap, pods[p], vpas[v2])) ==> v1 == v2
    ensures SurelyContributive(env, labelSetMap, pods, vpas, fetch) == PossiblyContributive(env, labelSetMap, pods, vpas, fetch)
  {
    forall p | p in pods && SomeControllerFound(env, labelSetMap, vpas, pods[p], fetch)
      ensures EveryControllerFound(env, labelSetMap, vpas, pods[p], fetch)
    {
      var v :| v in vpas && PodMatchesVpa(env, labelSetMap, pods[p], vpas[v]) && fetch(ControllerOf(vpas[v])).Some?;
      forall w | w in vpas && PodMatchesVpa(env, labelSetMap, pods[p], vpas[w])
        ensures fetch(ControllerOf(vpas[w])).Some?
      {
        assert w == v;
      }
    }
  }
  // ---------------------------------------------------------------------------
  // Containers and VPA objects.

  /** The named container pointed directly at the key of its pod's current labels. */
  function RelinkOne(pod: PodState, name: string): (p: PodState)
    requires name in pod.containers
    ensures p.id == pod.id && p.labelSetKey == pod.labelSetKey && p.phase == pod.phase
    ensures p.containers.Keys == pod.containers.Keys
    ensures p.containers[name].aggregator == MakeAggregateStateKey(pod, name) && !p.containers[name].viaProxy
    ensures p.containers[name].request == pod.containers[name].request && p.containers[name].samples == pod.containers[name].samples
    ensures forall n :: n in pod.containers && n != name ==> p.containers[n] == pod.containers[n]
  {
    pod.(containers := pod.containers[name := pod.containers[name].(aggregator := MakeAggregateStateKey(pod, name), viaProxy := false)])
  }

  /** The pod with every container except the named ones pointed directly at the key of its current labels. */
  function RelinkedExcept(pod: PodState, names: set<string>): (p: PodState)
    ensures p.id == pod.id && p.labelSetKey == pod.labelSetKey && p.phase == pod.phase
    ensures p.containers.Keys == pod.containers.Keys
    ensures forall c :: c in pod.containers && c in names ==> p.containers[c] == pod.containers[c]
    ensures forall c :: c in pod.containers && c !in names ==>
      p.containers[c].aggregator == MakeAggregateStateKey(pod, c) && !p.containers[c].viaProxy &&
      p.containers[c].request == pod.containers[c].request && p.containers[c].samples == pod.containers[c].samples
  {
    pod.(containers := map c | c in pod.containers ::
      if c in names then pod.containers[c]
      else pod.containers[c].(aggregator := MakeAggregateStateKey(pod, c), viaProxy := false))
  }

  /** A pod whose containers are all pointed directly at the key of their current labels. */
  function Relinked(pod: PodState): (p: PodState)
    ensures p.id == pod.id && p.labelSetKey == pod.labelSetKey && p.phase == pod.phase
    ensures p.containers.Keys == pod.containers.Keys
    ensures ContainersCurrent(p)
    ensures forall c :: c in p.containers ==>
      !p.containers[c].viaProxy && p.containers[c].request == pod.containers[c].request && p.containers[c].samples == pod.containers[c].samples
  {
    RelinkedExcept(pod, {})
  }

  /** Relinking nothing leaves the pod as it is. */
  lemma RelinkedExceptAll(pod: PodState)
    ensures RelinkedExcept(pod, pod.containers.Keys) == pod
  {
    assert RelinkedExcept(pod, pod.containers.Keys).containers == pod.containers;
  }

  /** Relinking one more container. */
  lemma RelinkedExceptStep(pod: PodState, names: set<string>, name: string)
    requires name in names && name in pod.containers
    ensures RelinkOne(RelinkedExcept(pod, names), name) == RelinkedExcept(pod, names - {name})
  {
    assert RelinkOne(RelinkedExcept(pod, names), name).containers == RelinkedExcept(pod, names - {name}).containers;
  }

  /**
   * The conditions of a VPA object keyed by type; a later condition of a
   * type replaces an earlier one.
   */
  function LatestConditions(conditions: seq<Condition>): map<string, Condition>
    decreases |conditions|
  {
    if conditions == [] then map[]
    else
      var last := conditions[|conditions| - 1];
      LatestConditions(conditions[..|conditions| - 1])[last.condType := last]
  }

  /** The recommendation a VPA keeps: the object's, when RecommendationProvided is True, else none. */
  function RecommendationFrom(obj: VpaObject, conditions: map<string, Condition>): (r: Option<RecommendedPodResources>)
    ensures r.Some? ==> r == obj.recommendation
    ensures r.Some? ==> RecommendationProvided in conditions && conditions[RecommendationProvided].status == ConditionTrue
    ensures RecommendationProvided in conditions && conditions[RecommendationProvided].status == ConditionTrue ==> r == obj.recommendation
  {
    if RecommendationProvided in conditions && conditions[RecommendationProvided].status == ConditionTrue then obj.recommendation else None
  }

  /** A VPA with the fields AddOrUpdateVpa always refreshes taken from the object. */
  function Refreshed(vpa: Vpa, obj: VpaObject, conditions: map<string, Condition>): (v: Vpa)
    ensures v.id == vpa.id && v.selector == vpa.selector && v.links == vpa.links && v.podCount == vpa.podCount
    ensures v.created == vpa.created
    ensures v.targetRef == obj.targetRef && v.annotations == obj.annotations && v.conditions == conditions
    ensures v.recommendation == RecommendationFrom(obj, conditions)
    ensures v.updatePolicy == obj.updatePolicy && v.resourcePolicy == obj.resourcePolicy && v.apiVersion == obj.apiVersion
  {
    vpa.(targetRef := obj.targetRef, annotations := obj.annotations, conditions := conditions,
         recommendation := RecommendationFrom(obj, conditions),
         updatePolicy := obj.updatePolicy, resourcePolicy := obj.resourcePolicy, apiVersion := obj.apiVersion)
  }

  /**
   * The VPA AddOrUpdateVpa creates: NewVpa, linked to every key of the index
   * that matches it and counting every pod that matches it.
   */
  function CreatedVpa(env: Env, labelSetMap: map<LabelSetKey, LabelSet>, pods: map<PodID, PodState>, keys: set<AggregateStateKey>,
                      id: VpaID, selector: Selector, created: Time): (v: Vpa)
    ensures v.id == id && v.selector == selector && v.created == created
    ensures v.links == MatchingKeys(env, labelSetMap, keys, v)
    ensures v.podCount == |MatchingPods(env, labelSetMap, pods, v)|
  {
    var v0 := NewVpa(id, selector, created);
    var v := LinkVpa(env, labelSetMap, v0, keys).(podCount := |MatchingPods(env, labelSetMap, pods, v0)|);
    MatchingDependsOnSelector(env, labelSetMap, pods, keys, v, v0);
    v
  }

  /** LatestConditions holds a type exactly when some condition of the object has it. */
  lemma {:induction false} LatestConditionsTypes(conditions: seq<Condition>, t: string)
    ensures t in LatestConditions(conditions) <==> exists i :: 0 <= i < |conditions| && conditions[i].condType == t
    decreases |conditions|
  {
    if conditions != [] {
      var n := |conditions| - 1;
      var prefix := conditions[..n];
      LatestConditionsTypes(prefix, t);
      if t != conditions[n].condType && t in LatestConditions(conditions) {
        var i :| 0 <= i < |prefix| && prefix[i].condType == t;
        assert conditions[i].condType == t;
      }
      if exists i :: 0 <= i < |conditions| && conditions[i].condType == t {
        var i :| 0 <= i < |conditions| && conditions[i].condType == t;
        if i < n {
          assert prefix[i].condType == t;
        }
      }
    }
  }

  /** Under the type of a condition that no later condition shares, LatestConditions holds that condition. */
  lemma {:induction false} LatestConditionsLastWins(conditions: seq<Condition>, i: nat)
    requires i < |conditions|
    requires forall j :: i < j < |conditions| ==> conditions[j].condType != conditions[i].condType
    ensures conditions[i].condType in LatestConditions(conditions)
    ensures LatestConditions(conditions)[conditions[i].condType] == conditions[i]
    decreases |conditions|
  {
    var n := |conditions| - 1;
    if i < n {
      var prefix := conditions[..n];
      assert prefix[i] == conditions[i];
      forall j | i < j < |prefix| ensures prefix[j].condType != prefix[i].condType {
        assert prefix[j] == conditions[j];
      }
      LatestConditionsLastWins(prefix, i);
    }
  }

  /**
   * The recommendation a VPA keeps follows the last RecommendationProvided
   * condition of the object: the object's recommendation when its status is
   * True, none otherwise.
   */
  lemma RecommendationFollowsLastProvided(obj: VpaObject, i: nat)
    requires i < |obj.conditions| && obj.conditions[i].condType == RecommendationProvided
    requires forall j :: i < j < |obj.conditions| ==> obj.conditions[j].condType != RecommendationProvided
    ensures RecommendationFrom(obj, LatestConditions(obj.conditions))
         == if obj.conditions[i].status == ConditionTrue then obj.recommendation else None
  {
    LatestConditionsLastWins(obj.conditions, i);
  }

  /** An object without a RecommendationProvided condition gives no recommendation. */
  lemma NoRecommendationWithoutProvided(obj: VpaObject)
    requires forall i :: 0 <= i < |obj.conditions| ==> obj.conditions[i].condType != RecommendationProvided
    ensures RecommendationFrom(obj, LatestConditions(obj.conditions)) == None
  {
    LatestConditionsTypes(obj.conditions, RecommendationProvided);
  }

  /** One key: the index as it was if it has the key, else with a fresh aggregation under it. */
  lemma EnsureAggregationsOne(env: Env, labelSetMap: map<LabelSetKey, LabelSet>, vpas: map<VpaID, Vpa>,
                              index: map<AggregateStateKey, Aggregation>, k: AggregateStateKey)
    ensures EnsureAggregations(env, labelSetMap, vpas, index, {k})
         == if k in index then index else index[k := FreshAggregation(env, labelSetMap, vpas, k)]
  {
    var e := EnsureAggregations(env, labelSetMap, vpas, index, {k});
    if k in index {
      assert e.Keys == index.Keys;
    } else {
      assert e.Keys == index.Keys + {k};
    }
  }

  /**
   * removePodFromItsVpa undoes addPodToItsVpa for the same pod, and the other
   * way round: moving counts does not change which VPAs the pod matches.
   */
  lemma ShiftPodCountsInverse(env: Env, labelSetMap: map<LabelSetKey, LabelSet>, vpas: map<VpaID, Vpa>, pod: PodState, delta: int)
    ensures ShiftPodCounts(env, labelSetMap, ShiftPodCounts(env, labelSetMap, vpas, pod, delta), pod, -delta) == vpas
  {
    var shifted := ShiftPodCounts(env, labelSetMap, vpas, pod, delta);
    forall id | id in vpas
      ensures ShiftVpa(env, labelSetMap, shifted[id], pod, -delta) == vpas[id]
    {
      assert PodMatchesVpa(env, labelSetMap, pod, shifted[id]) == PodMatchesVpa(env, labelSetMap, pod, vpas[id]);
    }
  }

  /** Removing a key and then storing under it is storing under it. */
  lemma RemoveThenPut<K, V>(m: map<K, V>, k: K, v: V)
    ensures (m - {k})[k := v] == m[k := v]
  {
  }

  /** Removing two sets of keys from a map one after the other removes their union. */
  lemma RemoveKeysTwice<K, V>(m: map<K, V>, a: set<K>, b: set<K>)
    ensures (m - a) - b == m - (a + b)
  {
    assert ((m - a) - b).Keys == (m - (a + b)).Keys;
  }

  /** Unlinking no keys changes nothing. */
  lemma UnlinkNothing(vpas: map<VpaID, Vpa>)
    ensures Unlink(vpas, {}) == vpas
  {
    forall id | id in vpas ensures Unlink(vpas, {})[id] == vpas[id] {
      assert vpas[id].links - {} == vpas[id].links;
    }
  }

  /** Unlinking two sets of keys one after the other unlinks their union. */
  lemma UnlinkTwice(vpas: map<VpaID, Vpa>, a: set<AggregateStateKey>, b: set<AggregateStateKey>)
    ensures Unlink(Unlink(vpas, a), b) == Unlink(vpas, a + b)
  {
    var lhs, rhs := Unlink(Unlink(vpas, a), b), Unlink(vpas, a + b);
    forall id | id in vpas ensures lhs[id] == rhs[id] {
      assert lhs[id].links == rhs[id].links;
    }
  }

  /** Ensuring no keys leaves the index as it is. */
  lemma EnsureAggregationsNothing(env: Env, labelSetMap: map<LabelSetKey, LabelSet>, vpas: map<VpaID, Vpa>,
                                  index: map<AggregateStateKey, Aggregation>)
    ensures EnsureAggregations(env, labelSetMap, vpas, index, {}) == index
  {
    assert EnsureAggregations(env, labelSetMap, vpas, index, {}).Keys == index.Keys;
  }

  /** Adding keys one batch at a time adds them all. */
  lemma EnsureAggregationsAdd(env: Env, labelSetMap: map<LabelSetKey, LabelSet>, vpas: map<VpaID, Vpa>,
                              index: map<AggregateStateKey, Aggregation>, keys: set<AggregateStateKey>, k: AggregateStateKey)
    ensures EnsureAggregations(env, labelSetMap, vpas, EnsureAggregations(env, labelSetMap, vpas, index, keys), {k})
         == EnsureAggregations(env, labelSetMap, vpas, index, keys + {k})
  {
  }

  /** The VPAs have the same IDs, namespaces and selectors: they match the same keys and pods. */
  ghost predicate SameSelectors(vpas: map<VpaID, Vpa>, vpas2: map<VpaID, Vpa>) {
    && vpas2.Keys == vpas.Keys
    && forall id :: id in vpas ==> vpas2[id].id.namespace == vpas[id].id.namespace && vpas2[id].selector == vpas[id].selector
  }

  /**
   * Fresh aggregations depend on the VPAs only through their selectors:
   * linking keys or moving pod counts does not change them.
   */
  lemma EnsureAggregationsSameSelectors(env: Env, labelSetMap: map<LabelSetKey, LabelSet>, vpas: map<VpaID, Vpa>, vpas2: map<VpaID, Vpa>,
                                        index: map<AggregateStateKey, Aggregation>, keys: set<AggregateStateKey>)
    requires SameSelectors(vpas, vpas2)
    ensures EnsureAggregations(env, labelSetMap, vpas2, index, keys) == EnsureAggregations(env, labelSetMap, vpas, index, keys)
  {
    forall k ensures MatchedBySomeVpa(env, labelSetMap, vpas2, k) == MatchedBySomeVpa(env, labelSetMap, vpas, k) {
      if MatchedBySomeVpa(env, labelSetMap, vpas, k) {
        var id :| id in vpas && VpaMatchesKey(env, labelSetMap, vpas[id], k);
        assert VpaMatchesKey(env, labelSetMap, vpas2[id], k);
      }
      if MatchedBySomeVpa(env, labelSetMap, vpas2, k) {
        var id :| id in vpas2 && VpaMatchesKey(env, labelSetMap, vpas2[id], k);
        assert VpaMatchesKey(env, labelSetMap, vpas[id], k);
      }
    }
  }

  /** Linking keys keeps every VPA's selector. */
  lemma LinkMatchingSameSelectors(env: Env, labelSetMap: map<LabelSetKey, LabelSet>, vpas: map<VpaID, Vpa>, ks: set<AggregateStateKey>)
    ensures SameSelectors(vpas, LinkMatching(env, labelSetMap, vpas, ks))
  {
  }

  /** Moving pod counts keeps every VPA's selector. */
  lemma ShiftSameSelectors(env: Env, labelSetMap: map<LabelSetKey, LabelSet>, vpas: map<VpaID, Vpa>, pod: PodState, delta: int)
    ensures SameSelectors(vpas, ShiftPodCounts(env, labelSetMap, vpas, pod, delta))
  {
  }

  /** Offering the key to one more VPA: some offered VPA matches it exactly when one did before or the new one does. */
  lemma MatchedOneMore(env: Env, labelSetMap: map<LabelSetKey, LabelSet>, vpas: map<VpaID, Vpa>, todo: set<VpaID>, id: VpaID, k: AggregateStateKey)
    requires id in todo && id in vpas
    ensures MatchedBySomeVpa(env, labelSetMap, vpas - (todo - {id}), k)
        <==> MatchedBySomeVpa(env, labelSetMap, vpas - todo, k) || VpaMatchesKey(env, labelSetMap, vpas[id], k)
  {
    var before, after := vpas - todo, vpas - (todo - {id});
    if MatchedBySomeVpa(env, labelSetMap, after, k) {
      var j :| j in after && VpaMatchesKey(env, labelSetMap, after[j], k);
      if j != id {
        assert j in before;
      }
    }
    if VpaMatchesKey(env, labelSetMap, vpas[id], k) {
      assert id in after;
    }
    if MatchedBySomeVpa(env, labelSetMap, before, k) {
      var j :| j in before && VpaMatchesKey(env, labelSetMap, before[j], k);
      assert j in after;
    }
  }

  /**
   * A fresh aggregation whose key no VPA linked yet is under a VPA exactly
   * when, once every VPA has been offered the key, some VPA links it.
   */
  lemma FreshUnderVpaIffLinked(env: Env, labelSetMap: map<LabelSetKey, LabelSet>, vpas: map<VpaID, Vpa>, k: AggregateStateKey)
    requires forall id :: id in vpas ==> k !in vpas[id].links
    ensures var linked := LinkIfMatching(env, labelSetMap, vpas, k);
      FreshAggregation(env, labelSetMap, vpas, k).underVpa <==> exists id :: id in linked && k in linked[id].links
  {
    var linked := LinkIfMatching(env, labelSetMap, vpas, k);
    if MatchedBySomeVpa(env, labelSetMap, vpas, k) {
      var id :| id in vpas && VpaMatchesKey(env, labelSetMap, vpas[id], k);
      assert k in linked[id].links;
    }
    if exists id :: id in linked && k in linked[id].links {
      var id :| id in linked && k in linked[id].links;
      assert VpaMatchesKey(env, labelSetMap, vpas[id], k);
    }
  }
}
