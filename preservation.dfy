/**
 * Lemmas that each operation of the cluster state keeps its invariants,
 * stated over the maps before and after the operation.
 */
module Preservation {
  import opened Model
  import opened ClusterSpec

  // ---------------------------------------------------------------------------
  // Small steps.

  /** Growing the interner keeps every invariant. */
  lemma InternerGrowthValid(env: Env, before: map<LabelSetKey, LabelSet>, after: map<LabelSetKey, LabelSet>,
                            pods: map<PodID, PodState>, index: map<AggregateStateKey, Aggregation>, vpas: map<VpaID, Vpa>)
    requires StateValid(env, before, pods, index, vpas)
    requires InternerSound(env, after) && InternerExtends(before, after)
    ensures StateValid(env, after, pods, index, vpas)
  {
    forall id | id in vpas
      ensures MatchingPods(env, after, pods, vpas[id]) == MatchingPods(env, before, pods, vpas[id])
      ensures MatchingKeys(env, after, index.Keys, vpas[id]) == MatchingKeys(env, before, index.Keys, vpas[id])
    {
      MatchingUnderInternerGrowth(env, before, after, pods, index.Keys, vpas[id]);
    }
  }

  /** Changing the pod counts keeps the links exact. */
  lemma ShiftKeepsLinks(env: Env, labelSetMap: map<LabelSetKey, LabelSet>, keys: set<AggregateStateKey>, vpas: map<VpaID, Vpa>,
                        pod: PodState, delta: int)
    requires LinksExact(env, labelSetMap, keys, vpas)
    ensures LinksExact(env, labelSetMap, keys, ShiftPodCounts(env, labelSetMap, vpas, pod, delta))
  {
    var after := ShiftPodCounts(env, labelSetMap, vpas, pod, delta);
    forall id | id in after
      ensures after[id].links == MatchingKeys(env, labelSetMap, keys, after[id])
    {
      MatchingDependsOnSelector(env, labelSetMap, map[], keys, after[id], vpas[id]);
    }
  }

  // ---------------------------------------------------------------------------
  // AddOrUpdatePod.

  /** A new phase for a known pod keeps every invariant. */
  lemma PhaseChangeValid(env: Env, labelSetMap: map<LabelSetKey, LabelSet>, pods: map<PodID, PodState>,
                         index: map<AggregateStateKey, Aggregation>, vpas: map<VpaID, Vpa>, podID: PodID, phase: PodPhase)
    requires StateValid(env, labelSetMap, pods, index, vpas)
    requires podID in pods
    ensures StateValid(env, labelSetMap, pods[podID := pods[podID].(phase := phase)], index, vpas)
  {
    forall id | id in vpas
      ensures vpas[id].podCount == |MatchingPods(env, labelSetMap, pods[podID := pods[podID].(phase := phase)], vpas[id])|
    {
      MatchingPodsSameLabels(env, labelSetMap, pods, podID, pods[podID].(phase := phase), vpas[id]);
    }
  }

  /** One VPA's pod count after a pod is put in place of another. */
  lemma PutCount(env: Env, labelSetMap: map<LabelSetKey, LabelSet>, pods: map<PodID, PodState>,
                 v0: Vpa, v3: Vpa, podID: PodID, newPod: PodState)
    requires PodsWellFormed(labelSetMap, pods) && newPod.id == podID
    requires v0.podCount == |MatchingPods(env, labelSetMap, pods, v0)|
    requires v3.id == v0.id && v3.selector == v0.selector
    requires v3.podCount == v0.podCount
               - (if podID in pods && PodMatchesVpa(env, labelSetMap, pods[podID], v0) then 1 else 0)
               + (if PodMatchesVpa(env, labelSetMap, newPod, v0) then 1 else 0)
    ensures v3.podCount == |MatchingPods(env, labelSetMap, pods[podID := newPod], v3)|
  {
    MatchingDependsOnSelector(env, labelSetMap, pods, {}, v3, v0);
    MatchingPodsAfterPut(env, labelSetMap, pods, podID, newPod, v3);
  }

  /** The pod counts stay exact through the steps of a relabelling. */
  lemma RelabelCounts(env: Env, labelSetMap: map<LabelSetKey, LabelSet>, pods: map<PodID, PodState>, podID: PodID,
                      pod: PodState, newPod: PodState, index: map<AggregateStateKey, Aggregation>, vpas: map<VpaID, Vpa>,
                      vpas1: map<VpaID, Vpa>, index2: map<AggregateStateKey, Aggregation>, vpas2: map<VpaID, Vpa>, vpas3: map<VpaID, Vpa>)
    requires PodsWellFormed(labelSetMap, pods) && PodCountsExact(env, labelSetMap, pods, vpas)
    requires newPod.id == podID && pod.id == podID && newPod.labelSetKey == pod.labelSetKey
    requires vpas1 == Uncount(env, labelSetMap, vpas, pods, podID)
    requires vpas2 == LinkMatching(env, labelSetMap, vpas1, ContainerKeys(pod) - index.Keys)
    requires vpas3 == ShiftPodCounts(env, labelSetMap, vpas2, Relinked(pod), 1)
    ensures PodCountsExact(env, labelSetMap, pods[podID := newPod], vpas3)
  {
    forall id | id in vpas3
      ensures vpas3[id].podCount == |MatchingPods(env, labelSetMap, pods[podID := newPod], vpas3[id])|
    {
      PutCount(env, labelSetMap, pods, vpas[id], vpas3[id], podID, newPod);
    }
  }

  /** The links stay exact through the steps of a relabelling. */
  lemma RelabelLinks(env: Env, labelSetMap: map<LabelSetKey, LabelSet>, pod: PodState, oldPod: Option<PodState>,
                     index: map<AggregateStateKey, Aggregation>, vpas: map<VpaID, Vpa>,
                     vpas1: map<VpaID, Vpa>, index2: map<AggregateStateKey, Aggregation>, vpas2: map<VpaID, Vpa>, vpas3: map<VpaID, Vpa>)
    requires LinksExact(env, labelSetMap, index.Keys, vpas)
    requires vpas1 == if oldPod.Some? then ShiftPodCounts(env, labelSetMap, vpas, oldPod.value, -1) else vpas
    requires index2.Keys == index.Keys + ContainerKeys(pod)
    requires vpas2 == LinkMatching(env, labelSetMap, vpas1, ContainerKeys(pod) - index.Keys)
    requires vpas3 == ShiftPodCounts(env, labelSetMap, vpas2, Relinked(pod), 1)
    ensures LinksExact(env, labelSetMap, index2.Keys, vpas3)
  {
    if oldPod.Some? {
      ShiftKeepsLinks(env, labelSetMap, index.Keys, vpas, oldPod.value, -1);
    }
    LinksAfterLinkMatching(env, labelSetMap, index.Keys, vpas1, ContainerKeys(pod) - index.Keys);
    assert index.Keys + (ContainerKeys(pod) - index.Keys) == index2.Keys;
    ShiftKeepsLinks(env, labelSetMap, index2.Keys, vpas2, Relinked(pod), 1);
  }

  /**
   * A pod that is new or whose label handle changed: uncounted from the VPAs
   * it matched, its containers relinked to the keys of the new handle (the
   * missing aggregations created and linked), counted by the VPAs it now
   * matches, and its phase set. Every invariant is kept.
   */
  lemma RelabelValid(env: Env, labelSetMap: map<LabelSetKey, LabelSet>, pods: map<PodID, PodState>,
                     index: map<AggregateStateKey, Aggregation>, vpas: map<VpaID, Vpa>,
                     podID: PodID, key: LabelSetKey, phase: PodPhase,
                     vpas1: map<VpaID, Vpa>, index2: map<AggregateStateKey, Aggregation>, vpas2: map<VpaID, Vpa>, vpas3: map<VpaID, Vpa>)
    requires StateValid(env, labelSetMap, pods, index, vpas)
    requires key in labelSetMap
    requires vpas1 == Uncount(env, labelSetMap, vpas, pods, podID)
    requires index2.Keys == index.Keys + ContainerKeys(PodBase(pods, podID).(labelSetKey := key))
    requires vpas2 == LinkMatching(env, labelSetMap, vpas1, ContainerKeys(PodBase(pods, podID).(labelSetKey := key)) - index.Keys)
    requires vpas3 == ShiftPodCounts(env, labelSetMap, vpas2, Relinked(PodBase(pods, podID).(labelSetKey := key)), 1)
    ensures StateValid(env, labelSetMap, pods[podID := Relinked(PodBase(pods, podID).(labelSetKey := key)).(phase := phase)], index2, vpas3)
  {
    var pod := PodBase(pods, podID).(labelSetKey := key);
    var newPod := Relinked(pod).(phase := phase);
    RelabelLinks(env, labelSetMap, pod, if podID in pods then Some(pods[podID]) else None, index, vpas, vpas1, index2, vpas2, vpas3);
    RelabelCounts(env, labelSetMap, pods, podID, pod, newPod, index, vpas, vpas1, index2, vpas2, vpas3);
    assert ContainersCurrent(newPod);
  }

  // ---------------------------------------------------------------------------
  // DeletePod.

  /** One VPA's pod count after a pod is deleted. */
  lemma DeleteCount(env: Env, labelSetMap: map<LabelSetKey, LabelSet>, pods: map<PodID, PodState>, v0: Vpa, v1: Vpa, podID: PodID)
    requires PodsWellFormed(labelSetMap, pods)
    requires v0.podCount == |MatchingPods(env, labelSetMap, pods, v0)|
    requires v1.id == v0.id && v1.selector == v0.selector
    requires v1.podCount == v0.podCount - (if podID in pods && PodMatchesVpa(env, labelSetMap, pods[podID], v0) then 1 else 0)
    ensures v1.podCount == |MatchingPods(env, labelSetMap, pods - {podID}, v1)|
  {
    MatchingDependsOnSelector(env, labelSetMap, pods - {podID}, {}, v1, v0);
    MatchingPodsAfterDelete(env, labelSetMap, pods, podID, v0);
  }

  /** Deleting a pod and uncounting it from the VPAs it matched keeps every invariant. */
  lemma DeletePodValid(env: Env, labelSetMap: map<LabelSetKey, LabelSet>, pods: map<PodID, PodState>,
                       index: map<AggregateStateKey, Aggregation>, vpas: map<VpaID, Vpa>, podID: PodID)
    requires StateValid(env, labelSetMap, pods, index, vpas)
    ensures StateValid(env, labelSetMap, pods - {podID}, index, Uncount(env, labelSetMap, vpas, pods, podID))
  {
    var after := Uncount(env, labelSetMap, vpas, pods, podID);
    if podID in pods {
      ShiftKeepsLinks(env, labelSetMap, index.Keys, vpas, pods[podID], -1);
    }
    forall id | id in after
      ensures after[id].podCount == |MatchingPods(env, labelSetMap, pods - {podID}, after[id])|
    {
      DeleteCount(env, labelSetMap, pods, vpas[id], after[id], podID);
    }
  }

  // ---------------------------------------------------------------------------
  // Containers and samples.

  /**
   * Creating the aggregation of a key whose labels are interned, and linking
   * it into the VPAs that match it, keeps every invariant.
   */
  lemma CreateAggregationValid(env: Env, labelSetMap: map<LabelSetKey, LabelSet>, pods: map<PodID, PodState>,
                               index: map<AggregateStateKey, Aggregation>, vpas: map<VpaID, Vpa>,
                               k: AggregateStateKey, index2: map<AggregateStateKey, Aggregation>)
    requires StateValid(env, labelSetMap, pods, index, vpas)
    requires k.labelSetKey in labelSetMap
    requires index2.Keys == index.Keys + {k}
    ensures StateValid(env, labelSetMap, pods, index2, LinkMatching(env, labelSetMap, vpas, index2.Keys - index.Keys))
  {
    var added := index2.Keys - index.Keys;
    var after := LinkMatching(env, labelSetMap, vpas, added);
    LinksAfterLinkMatching(env, labelSetMap, index.Keys, vpas, added);
    assert index.Keys + added == index2.Keys;
    forall id | id in after
      ensures after[id].podCount == |MatchingPods(env, labelSetMap, pods, after[id])|
    {
      MatchingDependsOnSelector(env, labelSetMap, pods, {}, after[id], vpas[id]);
    }
  }

  /**
   * Storing a container of an existing pod under its current key keeps every
   * invariant: the pod's labels, and so every pod count, are unchanged.
   */
  lemma PutContainerValid(env: Env, labelSetMap: map<LabelSetKey, LabelSet>, pods: map<PodID, PodState>,
                          index: map<AggregateStateKey, Aggregation>, vpas: map<VpaID, Vpa>,
                          podID: PodID, name: string, c: ContainerState)
    requires StateValid(env, labelSetMap, pods, index, vpas)
    requires podID in pods && c.aggregator == MakeAggregateStateKey(pods[podID], name)
    ensures StateValid(env, labelSetMap, pods[podID := PutContainer(pods[podID], name, c)], index, vpas)
  {
    var after := pods[podID := PutContainer(pods[podID], name, c)];
    forall id | id in vpas
      ensures vpas[id].podCount == |MatchingPods(env, labelSetMap, after, vpas[id])|
    {
      MatchingPodsSameLabels(env, labelSetMap, pods, podID, PutContainer(pods[podID], name, c), vpas[id]);
    }
  }

  /** Forwarding a sample to an aggregation keeps every invariant. */
  lemma WithSampleValid(env: Env, labelSetMap: map<LabelSetKey, LabelSet>, pods: map<PodID, PodState>,
                        index: map<AggregateStateKey, Aggregation>, vpas: map<VpaID, Vpa>, k: AggregateStateKey, s: UsageSample)
    requires StateValid(env, labelSetMap, pods, index, vpas)
    ensures StateValid(env, labelSetMap, pods, WithSample(index, k, s), vpas)
  {
  }

  // ---------------------------------------------------------------------------
  // VPAs.

  /** Deleting a VPA and marking aggregations not autoscaled keeps every invariant. */
  lemma DeleteVpaValid(env: Env, labelSetMap: map<LabelSetKey, LabelSet>, pods: map<PodID, PodState>,
                       index: map<AggregateStateKey, Aggregation>, vpas: map<VpaID, Vpa>, id: VpaID, keys: set<AggregateStateKey>)
    requires StateValid(env, labelSetMap, pods, index, vpas)
    ensures StateValid(env, labelSetMap, pods, MarkNotAutoscaled(index, keys), vpas - {id})
  {
  }

  /** Marking aggregations as under a VPA keeps every invariant. */
  lemma MarkUnderVpaValid(env: Env, labelSetMap: map<LabelSetKey, LabelSet>, pods: map<PodID, PodState>,
                          index: map<AggregateStateKey, Aggregation>, vpas: map<VpaID, Vpa>, keys: set<AggregateStateKey>)
    requires StateValid(env, labelSetMap, pods, index, vpas)
    ensures StateValid(env, labelSetMap, pods, MarkUnderVpa(index, keys), vpas)
  {
  }

  /**
   * Storing a VPA under its ID keeps every invariant when it links exactly
   * the index keys that match it and counts exactly the pods that match it.
   */
  lemma PutVpaValid(env: Env, labelSetMap: map<LabelSetKey, LabelSet>, pods: map<PodID, PodState>,
                    index: map<AggregateStateKey, Aggregation>, vpas: map<VpaID, Vpa>, v: Vpa)
    requires StateValid(env, labelSetMap, pods, index, vpas)
    requires v.links == MatchingKeys(env, labelSetMap, index.Keys, v)
    requires v.podCount == |MatchingPods(env, labelSetMap, pods, v)|
    ensures StateValid(env, labelSetMap, pods, index, vpas[v.id := v])
  {
  }

  // ---------------------------------------------------------------------------
  // Garbage collection.

  /** Deleting aggregations and unlinking them from every VPA keeps every invariant. */
  lemma RemoveAggregationsValid(env: Env, labelSetMap: map<LabelSetKey, LabelSet>, pods: map<PodID, PodState>,
                                index: map<AggregateStateKey, Aggregation>, vpas: map<VpaID, Vpa>, dead: set<AggregateStateKey>)
    requires StateValid(env, labelSetMap, pods, index, vpas)
    ensures StateValid(env, labelSetMap, pods, index - dead, Unlink(vpas, dead))
  {
    var after := Unlink(vpas, dead);
    LinksAfterUnlink(env, labelSetMap, index.Keys, vpas, dead);
    assert (index - dead).Keys == index.Keys - dead;
    forall id | id in after
      ensures after[id].podCount == |MatchingPods(env, labelSetMap, pods, after[id])|
    {
      MatchingDependsOnSelector(env, labelSetMap, pods, {}, after[id], vpas[id]);
    }
  }
}
