/**
 * The recommender's cluster state: the pods, VPAs and aggregations of a
 * cluster, kept in maps that the operations update in place, with the
 * invariants that tie them together.
 */
module Cluster {
  import opened Model
  import opened ClusterSpec
  import Staleness
  import opened Preservation

  /** The loop of AddOrUpdateVpa that keys the object's conditions by type. */
  method BuildConditionsMap(conditions: seq<Condition>) returns (m: map<string, Condition>)
    ensures m == LatestConditions(conditions)
  {
    m := map[];
    for i := 0 to |conditions|
      invariant m == LatestConditions(conditions[..i])
    {
      assert conditions[..i + 1][..i] == conditions[..i];
      m := m[conditions[i].condType := conditions[i]];
    }
    assert conditions[..|conditions|] == conditions;
  }

  /**
   * The loop of findOrCreateAggregateContainerState over the VPAs: a new
   * aggregation is offered to every VPA; each VPA that matches the key links
   * it, and marked tells whether one did, so that the aggregation is under a VPA.
   */
  method OfferToVpas(env: Env, labelSetMap: map<LabelSetKey, LabelSet>, vpas: map<VpaID, Vpa>, key: AggregateStateKey)
    returns (offered: map<VpaID, Vpa>, marked: bool)
    ensures offered == LinkIfMatching(env, labelSetMap, vpas, key)
    ensures marked == MatchedBySomeVpa(env, labelSetMap, vpas, key)
  {
    offered, marked := vpas, false;
    var todo := vpas.Keys;
    assert vpas - todo == map[];
    while todo != {}
      invariant todo <= vpas.Keys
      invariant offered.Keys == vpas.Keys
      invariant forall id :: id in vpas ==>
        offered[id] == if id in todo then vpas[id] else LinkKey(env, labelSetMap, vpas[id], key)
      invariant marked == MatchedBySomeVpa(env, labelSetMap, vpas - todo, key)
      decreases todo
    {
      var id :| id in todo;
      MatchedOneMore(env, labelSetMap, vpas, todo, id, key);
      if VpaMatchesKey(env, labelSetMap, offered[id], key) {
        offered := offered[id := offered[id].(links := offered[id].links + {key})];
        marked := true;
      }
      todo := todo - {id};
    }
    assert vpas - {} == vpas;
  }

  class ClusterState {
    /** Pods in the cluster. */
    var pods: map<PodID, PodState>
    /** VPA objects in the cluster. */
    var vpas: map<VpaID, Vpa>
    /** VPAs without a recommendation, mapped to the time that was first noticed or last reported. */
    var emptyVPAs: map<VpaID, Time>
    /** All aggregations, at most one per key. */
    var aggregateStateMap: map<AggregateStateKey, Aggregation>
    /** The label-set interner: canonical form to label set. */
    var labelSetMap: map<LabelSetKey, LabelSet>
    var lastAggregateContainerStateGC: Time
    const gcInterval: Duration
    const env: Env

    /** The invariants every operation keeps. */
    ghost predicate Valid()
      reads this
    {
      StateValid(env, labelSetMap, pods, aggregateStateMap, vpas)
    }

    /** NewClusterState: no pods, VPAs or aggregations; the last collection at the Unix epoch. */
    constructor (env: Env, gcInterval: Duration)
      requires env.Valid()
      ensures Valid()
      ensures this.env == env && this.gcInterval == gcInterval
      ensures pods == map[] && vpas == map[] && emptyVPAs == map[]
      ensures aggregateStateMap == map[] && labelSetMap == map[]
      ensures lastAggregateContainerStateGC == 0
    {
      this.env := env;
      this.gcInterval := gcInterval;
      pods := map[];
      vpas := map[];
      emptyVPAs := map[];
      aggregateStateMap := map[];
      labelSetMap := map[];
      lastAggregateContainerStateGC := 0;
    }

    /** The number of aggregations tracked, one per distinct key. */
    function StateMapSize(): (n: nat)
      reads this
      ensures n == |aggregateStateMap.Keys|
    {
      |aggregateStateMap|
    }

    // -------------------------------------------------------------------------
    // Label sets and keys.

    /** Interns a label set under its canonical form and returns that form. */
    method GetLabelSetKey(labelSet: LabelSet) returns (key: LabelSetKey)
      requires env.Valid() && InternerSound(env, labelSetMap)
      modifies this`labelSetMap
      ensures key == env.labelString(labelSet)
      ensures labelSetMap == old(labelSetMap)[key := labelSet]
      ensures key in old(labelSetMap) ==> labelSetMap == old(labelSetMap)
      ensures InternerSound(env, labelSetMap) && InternerExtends(old(labelSetMap), labelSetMap)
    {
      key := env.labelString(labelSet);
      if key in labelSetMap {
        assert env.labelString(labelSetMap[key]) == env.labelString(labelSet);
      }
      labelSetMap := labelSetMap[key := labelSet];
    }

    /** The key of a container of a pod that must be present. */
    function AggregateStateKeyForContainerID(containerID: ContainerID): (k: AggregateStateKey)
      reads this
      requires containerID.podID in pods
      ensures k == MakeAggregateStateKey(pods[containerID.podID], containerID.containerName)
    {
      MakeAggregateStateKey(pods[containerID.podID], containerID.containerName)
    }

    /**
     * Returns the key of the container's aggregation. If the index lacks it,
     * the aggregation is created and offered to every VPA: each VPA that
     * matches the key links it and marks it as under a VPA.
     */
    method FindOrCreateAggregateContainerState(containerID: ContainerID) returns (key: AggregateStateKey)
      requires containerID.podID in pods
      modifies this`aggregateStateMap, this`vpas
      ensures key == MakeAggregateStateKey(pods[containerID.podID], containerID.containerName)
      ensures aggregateStateMap == EnsureAggregations(env, labelSetMap, old(vpas), old(aggregateStateMap), {key})
      ensures key in old(aggregateStateMap) ==> aggregateStateMap == old(aggregateStateMap) && vpas == old(vpas)
      ensures key !in old(aggregateStateMap) ==> vpas == LinkIfMatching(env, labelSetMap, old(vpas), key)
      ensures vpas == LinkMatching(env, labelSetMap, old(vpas), aggregateStateMap.Keys - old(aggregateStateMap).Keys)
      ensures key !in old(aggregateStateMap) && (forall id :: id in old(vpas) ==> key !in old(vpas)[id].links) ==>
        (aggregateStateMap[key].underVpa <==> exists id :: id in vpas && key in vpas[id].links)
    {
      key := AggregateStateKeyForContainerID(containerID);
      if key !in aggregateStateMap {
        var offered, marked := OfferToVpas(env, labelSetMap, vpas, key);
        aggregateStateMap := aggregateStateMap[key := NewAggregation.(underVpa := marked)];
        vpas := offered;
        if forall id :: id in old(vpas) ==> key !in old(vpas)[id].links {
          FreshUnderVpaIffLinked(env, labelSetMap, old(vpas), key);
        }
        assert aggregateStateMap.Keys - old(aggregateStateMap).Keys == {key};
        LinkMatchingOne(env, labelSetMap, old(vpas), key);
      } else {
        assert aggregateStateMap.Keys - old(aggregateStateMap).Keys == {};
        LinkMatchingNothing(env, labelSetMap, vpas);
      }
      EnsureAggregationsOne(env, labelSetMap, old(vpas), old(aggregateStateMap), key);
    }

    // -------------------------------------------------------------------------
    // Pods.

    /** addPodToItsVpa: every VPA that matches the pod counts one more pod. */
    method AddPodToItsVpa(pod: PodState)
      modifies this`vpas
      ensures vpas == ShiftPodCounts(env, labelSetMap, old(vpas), pod, 1)
    {
      var todo := vpas.Keys;
      while todo != {}
        invariant todo <= old(vpas).Keys
        invariant forall id :: id in vpas <==> id in old(vpas)
        invariant forall id :: id in old(vpas) ==>
          vpas[id] == if id in todo then old(vpas)[id] else ShiftVpa(env, labelSetMap, old(vpas)[id], pod, 1)
        decreases todo
      {
        var id :| id in todo;
        if PodMatchesVpa(env, labelSetMap, pod, vpas[id]) {
          vpas := vpas[id := vpas[id].(podCount := vpas[id].podCount + 1)];
        }
        todo := todo - {id};
      }
    }

    /** removePodFromItsVpa: every VPA that matches the pod counts one pod fewer. */
    method RemovePodFromItsVpa(pod: PodState)
      modifies this`vpas
      ensures vpas == ShiftPodCounts(env, labelSetMap, old(vpas), pod, -1)
    {
      var todo := vpas.Keys;
      while todo != {}
        invariant todo <= old(vpas).Keys
        invariant forall id :: id in vpas <==> id in old(vpas)
        invariant forall id :: id in old(vpas) ==>
          vpas[id] == if id in todo then old(vpas)[id] else ShiftVpa(env, labelSetMap, old(vpas)[id], pod, -1)
        decreases todo
      {
        var id :| id in todo;
        if PodMatchesVpa(env, labelSetMap, pod, vpas[id]) {
          vpas := vpas[id := vpas[id].(podCount := vpas[id].podCount - 1)];
        }
        todo := todo - {id};
      }
    }

    /**
     * One step of the loop of AddOrUpdatePod after a label change: the named
     * container is pointed directly at the aggregation of its key under the
     * pod's current labels, which is created and linked if missing.
     */
    method RelinkContainer(podID: PodID, name: string)
      requires podID in pods && name in pods[podID].containers
      modifies this`pods, this`aggregateStateMap, this`vpas
      ensures pods == old(pods)[podID := RelinkOne(old(pods)[podID], name)]
      ensures aggregateStateMap == EnsureAggregations(env, labelSetMap, old(vpas), old(aggregateStateMap), {MakeAggregateStateKey(old(pods)[podID], name)})
      ensures vpas == LinkMatching(env, labelSetMap, old(vpas), aggregateStateMap.Keys - old(aggregateStateMap).Keys)
    {
      var key := FindOrCreateAggregateContainerState(ContainerID(podID, name));
      var pod := pods[podID];
      pods := pods[podID := pod.(containers := pod.containers[name := pod.containers[name].(aggregator := key, viaProxy := false)])];
    }

    /**
     * The loop of AddOrUpdatePod after a label change: every container of the
     * pod is pointed directly at the aggregation of its key under the pod's
     * current labels; the aggregations missing from the index are created and
     * linked into the VPAs that match them.
     */
    method RelinkContainers(podID: PodID)
      requires podID in pods
      modifies this`pods, this`aggregateStateMap, this`vpas
      ensures pods == old(pods)[podID := Relinked(old(pods)[podID])]
      ensures aggregateStateMap == EnsureAggregations(env, labelSetMap, old(vpas), old(aggregateStateMap), ContainerKeys(old(pods)[podID]))
      ensures vpas == LinkMatching(env, labelSetMap, old(vpas), ContainerKeys(old(pods)[podID]) - old(aggregateStateMap).Keys)
    {
      ghost var pod0 := pods[podID];
      var names := pods[podID].containers.Keys;
      RelinkedExceptAll(pod0);
      LinkMatchingNothing(env, labelSetMap, vpas);
      EnsureAggregationsNothing(env, labelSetMap, vpas, aggregateStateMap);
      assert aggregateStateMap.Keys - old(aggregateStateMap).Keys == {};
      while names != {}
        invariant names <= pod0.containers.Keys
        invariant pods == old(pods)[podID := RelinkedExcept(pod0, names)]
        invariant aggregateStateMap == EnsureAggregations(env, labelSetMap, old(vpas), old(aggregateStateMap), KeysOfContainers(pod0, pod0.containers.Keys - names))
        invariant vpas == LinkMatching(env, labelSetMap, old(vpas), aggregateStateMap.Keys - old(aggregateStateMap).Keys)
        decreases names
      {
        var name :| name in names;
        ghost var done := KeysOfContainers(pod0, pod0.containers.Keys - names);
        ghost var index1, vpas1 := aggregateStateMap, vpas;
        RelinkContainer(podID, name);
        RelinkedExceptStep(pod0, names, name);
        ghost var key := MakeAggregateStateKey(pod0, name);
        LinkMatchingSameSelectors(env, labelSetMap, old(vpas), index1.Keys - old(aggregateStateMap).Keys);
        EnsureAggregationsSameSelectors(env, labelSetMap, old(vpas), vpas1, index1, {key});
        EnsureAggregationsAdd(env, labelSetMap, old(vpas), old(aggregateStateMap), done, key);
        KeysOfContainersAdd(pod0, pod0.containers.Keys - names, name);
        assert pod0.containers.Keys - (names - {name}) == (pod0.containers.Keys - names) + {name};
        LinkMatchingTwice(env, labelSetMap, old(vpas), index1.Keys - old(aggregateStateMap).Keys, aggregateStateMap.Keys - index1.Keys);
        GrowthInTwoSteps(old(aggregateStateMap).Keys, index1.Keys, aggregateStateMap.Keys);
        names := names - {name};
      }
      KeysOfAllContainers(pod0);
      assert pod0.containers.Keys - {} == pod0.containers.Keys;
      assert aggregateStateMap.Keys - old(aggregateStateMap).Keys == ContainerKeys(pod0) - old(aggregateStateMap).Keys;
    }

    /**
     * The part of AddOrUpdatePod for a pod that is new or whose interned
     * labels changed, once it is no longer counted: it takes the new label
     * handle, every container is pointed at the aggregation of its new key
     * (created and linked if missing), and the VPAs that match the new labels
     * count it.
     */
    method RelabelPod(podID: PodID, newLabelSetKey: LabelSetKey)
      requires podID in pods
      modifies this`pods, this`aggregateStateMap, this`vpas
      ensures var pod := old(pods)[podID].(labelSetKey := newLabelSetKey);
        && pods == old(pods)[podID := Relinked(pod)]
        && aggregateStateMap == EnsureAggregations(env, labelSetMap, old(vpas), old(aggregateStateMap), ContainerKeys(pod))
        && vpas == ShiftPodCounts(env, labelSetMap, LinkMatching(env, labelSetMap, old(vpas), ContainerKeys(pod) - old(aggregateStateMap).Keys),
                                  Relinked(pod), 1)
    {
      var pod := pods[podID].(labelSetKey := newLabelSetKey);
      pods := pods[podID := pod];
      RelinkContainers(podID);
      AddPodToItsVpa(pods[podID]);
    }

    /**
     * AddOrUpdatePod: creates the pod if absent and always sets its phase.
     * When the pod is new or its interned labels change, the VPAs that
     * matched its old labels count one pod fewer, every container is pointed
     * at the aggregation of its new key (created and linked if missing), and
     * the VPAs that match the new labels count one pod more; otherwise nothing
     * else changes.
     */
    method AddOrUpdatePod(podID: PodID, newLabels: LabelSet, phase: PodPhase)
      requires Valid()
      modifies this`pods, this`labelSetMap, this`aggregateStateMap, this`vpas
      ensures Valid()
      ensures labelSetMap == old(labelSetMap)[env.labelString(newLabels) := newLabels]
      ensures podID in pods && pods[podID].labelSetKey == env.labelString(newLabels) && pods[podID].phase == phase
      ensures podID in old(pods) && old(pods)[podID].labelSetKey == env.labelString(newLabels) ==>
        && pods == old(pods)[podID := old(pods)[podID].(phase := phase)]
        && aggregateStateMap == old(aggregateStateMap)
        && vpas == old(vpas)
      ensures !(podID in old(pods) && old(pods)[podID].labelSetKey == env.labelString(newLabels)) ==>
        var pod := PodBase(old(pods), podID).(labelSetKey := env.labelString(newLabels));
        && pods == old(pods)[podID := Relinked(pod).(phase := phase)]
        && aggregateStateMap == EnsureAggregations(env, labelSetMap, old(vpas), old(aggregateStateMap), ContainerKeys(pod))
        && vpas == ShiftPodCounts(env, labelSetMap,
                     LinkMatching(env, labelSetMap, Uncount(env, labelSetMap, old(vpas), old(pods), podID),
                                  ContainerKeys(pod) - old(aggregateStateMap).Keys),
                     Relinked(pod), 1)
    {
      ghost var pods0, vpas0, index0 := pods, vpas, aggregateStateMap;
      var podExists := podID in pods;
      var pod := PodBase(pods, podID);
      if !podExists {
        pods := pods[podID := pod];
      }
      var newLabelSetKey := GetLabelSetKey(newLabels);
      InternerGrowthValid(env, old(labelSetMap), labelSetMap, pods0, index0, vpas0);
      if podExists && pod.labelSetKey == newLabelSetKey {
        PhaseChangeValid(env, labelSetMap, pods, aggregateStateMap, vpas, podID, phase);
        pods := pods[podID := pod.(phase := phase)];
      } else {
        ghost var pods1 := pods;
        ghost var relabelled := Relinked(pod.(labelSetKey := newLabelSetKey));
        if podExists {
          RemovePodFromItsVpa(pod);
          ShiftSameSelectors(env, labelSetMap, vpas0, pod, -1);
        }
        EnsureAggregationsSameSelectors(env, labelSetMap, vpas0, vpas, index0, ContainerKeys(pod.(labelSetKey := newLabelSetKey)));
        RelabelPod(podID, newLabelSetKey);
        ghost var uncounted := Uncount(env, labelSetMap, vpas0, pods0, podID);
        RelabelValid(env, labelSetMap, pods0, index0, vpas0, podID, newLabelSetKey, phase,
                     uncounted, aggregateStateMap, LinkMatching(env, labelSetMap, uncounted, ContainerKeys(pod.(labelSetKey := newLabelSetKey)) - index0.Keys), vpas);
        pods := pods[podID := pods[podID].(phase := phase)];
        PutTwice(pods1, podID, relabelled, relabelled.(phase := phase));
        if !podExists {
          PutTwice(pods0, podID, pod, relabelled.(phase := phase));
        }
      }
    }

    /** GetContainer: the container with the given ID, if its pod and it are present. */
    function GetContainer(containerID: ContainerID): (r: Option<ContainerState>)
      reads this
      ensures r.Some? <==> containerID.podID in pods && containerID.containerName in pods[containerID.podID].containers
      ensures r.Some? ==> r.value == pods[containerID.podID].containers[containerID.containerName]
    {
      if containerID.podID in pods && containerID.containerName in pods[containerID.podID].containers
      then Some(pods[containerID.podID].containers[containerID.containerName])
      else None
    }

    /**
     * DeletePod: the pod is removed and the VPAs that matched it count one pod
     * fewer; its aggregations stay until they are collected.
     */
    method DeletePod(podID: PodID)
      requires Valid()
      modifies this`pods, this`vpas
      ensures Valid()
      ensures pods == old(pods) - {podID}
      ensures vpas == Uncount(env, labelSetMap, old(vpas), old(pods), podID)
      ensures podID !in old(pods) ==> pods == old(pods) && vpas == old(vpas)
    {
      DeletePodValid(env, labelSetMap, pods, aggregateStateMap, vpas, podID);
      var found := podID in pods;
      if found {
        RemovePodFromItsVpa(pods[podID]);
      }
      pods := pods - {podID};
    }

    // -------------------------------------------------------------------------
    // Containers and samples.

    /**
     * AddOrUpdateContainer: fails with a key error, changing nothing, when the
     * pod is absent. A new container gets the request, no samples, and a proxy
     * reference to the aggregation of its key, which is created and linked if
     * missing; an existing container only takes the new request.
     */
    method AddOrUpdateContainer(containerID: ContainerID, request: Resources) returns (err: Option<Error>)
      requires Valid()
      modifies this`pods, this`aggregateStateMap, this`vpas
      ensures Valid()
      ensures var podID, name := containerID.podID, containerID.containerName;
        && (podID !in old(pods) ==>
              err == Some(KeyError(PodKey(podID))) && pods == old(pods)
              && aggregateStateMap == old(aggregateStateMap) && vpas == old(vpas))
        && (podID in old(pods) && name in old(pods)[podID].containers ==>
              && err == None
              && pods == old(pods)[podID := PutContainer(old(pods)[podID], name, old(pods)[podID].containers[name].(request := request))]
              && aggregateStateMap == old(aggregateStateMap) && vpas == old(vpas))
        && (podID in old(pods) && name !in old(pods)[podID].containers ==>
              var key := MakeAggregateStateKey(old(pods)[podID], name);
              && err == None
              && pods == old(pods)[podID := PutContainer(old(pods)[podID], name, ContainerState(request, key, true, []))]
              && aggregateStateMap == EnsureAggregations(env, labelSetMap, old(vpas), old(aggregateStateMap), {key})
              && vpas == LinkMatching(env, labelSetMap, old(vpas), {key} - old(aggregateStateMap).Keys))
    {
      var podID, name := containerID.podID, containerID.containerName;
      if podID !in pods {
        return Some(KeyError(PodKey(podID)));
      }
      var pod := pods[podID];
      if name !in pod.containers {
        ghost var index0 := aggregateStateMap;
        var key := FindOrCreateAggregateContainerState(containerID);
        CreateAggregationValid(env, labelSetMap, pods, index0, old(vpas), key, aggregateStateMap);
        assert aggregateStateMap.Keys - index0.Keys == {key} - index0.Keys;
        PutContainerValid(env, labelSetMap, pods, aggregateStateMap, vpas, podID, name, ContainerState(request, key, true, []));
        pods := pods[podID := PutContainer(pod, name, ContainerState(request, key, true, []))];
      } else {
        var c := pod.containers[name].(request := request);
        PutContainerValid(env, labelSetMap, pods, aggregateStateMap, vpas, podID, name, c);
        pods := pods[podID := PutContainer(pod, name, c)];
      }
      return None;
    }

    /**
     * A sample the container accepted: the container records it and forwards
     * it to its aggregation. A proxy reference re-resolves the key first,
     * re-creating and linking the aggregation if it was collected; a direct
     * reference forwards to the aggregation it holds.
     */
    method ForwardSample(podID: PodID, name: string, sample: UsageSample)
      requires Valid()
      requires podID in pods && name in pods[podID].containers
      modifies this`pods, this`aggregateStateMap, this`vpas
      ensures Valid()
      ensures var c := old(pods)[podID].containers[name];
        var added := if c.viaProxy then {c.aggregator} else {};
        && pods == old(pods)[podID := PutContainer(old(pods)[podID], name, c.(samples := c.samples + [sample]))]
        && aggregateStateMap == WithSample(EnsureAggregations(env, labelSetMap, old(vpas), old(aggregateStateMap), added), c.aggregator, sample)
        && vpas == LinkMatching(env, labelSetMap, old(vpas), added - old(aggregateStateMap).Keys)
    {
      var c := pods[podID].containers[name];
      var key := c.aggregator;
      if c.viaProxy {
        key := FindOrCreateAggregateContainerState(ContainerID(podID, name));
        CreateAggregationValid(env, labelSetMap, pods, old(aggregateStateMap), old(vpas), key, aggregateStateMap);
        assert aggregateStateMap.Keys - old(aggregateStateMap).Keys == {key} - old(aggregateStateMap).Keys;
      } else {
        EnsureAggregationsNothing(env, labelSetMap, vpas, aggregateStateMap);
        LinkMatchingNothing(env, labelSetMap, vpas);
        assert {} - old(aggregateStateMap).Keys == {};
      }
      var c2 := c.(samples := c.samples + [sample]);
      PutContainerValid(env, labelSetMap, pods, aggregateStateMap, vpas, podID, name, c2);
      pods := pods[podID := PutContainer(pods[podID], name, c2)];
      WithSampleValid(env, labelSetMap, pods, aggregateStateMap, vpas, key, sample);
      aggregateStateMap := WithSample(aggregateStateMap, key, sample);
    }

    /**
     * AddSample: fails with a key error when the pod or the container is
     * absent and reports a discarded sample when the container refuses it,
     * changing nothing in each case; otherwise the sample is recorded and
     * forwarded.
     */
    method AddSample(sample: ContainerUsageSampleWithKey) returns (err: Option<Error>)
      requires Valid()
      modifies this`pods, this`aggregateStateMap, this`vpas
      ensures Valid()
      ensures var podID, name := sample.container.podID, sample.container.containerName;
        && (podID !in old(pods) ==> err == Some(KeyError(PodKey(podID))))
        && (podID in old(pods) && name !in old(pods)[podID].containers ==> err == Some(KeyError(ContainerKey(sample.container))))
        && (podID in old(pods) && name in old(pods)[podID].containers ==>
              (err == None <==> env.acceptsSample(old(pods)[podID].containers[name], sample.sample)))
        && (podID in old(pods) && name in old(pods)[podID].containers && err == None ==>
              var c := old(pods)[podID].containers[name];
              var added := if c.viaProxy then {c.aggregator} else {};
              && pods == old(pods)[podID := PutContainer(old(pods)[podID], name, c.(samples := c.samples + [sample.sample]))]
              && aggregateStateMap == WithSample(EnsureAggregations(env, labelSetMap, old(vpas), old(aggregateStateMap), added), c.aggregator, sample.sample)
              && vpas == LinkMatching(env, labelSetMap, old(vpas), added - old(aggregateStateMap).Keys))
      ensures err != None ==> pods == old(pods) && aggregateStateMap == old(aggregateStateMap) && vpas == old(vpas)
      ensures var podID, name := sample.container.podID, sample.container.containerName;
        podID in old(pods) && name in old(pods)[podID].containers && !env.acceptsSample(old(pods)[podID].containers[name], sample.sample) ==>
          err == Some(SampleDiscarded)
    {
      var podID, name := sample.container.podID, sample.container.containerName;
      if podID !in pods {
        return Some(KeyError(PodKey(podID)));
      }
      if name !in pods[podID].containers {
        return Some(KeyError(ContainerKey(sample.container)));
      }
      if !env.acceptsSample(pods[podID].containers[name], sample.sample) {
        return Some(SampleDiscarded);
      }
      ForwardSample(podID, name, sample.sample);
      return None;
    }

    /**
     * RecordOOM: fails with a key error when the pod or the container is
     * absent, and with an error naming the container when the container
     * refuses the OOM event, changing nothing in each case; otherwise the
     * artificial memory sample the container derives from the event is
     * recorded and forwarded.
     */
    method RecordOOM(containerID: ContainerID, timestamp: Time, requestedMemory: ResourceAmount) returns (err: Option<Error>)
      requires Valid()
      modifies this`pods, this`aggregateStateMap, this`vpas
      ensures Valid()
      ensures var podID, name := containerID.podID, containerID.containerName;
        && (podID !in old(pods) ==> err == Some(KeyError(PodKey(podID))))
        && (podID in old(pods) && name !in old(pods)[podID].containers ==> err == Some(KeyError(ContainerNameKey(name))))
        && (podID in old(pods) && name in old(pods)[podID].containers ==>
              var c := old(pods)[podID].containers[name];
              match env.oomSample(c, timestamp, requestedMemory)
              case None => err == Some(OomNotRecorded(containerID))
              case Some(s) =>
                var added := if c.viaProxy then {c.aggregator} else {};
                && err == None
                && pods == old(pods)[podID := PutContainer(old(pods)[podID], name, c.(samples := c.samples + [s]))]
                && aggregateStateMap == WithSample(EnsureAggregations(env, labelSetMap, old(vpas), old(aggregateStateMap), added), c.aggregator, s)
                && vpas == LinkMatching(env, labelSetMap, old(vpas), added - old(aggregateStateMap).Keys))
      ensures err != None ==> pods == old(pods) && aggregateStateMap == old(aggregateStateMap) && vpas == old(vpas)
    {
      var podID, name := containerID.podID, containerID.containerName;
      if podID !in pods {
        return Some(KeyError(PodKey(podID)));
      }
      if name !in pods[podID].containers {
        return Some(KeyError(ContainerNameKey(name)));
      }
      var oom := env.oomSample(pods[podID].containers[name], timestamp, requestedMemory);
      if oom.None? {
        return Some(OomNotRecorded(containerID));
      }
      ForwardSample(podID, name, oom.value);
      return None;
    }

    // -------------------------------------------------------------------------
    // VPAs.

    /** The loop of DeleteVpa: every aggregation under the given keys is marked not autoscaled. */
    method MarkAggregationsNotAutoscaled(keys: set<AggregateStateKey>)
      modifies this`aggregateStateMap
      ensures aggregateStateMap == MarkNotAutoscaled(old(aggregateStateMap), keys)
    {
      var todo := keys;
      while todo != {}
        invariant todo <= keys
        invariant forall k :: k in aggregateStateMap <==> k in old(aggregateStateMap)
        invariant forall k :: k in old(aggregateStateMap) ==>
          aggregateStateMap[k] == if k in keys && k !in todo then old(aggregateStateMap)[k].MarkNotAutoscaled() else old(aggregateStateMap)[k]
        decreases todo
      {
        var k :| k in todo;
        if k in aggregateStateMap {
          aggregateStateMap := aggregateStateMap[k := aggregateStateMap[k].MarkNotAutoscaled()];
        }
        todo := todo - {k};
      }
      assert aggregateStateMap.Keys == old(aggregateStateMap).Keys;
    }

    /**
     * DeleteVpa: fails with a key error, changing nothing, when the VPA is
     * absent; otherwise every aggregation it links is marked not autoscaled,
     * even one that another VPA still links, and the VPA leaves both the VPA
     * map and the missing-recommendation map.
     */
    method DeleteVpa(vpaID: VpaID) returns (err: Option<Error>)
      requires Valid()
      modifies this`aggregateStateMap, this`vpas, this`emptyVPAs
      ensures Valid()
      ensures vpaID !in old(vpas) ==>
        && err == Some(KeyError(VpaKey(vpaID)))
        && aggregateStateMap == old(aggregateStateMap) && vpas == old(vpas) && emptyVPAs == old(emptyVPAs)
      ensures vpaID in old(vpas) ==>
        && err == None
        && aggregateStateMap == MarkNotAutoscaled(old(aggregateStateMap), old(vpas)[vpaID].links)
        && vpas == old(vpas) - {vpaID}
        && emptyVPAs == old(emptyVPAs) - {vpaID}
    {
      if vpaID !in vpas {
        return Some(KeyError(VpaKey(vpaID)));
      }
      DeleteVpaValid(env, labelSetMap, pods, aggregateStateMap, vpas, vpaID, vpas[vpaID].links);
      MarkAggregationsNotAutoscaled(vpas[vpaID].links);
      vpas := vpas - {vpaID};
      emptyVPAs := emptyVPAs - {vpaID};
      return None;
    }

    /**
     * The loop of AddOrUpdateVpa over the index: the VPA is offered every
     * aggregation; a key it does not link yet and that matches it is linked,
     * and its aggregation is marked as under a VPA.
     */
    method LinkMatchingAggregations(vpa: Vpa) returns (v: Vpa)
      modifies this`aggregateStateMap
      ensures v == LinkVpa(env, labelSetMap, vpa, old(aggregateStateMap).Keys)
      ensures aggregateStateMap == MarkUnderVpa(old(aggregateStateMap), MatchingKeys(env, labelSetMap, old(aggregateStateMap).Keys, vpa) - vpa.links)
    {
      v := vpa;
      var todo := aggregateStateMap.Keys;
      while todo != {}
        invariant todo <= old(aggregateStateMap).Keys
        invariant v == vpa.(links := v.links)
        invariant forall k :: k in v.links <==>
          k in vpa.links || (k in old(aggregateStateMap) && k !in todo && VpaMatchesKey(env, labelSetMap, vpa, k))
        invariant aggregateStateMap.Keys == old(aggregateStateMap).Keys
        invariant forall k :: k in old(aggregateStateMap) ==>
          aggregateStateMap[k] == if k !in todo && k !in vpa.links && VpaMatchesKey(env, labelSetMap, vpa, k)
                                  then old(aggregateStateMap)[k].(underVpa := true) else old(aggregateStateMap)[k]
        decreases todo
      {
        var k :| k in todo;
        if k !in v.links && VpaMatchesKey(env, labelSetMap, v, k) {
          v := v.(links := v.links + {k});
          aggregateStateMap := aggregateStateMap[k := aggregateStateMap[k].(underVpa := true)];
        }
        todo := todo - {k};
      }
      assert v.links == vpa.links + MatchingKeys(env, labelSetMap, old(aggregateStateMap).Keys, vpa);
    }

    /**
     * The VPA AddOrUpdateVpa creates, linked to the matching aggregations and
     * counting the matching pods; the aggregations it links are marked as
     * under a VPA.
     */
    method CreateVpa(id: VpaID, selector: Selector, created: Time) returns (v: Vpa)
      modifies this`aggregateStateMap
      ensures v == CreatedVpa(env, labelSetMap, pods, old(aggregateStateMap).Keys, id, selector, created)
      ensures aggregateStateMap == MarkUnderVpa(old(aggregateStateMap), v.links)
    {
      v := NewVpa(id, selector, created);
      v := LinkMatchingAggregations(v);
      var matching := GetMatchingPods(v);
      MatchingDependsOnSelector(env, labelSetMap, pods, old(aggregateStateMap).Keys, v, NewVpa(id, selector, created));
      v := v.(podCount := |matching|);
      assert MatchingKeys(env, labelSetMap, old(aggregateStateMap).Keys, NewVpa(id, selector, created)) - {} == v.links;
    }

    /** The part of AddOrUpdateVpa for a VPA that is kept: it takes the fields refreshed from the object. */
    method RefreshVpa(id: VpaID, obj: VpaObject, conditions: map<string, Condition>)
      requires Valid() && id in vpas
      modifies this`vpas
      ensures Valid()
      ensures vpas == old(vpas)[id := Refreshed(old(vpas)[id], obj, conditions)]
    {
      var vpa := Refreshed(vpas[id], obj, conditions);
      PutVpaValid(env, labelSetMap, pods, aggregateStateMap, vpas, vpa);
      vpas := vpas[id := vpa];
    }

    /**
     * The part of AddOrUpdateVpa for a VPA that is new or was deleted: it is
     * created, linked and counted, then takes the fields refreshed from the
     * object; the aggregations it links are marked as under a VPA.
     */
    method InstallNewVpa(id: VpaID, selector: Selector, obj: VpaObject, conditions: map<string, Condition>)
      requires Valid()
      modifies this`aggregateStateMap, this`vpas
      ensures Valid()
      ensures var created := CreatedVpa(env, labelSetMap, pods, old(aggregateStateMap).Keys, id, selector, obj.creationTime);
        && vpas == old(vpas)[id := Refreshed(created, obj, conditions)]
        && aggregateStateMap == MarkUnderVpa(old(aggregateStateMap), created.links)
    {
      var vpa := CreateVpa(id, selector, obj.creationTime);
      MarkUnderVpaValid(env, labelSetMap, pods, old(aggregateStateMap), vpas, vpa.links);
      vpa := Refreshed(vpa, obj, conditions);
      PutVpaValid(env, labelSetMap, pods, aggregateStateMap, vpas, vpa);
      vpas := vpas[id := vpa];
    }

    /**
     * AddOrUpdateVpa: keys the object's conditions by type and keeps its
     * recommendation only when RecommendationProvided is True. A VPA whose
     * selector keeps its canonical form is kept with its links and pod count;
     * a VPA whose selector's canonical form changed is deleted first, which
     * marks the aggregations it linked not autoscaled; a VPA that is new or
     * was deleted is created with the new selector, linked to every matching
     * aggregation, which is marked as under a VPA, and counting every
     * matching pod. Either way
     * it then takes the object's target, annotations, conditions,
     * recommendation, policies and API version.
     */
    method AddOrUpdateVpa(obj: VpaObject, selector: Selector) returns (err: Option<Error>)
      requires Valid()
      modifies this`aggregateStateMap, this`vpas, this`emptyVPAs
      ensures Valid()
      ensures err == None
      ensures var id := VpaID(obj.namespace, obj.name);
        var conditions := LatestConditions(obj.conditions);
        if id in old(vpas) && env.selectorString(old(vpas)[id].selector) == env.selectorString(selector) then
          && aggregateStateMap == old(aggregateStateMap) && emptyVPAs == old(emptyVPAs)
          && vpas == old(vpas)[id := Refreshed(old(vpas)[id], obj, conditions)]
        else
          var created := CreatedVpa(env, labelSetMap, pods, old(aggregateStateMap).Keys, id, selector, obj.creationTime);
          var marked := if id in old(vpas) then MarkNotAutoscaled(old(aggregateStateMap), old(vpas)[id].links) else old(aggregateStateMap);
          && aggregateStateMap == MarkUnderVpa(marked, created.links)
          && emptyVPAs == (if id in old(vpas) then old(emptyVPAs) - {id} else old(emptyVPAs))
          && vpas == old(vpas)[id := Refreshed(created, obj, conditions)]
    {
      var id := VpaID(obj.namespace, obj.name);
      var conditions := BuildConditionsMap(obj.conditions);
      var vpaExists := id in vpas;
      if vpaExists && env.selectorString(vpas[id].selector) == env.selectorString(selector) {
        RefreshVpa(id, obj, conditions);
        return None;
      }
      if vpaExists {
        err := DeleteVpa(id);
        assert err == None;
      }
      assert aggregateStateMap.Keys == old(aggregateStateMap).Keys;
      InstallNewVpa(id, selector, obj, conditions);
      if vpaExists {
        RemoveThenPut(old(vpas), id, vpas[id]);
      }
      return None;
    }

    /** GetMatchingPods: the IDs of the pods that match the VPA, each once. */
    method GetMatchingPods(vpa: Vpa) returns (ids: seq<PodID>)
      ensures forall id :: id in ids <==> id in MatchingPods(env, labelSetMap, pods, vpa)
      ensures |ids| == |MatchingPods(env, labelSetMap, pods, vpa)|
    {
      ids := [];
      ghost var found: set<PodID> := {};
      var todo := pods.Keys;
      while todo != {}
        invariant todo <= pods.Keys
        invariant forall id :: id in ids <==> id in found
        invariant forall id :: id in found <==> id in MatchingPods(env, labelSetMap, pods, vpa) && id !in todo
        invariant |ids| == |found|
        decreases todo
      {
        var id :| id in todo;
        if PodLabelsMatchVpa(env, id.namespace, LabelsOf(labelSetMap, pods[id].labelSetKey), vpa.id.namespace, vpa.selector) {
          ids := ids + [id];
          found := found + {id};
        }
        todo := todo - {id};
      }
      assert found == MatchingPods(env, labelSetMap, pods, vpa);
    }

    // -------------------------------------------------------------------------
    // Controllers and contributive keys.

    /**
     * GetControllingVPA: some VPA that matches the pod, if any does. Which
     * one is left to the iteration order of the VPA map.
     */
    method GetControllingVpa(pod: PodState) returns (r: Option<VpaID>)
      ensures r.Some? ==> r.value in vpas && PodMatchesVpa(env, labelSetMap, pod, vpas[r.value])
      ensures r.None? <==> forall id :: id in vpas ==> !PodMatchesVpa(env, labelSetMap, pod, vpas[id])
    {
      var todo := vpas.Keys;
      while todo != {}
        invariant todo <= vpas.Keys
        invariant forall id :: id in vpas && id !in todo ==> !PodMatchesVpa(env, labelSetMap, pod, vpas[id])
        decreases todo
      {
        var id :| id in todo;
        if PodLabelsMatchVpa(env, pod.id.namespace, LabelsOf(labelSetMap, pod.labelSetKey), vpas[id].id.namespace, vpas[id].selector) {
          return Some(id);
        }
        todo := todo - {id};
      }
      return None;
    }

    /**
     * GetControllerForPodUnderVPA: the top-most controller the fetcher finds
     * for the target of the pod's controlling VPA; none when no VPA matches
     * the pod or the fetcher finds nothing.
     */
    method GetControllerForPodUnderVpa(pod: PodState, fetch: ControllerKey -> Option<ControllerKey>) returns (r: Option<ControllerKey>)
      ensures r.Some? ==> SomeControllerFound(env, labelSetMap, vpas, pod, fetch)
      ensures EveryControllerFound(env, labelSetMap, vpas, pod, fetch) ==> r.Some?
      ensures r.Some? ==> exists id :: id in vpas && PodMatchesVpa(env, labelSetMap, pod, vpas[id]) && r == fetch(ControllerOf(vpas[id]))
    {
      var controlling := GetControllingVpa(pod);
      if controlling.None? {
        return None;
      }
      var vpa := vpas[controlling.value];
      r := fetch(ControllerKey(vpa.id.namespace, vpa.targetRef.kind, vpa.targetRef.name, vpa.targetRef.apiVersion));
    }

    /** The loop of getContributiveAggregateStateKeys over one pod's containers: their keys join the set. */
    method AddContainerKeys(pod: PodState, keys: set<AggregateStateKey>) returns (r: set<AggregateStateKey>)
      ensures r == keys + ContainerKeys(pod)
    {
      r := keys;
      var names := pod.containers.Keys;
      while names != {}
        invariant names <= pod.containers.Keys
        invariant forall k :: k in r <==> k in keys || exists c :: c in pod.containers && c !in names && k == MakeAggregateStateKey(pod, c)
        decreases names
      {
        var c :| c in names;
        r := r + {MakeAggregateStateKey(pod, c)};
        names := names - {c};
      }
    }

    /**
     * getContributiveAggregateStateKeys: the keys of the containers of every
     * pod that is active or whose controller under its controlling VPA still
     * exists. Since the controlling VPA is whichever matching one the
     * iteration finds first, the result lies between the keys of the pods
     * that are contributive for every choice and those of the pods that are
     * contributive for some choice.
     */
    method GetContributiveAggregateStateKeys(fetch: ControllerKey -> Option<ControllerKey>) returns (keys: set<AggregateStateKey>)
      ensures KeysOfPods(pods, SurelyContributive(env, labelSetMap, pods, vpas, fetch)) <= keys
      ensures keys <= KeysOfPods(pods, PossiblyContributive(env, labelSetMap, pods, vpas, fetch))
      ensures exists chosen :: SurelyContributive(env, labelSetMap, pods, vpas, fetch) <= chosen <= PossiblyContributive(env, labelSetMap, pods, vpas, fetch)
                               && keys == KeysOfPods(pods, chosen)
    {
      keys := {};
      ghost var chosen: set<PodID> := {};
      var todo := pods.Keys;
      while todo != {}
        invariant todo <= pods.Keys
        invariant keys == KeysOfPods(pods, chosen)
        invariant forall id :: id in chosen ==> id in PossiblyContributive(env, labelSetMap, pods, vpas, fetch)
        invariant forall id :: id in SurelyContributive(env, labelSetMap, pods, vpas, fetch) && id !in todo ==> id in chosen
        decreases todo
      {
        var id :| id in todo;
        var pod := pods[id];
        var controller := GetControllerForPodUnderVpa(pod, fetch);
        var podActive := pod.phase != PodSucceeded && pod.phase != PodFailed;
        if podActive || controller.Some? {
          keys := AddContainerKeys(pod, keys);
          KeysOfPodsAdd(pods, chosen, id);
          chosen := chosen + {id};
        }
        todo := todo - {id};
      }
      KeysOfPodsMonotone(pods, SurelyContributive(env, labelSetMap, pods, vpas, fetch), chosen);
      KeysOfPodsMonotone(pods, chosen, PossiblyContributive(env, labelSetMap, pods, vpas, fetch));
      assert SurelyContributive(env, labelSetMap, pods, vpas, fetch) <= chosen <= PossiblyContributive(env, labelSetMap, pods, vpas, fetch);
    }

    // -------------------------------------------------------------------------
    // Garbage collection.

    /** The first loop of the collector: the keys whose aggregations are obsolete. */
    method CollectObsoleteKeys(contributive: set<AggregateStateKey>, now: Time) returns (dead: set<AggregateStateKey>)
      ensures dead == ObsoleteKeys(env, aggregateStateMap, contributive, now)
    {
      dead := {};
      var todo := aggregateStateMap.Keys;
      while todo != {}
        invariant todo <= aggregateStateMap.Keys
        invariant forall k :: k in dead <==>
          k in aggregateStateMap && k !in todo && Obsolete(env, aggregateStateMap[k], k in contributive, now)
        decreases todo
      {
        var k :| k in todo;
        var agg := aggregateStateMap[k];
        if k !in contributive && env.isEmpty(agg) {
          dead := dead + {k};
        } else if env.isExpired(agg, now) {
          dead := dead + {k};
        }
        todo := todo - {k};
      }
    }

    /** Deleting one aggregation: it leaves the index and every VPA drops its link to it. */
    method RemoveAggregation(key: AggregateStateKey)
      modifies this`aggregateStateMap, this`vpas
      ensures aggregateStateMap == old(aggregateStateMap) - {key}
      ensures vpas == Unlink(old(vpas), {key})
    {
      aggregateStateMap := aggregateStateMap - {key};
      var todo := vpas.Keys;
      while todo != {}
        invariant aggregateStateMap == old(aggregateStateMap) - {key}
        invariant todo <= old(vpas).Keys
        invariant forall id :: id in vpas <==> id in old(vpas)
        invariant forall id :: id in old(vpas) ==>
          vpas[id] == if id in todo then old(vpas)[id] else UnlinkVpa(old(vpas)[id], {key})
        decreases todo
      {
        var id :| id in todo;
        vpas := vpas[id := vpas[id].(links := vpas[id].links - {key})];
        todo := todo - {id};
      }
    }

    /** The second loop of the collector: every given aggregation is deleted and unlinked. */
    method RemoveAggregations(dead: set<AggregateStateKey>)
      modifies this`aggregateStateMap, this`vpas
      ensures aggregateStateMap == old(aggregateStateMap) - dead
      ensures vpas == Unlink(old(vpas), dead)
    {
      var todo := dead;
      assert dead - todo == {};
      assert aggregateStateMap - {} == aggregateStateMap;
      UnlinkNothing(vpas);
      while todo != {}
        invariant todo <= dead
        invariant aggregateStateMap == old(aggregateStateMap) - (dead - todo)
        invariant vpas == Unlink(old(vpas), dead - todo)
        decreases todo
      {
        var k :| k in todo;
        RemoveAggregation(k);
        RemoveKeysTwice(old(aggregateStateMap), dead - todo, {k});
        UnlinkTwice(old(vpas), dead - todo, {k});
        assert (dead - todo) + {k} == dead - (todo - {k});
        todo := todo - {k};
      }
      assert dead - todo == dead;
    }

    /**
     * garbageCollectAggregateCollectionStates: deletes, and unlinks from every
     * VPA, the aggregations that are expired or that are empty and not
     * contributive. Whichever controlling VPAs the contributive keys were
     * computed with, every expired aggregation goes, every empty one no pod
     * could make contributive goes, every unexpired one some pod surely makes
     * contributive stays, and nothing else goes; the rest are kept as they were.
     */
    method GarbageCollect(now: Time, fetch: ControllerKey -> Option<ControllerKey>)
      requires Valid()
      modifies this`aggregateStateMap, this`vpas
      ensures Valid()
      ensures forall k :: k in aggregateStateMap ==> k in old(aggregateStateMap) && aggregateStateMap[k] == old(aggregateStateMap)[k]
      ensures vpas == Unlink(old(vpas), old(aggregateStateMap).Keys - aggregateStateMap.Keys)
      ensures forall k :: k in old(aggregateStateMap) && env.isExpired(old(aggregateStateMap)[k], now) ==> k !in aggregateStateMap
      ensures forall k ::
        (k in old(aggregateStateMap) && env.isEmpty(old(aggregateStateMap)[k])
         && k !in KeysOfPods(pods, PossiblyContributive(env, labelSetMap, pods, old(vpas), fetch))) ==> k !in aggregateStateMap
      ensures forall k ::
        (k in old(aggregateStateMap) && !env.isExpired(old(aggregateStateMap)[k], now)
         && k in KeysOfPods(pods, SurelyContributive(env, labelSetMap, pods, old(vpas), fetch))) ==> k in aggregateStateMap
      ensures forall k :: k in old(aggregateStateMap) && k !in aggregateStateMap ==>
        env.isExpired(old(aggregateStateMap)[k], now) || env.isEmpty(old(aggregateStateMap)[k])
      ensures exists chosen :: SurelyContributive(env, labelSetMap, pods, old(vpas), fetch) <= chosen <= PossiblyContributive(env, labelSetMap, pods, old(vpas), fetch)
                               && aggregateStateMap.Keys == old(aggregateStateMap).Keys - ObsoleteKeys(env, old(aggregateStateMap), KeysOfPods(pods, chosen), now)
    {
      var contributive := GetContributiveAggregateStateKeys(fetch);
      ghost var chosen :| SurelyContributive(env, labelSetMap, pods, vpas, fetch) <= chosen <= PossiblyContributive(env, labelSetMap, pods, vpas, fetch)
                          && contributive == KeysOfPods(pods, chosen);
      var dead := CollectObsoleteKeys(contributive, now);
      ghost var surely := KeysOfPods(pods, SurelyContributive(env, labelSetMap, pods, vpas, fetch));
      ghost var possibly := KeysOfPods(pods, PossiblyContributive(env, labelSetMap, pods, vpas, fetch));
      forall k | k in aggregateStateMap
        ensures k in surely && !env.isExpired(aggregateStateMap[k], now) ==> k !in dead
        ensures k !in possibly && env.isEmpty(aggregateStateMap[k]) ==> k in dead
        ensures env.isExpired(aggregateStateMap[k], now) ==> k in dead
      {
        SweepSafety(env, aggregateStateMap, contributive, surely, possibly, now, k);
      }
      RemoveAggregationsValid(env, labelSetMap, pods, aggregateStateMap, vpas, dead);
      RemoveAggregations(dead);
      assert old(aggregateStateMap).Keys - aggregateStateMap.Keys == dead;
      assert aggregateStateMap.Keys == old(aggregateStateMap).Keys - ObsoleteKeys(env, old(aggregateStateMap), KeysOfPods(pods, chosen), now);
    }

    /**
     * RateLimitedGarbageCollectAggregateCollectionStates: collects only when
     * at least gcInterval has passed since the last collection, measured by
     * the saturating time difference, and then records now as its time.
     */
    method RateLimitedGarbageCollect(now: Time, fetch: ControllerKey -> Option<ControllerKey>)
      requires Valid()
      modifies this`aggregateStateMap, this`vpas, this`lastAggregateContainerStateGC
      ensures Valid()
      ensures Sub(now, old(lastAggregateContainerStateGC)) < gcInterval ==>
        && lastAggregateContainerStateGC == old(lastAggregateContainerStateGC)
        && aggregateStateMap == old(aggregateStateMap) && vpas == old(vpas)
      ensures Sub(now, old(lastAggregateContainerStateGC)) >= gcInterval ==>
        && lastAggregateContainerStateGC == now
        && (forall k :: k in aggregateStateMap ==> k in old(aggregateStateMap) && aggregateStateMap[k] == old(aggregateStateMap)[k])
        && vpas == Unlink(old(vpas), old(aggregateStateMap).Keys - aggregateStateMap.Keys)
        && (forall k :: k in old(aggregateStateMap) && env.isExpired(old(aggregateStateMap)[k], now) ==> k !in aggregateStateMap)
        && (forall k ::
              (k in old(aggregateStateMap) && env.isEmpty(old(aggregateStateMap)[k])
               && k !in KeysOfPods(pods, PossiblyContributive(env, labelSetMap, pods, old(vpas), fetch))) ==> k !in aggregateStateMap)
        && (forall k ::
              (k in old(aggregateStateMap) && !env.isExpired(old(aggregateStateMap)[k], now)
               && k in KeysOfPods(pods, SurelyContributive(env, labelSetMap, pods, old(vpas), fetch))) ==> k in aggregateStateMap)
        && (forall k :: k in old(aggregateStateMap) && k !in aggregateStateMap ==>
              env.isExpired(old(aggregateStateMap)[k], now) || env.isEmpty(old(aggregateStateMap)[k]))
        && (exists chosen :: SurelyContributive(env, labelSetMap, pods, old(vpas), fetch) <= chosen <= PossiblyContributive(env, labelSetMap, pods, old(vpas), fetch)
              && aggregateStateMap.Keys == old(aggregateStateMap).Keys - ObsoleteKeys(env, old(aggregateStateMap), KeysOfPods(pods, chosen), now))
    {
      if Sub(now, lastAggregateContainerStateGC) < gcInterval {
        return;
      }
      GarbageCollect(now, fetch);
      lastAggregateContainerStateGC := now;
    }

    // -------------------------------------------------------------------------
    // Missing recommendations.

    /**
     * RecordRecommendation: a VPA with a non-empty recommendation leaves the
     * missing-recommendation map. Otherwise its first observation records
     * now; a later one strictly more than RecommendationMissingMaxDuration
     * after the recorded time records now again and reports the VPA as
     * missing its recommendation; any other leaves the map as it is.
     */
    method RecordRecommendation(vpa: Vpa, now: Time) returns (err: Option<Error>)
      requires Valid()
      modifies this`emptyVPAs
      ensures Valid()
      ensures var o := Staleness.Observe(if vpa.id in old(emptyVPAs) then Some(old(emptyVPAs)[vpa.id]) else None,
                                         Staleness.HasRecommendation(vpa), now);
        && emptyVPAs == Staleness.Apply(old(emptyVPAs), vpa.id, o)
        && (err.Some? <==> o.stale)
        && (err.Some? ==> err.value == RecommendationMissing(vpa.id))
    {
      if vpa.recommendation.Some? && |vpa.recommendation.value.containerRecommendations| > 0 {
        emptyVPAs := emptyVPAs - {vpa.id};
        return None;
      }
      if vpa.id !in emptyVPAs {
        emptyVPAs := emptyVPAs[vpa.id := now];
      } else {
        var lastLogged := emptyVPAs[vpa.id];
        if lastLogged + Staleness.RecommendationMissingMaxDuration < now {
          emptyVPAs := emptyVPAs[vpa.id := now];
          return Some(RecommendationMissing(vpa.id));
        }
      }
      return None;
    }
  }
}
