# Cluster state of the VPA recommender, in Dafny

This project models `clusterState`, the in-memory picture of a cluster that the
Vertical Pod Autoscaler's recommender keeps. It tracks the following state:

- the pods and their containers;
- the VPA objects;
- one aggregation of usage samples per aggregation key (namespace, container
  name and interned label set);
- the label-set interner;
- the VPAs whose recommendation is missing.

The model also covers the operations that keep these consistent. Pods and
containers are added and updated; samples and OOM events are recorded; VPAs are
added, updated and deleted; obsolete aggregations are garbage-collected, with a
rate limit; and VPAs without a recommendation are tracked.

The model is layered in five modules:

- `Model` (model.dfy): the values.
  - Identifiers, label sets, aggregation keys, pods, containers, aggregations,
    VPA objects and errors.
  - `Env` holds the collaborators the cluster state consults but does not
    implement: the canonical string form of a label set, selector string and
    matching, the aggregation's emptiness and expiry tests, a container's
    acceptance of a sample, and the OOM sample.
  - `time.Time.Sub` is modelled with saturation.
- `Staleness` (staleness.dfy): the per-VPA missing-recommendation timer, as a
  pure function with lemmas about repeated observations.
- `ClusterSpec` (cluster_spec.dfy): the specification side.
  - Derived sets: matching pods, matching keys, contributive keys.
  - The invariants (`StateValid`):
    - the interner is sound;
    - every pod is stored under its ID, with interned labels and with each
      container referring to the key of its pod's current labels;
    - every aggregation key is interned;
    - every VPA links exactly the index keys that match it;
    - every VPA's pod count equals the number of pods that match it.
  - The state transformers that the operations are proved against.
- `Preservation` (preservation.dfy): one lemma per operation, each showing that
  its transformers keep `StateValid`.
- `Cluster` (cluster_state.dfy): the class `ClusterState`.
  - Its fields are the maps the source updates in place.
  - Each method has the source's loops, with invariants.
  - The public state-changing operations are proved to keep `Valid()`.
  - Most methods are proved to produce exactly the transformer's result.
  - Some methods are proved only against bounds, not one exact result:
    `GetControllingVpa`, `GetControllerForPodUnderVpa`,
    `GetContributiveAggregateStateKeys`, `GarbageCollect` and
    `RateLimitedGarbageCollect`. The source picks the controlling VPA in map
    iteration order, which the model leaves open; see the `GetControllingVpa`
    line under "## Left out".

Two container references are modelled differently, as in the source. A
container created by `AddOrUpdateContainer` holds a proxy. A container re-pointed
by a label change holds a direct reference to the aggregation it was given.
What a proxy does with a sample happens in the container's own `AddSample`,
whose code is not part of this model. The model assumes that a proxy re-resolves
its key on every sample, and re-creates the aggregation if it was collected.

Aggregations carry the `IsUnderVPA` flag as `underVpa`. A VPA that links an
aggregation sets it. This happens when `findOrCreateAggregateContainerState`
offers a new aggregation to the VPAs, and when `AddOrUpdateVpa` offers the
index to a new VPA. `DeleteVpa` clears it on every aggregation the deleted VPA
linked, even one that another VPA still links.

The source's comment on `GetMatchingPods` speaks of active pods, but the code
does not filter by phase; the model follows the code. The comment on
`StateMapSize` calls it the number of pods being tracked, but the code returns
the number of aggregations; the model follows the code. `RecordRecommendation`
reports staleness only when the recorded time plus 30 minutes is strictly
before now, as the code's `Before` does.

## Model

| member | source | states |
|---|---|---|
| Cluster.ClusterState.constructor | vertical-pod-autoscaler/pkg/recommender/model/cluster.go:125-135 | A new cluster state is empty, its last collection is at the Unix epoch, and it satisfies every invariant. |
| Cluster.ClusterState.StateMapSize | vertical-pod-autoscaler/pkg/recommender/model/cluster.go:88-90 | The size is the number of distinct aggregation keys. |
| Cluster.ClusterState.GetLabelSetKey | vertical-pod-autoscaler/pkg/recommender/model/cluster.go:351-355 | The handle is the label set's canonical form. The interner maps it to the set, keeps every earlier entry and stays sound. An already interned set changes nothing. |
| Model.MakeAggregateStateKey | vertical-pod-autoscaler/pkg/recommender/model/cluster.go:359-366 | The key carries the pod's namespace, the container name and the pod's label handle. |
| Model.KeyIdentity | vertical-pod-autoscaler/pkg/recommender/model/cluster.go:359-366 | Two containers share a key exactly when their pods have the same namespace and label handle and the containers have the same name. |
| Model.KeyLabelsCanonical | vertical-pod-autoscaler/pkg/recommender/model/cluster.go:546-551 | For an interned handle, a key's `Labels()` gives back the label set whose canonical form the handle is. |
| Model.PodMatchesIffKeyMatches | vertical-pod-autoscaler/pkg/recommender/model/cluster.go:176-182 | A pod matches a VPA exactly when the keys of its containers match it. |
| Cluster.ClusterState.AggregateStateKeyForContainerID | vertical-pod-autoscaler/pkg/recommender/model/cluster.go:370-376 | The key is the one derived from the stored pod. A missing pod, which is a panic in the source, is excluded by the precondition. |
| Cluster.ClusterState.FindOrCreateAggregateContainerState | vertical-pod-autoscaler/pkg/recommender/model/cluster.go:381-393 | It returns the container's key. The index gains an aggregation only if it lacked the key. A second call for a present key changes neither the index nor any VPA. A new key is linked into exactly the VPAs that match it. The new aggregation has no samples and is under a VPA exactly when some VPA matches the key. When no VPA linked the key before, it is under a VPA exactly when some VPA links it afterwards. |
| Cluster.OfferToVpas | vertical-pod-autoscaler/pkg/recommender/model/cluster.go:388-391 | Every VPA that matches the key links it and no other VPA changes. The flag it returns tells whether some VPA matches the key. |
| ClusterSpec.EnsureAggregations | vertical-pod-autoscaler/pkg/recommender/model/cluster.go:381-393 | The index gains exactly the missing keys and keeps every existing aggregation. Each new aggregation has no samples and is under a VPA exactly when some VPA matches its key. |
| ClusterSpec.FreshUnderVpaIffLinked | vertical-pod-autoscaler/pkg/recommender/model/cluster.go:384-391 | For a key no VPA linked yet, the new aggregation is under a VPA exactly when some VPA links the key once every VPA has been offered it. |
| ClusterSpec.EnsureAggregationsSameSelectors | vertical-pod-autoscaler/pkg/recommender/model/cluster.go:157-167 | Whether a new aggregation is under a VPA depends only on the VPAs' selectors. Uncounting a pod or linking keys before the aggregation is created does not change it. |
| ClusterSpec.LinksAfterCreate | vertical-pod-autoscaler/pkg/recommender/model/cluster.go:381-393 | After a key is created and linked into the matching VPAs, every VPA still links exactly the matching index keys. |
| Cluster.ClusterState.AddPodToItsVpa | vertical-pod-autoscaler/pkg/recommender/model/cluster.go:176-182 | Every VPA that matches the pod counts one more pod, and no other VPA changes. |
| Cluster.ClusterState.RemovePodFromItsVpa | vertical-pod-autoscaler/pkg/recommender/model/cluster.go:185-191 | Every VPA that matches the pod counts one pod fewer, and no other VPA changes. |
| ClusterSpec.ShiftPodCountsInverse | vertical-pod-autoscaler/pkg/recommender/model/cluster.go:176-191 | Removing a pod from its VPAs undoes adding it, and the other way round. |
| Cluster.ClusterState.RelinkContainer | vertical-pod-autoscaler/pkg/recommender/model/cluster.go:164-167 | One container is pointed directly at its current key. That key's aggregation is created and linked if missing. |
| Cluster.ClusterState.RelinkContainers | vertical-pod-autoscaler/pkg/recommender/model/cluster.go:164-167 | Every container of the pod is pointed at its current key. The index gains exactly the missing keys of the pod's containers, and the VPAs link those that match them. |
| ClusterSpec.Relinked | vertical-pod-autoscaler/pkg/recommender/model/cluster.go:164-167 | The relinked pod keeps its ID, labels, phase and container names, and every container refers directly to its current key. Each container keeps its request and its samples. |
| ClusterSpec.RelinkedExceptStep | vertical-pod-autoscaler/pkg/recommender/model/cluster.go:164-167 | Relinking one more container is relinking all but the remaining ones. |
| Cluster.ClusterState.RelabelPod | vertical-pod-autoscaler/pkg/recommender/model/cluster.go:161-169 | The pod takes the new label handle and its containers are relinked. The VPAs that match the new labels count it. |
| Cluster.ClusterState.AddOrUpdatePod | vertical-pod-autoscaler/pkg/recommender/model/cluster.go:149-172 | The pod is created if absent, ends with the new label handle, and always takes the phase. If an existing pod keeps its label handle, nothing else changes. Otherwise the VPAs matching the old labels count one pod fewer, and the containers point at their new keys, which are created and linked if missing. The VPAs matching the new labels then count one pod more. Every invariant is kept. |
| Preservation.RelabelValid | vertical-pod-autoscaler/pkg/recommender/model/cluster.go:149-172 | Uncounting, relinking and recounting a relabelled pod keeps every invariant. |
| Preservation.RelabelCounts | vertical-pod-autoscaler/pkg/recommender/model/cluster.go:157-169 | After a relabel, each VPA's pod count again equals the number of pods that match it. |
| ClusterSpec.MatchingPodsAfterPut | vertical-pod-autoscaler/pkg/recommender/model/cluster.go:149-191 | Storing a pod changes the matching-pod count by minus one if the old pod matched and plus one if the new one does. |
| ClusterSpec.CountedPodsKeysLinked | vertical-pod-autoscaler/pkg/recommender/model/cluster.go:176-182 | A VPA that matches a pod links every one of the pod's keys that is in the index, even when garbage collection has removed some of them. A VPA that does not match links none of the pod's keys. |
| Cluster.ClusterState.GetContainer | vertical-pod-autoscaler/pkg/recommender/model/cluster.go:195-204 | A container is returned exactly when its pod and it are present, and it is the stored one. |
| Cluster.ClusterState.DeletePod | vertical-pod-autoscaler/pkg/recommender/model/cluster.go:207-213 | The pod is removed and the VPAs that matched it count one pod fewer. An absent pod changes nothing. Every invariant is kept. |
| ClusterSpec.MatchingPodsAfterDelete | vertical-pod-autoscaler/pkg/recommender/model/cluster.go:207-213 | Deleting a pod lowers the matching-pod count by one exactly when the pod matched. |
| Cluster.ClusterState.AddOrUpdateContainer | vertical-pod-autoscaler/pkg/recommender/model/cluster.go:219-232 | A missing pod gives a key error for the pod and changes nothing. An existing container changes only its request. A new container gets the request, no samples and a proxy to its key, whose aggregation is created and linked if missing. Every invariant is kept. |
| Cluster.ClusterState.ForwardSample | vertical-pod-autoscaler/pkg/recommender/model/cluster.go:246 | The container records the sample. Through a proxy, the aggregation is re-created and linked if missing. The aggregation under the container's key receives the sample. Every invariant is kept. |
| Cluster.ClusterState.AddSample | vertical-pod-autoscaler/pkg/recommender/model/cluster.go:237-250 | A missing pod or container gives the matching key error, and a refused sample gives a discard error; each changes nothing. An accepted sample succeeds and is forwarded. |
| Cluster.ClusterState.RecordOOM | vertical-pod-autoscaler/pkg/recommender/model/cluster.go:253-267 | A missing pod gives a pod key error and a missing container a key error naming the container. A refused OOM event gives an error naming the container. None of these changes anything. Otherwise the derived memory sample is forwarded. |
| Cluster.BuildConditionsMap | vertical-pod-autoscaler/pkg/recommender/model/cluster.go:276-279 | The map holds, per condition type, the last condition of that type. |
| ClusterSpec.LatestConditionsTypes | vertical-pod-autoscaler/pkg/recommender/model/cluster.go:276-279 | A type is in the map exactly when some condition of the object has it. |
| ClusterSpec.LatestConditionsLastWins | vertical-pod-autoscaler/pkg/recommender/model/cluster.go:276-279 | Under the type of a condition that no later condition shares, the map holds that condition. |
| ClusterSpec.RecommendationFollowsLastProvided | vertical-pod-autoscaler/pkg/recommender/model/cluster.go:280-283 | The kept recommendation is the object's when the last RecommendationProvided condition is True, and none otherwise. |
| ClusterSpec.NoRecommendationWithoutProvided | vertical-pod-autoscaler/pkg/recommender/model/cluster.go:280-283 | Without a RecommendationProvided condition there is no recommendation. |
| Cluster.ClusterState.LinkMatchingAggregations | vertical-pod-autoscaler/pkg/recommender/model/cluster.go:297-299 | The VPA links every index key that matches it. The aggregations under the matching keys it did not link before are marked as under a VPA. Nothing else changes. |
| ClusterSpec.MarkUnderVpa | vertical-pod-autoscaler/pkg/recommender/model/cluster.go:297-299 | The index keeps its keys and samples. An aggregation is under a VPA afterwards exactly when it was before or its key is among the given ones. |
| Preservation.MarkUnderVpaValid | vertical-pod-autoscaler/pkg/recommender/model/cluster.go:297-299 | Marking aggregations as under a VPA keeps every invariant. |
| ClusterSpec.CreatedVpa | vertical-pod-autoscaler/pkg/recommender/model/cluster.go:295-301 | A created VPA has the given ID, selector and creation time. It links exactly the matching index keys, and its pod count is the number of matching pods. |
| Cluster.ClusterState.CreateVpa | vertical-pod-autoscaler/pkg/recommender/model/cluster.go:295-301 | The new VPA's links and pod count come from a scan of the index and the pods. Every aggregation it links is marked as under a VPA. |
| Cluster.ClusterState.RefreshVpa | vertical-pod-autoscaler/pkg/recommender/model/cluster.go:302-308 | A kept VPA keeps its ID, selector, links and pod count and takes the fields refreshed from the object. Every invariant is kept. |
| Cluster.ClusterState.InstallNewVpa | vertical-pod-autoscaler/pkg/recommender/model/cluster.go:294-308 | The VPA is created with the matching links and pod count, then refreshed from the object. The aggregations it links are marked as under a VPA. Every invariant is kept. |
| ClusterSpec.Refreshed | vertical-pod-autoscaler/pkg/recommender/model/cluster.go:302-308 | The refreshed VPA takes its target, annotations, update and resource policies and API version from the object. It takes the given conditions, and the recommendation that RecommendationFrom keeps. Its ID, selector, creation time, links and pod count stay as they were. |
| ClusterSpec.RecommendationFrom | vertical-pod-autoscaler/pkg/recommender/model/cluster.go:280-283 | A recommendation is kept only when the RecommendationProvided condition is True, and then it is the object's. |
| ClusterSpec.PodBase | vertical-pod-autoscaler/pkg/recommender/model/cluster.go:150-154 | A known pod is the stored one. An unknown ID gives a new pod with that ID, no label handle, no containers and an empty phase, as `newPod` at lines 342-347 does. |
| Cluster.ClusterState.AddOrUpdateVpa | vertical-pod-autoscaler/pkg/recommender/model/cluster.go:273-310 | It always succeeds. A VPA whose selector keeps its canonical form keeps its links and pod count, and the index is unchanged. A VPA whose selector's form changed is deleted and created again, and a new VPA is created. Deleting it marks the aggregations it linked not autoscaled. A created VPA links exactly the matching keys, which are then marked as under a VPA, and counts the matching pods. Either way the target, annotations, conditions, recommendation, policies and API version are refreshed. Every invariant is kept. |
| Cluster.ClusterState.MarkAggregationsNotAutoscaled | vertical-pod-autoscaler/pkg/recommender/model/cluster.go:318-320 | Exactly the aggregations under the given keys are marked not autoscaled, and their samples are kept. |
| Cluster.ClusterState.DeleteVpa | vertical-pod-autoscaler/pkg/recommender/model/cluster.go:313-324 | An absent VPA gives a key error and changes nothing. Otherwise the aggregations it links are marked not autoscaled, even those another VPA still links, and the VPA leaves both the VPA map and the missing-recommendation map. Every invariant is kept. |
| Cluster.ClusterState.GetMatchingPods | vertical-pod-autoscaler/pkg/recommender/model/cluster.go:485-494 | The result lists each pod that matches the VPA exactly once, and no other pod. |
| Cluster.ClusterState.GetControllingVpa | vertical-pod-autoscaler/pkg/recommender/model/cluster.go:515-523 | The result is some VPA that matches the pod. It is none exactly when no VPA matches. |
| Cluster.ClusterState.GetControllerForPodUnderVpa | vertical-pod-autoscaler/pkg/recommender/model/cluster.go:497-512 | A controller is found only when some matching VPA's target resolves, and it is that VPA's resolved target. When every matching VPA's target resolves (and one exists), a controller is found. |
| Cluster.ClusterState.AddContainerKeys | vertical-pod-autoscaler/pkg/recommender/model/cluster.go:455-457 | The set gains exactly the keys of the pod's containers. |
| Cluster.ClusterState.GetContributiveAggregateStateKeys | vertical-pod-autoscaler/pkg/recommender/model/cluster.go:446-461 | The result contains the container keys of every pod that is contributive for every choice of controlling VPA. It contains only keys of pods that are contributive for some choice. A pod's keys are added all together or not at all, so the result is the keys of exactly one set of pods between those two. A pod is contributive when it is active or its controller exists. |
| ClusterSpec.ContributiveDeterminedByDisjointSelectors | vertical-pod-autoscaler/pkg/recommender/model/cluster.go:446-461 | When no pod matches two VPAs, the two bounds coincide and the contributive keys are determined. |
| Cluster.ClusterState.CollectObsoleteKeys | vertical-pod-autoscaler/pkg/recommender/model/cluster.go:407-419 | The keys collected are exactly those whose aggregation is not contributive and empty, or expired. |
| ClusterSpec.Obsolete | vertical-pod-autoscaler/pkg/recommender/model/cluster.go:409-418 | An expired aggregation is obsolete, and so is an empty non-contributive one. A contributive or non-empty one is obsolete exactly when it is expired. |
| ClusterSpec.ObsoleteKeys | vertical-pod-autoscaler/pkg/recommender/model/cluster.go:409-418 | Every expired aggregation and every empty non-contributive one is collected. Only expired or empty ones are, and a contributive one only when it is expired. |
| Cluster.ClusterState.RemoveAggregation | vertical-pod-autoscaler/pkg/recommender/model/cluster.go:420-425 | The key leaves the index, and every VPA drops its link to it. |
| Cluster.ClusterState.RemoveAggregations | vertical-pod-autoscaler/pkg/recommender/model/cluster.go:420-425 | Every given key leaves the index and every VPA's links. |
| ClusterSpec.LinksAfterUnlink | vertical-pod-autoscaler/pkg/recommender/model/cluster.go:420-425 | After the sweep, every VPA still links exactly the matching keys that remain. |
| Cluster.ClusterState.GarbageCollect | vertical-pod-autoscaler/pkg/recommender/model/cluster.go:404-426 | Whichever controlling VPAs were chosen, every expired aggregation goes, and so does every empty one that no pod could make contributive. Every unexpired one that some pod surely makes contributive stays. Only expired or empty ones go; the rest stay as they were, and deleted keys leave every VPA's links. The keys that go are exactly the obsolete ones, for the keys of one set of contributive pods lying between the two bounds. Every invariant is kept. |
| Cluster.ClusterState.RateLimitedGarbageCollect | vertical-pod-autoscaler/pkg/recommender/model/cluster.go:428-444 | If less than the interval has passed since the last collection, nothing changes. Otherwise it collects and records now. Every expired aggregation goes, and so does every empty one that no pod could make contributive. Every unexpired one that some pod surely makes contributive stays. Only expired or empty aggregations go, the rest stay as they were, and deleted keys leave every VPA's links. The keys that go are exactly the obsolete ones, for the keys of one set of contributive pods lying between the two bounds. Every invariant is kept. |
| Staleness.Apply | vertical-pod-autoscaler/pkg/recommender/model/cluster.go:466-481 | Only the VPA's entry changes; it is removed or set as the observation says. |
| Staleness.ObserveCases | vertical-pod-autoscaler/pkg/recommender/model/cluster.go:466-481 | A present recommendation clears the entry, and a first miss records now. A later miss is stale exactly when the recorded time plus 30 minutes is strictly before now, and then records now. Otherwise nothing changes. |
| Staleness.NoReportWithinThreshold | vertical-pod-autoscaler/pkg/recommender/model/cluster.go:33-36 | Misses within 30 minutes of the recorded time never report and keep the timer. |
| Staleness.ReportExactlyOnce | vertical-pod-autoscaler/pkg/recommender/model/cluster.go:472-478 | A miss more than 30 minutes late reports once and restarts the timer. Misses within 30 minutes of that restart report nothing more. |
| Cluster.ClusterState.RecordRecommendation | vertical-pod-autoscaler/pkg/recommender/model/cluster.go:466-481 | The missing-recommendation map and the error follow one observation of the VPA. The error, naming the VPA, is returned exactly when the observation is stale. Every invariant is kept. |
| Model.Sub | vertical-pod-autoscaler/pkg/recommender/model/cluster.go:439 | The time difference is exact within the range of a duration and saturates at its ends. |
| Preservation.DeletePodValid | vertical-pod-autoscaler/pkg/recommender/model/cluster.go:207-213 | Deleting a pod and uncounting it keeps every invariant. |
| Preservation.CreateAggregationValid | vertical-pod-autoscaler/pkg/recommender/model/cluster.go:381-393 | Creating an interned key's aggregation and linking it into the matching VPAs keeps every invariant. |
| Preservation.PutContainerValid | vertical-pod-autoscaler/pkg/recommender/model/cluster.go:219-232 | Storing a container of an existing pod under its current key keeps every invariant. |
| Preservation.PutVpaValid | vertical-pod-autoscaler/pkg/recommender/model/cluster.go:293-301 | Storing a VPA that links exactly the matching keys and counts exactly the matching pods keeps every invariant. |
| Preservation.RemoveAggregationsValid | vertical-pod-autoscaler/pkg/recommender/model/cluster.go:420-425 | Deleting aggregations and unlinking them from every VPA keeps every invariant. |
| Preservation.InternerGrowthValid | vertical-pod-autoscaler/pkg/recommender/model/cluster.go:351-355 | Interning a new label set keeps every invariant, because every existing handle keeps its labels. |

## Left out

- Logging has no behavioural effect and is not modelled.
- The controller fetcher becomes a function parameter, `ControllerKey -> Option<ControllerKey>`, and the request context is not modelled. The source discards the lookup's error and tests only for nil, which is what `None` stands for.
- The following are collaborators given as functions in `Env`, not definitions:
  - label-set canonicalisation, assumed injective;
  - selector parsing, its string form and matching;
  - the aggregation's histograms, its emptiness and expiry tests and its sample validation;
  - the container's sample and OOM handling.
  Aggregations record only the samples forwarded to them and their `IsUnderVPA` flag.
- Vpa internals (`UseAggregationIfMatching`, `DeleteAggregation`, `SetUpdateMode`, `SetResourcePolicy`, `SetAPIVersion`) are taken as their effect on the VPA's set of links, the aggregation's `IsUnderVPA` flag and the copied fields. Their other effects on the aggregation, such as its update mode and policy, are not part of this model, because vpa.go is not part of it.
- Cluster.OfferToVpas: the early return of `UseAggregationIfMatching` for a key the VPA already links is not modelled there. A key missing from the index is linked by no VPA in a valid state, so the early return has no effect there. `LinkMatchingAggregations` does model it.
- Shared references are not modelled. Pods, containers, VPAs and aggregations are values in maps, so aliasing through `*PodState`, `*Vpa` and `*AggregateContainerState` is not captured.
  - A direct reference to an aggregation that the collector has deleted keeps receiving samples in the source. In the model, a sample sent to a key that is not in the index is dropped.
  - If that key is later created again, for example by `AddOrUpdateContainer` for another pod with the same labels, the model sends the old container's samples to the new aggregation (`WithSample` looks the key up). The source keeps feeding the orphaned one.
  - An aggregation's creation time, which its expiry test uses, is not recorded.
- `VPAs()`, `Pods()`, `SetObservedVPAs` and `ObservedVPAs` only hand out or store internal values and are not modelled.
- `InitContainers` is never touched by these operations and is not modelled.
- A nil `TargetRef` in `GetControllerForPodUnderVPA`, which dereferences it, is not modelled.
- The error path of the `DeleteVpa` call inside `AddOrUpdateVpa` is unreachable: that call is made only for a VPA that is present. The model asserts this instead of returning the error.
- Cluster.ClusterState.GetControllingVpa: the source returns the first matching VPA in Go's map iteration order, which is unspecified. The model returns some matching VPA, so the contributive keys are bounded from both sides rather than determined.
- Time is an unbounded integer of nanoseconds. `time.Time.Add` cannot overflow in the model, whereas in Go it wraps at the ends of its range.
