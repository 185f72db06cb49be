/**
 * Values handled by the recommender's cluster state: identifiers, label sets,
 * aggregation keys, pods, containers, VPA objects, aggregations, errors, and
 * the collaborators the cluster state consults but does not implement.
 */
module Model {

  datatype Option<+T> = None | Some(value: T)

  // ---------------------------------------------------------------------------
  // Time: integer nanoseconds.

  /** A point in time, in nanoseconds since the Unix epoch. */
  type Time = int
  /** A time.Duration, in nanoseconds; Go stores it in an int64. */
  type Duration = int

  const MinDuration: Duration := -0x8000_0000_0000_0000
  const MaxDuration: Duration := 0x7fff_ffff_ffff_ffff
  const Minute: Duration := 60 * 1_000_000_000

  /** time.Time.Sub: the difference t - u, saturated to the range of a Duration. */
  function Sub(t: Time, u: Time): (d: Duration)
    ensures MinDuration <= d <= MaxDuration
    ensures MinDuration <= t - u <= MaxDuration ==> d == t - u
    ensures t - u > MaxDuration ==> d == MaxDuration
    ensures t - u < MinDuration ==> d == MinDuration
  {
    if t - u > MaxDuration then MaxDuration
    else if t - u < MinDuration then MinDuration
    else t - u
  }

  // ---------------------------------------------------------------------------
  // Identifiers.

  datatype PodID = PodID(namespace: string, podName: string)
  datatype ContainerID = ContainerID(podID: PodID, containerName: string)
  datatype VpaID = VpaID(namespace: string, vpaName: string)

  // ---------------------------------------------------------------------------
  // Labels, selectors and aggregation keys.

  /** labels.Set: label name to label value. */
  type LabelSet = map<string, string>
  /** The canonical string form of a label set, used as its interned handle. */
  type LabelSetKey = string
  /** labels.Selector: consulted only through its canonical string and Matches. */
  type Selector(==)

  /**
   * The identity of one aggregation: namespace, container name and the
   * interned label-set handle. Every key of a cluster refers to the same
   * interner, so two keys are equal exactly when these three fields are.
   */
  datatype AggregateStateKey = AggregateStateKey(namespace: string, containerName: string, labelSetKey: LabelSetKey)

  // ---------------------------------------------------------------------------
  // Samples, containers and aggregations.

  type ResourceName = string
  type ResourceAmount = int
  type Resources = map<ResourceName, ResourceAmount>

  datatype UsageSample = UsageSample(measureStart: Time, usage: ResourceAmount, request: ResourceAmount, resource: ResourceName)

  /** A usage sample together with the container it was measured on. */
  datatype ContainerUsageSampleWithKey = ContainerUsageSampleWithKey(sample: UsageSample, container: ContainerID)

  /**
   * A container of a pod: its requested resources, the key of the aggregation
   * its samples go to, whether that reference is a proxy that re-resolves the
   * key on every sample (containers created by AddOrUpdateContainer) or a
   * direct reference (containers re-pointed after a label change), and the
   * samples the container has accepted.
   */
  datatype ContainerState = ContainerState(request: Resources, aggregator: AggregateStateKey, viaProxy: bool, samples: seq<UsageSample>)

  /**
   * One aggregation: the samples forwarded to it and its IsUnderVPA flag,
   * which a VPA sets when it links the aggregation and MarkNotAutoscaled
   * clears. Its statistics are reached only through Env.isEmpty and
   * Env.isExpired.
   */
  datatype Aggregation = Aggregation(samples: seq<UsageSample>, underVpa: bool) {
    /** MarkNotAutoscaled: the flag is cleared, whatever other VPA still links the aggregation; the samples stay. */
    function MarkNotAutoscaled(): (a: Aggregation)
      ensures !a.underVpa && a.samples == samples
    {
      this.(underVpa := false)
    }
  }

  /** A freshly created aggregation: no samples, not under a VPA. */
  const NewAggregation: Aggregation := Aggregation([], false)

  // ---------------------------------------------------------------------------
  // Pods.

  /** apiv1.PodPhase is a string; the zero value is "". */
  type PodPhase = string
  const PodSucceeded: PodPhase := "Succeeded"
  const PodFailed: PodPhase := "Failed"

  datatype PodState = PodState(id: PodID, labelSetKey: LabelSetKey, containers: map<string, ContainerState>, phase: PodPhase)

  /** A pod contributes by its phase unless it has terminated. */
  predicate PodActive(pod: PodState) {
    pod.phase != PodSucceeded && pod.phase != PodFailed
  }

  // ---------------------------------------------------------------------------
  // VPA objects.

  datatype TargetRef = TargetRef(kind: string, name: string, apiVersion: string)

  datatype Condition = Condition(condType: string, status: string, reason: string, message: string)
  const RecommendationProvided: string := "RecommendationProvided"
  const ConditionTrue: string := "True"

  datatype ContainerRecommendation = ContainerRecommendation(containerName: string, target: Resources)
  datatype RecommendedPodResources = RecommendedPodResources(containerRecommendations: seq<ContainerRecommendation>)

  /** The update policy and resource policy of a VPA, copied as they are. */
  type UpdatePolicy(==)
  type ResourcePolicy(==)

  /** The API object from which AddOrUpdateVpa reads a VPA. */
  datatype VpaObject = VpaObject(
    namespace: string,
    name: string,
    annotations: map<string, string>,
    creationTime: Time,
    targetRef: TargetRef,
    updatePolicy: Option<UpdatePolicy>,
    resourcePolicy: Option<ResourcePolicy>,
    apiVersion: string,
    conditions: seq<Condition>,
    recommendation: Option<RecommendedPodResources>)

  /**
   * The model of one VPA: its selector, the aggregation keys it is linked to,
   * the number of pods it matches, and the fields refreshed from its API object.
   */
  datatype Vpa = Vpa(
    id: VpaID,
    selector: Selector,
    links: set<AggregateStateKey>,
    podCount: int,
    created: Time,
    targetRef: TargetRef,
    annotations: map<string, string>,
    conditions: map<string, Condition>,
    recommendation: Option<RecommendedPodResources>,
    updatePolicy: Option<UpdatePolicy>,
    resourcePolicy: Option<ResourcePolicy>,
    apiVersion: string)

  /** NewVpa: no links, no pods, empty annotations and conditions. */
  function NewVpa(id: VpaID, selector: Selector, created: Time): (v: Vpa)
    ensures v.id == id && v.selector == selector && v.created == created
    ensures v.links == {} && v.podCount == 0
  {
    Vpa(id, selector, {}, 0, created, TargetRef("", "", ""), map[], map[], None, None, None, "")
  }

  /** The controller a VPA targets, as handed to the controller fetcher. */
  datatype ControllerKey = ControllerKey(namespace: string, kind: string, name: string, apiVersion: string)

  function ControllerOf(vpa: Vpa): ControllerKey {
    ControllerKey(vpa.id.namespace, vpa.targetRef.kind, vpa.targetRef.name, vpa.targetRef.apiVersion)
  }

  // ---------------------------------------------------------------------------
  // Errors.

  /** The key a KeyError reports as missing. */
  datatype MissingKey = PodKey(pod: PodID) | ContainerKey(container: ContainerID) | ContainerNameKey(name: string) | VpaKey(vpa: VpaID)

  datatype Error =
    | KeyError(key: MissingKey)
    | SampleDiscarded
    | OomNotRecorded(container: ContainerID)
    | RecommendationMissing(vpa: VpaID)

  // ---------------------------------------------------------------------------
  // Collaborators.

  /**
   * The collaborators of the cluster state:
   * - labelString: labels.Set.String(), the canonical form of a label set;
   * - selectorString, selectorMatches: labels.Selector.String() and Matches;
   * - isEmpty, isExpired: the aggregation's emptiness and age tests;
   * - acceptsSample: whether a container accepts a usage sample;
   * - oomSample: the artificial memory sample a container derives from an
   *   OOM event, or None when it refuses the event.
   */
  datatype Env = Env(
    labelString: LabelSet -> LabelSetKey,
    selectorString: Selector -> string,
    selectorMatches: (Selector, LabelSet) -> bool,
    isEmpty: Aggregation -> bool,
    isExpired: (Aggregation, Time) -> bool,
    acceptsSample: (ContainerState, UsageSample) -> bool,
    oomSample: (ContainerState, Time, ResourceAmount) -> Option<UsageSample>)
  {
    /** Distinct label sets have distinct canonical forms. */
    ghost predicate Valid() {
      forall a: LabelSet, b: LabelSet :: labelString(a) == labelString(b) ==> a == b
    }
  }

  // ---------------------------------------------------------------------------
  // Keys and matching.

  /** A lookup in the label-set interner; a missing handle reads as the empty set. */
  function LabelsOf(labelSetMap: map<LabelSetKey, LabelSet>, key: LabelSetKey): LabelSet {
    if key in labelSetMap then labelSetMap[key] else map[]
  }

  /** The Labels() accessor of an aggregation key. */
  function KeyLabels(labelSetMap: map<LabelSetKey, LabelSet>, k: AggregateStateKey): LabelSet {
    LabelsOf(labelSetMap, k.labelSetKey)
  }

  /**
   * MakeAggregateStateKey: the key under which samples of the container named
   * containerName in pod are aggregated.
   */
  function MakeAggregateStateKey(pod: PodState, containerName: string): (k: AggregateStateKey)
    ensures k.namespace == pod.id.namespace && k.containerName == containerName
    ensures k.labelSetKey == pod.labelSetKey
  {
    AggregateStateKey(pod.id.namespace, containerName, pod.labelSetKey)
  }

  /** PodLabelsMatchVPA: same namespace and the selector matches the labels. */
  predicate PodLabelsMatchVpa(env: Env, podNamespace: string, labels: LabelSet, vpaNamespace: string, selector: Selector) {
    podNamespace == vpaNamespace && env.selectorMatches(selector, labels)
  }

  /** The pod, with the labels its interned handle stands for, matches the VPA. */
  predicate PodMatchesVpa(env: Env, labelSetMap: map<LabelSetKey, LabelSet>, pod: PodState, vpa: Vpa) {
    PodLabelsMatchVpa(env, pod.id.namespace, LabelsOf(labelSetMap, pod.labelSetKey), vpa.id.namespace, vpa.selector)
  }

  /** The VPA's matchesAggregation: the key's namespace and labels match the VPA. */
  predicate VpaMatchesKey(env: Env, labelSetMap: map<LabelSetKey, LabelSet>, vpa: Vpa, k: AggregateStateKey) {
    PodLabelsMatchVpa(env, k.namespace, KeyLabels(labelSetMap, k), vpa.id.namespace, vpa.selector)
  }

  // ---------------------------------------------------------------------------
  // Properties of keys.

  /**
   * Key stability: two containers share an aggregation key exactly when their
   * pods have the same namespace and label-set handle and the containers have
   * the same name.
   */
  lemma KeyIdentity(p: PodState, c: string, q: PodState, d: string)
    ensures MakeAggregateStateKey(p, c) == MakeAggregateStateKey(q, d)
        <==> p.id.namespace == q.id.namespace && c == d && p.labelSetKey == q.labelSetKey
  {
  }

  /** A pod matches a VPA exactly when the keys of its containers do. */
  lemma PodMatchesIffKeyMatches(env: Env, labelSetMap: map<LabelSetKey, LabelSet>, pod: PodState, c: string, vpa: Vpa)
    ensures PodMatchesVpa(env, labelSetMap, pod, vpa) <==> VpaMatchesKey(env, labelSetMap, vpa, MakeAggregateStateKey(pod, c))
  {
  }

  /** Labels(): a key with an interned handle reads back the labels whose canonical form the handle is. */
  lemma KeyLabelsCanonical(env: Env, labelSetMap: map<LabelSetKey, LabelSet>, k: AggregateStateKey)
    requires forall h :: h in labelSetMap ==> env.labelString(labelSetMap[h]) == h
    requires k.labelSetKey in labelSetMap
    ensures env.labelString(KeyLabels(labelSetMap, k)) == k.labelSetKey
  {
  }
}
