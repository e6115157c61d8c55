/**
 The ProviderConfig resource (package v1alpha1): the desired deployment
 parameters of the ocm-k8s-toolkit and the accessors that resolve them into
 effective values.

 A Go method on `*ProviderConfig` may be called on a nil receiver, so each
 accessor takes an `Option<ProviderConfig>`: None is the nil pointer.
 */
module V1alpha1 {
  import opened Wrappers

  /** Go's `time.Duration`: a signed 64-bit count of nanoseconds. */
  newtype TimeDuration = x: int | -0x8000_0000_0000_0000 <= x < 0x8000_0000_0000_0000

  /** `metav1.Duration`: a wrapper around a `time.Duration`. */
  datatype MetaDuration = MetaDuration(duration: TimeDuration)

  /** `apiextensionsv1.JSON`: raw, uninterpreted JSON bytes. */
  datatype Json = Json(raw: seq<bv8>)

  /** `corev1.LocalObjectReference`: a name in the controller's own namespace. */
  datatype LocalObjectReference = LocalObjectReference(name: string)

  /** The desired state. Pointer fields are Options; `chartURL` is a plain string whose zero value is "". */
  datatype ProviderConfigSpec = ProviderConfigSpec(
    pollInterval: Option<MetaDuration>,
    chartURL: string,
    values: Option<Json>,
    imagePullSecret: Option<LocalObjectReference>)

  /** The resource; only its spec is read by the accessors. */
  datatype ProviderConfig = ProviderConfig(spec: ProviderConfigSpec)

  /** Where the ocm-k8s-toolkit chart lives when no chart URL is configured. */
  const DefaultChartURL: string := "ghcr.io/open-component-model/charts/ocm-k8s-toolkit"

  /**
   The poll interval of the spec. Not nil-safe: the receiver and its
   `pollInterval` pointer are dereferenced unguarded, so both must be present;
   no default is applied here.
   */
  function PollInterval(o: Option<ProviderConfig>): (d: TimeDuration)
    requires o.Some? && o.value.spec.pollInterval.Some?
    ensures o.value.spec.pollInterval == Some(MetaDuration(d))
  {
    o.value.spec.pollInterval.value.duration
  }

  /** The configured chart URL, or DefaultChartURL when the receiver is nil or the URL is empty. Nil-safe. */
  function GetChartURL(o: Option<ProviderConfig>): (url: string)
    ensures url != ""
    ensures url == DefaultChartURL || (o.Some? && url == o.value.spec.chartURL)
    ensures o.Some? && o.value.spec.chartURL != "" ==> url == o.value.spec.chartURL
  {
    if o.None? || o.value.spec.chartURL == "" then DefaultChartURL else o.value.spec.chartURL
  }

  /** The Helm values, passed through as they are; nil for a nil receiver. Nil-safe. */
  function GetValues(o: Option<ProviderConfig>): (v: Option<Json>)
    ensures o.None? ==> v.None?
    ensures o.Some? ==> v == o.value.spec.values
  {
    if o.None? then None else o.value.spec.values
  }

  /** The image pull secret reference as configured; nil for a nil receiver. Nil-safe. */
  function GetImagePullSecret(o: Option<ProviderConfig>): (s: Option<LocalObjectReference>)
    ensures o.None? ==> s.None?
    ensures o.Some? ==> s == o.value.spec.imagePullSecret
  {
    if o.None? then None else o.value.spec.imagePullSecret
  }

  /** A spec identical to `spec` except for its chart URL. */
  function WithChartURL(spec: ProviderConfigSpec, url: string): (r: ProviderConfigSpec)
    ensures r.chartURL == url
    ensures r.pollInterval == spec.pollInterval && r.values == spec.values
    ensures r.imagePullSecret == spec.imagePullSecret
  {
    spec.(chartURL := url)
  }

  /** On a nil receiver every nil-safe accessor yields its fallback. */
  lemma NilReceiverFallbacks()
    ensures GetChartURL(None) == DefaultChartURL
    ensures GetValues(None) == None
    ensures GetImagePullSecret(None) == None
  {
  }

  /** The effective chart URL is the default exactly when nothing else is configured, or the default itself is. */
  lemma ChartURLIsDefaultIff(o: Option<ProviderConfig>)
    ensures GetChartURL(o) == DefaultChartURL <==>
      (o.None? || o.value.spec.chartURL == "" || o.value.spec.chartURL == DefaultChartURL)
  {
  }

  /** Writing the effective chart URL back into the spec does not change what is resolved. */
  lemma ChartURLResolutionIsIdempotent(o: Option<ProviderConfig>, c: ProviderConfig)
    ensures GetChartURL(Some(ProviderConfig(WithChartURL(c.spec, GetChartURL(o))))) == GetChartURL(o)
  {
  }

  /** Two configs that agree on a field resolve that field alike, whatever their other fields hold. */
  lemma AccessorsReadOnlyTheirField(a: ProviderConfig, b: ProviderConfig)
    ensures a.spec.chartURL == b.spec.chartURL ==> GetChartURL(Some(a)) == GetChartURL(Some(b))
    ensures a.spec.values == b.spec.values ==> GetValues(Some(a)) == GetValues(Some(b))
    ensures a.spec.imagePullSecret == b.spec.imagePullSecret ==>
      GetImagePullSecret(Some(a)) == GetImagePullSecret(Some(b))
    ensures a.spec.pollInterval == b.spec.pollInterval && a.spec.pollInterval.Some? ==>
      PollInterval(Some(a)) == PollInterval(Some(b))
  {
  }

  /** The bytes of the JSON document {"replicas":3}. */
  const ReplicasThree: seq<bv8> :=
    [0x7b, 0x22, 0x72, 0x65, 0x70, 0x6c, 0x69, 0x63, 0x61, 0x73, 0x22, 0x3a, 0x33, 0x7d]

  /** An empty chart URL, Helm values and no pull secret: default chart, values verbatim, no secret. */
  lemma ScenarioEmptyURLWithValues(poll: Option<MetaDuration>)
    ensures var o := Some(ProviderConfig(ProviderConfigSpec(poll, "", Some(Json(ReplicasThree)), None)));
      && GetChartURL(o) == DefaultChartURL
      && GetValues(o) == Some(Json(ReplicasThree))
      && GetImagePullSecret(o) == None
  {
  }
}
