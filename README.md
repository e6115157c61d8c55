# ProviderConfig resolution and the Flux kubeconfig carrier

A Dafny model of two small pieces of the OCM service provider:

- **The ProviderConfig resource** (`V1alpha1`, `providerconfig_types.dfy`). The spec has four optional
  fields: a poll interval, a chart URL, Helm values and an image pull secret. Four accessors turn a
  possibly-nil `*ProviderConfig` into effective values. A nil receiver is `None` of an `Option`.
  `GetChartURL`, `GetValues` and `GetImagePullSecret` are nil-safe and total. `GetChartURL` falls back
  to `DefaultChartURL` (`ghcr.io/open-component-model/charts/ocm-k8s-toolkit`). `PollInterval` is not
  nil-safe: the Go code dereferences the receiver and `Spec.PollInterval` unguarded, so the model
  requires both to be present. It applies no default.
- **The credential-reference carrier** (`Utils`, `utils_context.dfy`). `WithFluxKubeconfigRef`
  derives a context holding the canonical reference `{Name: ref.Name, Key: "kubeconfig"}` under the
  package's private key. `FluxKubeconfigRef` reads it back with an unchecked type assertion.
  Go's `context` value chain is modelled in `GoContext` (`go_context.dfy`) as an immutable inductive
  list. `context.WithValue` adds a node. `ctx.Value(key)` returns the nearest matching node's value,
  or nil. The panic of the failed type assertion is a typed `Failure` of a `Result`:
  - `NilInterfaceConversion` when no value is found;
  - `WrongTypeConversion` when a value of another type is found. This cannot happen in Go, because no
    other package can name the key. `Utils.WellFormed` states that guarantee.

`Wrappers` (`wrappers.dfy`) holds the `Option` and `Result` datatypes.

The central specification is `GoContext.Value`. Its contract is a first-match lookup over
`GoContext.Entries`, the chain's entries listed nearest first. The carrier's properties are proved
from it: round trip, fixed key, shadowing, untouched parent, no interference from foreign keys, and
failure without an attach.

## Model

| member | source | states |
|---|---|---|
| V1alpha1.PollInterval | api/v1alpha1/providerconfig_types.go:108-112 | requires a non-nil receiver and a non-nil `Spec.PollInterval`; the result is exactly the stored duration, with no default applied |
| V1alpha1.GetChartURL | api/v1alpha1/providerconfig_types.go:114-120 | never empty; either `DefaultChartURL` or the configured URL; a non-empty configured URL is returned verbatim; total over a nil receiver |
| V1alpha1.GetValues | api/v1alpha1/providerconfig_types.go:122-128 | nil for a nil receiver, otherwise exactly `Spec.Values`, uninterpreted |
| V1alpha1.GetImagePullSecret | api/v1alpha1/providerconfig_types.go:130-136 | nil for a nil receiver, otherwise exactly `Spec.ImagePullSecret` |
| V1alpha1.NilReceiverFallbacks | api/v1alpha1/providerconfig_types.go:114-136 | on a nil receiver: default chart URL, no values, no pull secret |
| V1alpha1.ChartURLIsDefaultIff | api/v1alpha1/providerconfig_types.go:115-120 | the effective URL is the default if and only if the receiver is nil, the URL is empty, or the URL is the default itself |
| V1alpha1.ChartURLResolutionIsIdempotent | api/v1alpha1/providerconfig_types.go:115-120 | writing the effective URL into any spec resolves to the same URL |
| V1alpha1.AccessorsReadOnlyTheirField | api/v1alpha1/providerconfig_types.go:108-136 | each accessor is a pure read of its own spec field: configs that agree on that field resolve it alike |
| V1alpha1.ScenarioEmptyURLWithValues | api/v1alpha1/providerconfig_types.go:114-136 | empty URL, values `{"replicas":3}`, no pull secret: default URL, the values verbatim, no pull secret |
| GoContext.WithValue | utils/context.go:13 | the derived context has the given parent and one new entry in front of the parent's entries |
| GoContext.Value | utils/context.go:22 | nil exactly when no entry has the key; otherwise the value of the first (nearest) entry with that key |
| GoContext.Extend | utils/context.go:13 | a chain of derivations puts its entries in front of the parent's entries, the last one nearest |
| GoContext.ValueWithValue | utils/context.go:13-22 | a lookup under the key just stored sees the new value; every other key reads as in the parent |
| GoContext.ValueAfterExtend | utils/context.go:10-22 | entries added later under other keys leave a lookup unchanged |
| GoContext.ValueAfterExtendLast | utils/context.go:13-22 | after any chain of derivations, the last entry under a key decides its lookup |
| Utils.CanonicalRef | utils/context.go:13-18 | the stored reference has a secret ref with the input's name and the constant key `"kubeconfig"` |
| Utils.WithFluxKubeconfigRef | utils/context.go:12-19 | the derived context keeps the parent and adds exactly one entry: the canonical reference under the package's key |
| Utils.FluxKubeconfigRef | utils/context.go:21-23 | a nil-interface panic exactly when nothing is stored under the key; success exactly when a reference is stored, and then it is that reference |
| Utils.WellFormedBackground | utils/context.go:10-22 | the root context, with no entries, is well formed |
| Utils.WellFormedPreserved | utils/context.go:10-19 | attaches and derivations under foreign keys both keep the property that the package's key holds only canonical references |
| Utils.AttachThenRead | utils/context.go:12-22 | reading after an attach yields the canonical reference: the input's name and the key `"kubeconfig"` |
| Utils.AttachIgnoresNamespace | utils/context.go:14-17 | the stored reference depends on the secret's name only: whatever else the input holds is dropped |
| Utils.ReadSucceedsIffAttached | utils/context.go:10-23 | on a well-formed context, a read succeeds if and only if some ancestor attached, and then the key is `"kubeconfig"` |
| Utils.ReadWithoutAttachFails | utils/context.go:22 | with no attach in the chain the read fails with the nil-interface panic, never a zero-valued reference |
| Utils.NestedAttachShadows | utils/context.go:13-22 | reading `With(With(c, a), b)` gives `b`'s reference, and reading `With(c, a)` still gives `a`'s |
| Utils.DeriveKeepsParent | utils/context.go:13 | deriving keeps the parent and its entries, and the child's parent reads as the parent does; two siblings derived from one parent each read their own canonical reference |
| Utils.ForeignEntriesDoNotInterfere | utils/context.go:10-22 | entries under other keys, added later in the chain, do not change the read |
| Utils.LastAttachWins | utils/context.go:13-22 | after any chain of derivations, a final attach decides the read |

## Left out

- `init()` and `SchemeBuilder.Register` (api/v1alpha1/providerconfig_types.go:104-106): a global type-registry side effect of controller-runtime, which is not part of this model.
- `metav1.TypeMeta`, `ObjectMeta`, `ListMeta` and `ProviderConfigList`: API machinery that no accessor reads.
- The kubebuilder markers: they drive CRD generation. The `1m` default for `pollInterval` is applied by the API server, not by this code. It appears only as the precondition of `V1alpha1.PollInterval`.
- `Status.Conditions`: owned by an external reconciler. Nothing here reads or updates it, so `ProviderConfig` holds only its spec.
- No accessor changes the config. The model captures this by construction: Dafny functions over immutable values have no side effects.
- `apiextensionsv1.JSON` is kept as raw, uninterpreted bytes, because nothing here parses it. `corev1.LocalObjectReference` is a record with just a name.
- `time.Duration` is a 64-bit signed integer, with no arithmetic on it.
- Utils.WithFluxKubeconfigRef: takes the secret reference as a value. The Go code dereferences a pointer (`ref.Name`) unguarded, and the panic on a nil pointer is not modelled.
- `meta.KubeConfigReference` has only its `SecretRef` field here. The other fields are never set by this code.
- Go `context` cancellation, deadlines, and the other context kinds (which pass `Value` through to their parent), plus goroutine safety: only the immutable value chain matters here.
- Utils.FluxKubeconfigRef: returns `Failure(NilInterfaceConversion)` where the Go code panics on the type assertion of a nil interface. The panic becomes a typed failure so that it can be told apart from a found reference.
- The stored and returned references are treated as immutable values. In Go, `WithFluxKubeconfigRef` stores one `*meta.KubeConfigReference`, and every later `FluxKubeconfigRef` on that context or its descendants returns that same pointer. Likewise `GetValues` and `GetImagePullSecret` return pointers into the spec. So `Utils.AttachThenRead`, `Utils.DeriveKeepsParent`, `Utils.WellFormed` and the claim that the accessors leave the config unchanged hold in Go only if no caller writes through those pointers. Aliasing is not modelled.
- A nil `context.Context` is not modelled: `Ctx` has no nil value. In Go, `context.WithValue` panics on a nil parent, and `FluxKubeconfigRef(nil)` panics when it calls `Value`.
