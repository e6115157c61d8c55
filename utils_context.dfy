/**
 The credential-reference carrier (package utils): a request-scoped context
 carries the Flux kubeconfig reference of a remote cluster down the call
 chain. The reference is stored under a key of an unexported type, so no
 other package can store or overwrite a value under it.
 */
module Utils {
  import opened Wrappers
  import opened GoContext

  /** `corev1.SecretReference`: a secret's name and namespace. */
  datatype SecretReference = SecretReference(name: string, namespace: string)

  /** `meta.SecretKeyReference`: a secret and the key of the data entry inside it. */
  datatype SecretKeyReference = SecretKeyReference(name: string, key: string)

  /** `meta.KubeConfigReference`: where to find a kubeconfig; only the secret form is used here. */
  datatype KubeConfigReference = KubeConfigReference(secretRef: Option<SecretKeyReference>)

  /** Context keys: the package's own `fluxKubeconfigKey{}`, or a key of some other package. */
  datatype Key = FluxKubeconfigKey | ForeignKey(id: string)

  /** Values stored in a context (Go's `any`): a `*meta.KubeConfigReference`, or a value of another package. */
  datatype Any = KubeConfigRefValue(ref: KubeConfigReference) | ForeignValue(data: string)

  type Ctx = Context<Key, Any>

  /** A failed type assertion `x.(*meta.KubeConfigReference)`. */
  datatype Panic =
    | NilInterfaceConversion    // no value was found: the interface is nil
    | WrongTypeConversion       // a value of another dynamic type was found

  /** The data key inside the secret that holds the kubeconfig. */
  const KubeconfigKey: string := "kubeconfig"

  /** The canonical reference built for a secret: its name and the fixed key; its namespace is dropped. */
  function CanonicalRef(ref: SecretReference): (k: KubeConfigReference)
    ensures k.secretRef.Some?
    ensures k.secretRef.value.name == ref.name && k.secretRef.value.key == KubeconfigKey
  {
    KubeConfigReference(Some(SecretKeyReference(ref.name, KubeconfigKey)))
  }

  /** A derived context carrying the canonical reference for `ref`; the parent is kept as it is. */
  function WithFluxKubeconfigRef(ctx: Ctx, ref: SecretReference): (c: Ctx)
    ensures c.ValueCtx? && c.parent == ctx
    ensures Entries(c) == [Entry(FluxKubeconfigKey, KubeConfigRefValue(CanonicalRef(ref)))] + Entries(ctx)
  {
    WithValue(ctx, FluxKubeconfigKey, KubeConfigRefValue(CanonicalRef(ref)))
  }

  /**
   The reference stored under the package's key by the nearest attach, or the
   panic of the unchecked type assertion when there is none.
   */
  function FluxKubeconfigRef(ctx: Ctx): (r: Result<KubeConfigReference, Panic>)
    ensures Value(ctx, FluxKubeconfigKey).None? <==> r == Failure(NilInterfaceConversion)
    ensures r.Success? <==> Value(ctx, FluxKubeconfigKey).Some? && Value(ctx, FluxKubeconfigKey).value.KubeConfigRefValue?
    ensures r.Success? ==> Value(ctx, FluxKubeconfigKey) == Some(KubeConfigRefValue(r.value))
  {
    var found: Option<Any> := Value(ctx, FluxKubeconfigKey);
    if found.None? then Failure(NilInterfaceConversion)
    else match found.value
      case KubeConfigRefValue(ref) => Success(ref)
      case ForeignValue(_) => Failure(WrongTypeConversion)
  }

  /** Some context along the chain was derived by an attach. */
  ghost predicate Attached(ctx: Ctx) {
    exists i :: 0 <= i < |Entries(ctx)| && Entries(ctx)[i].key == FluxKubeconfigKey
  }

  /**
   What Go's type system guarantees of every context: since only this package
   can name its key, every entry under it holds a canonical reference.
   */
  ghost predicate WellFormed(ctx: Ctx) {
    forall i :: 0 <= i < |Entries(ctx)| && Entries(ctx)[i].key == FluxKubeconfigKey ==>
      Entries(ctx)[i].val.KubeConfigRefValue?
      && Entries(ctx)[i].val.ref.secretRef.Some?
      && Entries(ctx)[i].val.ref.secretRef.value.key == KubeconfigKey
  }

  /** The root context holds no entry, so it is well formed. */
  lemma WellFormedBackground()
    ensures WellFormed(Background)
  {
  }

  /** Every context derived from a well-formed one by an attach or under a foreign key is well formed. */
  lemma WellFormedPreserved(ctx: Ctx, ref: SecretReference, id: string, data: Any)
    requires WellFormed(ctx)
    ensures WellFormed(WithFluxKubeconfigRef(ctx, ref))
    ensures WellFormed(WithValue(ctx, ForeignKey(id), data))
  {
  }

  /** Reading right after an attach gives the canonical reference: the attached name and the fixed key. */
  lemma AttachThenRead(ctx: Ctx, ref: SecretReference)
    ensures FluxKubeconfigRef(WithFluxKubeconfigRef(ctx, ref)) == Success(CanonicalRef(ref))
    ensures FluxKubeconfigRef(WithFluxKubeconfigRef(ctx, ref)).value.secretRef.value.name == ref.name
    ensures FluxKubeconfigRef(WithFluxKubeconfigRef(ctx, ref)).value.secretRef.value.key == "kubeconfig"
  {
  }

  /** The stored reference depends on the secret's name alone, not on its namespace. */
  lemma AttachIgnoresNamespace(ctx: Ctx, a: SecretReference, b: SecretReference)
    requires a.name == b.name
    ensures WithFluxKubeconfigRef(ctx, a) == WithFluxKubeconfigRef(ctx, b)
  {
  }

  /** On a well-formed context a read succeeds exactly when some ancestor attached, and then carries the fixed key. */
  lemma ReadSucceedsIffAttached(ctx: Ctx)
    requires WellFormed(ctx)
    ensures FluxKubeconfigRef(ctx).Success? <==> Attached(ctx)
    ensures FluxKubeconfigRef(ctx).Success? ==>
      FluxKubeconfigRef(ctx).value.secretRef.Some?
      && FluxKubeconfigRef(ctx).value.secretRef.value.key == KubeconfigKey
  {
  }

  /** Without an attach anywhere in the chain the read panics; it never yields a zero-valued reference. */
  lemma ReadWithoutAttachFails(ctx: Ctx)
    requires !Attached(ctx)
    ensures FluxKubeconfigRef(ctx) == Failure(NilInterfaceConversion)
  {
  }

  /** A nested attach shadows the outer one in its own subtree, while the outer context still reads its own. */
  lemma NestedAttachShadows(root: Ctx, a: SecretReference, b: SecretReference)
    ensures FluxKubeconfigRef(WithFluxKubeconfigRef(WithFluxKubeconfigRef(root, a), b)) == Success(CanonicalRef(b))
    ensures FluxKubeconfigRef(WithFluxKubeconfigRef(root, a)) == Success(CanonicalRef(a))
  {
  }

  /**
   Deriving leaves the parent as it was: the child's parent still reads what the
   parent reads, and two siblings derived from one parent each read their own.
   */
  lemma DeriveKeepsParent(parent: Ctx, a: SecretReference, b: SecretReference)
    ensures WithFluxKubeconfigRef(parent, a).parent == parent
    ensures Entries(WithFluxKubeconfigRef(parent, a))[1..] == Entries(parent)
    ensures FluxKubeconfigRef(WithFluxKubeconfigRef(parent, a).parent) == FluxKubeconfigRef(parent)
    ensures FluxKubeconfigRef(WithFluxKubeconfigRef(parent, a)) == Success(CanonicalRef(a))
    ensures FluxKubeconfigRef(WithFluxKubeconfigRef(parent, b)) == Success(CanonicalRef(b))
  {
  }

  /** Entries under other keys, added later in the chain, do not change the read. */
  lemma ForeignEntriesDoNotInterfere(ctx: Ctx, es: seq<Entry<Key, Any>>)
    requires forall i :: 0 <= i < |es| ==> es[i].key != FluxKubeconfigKey
    ensures FluxKubeconfigRef(Extend(ctx, es)) == FluxKubeconfigRef(ctx)
  {
    ValueAfterExtend(ctx, es, FluxKubeconfigKey);
  }

  /** After any chain of derivations, an attach at the end decides the read. */
  lemma LastAttachWins(ctx: Ctx, es: seq<Entry<Key, Any>>, ref: SecretReference)
    ensures FluxKubeconfigRef(Extend(ctx, es + [Entry(FluxKubeconfigKey, KubeConfigRefValue(CanonicalRef(ref)))]))
      == Success(CanonicalRef(ref))
  {
    ValueAfterExtendLast(ctx, es, FluxKubeconfigKey, KubeConfigRefValue(CanonicalRef(ref)));
  }
}
