/**
 A model of the value chain of Go's `context.Context`.

 A context is either the root (`context.Background()`) or a node made by
 `context.WithValue(parent, key, val)` that keeps a pointer to its parent.
 Contexts are immutable: deriving a new one never touches the parent, so the
 chain is an ordinary inductive datatype. `ctx.Value(key)` walks from the
 node towards the root and returns the value of the nearest node whose key
 is equal to `key`, or nil when no node matches.
 */
module GoContext {
  import opened Wrappers

  datatype Context<K, V> =
    | Background
    | ValueCtx(parent: Context<K, V>, key: K, val: V)

  /** One key/value pair stored in the chain. */
  datatype Entry<K, V> = Entry(key: K, val: V)

  /** The entries of the chain, nearest first: the reference order of a lookup. */
  function Entries<K, V>(ctx: Context<K, V>): (es: seq<Entry<K, V>>)
    ensures ctx.Background? <==> es == []
  {
    match ctx
    case Background => []
    case ValueCtx(parent, key, val) => [Entry(key, val)] + Entries(parent)
  }

  /** True when no entry of `es` before index `i` carries `key`. */
  ghost predicate NoKeyBefore<K, V>(es: seq<Entry<K, V>>, i: int, key: K)
    requires 0 <= i <= |es|
  {
    forall j :: 0 <= j < i ==> es[j].key != key
  }

  /** `context.WithValue`: a derived context whose own entry is (key, val). */
  function WithValue<K, V>(parent: Context<K, V>, key: K, val: V): (c: Context<K, V>)
    ensures c.ValueCtx? && c.parent == parent
    ensures Entries(c) == [Entry(key, val)] + Entries(parent)
  {
    ValueCtx(parent, key, val)
  }

  /**
   `ctx.Value(key)`: the value of the nearest entry whose key equals `key`,
   None (Go's nil) when there is none.
   */
  function Value<K(==), V>(ctx: Context<K, V>, key: K): (r: Option<V>)
    ensures r.None? <==> NoKeyBefore(Entries(ctx), |Entries(ctx)|, key)
    ensures r.Some? ==>
      exists i :: 0 <= i < |Entries(ctx)| && Entries(ctx)[i] == Entry(key, r.value)
                  && NoKeyBefore(Entries(ctx), i, key)
  {
    match ctx
    case Background => None
    case ValueCtx(parent, k, v) =>
      if k == key then
        assert Entries(ctx)[0] == Entry(key, v);
        Some(v)
      else
        var r := Value(parent, key);
        var es, ps := Entries(ctx), Entries(parent);
        assert NoKeyBefore(es, |es|, key) <==> NoKeyBefore(ps, |ps|, key) by {
          if NoKeyBefore(ps, |ps|, key) {
            forall j | 0 <= j < |es| ensures es[j].key != key {
              if j > 0 { assert es[j] == ps[j - 1]; }
            }
          }
          if NoKeyBefore(es, |es|, key) {
            forall j | 0 <= j < |ps| ensures ps[j].key != key {
              assert es[j + 1] == ps[j];
            }
          }
        }
        assert r.Some? ==> exists i :: 0 <= i < |es| && es[i] == Entry(key, r.value) && NoKeyBefore(es, i, key) by {
          if r.Some? {
            var i :| 0 <= i < |ps| && ps[i] == Entry(key, r.value) && NoKeyBefore(ps, i, key);
            assert es[i + 1] == ps[i];
            forall j | 0 <= j < i + 1 ensures es[j].key != key {
              if j > 0 { assert es[j] == ps[j - 1]; }
            }
          }
        }
        r
  }

  /** The entries of `es` in reverse order. */
  function Reversed<T>(es: seq<T>): (r: seq<T>)
    ensures |r| == |es|
    ensures forall i :: 0 <= i < |es| ==> r[i] == es[|es| - 1 - i]
  {
    if es == [] then [] else Reversed(es[1..]) + [es[0]]
  }

  /**
   Derive successively from `ctx` with each entry of `es`, in order: the last
   entry of `es` ends up nearest, in front of the entries of `ctx`.
   */
  function Extend<K, V>(ctx: Context<K, V>, es: seq<Entry<K, V>>): (c: Context<K, V>)
    ensures Entries(c) == Reversed(es) + Entries(ctx)
    decreases |es|
  {
    if es == [] then ctx
    else Extend(WithValue(ctx, es[0].key, es[0].val), es[1..])
  }

  /** A derivation under one key leaves the lookup of every other key as it was. */
  lemma ValueWithValue<K, V>(parent: Context<K, V>, key: K, val: V, other: K)
    ensures Value(WithValue(parent, key, val), key) == Some(val)
    ensures other != key ==> Value(WithValue(parent, key, val), other) == Value(parent, other)
  {
  }

  /** Entries added later in the chain under keys other than `key` do not change its lookup. */
  lemma {:induction false} ValueAfterExtend<K, V>(ctx: Context<K, V>, es: seq<Entry<K, V>>, key: K)
    requires forall i :: 0 <= i < |es| ==> es[i].key != key
    ensures Value(Extend(ctx, es), key) == Value(ctx, key)
    decreases |es|
  {
    if es != [] {
      var next := WithValue(ctx, es[0].key, es[0].val);
      ValueWithValue(ctx, es[0].key, es[0].val, key);
      ValueAfterExtend(next, es[1..], key);
    }
  }

  /** A lookup sees the most recent derivation under its key, however many came before. */
  lemma {:induction false} ValueAfterExtendLast<K, V>(ctx: Context<K, V>, es: seq<Entry<K, V>>, key: K, val: V)
    ensures Value(Extend(ctx, es + [Entry(key, val)]), key) == Some(val)
    decreases |es|
  {
    if es == [] {
      assert [Entry(key, val)][1..] == [];
    } else {
      assert (es + [Entry(key, val)])[1..] == es[1..] + [Entry(key, val)];
      ValueAfterExtendLast(WithValue(ctx, es[0].key, es[0].val), es[1..], key, val);
    }
  }
}
