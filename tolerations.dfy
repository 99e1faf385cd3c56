/**
 * The Kubernetes toleration as far as the webhook uses it, and the
 * configuration the webhook injects (handlers/pod_tolerations_handler_test.go:287-295).
 */
module Tolerations {
  import opened Wrappers

  /** corev1.TolerationOperator: the two operators the API defines. */
  datatype Operator = Exists | Equal

  /** corev1.TaintEffect: the three effects a taint can carry. */
  datatype Effect = NoSchedule | PreferNoSchedule | NoExecute

  /**
   * A toleration. An empty `key` or `value` is the unset string of the Go
   * struct; an unset effect is `None`.
   */
  datatype Toleration = Toleration(key: string, operator: Operator, value: string, effect: Option<Effect>)

  /** The wire name of an operator. */
  function OperatorName(op: Operator): string {
    match op
    case Exists => "Exists"
    case Equal => "Equal"
  }

  /** The wire name of an effect. */
  function EffectName(e: Effect): string {
    match e
    case NoSchedule => "NoSchedule"
    case PreferNoSchedule => "PreferNoSchedule"
    case NoExecute => "NoExecute"
  }

  /** Reads an operator back from its wire name; any other text is rejected. */
  function ParseOperator(s: string): (r: Option<Operator>)
    ensures r.Some? ==> OperatorName(r.value) == s
    ensures r.None? ==> forall op: Operator :: OperatorName(op) != s
  {
    if s == "Exists" then Some(Exists)
    else if s == "Equal" then Some(Equal)
    else None
  }

  /** Reads an effect back from its wire name; any other text is rejected. */
  function ParseEffect(s: string): (r: Option<Effect>)
    ensures r.Some? ==> EffectName(r.value) == s
    ensures r.None? ==> forall e: Effect :: EffectName(e) != s
  {
    if s == "NoSchedule" then Some(NoSchedule)
    else if s == "PreferNoSchedule" then Some(PreferNoSchedule)
    else if s == "NoExecute" then Some(NoExecute)
    else None
  }

  /** The taint key of AlloyDB host nodes. */
  const AlloyDbHostKey: string := "cloud.google.com/alloydb-host"

  /**
   * The configuration set once at start-up: tolerate the AlloyDB host taint
   * with effect NoSchedule, whatever its value.
   */
  const DefaultTolerations: seq<Toleration> := [Toleration(AlloyDbHostKey, Exists, "", Some(NoSchedule))]

  // ---- What a list of tolerations lets a pod through ----

  /** A node taint. */
  datatype Taint = Taint(key: string, value: string, effect: Effect)

  /**
   * The Kubernetes matching rule (Toleration.ToleratesTaint): an unset effect
   * matches every effect and an empty key every key; Exists matches any
   * value, Equal only the same one.
   */
  predicate ToleratesTaint(t: Toleration, taint: Taint) {
    && (t.effect.None? || t.effect.value == taint.effect)
    && (t.key == "" || t.key == taint.key)
    && (t.operator == Exists || t.value == taint.value)
  }

  /** Some toleration of the list matches the taint. */
  predicate Tolerated(ts: seq<Toleration>, taint: Taint) {
    exists i | 0 <= i < |ts| :: ToleratesTaint(ts[i], taint)
  }

  /** A taint is tolerated by two lists put end to end exactly when one of them tolerates it. */
  lemma {:induction false} ToleratedAppend(a: seq<Toleration>, b: seq<Toleration>, taint: Taint)
    ensures Tolerated(a + b, taint) <==> Tolerated(a, taint) || Tolerated(b, taint)
  {
    var ab := a + b;
    if Tolerated(ab, taint) {
      var i :| 0 <= i < |ab| && ToleratesTaint(ab[i], taint);
      if i < |a| {
        assert ToleratesTaint(a[i], taint);
      } else {
        assert ToleratesTaint(b[i - |a|], taint);
      }
    }
    if Tolerated(a, taint) {
      var i :| 0 <= i < |a| && ToleratesTaint(a[i], taint);
      assert ToleratesTaint(ab[i], taint);
    }
    if Tolerated(b, taint) {
      var i :| 0 <= i < |b| && ToleratesTaint(b[i], taint);
      assert ToleratesTaint(ab[|a| + i], taint);
    }
  }

  /**
   * The default configuration lets a pod through exactly the NoSchedule
   * taints on the AlloyDB host key, whatever their value.
   */
  lemma DefaultToleratesHostTaint(taint: Taint)
    ensures Tolerated(DefaultTolerations, taint) <==> taint.key == AlloyDbHostKey && taint.effect == NoSchedule
  {
    if taint.key == AlloyDbHostKey && taint.effect == NoSchedule {
      assert ToleratesTaint(DefaultTolerations[0], taint);
    }
  }
}
