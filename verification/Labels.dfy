/** Labels and annotations that the operator shares with others (MergePreservingForeign and
    LabelsForInstance in internal/resources/common.go). */
module Labels {
  import opened Wrappers
  import opened Maps

  type LabelMap = map<string, string>

  predicate Owned(prefix: string, key: string) {
    prefix <= key
  }

  /** A key is the operator's exactly when it is the prefix and something after it. */
  lemma OwnedVerdict(prefix: string, key: string)
    ensures Owned(prefix, key) <==> exists rest :: key == prefix + rest
  {
    if Owned(prefix, key) {
      assert key == prefix + key[|prefix|..];
    }
  }

  function Foreign(prefix: string, labels: LabelMap): LabelMap {
    map k | k in labels && !Owned(prefix, k) :: labels[k]
  }

  function Merged(existing: LabelMap, desired: LabelMap, prefix: string): LabelMap {
    Foreign(prefix, existing) + desired
  }

  method MergePreservingForeign(existing: LabelMap, desired: LabelMap, prefix: string) returns (out: LabelMap)
    ensures out == Merged(existing, desired, prefix)
  {
    out := map[];
    var rest := existing.Keys;
    while rest != {}
      invariant rest <= existing.Keys
      invariant forall k :: At(out, k) == if k in existing && k !in rest && !Owned(prefix, k) then Some(existing[k]) else None
      decreases rest
    {
      var k :| k in rest;
      rest := rest - {k};
      if Owned(prefix, k) {
        continue;
      }
      out := out[k := existing[k]];
    }
    SameEverywhere(out, Foreign(prefix, existing));
    rest := desired.Keys;
    while rest != {}
      invariant rest <= desired.Keys
      invariant forall k :: At(out, k) == if k in desired && k !in rest then Some(desired[k]) else At(Foreign(prefix, existing), k)
      decreases rest
    {
      var k :| k in rest;
      rest := rest - {k};
      out := out[k := desired[k]];
    }
    SameEverywhere(out, Merged(existing, desired, prefix));
  }

  /** Reconciling a label map through a sequence of desired maps. */
  function Reconciled(existing: LabelMap, desired: seq<LabelMap>, prefix: string): LabelMap {
    if desired == [] then existing
    else Merged(Reconciled(existing, desired[..|desired| - 1], prefix), desired[|desired| - 1], prefix)
  }

  /** The newest value any of the maps gives the key. */
  function Newest(desired: seq<LabelMap>, key: string): Option<string> {
    if desired == [] then None
    else
      var last := desired[|desired| - 1];
      if key in last then Some(last[key]) else Newest(desired[..|desired| - 1], key)
  }

  function Source(existing: LabelMap, desired: seq<LabelMap>, prefix: string, key: string): Option<string>
    requires desired != []
  {
    if Owned(prefix, key) then At(desired[|desired| - 1], key)
    else if Newest(desired, key).Some? then Newest(desired, key)
    else At(existing, key)
  }

  /** Where each key's value comes from after any number of reconciles: an owned key only
      from the last desired map, a foreign key from the newest map that named it, else it is
      as it was. */
  lemma {:induction false} WhereLabelsComeFrom(existing: LabelMap, desired: seq<LabelMap>, prefix: string, key: string)
    ensures desired != [] ==> At(Reconciled(existing, desired, prefix), key) == Source(existing, desired, prefix, key)
  {
    if desired != [] {
      var earlier, last := desired[..|desired| - 1], desired[|desired| - 1];
      MergedAt(Reconciled(existing, earlier, prefix), last, prefix, key);
      if earlier != [] {
        WhereLabelsComeFrom(existing, earlier, prefix, key);
      }
      assert Reconciled(existing, desired, prefix) == Merged(Reconciled(existing, earlier, prefix), last, prefix);
      assert Newest(desired, key) == if key in last then Some(last[key]) else Newest(earlier, key);
      if earlier == [] {
        assert Newest(earlier, key) == None;
      }
    }
  }

  lemma MergedAt(existing: LabelMap, desired: LabelMap, prefix: string, key: string)
    ensures At(Merged(existing, desired, prefix), key) ==
      if key in desired then Some(desired[key]) else if Owned(prefix, key) then None else At(existing, key)
  {
  }

  /** History leaves no trace - the result is that of one merge with the last desired map -
      exactly when every foreign key that was desired before, and is no longer, already had
      its newest desired value to begin with. */
  lemma HistoryLeavesNoTrace(existing: LabelMap, desired: seq<LabelMap>, prefix: string)
    requires desired != []
    ensures var last := desired[|desired| - 1];
      Reconciled(existing, desired, prefix) == Merged(existing, last, prefix) <==>
        forall k :: !Owned(prefix, k) && k !in last && Newest(desired, k).Some? ==> At(existing, k) == Newest(desired, k)
  {
    var last := desired[|desired| - 1];
    var many, one := Reconciled(existing, desired, prefix), Merged(existing, last, prefix);
    forall k ensures At(many, k) == At(one, k) <==>
      (!Owned(prefix, k) && k !in last && Newest(desired, k).Some? ==> At(existing, k) == Newest(desired, k))
    {
      WhereLabelsComeFrom(existing, desired, prefix, k);
      MergedAt(existing, last, prefix, k);
    }
    if forall k :: At(many, k) == At(one, k) {
      SameEverywhere(many, one);
    }
  }

  /** The standard labels of an instance. */
  function LabelsForInstance(name: string): LabelMap {
    map[
      "app.kubernetes.io/name" := "hermes-agent",
      "app.kubernetes.io/instance" := name,
      "app.kubernetes.io/managed-by" := "hermes-operator",
      "app.kubernetes.io/part-of" := "hermes.agent"]
  }

  const OPERATOR_PREFIX := "hermes.agent/"

  /** The operator's own label maps always name the standard keys and add only owned ones, so
      for them history never leaves a trace. */
  lemma OperatorLabelsConverge(existing: LabelMap, names: seq<string>, extras: seq<LabelMap>)
    requires names != [] && |names| == |extras|
    requires forall i :: 0 <= i < |extras| ==> forall k :: k in extras[i] ==> Owned("hermes.agent/", k)
    ensures var desired := seq(|names|, i requires 0 <= i < |names| => LabelsForInstance(names[i]) + extras[i]);
      Reconciled(existing, desired, "hermes.agent/") == Merged(existing, desired[|names| - 1], "hermes.agent/")
  {
    var desired := seq(|names|, i requires 0 <= i < |names| => LabelsForInstance(names[i]) + extras[i]);
    var last := desired[|names| - 1];
    forall k | !Owned(OPERATOR_PREFIX, k) && k !in last ensures Newest(desired, k).None? {
      forall i | 0 <= i < |desired| ensures k !in desired[i] {
        assert desired[i].Keys == LabelsForInstance(names[i]).Keys + extras[i].Keys;
        assert LabelsForInstance(names[i]).Keys == LabelsForInstance(names[|names| - 1]).Keys;
      }
      NeverNamed(desired, k);
    }
    HistoryLeavesNoTrace(existing, desired, OPERATOR_PREFIX);
  }

  lemma {:induction false} NeverNamed(desired: seq<LabelMap>, key: string)
    requires forall i :: 0 <= i < |desired| ==> key !in desired[i]
    ensures Newest(desired, key).None?
  {
    if desired != [] {
      NeverNamed(desired[..|desired| - 1], key);
    }
  }

  /** The labels tell instances apart, and name the operator and its application. */
  lemma StandardLabels(a: string, b: string)
    ensures LabelsForInstance(a) == LabelsForInstance(b) <==> a == b
    ensures forall k :: k in LabelsForInstance(a) ==> !Owned("hermes.agent/", k)
    ensures At(LabelsForInstance(a), "app.kubernetes.io/name") == Some("hermes-agent")
    ensures At(LabelsForInstance(a), "app.kubernetes.io/instance") == Some(a)
    ensures At(LabelsForInstance(a), "app.kubernetes.io/managed-by") == Some("hermes-operator")
    ensures At(LabelsForInstance(a), "app.kubernetes.io/part-of") == Some("hermes.agent")
  {
    assert "app.kubernetes.io/name"[0] == 'a' && "hermes.agent/"[0] == 'h';
    var la, lb := LabelsForInstance(a), LabelsForInstance(b);
    assert la["app.kubernetes.io/instance"] == a && lb["app.kubernetes.io/instance"] == b;
  }
}
