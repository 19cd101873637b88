// The text a provisioning plan is identified by, and instance ownership labels.
module PlanTexts {
  import opened Text
  import opened Instances

  // The nine specification fields that identify a plan.
  datatype Spec = Spec(
    name: string, provider: string, kind: string, image: string, cpu: int, memoryMB: int, storageGB: int,
    hostID: string, networkName: string)

  // The string that is hashed.
  function PlanText(s: Spec): string {
    s.name + ":" + s.provider + ":" + s.kind + ":" + s.image + ":" +
    SignedDecimal(s.cpu) + ":" + SignedDecimal(s.memoryMB) + ":" + SignedDecimal(s.storageGB) + ":" +
    s.hostID + ":" + s.networkName
  }

  function TextFields(s: Spec): seq<string> { [s.name, s.provider, s.kind, s.image, s.hostID, s.networkName] }

  // Every text field but the image is free of the separator.
  predicate ColonFree(s: Spec) {
    ':' !in s.name && ':' !in s.provider && ':' !in s.kind && ':' !in s.hostID && ':' !in s.networkName
  }

  lemma NumeralSplits(n: int)
    ensures Split(SignedDecimal(n), ':') == [SignedDecimal(n)]
  {
    if ':' in SignedDecimal(n) {
      SignedDecimalHas(n, ':');
    }
    SplitClean(SignedDecimal(n), ':');
  }

  // Splitting the plan text splits each of its fields.
  lemma PlanTextSplits(s: Spec)
    ensures Split(PlanText(s), ':') ==
              Split(s.name, ':') + Split(s.provider, ':') + Split(s.kind, ':') + Split(s.image, ':') +
              [SignedDecimal(s.cpu), SignedDecimal(s.memoryMB), SignedDecimal(s.storageGB)] +
              Split(s.hostID, ':') + Split(s.networkName, ':')
  {
    var t2 := s.name + ":" + s.provider;
    var t3 := t2 + ":" + s.kind;
    var t4 := t3 + ":" + s.image;
    var t5 := t4 + ":" + SignedDecimal(s.cpu);
    var t6 := t5 + ":" + SignedDecimal(s.memoryMB);
    var t7 := t6 + ":" + SignedDecimal(s.storageGB);
    var t8 := t7 + ":" + s.hostID;
    SplitAppend(s.name, ':', s.provider);
    SplitAppend(t2, ':', s.kind);
    SplitAppend(t3, ':', s.image);
    SplitAppend(t4, ':', SignedDecimal(s.cpu));
    SplitAppend(t5, ':', SignedDecimal(s.memoryMB));
    SplitAppend(t6, ':', SignedDecimal(s.storageGB));
    SplitAppend(t7, ':', s.hostID);
    SplitAppend(t8, ':', s.networkName);
    NumeralSplits(s.cpu);
    NumeralSplits(s.memoryMB);
    NumeralSplits(s.storageGB);
  }

  // With colon-free fields the parts are the fields: three in front, five
  // behind, and the image in between whatever it contains.
  lemma PlanTextParts(s: Spec)
    requires ColonFree(s)
    ensures var parts, image := Split(PlanText(s), ':'), Split(s.image, ':');
            |parts| == 8 + |image| && parts[3..3 + |image|] == image &&
            parts[0] == s.name && parts[1] == s.provider && parts[2] == s.kind &&
            parts[|parts| - 5] == SignedDecimal(s.cpu) && parts[|parts| - 4] == SignedDecimal(s.memoryMB) &&
            parts[|parts| - 3] == SignedDecimal(s.storageGB) &&
            parts[|parts| - 2] == s.hostID && parts[|parts| - 1] == s.networkName
  {
    PlanTextSplits(s);
    SplitClean(s.name, ':');
    SplitClean(s.provider, ':');
    SplitClean(s.kind, ':');
    SplitClean(s.hostID, ':');
    SplitClean(s.networkName, ':');
  }

  // The plan text determines all nine fields, even when images contain colons.
  lemma PlanTextInjective(s: Spec, t: Spec)
    requires ColonFree(s) && ColonFree(t)
    requires PlanText(s) == PlanText(t)
    ensures s == t
  {
    PlanTextParts(s);
    PlanTextParts(t);
    SplitInjective(s.image, t.image, ':');
    SignedDecimalInjective(s.cpu, t.cpu);
    SignedDecimalInjective(s.memoryMB, t.memoryMB);
    SignedDecimalInjective(s.storageGB, t.storageGB);
  }

  // Without any restriction on the other specification, the text identifies s
  // exactly when none of its text fields, the image included, has a colon.
  lemma PlanTextIdentifiesIff(s: Spec)
    ensures (forall t :: PlanText(t) == PlanText(s) ==> t == s) <==>
              forall i :: 0 <= i < 6 ==> ':' !in TextFields(s)[i]
  {
    var clean := forall i :: 0 <= i < 6 ==> ':' !in TextFields(s)[i];
    if clean {
      forall t | PlanText(t) == PlanText(s) ensures t == s {
        assert ColonFree(s) by {
          var f := TextFields(s);
          assert ':' !in f[0] && ':' !in f[1] && ':' !in f[2] && ':' !in f[4] && ':' !in f[5];
        }
        assert ':' !in TextFields(s)[3];
        SplitClean(s.image, ':');
        PlanTextParts(s);
        NinePartsMeansClean(t);
        PlanTextInjective(s, t);
      }
    } else {
      var t := SameTextOther(s);
    }
  }

  // A text of nine parts comes from fields without colons.
  lemma NinePartsMeansClean(t: Spec)
    requires |Split(PlanText(t), ':')| == 9
    ensures ColonFree(t)
  {
    PlanTextSplits(t);
    forall f | f in TextFields(t) ensures ':' !in f {
      if ':' in f {
        var a, b := SplitAtFirst(f, ':');
      }
    }
    var fs := TextFields(t);
    assert fs[0] in fs && fs[1] in fs && fs[2] in fs && fs[4] in fs && fs[5] in fs;
  }

  // A field with a colon can give part of itself to its neighbour.
  lemma SameTextOther(s: Spec) returns (t: Spec)
    requires exists i :: 0 <= i < 6 && ':' in TextFields(s)[i]
    ensures t != s && PlanText(t) == PlanText(s)
  {
    if ':' in s.name || ':' in s.provider {
      t := SameTextOtherFront(s);
    } else if ':' in s.kind || ':' in s.image {
      t := SameTextOtherMiddle(s);
    } else {
      var fs := TextFields(s);
      var i :| 0 <= i < 6 && ':' in fs[i];
      t := SameTextOtherEnd(s);
    }
  }

  lemma SameTextOtherFront(s: Spec) returns (t: Spec)
    requires ':' in s.name || ':' in s.provider
    ensures t != s && PlanText(t) == PlanText(s)
  {
    if ':' in s.name {
      var a, b := SplitAtFirst(s.name, ':');
      t := s.(name := a, provider := b + ":" + s.provider);
      assert t.name + ":" + t.provider == s.name + ":" + s.provider;
    } else {
      var a, b := SplitAtFirst(s.provider, ':');
      t := s.(provider := a, kind := b + ":" + s.kind);
      assert s.name + ":" + t.provider + ":" + t.kind == s.name + ":" + s.provider + ":" + s.kind;
    }
  }

  lemma SameTextOtherMiddle(s: Spec) returns (t: Spec)
    requires ':' in s.kind || ':' in s.image
    ensures t != s && PlanText(t) == PlanText(s)
  {
    var front := s.name + ":" + s.provider + ":";
    if ':' in s.kind {
      var a, b := SplitAtFirst(s.kind, ':');
      t := s.(kind := a, image := b + ":" + s.image);
      assert front + t.kind + ":" + t.image == front + s.kind + ":" + s.image;
    } else {
      var a, b := SplitAtFirst(s.image, ':');
      t := s.(kind := s.kind + ":" + a, image := b);
      assert front + t.kind + ":" + t.image == front + s.kind + ":" + s.image;
    }
  }

  lemma SameTextOtherEnd(s: Spec) returns (t: Spec)
    requires ':' in s.hostID || ':' in s.networkName
    ensures t != s && PlanText(t) == PlanText(s)
  {
    if ':' in s.hostID {
      var a, b := SplitAtFirst(s.hostID, ':');
      t := s.(hostID := a, networkName := b + ":" + s.networkName);
    } else {
      var a, b := SplitAtFirst(s.networkName, ':');
      t := s.(hostID := s.hostID + ":" + a, networkName := b);
    }
    HostEnd(s, t);
  }

  lemma HostEnd(s: Spec, t: Spec)
    requires t == s.(hostID := t.hostID, networkName := t.networkName)
    requires t.hostID + ":" + t.networkName == s.hostID + ":" + s.networkName
    ensures PlanText(t) == PlanText(s)
  {
    var front := s.name + ":" + s.provider + ":" + s.kind + ":" + s.image + ":" +
                 SignedDecimal(s.cpu) + ":" + SignedDecimal(s.memoryMB) + ":" + SignedDecimal(s.storageGB) + ":";
    assert PlanText(s) == front + (s.hostID + ":" + s.networkName);
    assert PlanText(t) == front + (t.hostID + ":" + t.networkName);
  }

  // --------------------------------------------------------------- ownership

  datatype Ownership = MysticOwned | External | UnknownOwner

  function EitherLabel(labels: Labels, first: string, second: string): string {
    if Property(labels, first) != "" then Property(labels, first) else Property(labels, second)
  }

  function OwnedLabel(labels: Labels): string { EitherLabel(labels, "user.mystic.owned", "mystic.owned") }

  function WorkloadLabel(labels: Labels): string { EitherLabel(labels, "user.mystic.workload_id", "mystic.workload_id") }

  function CheckOwnership(inst: Option<Instance>, workloadID: string): Ownership {
    match inst
    case None => UnknownOwner
    case Some(i) =>
      if i.labels.Some? && OwnedLabel(i.labels.value) == "true" && WorkloadLabel(i.labels.value) == workloadID
      then MysticOwned else External
  }

  predicate OwnedBy(i: Instance, workloadID: string) { CheckOwnership(Some(i), workloadID) == MysticOwned }

  // Ownership, label by label: the long form counts where it is set, the short form
  // otherwise.
  lemma OwnedByLabels(i: Instance, id: string)
    requires i.labels.Some? && id != ""
    ensures var labels := i.labels.value;
            OwnedBy(i, id) <==>
              (Property(labels, "user.mystic.owned") == "true" ||
               (Property(labels, "user.mystic.owned") == "" && Property(labels, "mystic.owned") == "true")) &&
              (Property(labels, "user.mystic.workload_id") == id ||
               (Property(labels, "user.mystic.workload_id") == "" && Property(labels, "mystic.workload_id") == id))
  {
  }

  // An instance belongs to one workload at most.
  lemma OwnerUnique(i: Instance, v: string, w: string)
    requires OwnedBy(i, v) && OwnedBy(i, w)
    ensures v == w
  {
  }

  // The labels asked for on creation; the provider sets them one by one and may
  // refuse some.
  function CreationLabels(s: Spec, workloadID: string): Labels {
    map["image" := s.image, "user.mystic.owned" := "true", "user.mystic.workload_id" := workloadID,
        "user.mystic.host_id" := s.hostID, "mystic.owned" := "true", "mystic.workload_id" := workloadID]
  }

  predicate LabelAccepted(s: Spec, workloadID: string, i: Instance, key: string) {
    key in CreationLabels(s, workloadID) && i.labels.Some? && Property(i.labels.value, key) == CreationLabels(s, workloadID)[key]
  }

  // The two labels that ownership rests on.
  predicate OwnershipAccepted(s: Spec, workloadID: string, i: Instance) {
    LabelAccepted(s, workloadID, i, "user.mystic.owned") && LabelAccepted(s, workloadID, i, "user.mystic.workload_id")
  }

  // Created instances are owned by their workload once these two were accepted.
  lemma CreationLabelsOwn(s: Spec, workloadID: string, i: Instance)
    requires OwnershipAccepted(s, workloadID, i) && workloadID != ""
    ensures OwnedBy(i, workloadID)
  {
    assert CreationLabels(s, workloadID)["user.mystic.owned"] == "true";
    assert CreationLabels(s, workloadID)["user.mystic.workload_id"] == workloadID;
  }
}
