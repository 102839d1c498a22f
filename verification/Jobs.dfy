/** Jobs and snapshot keys (internal/controller/job_utils.go, s3.go). */
module Jobs {
  import opened Wrappers

  datatype ConditionType = Complete | Failed | OtherCondition(name: string)

  datatype JobCondition = JobCondition(kind: ConditionType, isTrue: bool)

  predicate IsTerminal(c: JobCondition) {
    (c.kind == Complete || c.kind == Failed) && c.isTrue
  }

  /** IsJobFinished: the first true terminal condition decides; None while running. */
  function Verdict(conditions: seq<JobCondition>): (v: Option<ConditionType>)
    ensures v.Some? ==> v.value == Complete || v.value == Failed
  {
    if conditions == [] then None
    else if IsTerminal(conditions[0]) then Some(conditions[0].kind)
    else Verdict(conditions[1..])
  }

  /** Entry i is the first true terminal condition, and it is of kind k. */
  ghost predicate DecidesAt(conditions: seq<JobCondition>, i: nat, k: ConditionType) {
    && i < |conditions|
    && conditions[i] == JobCondition(k, true) && (k == Complete || k == Failed)
    && forall j :: 0 <= j < i ==> conditions[j] != JobCondition(Complete, true) && conditions[j] != JobCondition(Failed, true)
  }

  lemma {:induction false} FirstTerminalDecides(conditions: seq<JobCondition>, k: ConditionType)
    ensures Verdict(conditions) == Some(k) <==> exists i: nat :: DecidesAt(conditions, i, k)
  {
    if conditions != [] {
      var rest := conditions[1..];
      if IsTerminal(conditions[0]) {
        if conditions[0].kind == k {
          assert DecidesAt(conditions, 0, k);
        }
      } else {
        FirstTerminalDecides(rest, k);
        forall i: nat ensures DecidesAt(rest, i, k) <==> DecidesAt(conditions, i + 1, k) {
          ShiftDecides(conditions, i, k);
        }
        if i: nat :| DecidesAt(conditions, i, k) {
          assert DecidesAt(rest, i - 1, k) <==> DecidesAt(conditions, i, k);
        }
      }
    }
  }

  lemma ShiftDecides(conditions: seq<JobCondition>, i: nat, k: ConditionType)
    requires conditions != [] && !IsTerminal(conditions[0])
    ensures DecidesAt(conditions[1..], i, k) <==> DecidesAt(conditions, i + 1, k)
  {
    var rest := conditions[1..];
    assert forall j :: 0 <= j < |rest| ==> rest[j] == conditions[j + 1];
    if DecidesAt(rest, i, k) {
      forall j | 0 <= j < i + 1
        ensures conditions[j] != JobCondition(Complete, true) && conditions[j] != JobCondition(Failed, true)
      {
        assert j == 0 || conditions[j] == rest[j - 1];
      }
    }
  }

  datatype Identity = Identity(namespace: string, name: string)

  /** The object key of a snapshot taken at the formatted time `stamp`; `prefix` is the
      configured path prefix. */
  function SnapshotKey(prefix: string, id: Identity, stamp: string): string {
    var dir := if prefix != "" && prefix[|prefix| - 1] != '/' then prefix + "/" else prefix;
    dir + id.namespace + "/" + id.name + "/" + stamp + ".tar.zst"
  }

  lemma SnapshotKeyShape(prefix: string, id: Identity, stamp: string)
    ensures var key := SnapshotKey(prefix, id, stamp);
      && prefix <= key
      && (prefix == "" ==> key == id.namespace + ("/" + (id.name + ("/" + (stamp + ".tar.zst")))))
      && (prefix != "" ==> key[|prefix| - 1] == '/' || key[|prefix|] == '/')
  {
    var dir := if prefix != "" && prefix[|prefix| - 1] != '/' then prefix + "/" else prefix;
    var rest := id.namespace + ("/" + (id.name + ("/" + (stamp + ".tar.zst"))));
    KeyIsDirAndRest(dir, id, stamp);
    assert prefix == "" ==> dir + rest == rest;
  }

  lemma KeyIsDirAndRest(dir: string, id: Identity, stamp: string)
    ensures dir + id.namespace + "/" + id.name + "/" + stamp + ".tar.zst" ==
      dir + (id.namespace + ("/" + (id.name + ("/" + (stamp + ".tar.zst")))))
  {
    Regroup(dir + id.namespace + "/" + id.name + "/", stamp, ".tar.zst");
    Regroup(dir + id.namespace + "/" + id.name, "/", stamp + ".tar.zst");
    Regroup(dir + id.namespace + "/", id.name, "/" + (stamp + ".tar.zst"));
    Regroup(dir + id.namespace, "/", id.name + ("/" + (stamp + ".tar.zst")));
    Regroup(dir, id.namespace, "/" + (id.name + ("/" + (stamp + ".tar.zst"))));
  }

  lemma Regroup(a: string, b: string, c: string)
    ensures (a + b) + c == a + (b + c)
  {
  }

  lemma FirstSlashDiffers(a: string, b: string, x: string, y: string)
    requires '/' !in b && |a| < |b|
    ensures a + ("/" + x) != b + ("/" + y)
  {
    assert (a + ("/" + x))[|a|] == '/';
    assert (b + ("/" + y))[|a|] == b[|a|] && b[|a|] in b;
  }

  lemma SlashSplits(a: string, b: string, x: string, y: string)
    requires '/' !in a && '/' !in b && a + ("/" + x) == b + ("/" + y)
    ensures a == b && x == y
  {
    if |a| < |b| {
      FirstSlashDiffers(a, b, x, y);
    } else if |b| < |a| {
      FirstSlashDiffers(b, a, y, x);
    } else {
      var s, t := a + ("/" + x), b + ("/" + y);
      assert s[..|a|] == a && t[..|a|] == b;
      assert s[|a| + 1..] == x && t[|a| + 1..] == y;
    }
  }

  /** Under one prefix, snapshots of different instances or of different times never share a key. */
  lemma SnapshotKeysDiffer(prefix: string, a: Identity, b: Identity, at: string, bt: string)
    requires '/' !in a.namespace && '/' !in b.namespace && '/' !in a.name && '/' !in b.name
    requires SnapshotKey(prefix, a, at) == SnapshotKey(prefix, b, bt)
    ensures a == b && at == bt
  {
    var dir := if prefix != "" && prefix[|prefix| - 1] != '/' then prefix + "/" else prefix;
    KeyIsDirAndRest(dir, a, at);
    KeyIsDirAndRest(dir, b, bt);
    var ra, rb := a.namespace + ("/" + (a.name + ("/" + (at + ".tar.zst")))), b.namespace + ("/" + (b.name + ("/" + (bt + ".tar.zst"))));
    assert (dir + ra)[|dir|..] == ra && (dir + rb)[|dir|..] == rb;
    SlashSplits(a.namespace, b.namespace, a.name + ("/" + (at + ".tar.zst")), b.name + ("/" + (bt + ".tar.zst")));
    SlashSplits(a.name, b.name, at + ".tar.zst", bt + ".tar.zst");
    assert (at + ".tar.zst")[..|at|] == at && (bt + ".tar.zst")[..|bt|] == bt;
  }
}
