/** Adding the job's volume mounts to its init containers
    (controllers/flinkcluster_converter.go, convertJobInitContainers). */
module Mounts {
  import opened FlinkTypes

  predicate HasPath(mounts: seq<VolumeMount>, path: string) {
    exists i :: 0 <= i < |mounts| && mounts[i].mountPath == path
  }

  predicate DistinctPaths(mounts: seq<VolumeMount>) {
    forall i, j :: 0 <= i < j < |mounts| ==> mounts[i].mountPath != mounts[j].mountPath
  }

  /** Appends each extra mount whose path is still free. */
  function Merge(own: seq<VolumeMount>, extra: seq<VolumeMount>): seq<VolumeMount> {
    if extra == [] then own
    else
      var init := Merge(own, extra[..|extra| - 1]);
      var last := extra[|extra| - 1];
      if HasPath(init, last.mountPath) then init else init + [last]
  }

  function MergeContainer(c: Container, extra: seq<VolumeMount>): Container {
    c.(volumeMounts := Merge(c.volumeMounts, extra))
  }

  method ConvertJobInitContainers(job: JobSpec) returns (initContainers: seq<Container>)
    ensures |initContainers| == |job.initContainers|
    ensures forall i :: 0 <= i < |initContainers| ==>
                          initContainers[i] == MergeContainer(job.initContainers[i], job.volumeMounts)
  {
    initContainers := [];
    for n := 0 to |job.initContainers|
      invariant |initContainers| == n
      invariant forall i :: 0 <= i < n ==> initContainers[i] == MergeContainer(job.initContainers[i], job.volumeMounts)
    {
      var initContainer := job.initContainers[n];
      for m := 0 to |job.volumeMounts|
        invariant initContainer == MergeContainer(job.initContainers[n], job.volumeMounts[..m])
      {
        var jobMount := job.volumeMounts[m];
        var conflict := false;
        var k := 0;
        while k < |initContainer.volumeMounts| && !conflict
          invariant 0 <= k <= |initContainer.volumeMounts|
          invariant conflict ==> HasPath(initContainer.volumeMounts, jobMount.mountPath)
          invariant !conflict ==>
                      forall i :: 0 <= i < k ==> initContainer.volumeMounts[i].mountPath != jobMount.mountPath
          decreases |initContainer.volumeMounts| - k, !conflict
        {
          if jobMount.mountPath == initContainer.volumeMounts[k].mountPath {
            conflict := true;
          } else {
            k := k + 1;
          }
        }
        assert conflict <==> HasPath(initContainer.volumeMounts, jobMount.mountPath);
        assert job.volumeMounts[..m + 1][..m] == job.volumeMounts[..m];
        if !conflict {
          initContainer := initContainer.(volumeMounts := initContainer.volumeMounts + [jobMount]);
        }
      }
      assert job.volumeMounts[..|job.volumeMounts|] == job.volumeMounts;
      initContainers := initContainers + [initContainer];
    }
  }

  /** The merged list starts with the container's own mounts, gives every path of either list and no
      other, adds only mounts of the job, and repeats a path only if the container did. */
  lemma {:induction false} MergeCovers(own: seq<VolumeMount>, extra: seq<VolumeMount>)
    ensures own <= Merge(own, extra)
    ensures forall p :: HasPath(Merge(own, extra), p) <==> HasPath(own, p) || HasPath(extra, p)
    ensures forall i :: |own| <= i < |Merge(own, extra)| ==> Merge(own, extra)[i] in extra
    ensures DistinctPaths(Merge(own, extra)) <==> DistinctPaths(own)
  {
    if extra != [] {
      var front := extra[..|extra| - 1];
      var last := extra[|extra| - 1];
      MergeCovers(own, front);
      var init := Merge(own, front);
      var merged := Merge(own, extra);
      assert extra == front + [last];
      forall p
        ensures HasPath(merged, p) <==> HasPath(own, p) || HasPath(extra, p)
      {
        PathOfAppend(front, last, p);
        PathOfAppend(init, last, p);
      }
      if DistinctPaths(merged) {
        assert forall i :: 0 <= i < |own| ==> own[i] == merged[i];
      }
    }
  }

  lemma PathOfAppend(mounts: seq<VolumeMount>, last: VolumeMount, p: string)
    ensures HasPath(mounts + [last], p) <==> HasPath(mounts, p) || last.mountPath == p
  {
    var all := mounts + [last];
    if HasPath(mounts, p) {
      var i :| 0 <= i < |mounts| && mounts[i].mountPath == p;
      assert all[i].mountPath == p;
    }
    if last.mountPath == p {
      assert all[|mounts|].mountPath == p;
    }
  }

  /** A mount is added exactly when it is the first of its path among the job's mounts and the
      container has no mount of its own there. */
  lemma {:induction false} MergeAddsFirstOfEachPath(own: seq<VolumeMount>, extra: seq<VolumeMount>, m: VolumeMount)
    ensures own <= Merge(own, extra)
    ensures m in Merge(own, extra)[|own|..] <==>
            exists j :: 0 <= j < |extra| && extra[j] == m && !HasPath(own, m.mountPath)
                        && !HasPath(extra[..j], m.mountPath)
  {
    if extra != [] {
      var front := extra[..|extra| - 1];
      var last := extra[|extra| - 1];
      MergeCovers(own, front);
      MergeAddsFirstOfEachPath(own, front, m);
      var init := Merge(own, front);
      var merged := Merge(own, extra);
      assert forall j :: 0 <= j <= |front| ==> front[..j] == extra[..j];
      if HasPath(init, last.mountPath) {
        assert merged == init;
      } else {
        assert merged[|own|..] == init[|own|..] + [last];
      }
      if j :| 0 <= j < |extra| && extra[j] == m && !HasPath(own, m.mountPath) && !HasPath(extra[..j], m.mountPath) {
        if j < |front| {
          assert front[j] == m;
        } else {
          assert extra[..j] == front;
        }
      }
      if j :| 0 <= j < |front| && front[j] == m && !HasPath(own, m.mountPath) && !HasPath(front[..j], m.mountPath) {
        assert extra[j] == m;
      }
      if merged != init && m == last {
        assert extra[..|front|] == front && extra[|front|] == m;
      }
    }
  }

  /** Merging the same mounts again changes nothing. */
  lemma MergeIdempotent(own: seq<VolumeMount>, extra: seq<VolumeMount>)
    ensures Merge(Merge(own, extra), extra) == Merge(own, extra)
  {
    MergeCovers(own, extra);
    MergeOfCovered(Merge(own, extra), extra);
  }

  lemma {:induction false} MergeOfCovered(own: seq<VolumeMount>, extra: seq<VolumeMount>)
    requires forall p :: HasPath(extra, p) ==> HasPath(own, p)
    ensures Merge(own, extra) == own
  {
    if extra != [] {
      var front := extra[..|extra| - 1];
      var last := extra[|extra| - 1];
      assert extra == front + [last];
      forall p | HasPath(front, p)
        ensures HasPath(own, p)
      {
        PathOfAppend(front, last, p);
      }
      PathOfAppend(front, last, last.mountPath);
      MergeOfCovered(own, front);
    }
  }

  /** `x` stands before `y` in the list. */
  predicate InOrder(mounts: seq<VolumeMount>, x: VolumeMount, y: VolumeMount) {
    exists p, q :: 0 <= p < q < |mounts| && mounts[p] == x && mounts[q] == y
  }

  /** The added mounts keep the order they have in the job. */
  lemma {:induction false} MergeKeepsOrder(own: seq<VolumeMount>, extra: seq<VolumeMount>, i: nat, j: nat)
    requires |own| <= i < j < |Merge(own, extra)|
    ensures InOrder(extra, Merge(own, extra)[i], Merge(own, extra)[j])
    decreases |extra|
  {
    var front, last := extra[..|extra| - 1], extra[|extra| - 1];
    var init := Merge(own, front);
    if j < |init| {
      MergeKeepsOrder(own, front, i, j);
      var p, q :| 0 <= p < q < |front| && front[p] == init[i] && front[q] == init[j];
      assert extra[p] == init[i] && extra[q] == init[j];
    } else {
      MergeCovers(own, front);
      var p :| 0 <= p < |front| && front[p] == init[i];
      assert extra[p] == init[i] && extra[|extra| - 1] == last;
    }
  }
}
