/**
 * What the log collector promises: makeDirectory leaves a fresh empty directory or
 * reports why not, streamLog writes exactly the files its pod calls for, counts only
 * finished copies, and the dispatcher handles every pod once, in listing order, without
 * touching anything outside the output directory.
 */
module LogsProperties {
  import opened Wrappers
  import opened Logs

  /** Path q has the same entry, or the same absence, in both trees. */
  predicate SameAt(t: Tree, t': Tree, q: Path) {
    (q in t <==> q in t') && (q in t ==> t[q] == t'[q])
  }

  /** Nothing outside the subtree rooted at p differs. */
  ghost predicate SameOutside(t: Tree, t': Tree, p: Path) {
    forall q :: !Within(q, p) ==> SameAt(t, t', q)
  }

  /** Nothing differs except strictly below p. */
  ghost predicate SameAbove(t: Tree, t': Tree, p: Path) {
    forall q :: !(p < q) ==> SameAt(t, t', q)
  }

  // ---------------------------------------------------------------------------
  // makeDirectory

  /** In a tree-shaped map every prefix of an entry's path is an entry too. */
  lemma {:induction false} AncestorsPresent(t: Tree, q: Path, k: nat)
    requires TreeShaped(t) && q in t && 1 <= k <= |q|
    ensures q[..k] in t
    decreases |q| - k
  {
    if k < |q| {
      AncestorsPresent(t, q, k + 1);
      var r := q[..k + 1];
      assert r in t && |r| > 1;
      assert r[..|r| - 1] == q[..k];
    } else {
      assert q[..k] == q;
    }
  }

  /** Nothing lies below a path that is not in a tree-shaped map. */
  lemma NothingBelowAbsent(t: Tree, p: Path)
    requires TreeShaped(t) && p !in t && |p| >= 1
    ensures forall q :: q in t ==> !Within(q, p)
  {
    forall q | q in t && Within(q, p)
      ensures false
    {
      assert q[..|p|] == p;
      AncestorsPresent(t, q, |p|);
    }
  }

  /**
   * os.RemoveAll(p) changes nothing outside the subtree and keeps every protected entry
   * in it; it keeps p itself exactly when it fails, and when nothing in the subtree is
   * protected the whole subtree is gone.
   */
  lemma RemoveAllOutcome(t: Tree, denied: set<Path>, p: Path)
    ensures var r := RemoveAllEffect(t, denied, p);
      && SameOutside(t, r, p)
      && (forall d :: d in t && d in denied && Within(d, p) ==> d in r && r[d] == t[d])
      && (p in r <==> p in t && RemovalDenied(t, denied, p))
      && (!RemovalDenied(t, denied, p) ==> forall q :: q in r ==> !Within(q, p))
  {
    var r := RemoveAllEffect(t, denied, p);
    forall d | d in t && d in denied && Within(d, p)
      ensures d in r
    {
      assert Within(d, d);
    }
    if p in t && RemovalDenied(t, denied, p) {
      var d :| d in t && Within(d, p) && d in denied;
      assert Within(p, p);
    }
  }

  lemma MakeDirectoryOutcome(t: Tree, denied: set<Path>, p: Path)
    requires TreeShaped(t)
    ensures var (t', e) := MakeDirectoryEffect(t, denied, p);
      && (e.None? <==> !(p in t && RemovalDenied(t, denied, p)) && p !in denied && ParentIsDir(t, p))
      && (e.None? ==> p in t' && t'[p] == Dir && forall q :: q in t' && Within(q, p) ==> q == p)
      && (e == Some(RemoveFailed) ==>
            && p in t'
            && (forall q :: q in t' ==> q in t && t'[q] == t[q])
            && (forall q :: Within(q, p) ==> (q in t' <==> q in t && Pinned(t, denied, p, q))))
      && (e == Some(MkdirFailed) && |p| >= 1 ==> forall q :: q in t' ==> !Within(q, p))
      && TreeShaped(t')
  {
    if p in t {
      RemoveAllKeepsShape(t, denied, p);
    }
    if |p| > 1 {
      var parent := p[..|p| - 1];
      assert !Within(parent, p);
    }
    if p !in t && |p| >= 1 {
      NothingBelowAbsent(t, p);
    }
  }

  lemma MakeDirectoryStaysInside(t: Tree, denied: set<Path>, p: Path)
    ensures SameOutside(t, MakeDirectoryEffect(t, denied, p).0, p)
  {
  }

  /** A path that was free, under an existing directory and not protected is always made. */
  lemma MakeDirectoryOnFreePath(t: Tree, denied: set<Path>, p: Path)
    requires p !in t && p !in denied && ParentIsDir(t, p)
    ensures MakeDirectoryEffect(t, denied, p) == (t[p := Dir], None)
  {
  }

  // ---------------------------------------------------------------------------
  // streamContainerLog

  lemma ContainerLogOutcome(t: Tree, denied: set<Path>, p: Path, o: StreamOutcome)
    ensures var (t', n) := ContainerLogEffect(t, denied, p, o);
      && (n > 0 ==> o.Copied? && n == o.bytes && CanCreate(t, denied, p))
      && (CanCreate(t, denied, p) ==> p in t' && t'[p] == File(Written(o)))
      && (!CanCreate(t, denied, p) ==> t' == t && n == 0)
      && SameOutside(t, t', p)
  {
  }

  // ---------------------------------------------------------------------------
  // The container loops

  /** Every target sits directly inside `sub`. */
  predicate DirectlyIn(ts: seq<Target>, sub: Path) {
    forall i :: 0 <= i < |ts| ==> |ts[i].path| == |sub| + 1 && ts[i].path[..|sub|] == sub
  }

  predicate DistinctPaths(ts: seq<Target>) {
    forall i, j :: 0 <= i < j < |ts| ==> ts[i].path != ts[j].path
  }

  lemma {:induction false} TargetsStayInside(t: Tree, denied: set<Path>, pod: string, ts: seq<Target>, src: LogSource, sub: Path)
    requires DirectlyIn(ts, sub)
    ensures SameAbove(t, TargetsEffect(t, denied, pod, ts, src).0, sub)
  {
    if ts != [] {
      var front := ts[..|ts| - 1];
      TargetsStayInside(t, denied, pod, front, src, sub);
      var t1 := TargetsEffect(t, denied, pod, front, src).0;
      var last := ts[|ts| - 1];
      assert last.path == sub + [last.path[|sub|]];
      ContainerLogOutcome(t1, denied, last.path, src(pod, last.container));
      var t2 := TargetsEffect(t, denied, pod, ts, src).0;
      forall q | !(sub < q)
        ensures SameAt(t, t2, q)
      {
        assert SameAt(t, t1, q);
        assert !Within(q, last.path);
      }
    }
  }

  /**
   * Into a fresh directory with nothing protected, every target ends up as a file holding
   * what its stream delivered, and each call returns the count of a finished copy.
   */
  lemma {:induction false} TargetsIntoFreshDirectory(t: Tree, denied: set<Path>, pod: string, ts: seq<Target>, src: LogSource, sub: Path)
    requires sub in t && t[sub] == Dir
    requires DirectlyIn(ts, sub) && DistinctPaths(ts)
    requires forall i :: 0 <= i < |ts| ==> ts[i].path !in t && ts[i].path !in denied
    ensures var (t', ns) := TargetsEffect(t, denied, pod, ts, src);
      && (forall q :: q in t ==> q in t' && t'[q] == t[q])
      && (forall q :: q in t' && q !in t ==> t'[q].File?)
      && (forall i :: 0 <= i < |ts| ==> ts[i].path in t' && t'[ts[i].path] == File(Written(src(pod, ts[i].container))))
      && (forall i :: 0 <= i < |ts| ==> ns[i] == Reported(src(pod, ts[i].container)))
  {
    if ts != [] {
      var front := ts[..|ts| - 1];
      TargetsIntoFreshDirectory(t, denied, pod, front, src, sub);
      var (t1, ns1) := TargetsEffect(t, denied, pod, front, src);
      var last := ts[|ts| - 1];
      assert last.path[..|last.path| - 1] == sub;
      assert CanCreate(t1, denied, last.path);
      forall i | 0 <= i < |front|
        ensures front[i].path != last.path
      {
        assert front[i] == ts[i];
      }
    }
  }

  // ---------------------------------------------------------------------------
  // streamLog

  /** Where streamLog writes for a pod: its log file, or its sub-directory. */
  function PodPath(pod: Pod, dir: Path): (r: Path)
    ensures |r| == |dir| + 1 && r[..|dir|] == dir
  {
    if |pod.containers| == 1 then dir + [LogName(pod.name)] else dir + [pod.name]
  }

  /** A single-container pod depends only on its "" stream; no init container is fetched. */
  lemma SingleContainerPod(t: Tree, denied: set<Path>, pod: Pod, dir: Path, src1: LogSource, src2: LogSource)
    requires |pod.containers| == 1
    requires src1(pod.name, "") == src2(pod.name, "")
    ensures PodEffect(t, denied, pod, dir, src1) == PodEffect(t, denied, pod, dir, src2)
    ensures PodEffect(t, denied, pod, dir, src1).1.path == dir + [pod.name + ".log"]
    ensures PodEffect(t, denied, pod, dir, src1).1.Wrote?
  {
  }

  /** The report of a pod names the path streamLog wrote to. */
  lemma PodReportPath(t: Tree, denied: set<Path>, pod: Pod, dir: Path, src: LogSource)
    ensures PodEffect(t, denied, pod, dir, src).1.path == PodPath(pod, dir)
  {
  }

  /** Every pod's changes stay at its own path or below it. */
  lemma PodStaysInside(t: Tree, denied: set<Path>, pod: Pod, dir: Path, src: LogSource)
    ensures SameOutside(t, PodEffect(t, denied, pod, dir, src).0, PodPath(pod, dir))
  {
    var pp := PodPath(pod, dir);
    if |pod.containers| == 1 {
      ContainerLogOutcome(t, denied, pp, src(pod.name, ""));
    } else {
      MakeDirectoryStaysInside(t, denied, pp);
      var (t1, e) := MakeDirectoryEffect(t, denied, pp);
      if e.None? {
        var rs := Files(pp, pod.containers);
        var ins := Files(pp, pod.initContainers);
        TargetsStayInside(t1, denied, pod.name, rs, src, pp);
        var t2 := TargetsEffect(t1, denied, pod.name, rs, src).0;
        TargetsStayInside(t2, denied, pod.name, ins, src, pp);
        var t3 := TargetsEffect(t2, denied, pod.name, ins, src).0;
        forall q | !Within(q, pp)
          ensures SameAt(t, t3, q)
        {
          assert SameAt(t, t1, q) && SameAt(t1, t2, q) && SameAt(t2, t3, q);
        }
      }
    }
  }

  lemma LogNameInjective(a: string, b: string)
    requires LogName(a) == LogName(b)
    ensures a == b
  {
    assert |a| == |b|;
    assert a == LogName(a)[..|a|];
  }

  /** The copy counts streamLog collects, container by container. */
  function Counts(pod: string, names: seq<string>, src: LogSource): (r: seq<nat>)
    ensures |r| == |names|
    ensures forall i :: 0 <= i < |names| ==> r[i] == Reported(src(pod, names[i]))
  {
    if names == [] then []
    else Counts(pod, names[..|names| - 1], src) + [Reported(src(pod, names[|names| - 1]))]
  }

  /** Running two target lists one after the other is running their concatenation. */
  lemma {:induction false} TargetsAppend(t: Tree, denied: set<Path>, pod: string, a: seq<Target>, b: seq<Target>, src: LogSource)
    ensures TargetsEffect(t, denied, pod, a + b, src).0
      == TargetsEffect(TargetsEffect(t, denied, pod, a, src).0, denied, pod, b, src).0
    ensures TargetsEffect(t, denied, pod, a + b, src).1
      == TargetsEffect(t, denied, pod, a, src).1 + TargetsEffect(TargetsEffect(t, denied, pod, a, src).0, denied, pod, b, src).1
  {
    if b == [] {
      assert a + b == a;
    } else {
      var c := a + b;
      var b' := b[..|b| - 1];
      assert c[..|c| - 1] == a + b';
      assert c[|c| - 1] == b[|b| - 1];
      TargetsAppend(t, denied, pod, a, b', src);
      var ta := TargetsEffect(t, denied, pod, a, src);
      var tb' := TargetsEffect(ta.0, denied, pod, b', src);
      var last := b[|b| - 1];
      var step := ContainerLogEffect(tb'.0, denied, last.path, src(pod, last.container));
      assert TargetsEffect(ta.0, denied, pod, b, src) == (step.0, tb'.1 + [step.1]);
      assert TargetsEffect(t, denied, pod, c, src) == (step.0, (ta.1 + tb'.1) + [step.1]);
      assert (ta.1 + tb'.1) + [step.1] == ta.1 + (tb'.1 + [step.1]);
    }
  }

  /** Log files named after distinct containers are distinct files directly inside `sub`. */
  lemma FilesDistinct(sub: Path, names: seq<string>)
    requires forall i, j :: 0 <= i < j < |names| ==> names[i] != names[j]
    ensures DirectlyIn(Files(sub, names), sub) && DistinctPaths(Files(sub, names))
  {
    var fs := Files(sub, names);
    forall i, j | 0 <= i < j < |names|
      ensures fs[i].path != fs[j].path
    {
      if fs[i].path == fs[j].path {
        assert LogName(names[i]) == fs[i].path[|sub|];
        assert LogName(names[j]) == fs[j].path[|sub|];
        LogNameInjective(names[i], names[j]);
      }
    }
  }

  lemma FilesAreFresh(t1: Tree, denied: set<Path>, sub: Path, names: seq<string>)
    requires forall q :: q in t1 && Within(q, sub) ==> q == sub
    requires forall c :: c in names ==> sub + [LogName(c)] !in denied
    ensures forall i :: 0 <= i < |names| ==> Files(sub, names)[i].path !in t1 && Files(sub, names)[i].path !in denied
  {
    forall i | 0 <= i < |names|
      ensures Files(sub, names)[i].path !in t1 && Files(sub, names)[i].path !in denied
    {
      assert names[i] in names;
      var q := Files(sub, names)[i].path;
      assert Within(q, sub) && q != sub;
    }
  }

  /** The preconditions of a container loop run over a fresh sub-directory. */
  ghost predicate FreshRun(t1: Tree, denied: set<Path>, pod: Pod, sub: Path) {
    && sub in t1 && t1[sub] == Dir
    && (var all := pod.containers + pod.initContainers;
        forall i, j :: 0 <= i < j < |all| ==> all[i] != all[j])
    && (forall q :: q in t1 && Within(q, sub) ==> q == sub)
    && (forall c :: c in pod.containers + pod.initContainers ==> sub + [LogName(c)] !in denied)
  }

  /** Both container loops of streamLog as one run over all the pod's log files. */
  lemma ContainerLoopsAsOne(t1: Tree, denied: set<Path>, pod: Pod, sub: Path, src: LogSource)
    requires FreshRun(t1, denied, pod, sub)
    ensures var fs := Files(sub, pod.containers + pod.initContainers);
      var r := TargetsEffect(t1, denied, pod.name, fs, src);
      && (forall i :: 0 <= i < |fs| ==> fs[i].path in r.0 && r.0[fs[i].path] == File(Written(src(pod.name, fs[i].container))))
      && (forall i :: 0 <= i < |fs| ==> r.1[i] == Reported(src(pod.name, fs[i].container)))
  {
    var all := pod.containers + pod.initContainers;
    FilesDistinct(sub, all);
    FilesAreFresh(t1, denied, sub, all);
    TargetsIntoFreshDirectory(t1, denied, pod.name, Files(sub, all), src, sub);
  }

  /** The files streamLog leaves: one per container, holding that container's stream. */
  lemma ContainerLoopFiles(t1: Tree, denied: set<Path>, pod: Pod, sub: Path, src: LogSource)
    requires FreshRun(t1, denied, pod, sub)
    ensures var t2 := TargetsEffect(t1, denied, pod.name, Files(sub, pod.containers), src).0;
      var t3 := TargetsEffect(t2, denied, pod.name, Files(sub, pod.initContainers), src).0;
      forall c :: c in pod.containers + pod.initContainers ==>
        sub + [LogName(c)] in t3 && t3[sub + [LogName(c)]] == File(Written(src(pod.name, c)))
  {
    var all := pod.containers + pod.initContainers;
    var fs := Files(sub, all);
    assert Files(sub, pod.containers) + Files(sub, pod.initContainers) == fs;
    TargetsAppend(t1, denied, pod.name, Files(sub, pod.containers), Files(sub, pod.initContainers), src);
    ContainerLoopsAsOne(t1, denied, pod, sub, src);
    FilesByContainer(TargetsEffect(t1, denied, pod.name, fs, src).0, pod.name, sub, all, src);
  }

  /** A file written for every target of Files(sub, all) is a file written for every name in all. */
  lemma FilesByContainer(t: Tree, pod: string, sub: Path, all: seq<string>, src: LogSource)
    requires var fs := Files(sub, all);
      forall i :: 0 <= i < |fs| ==> fs[i].path in t && t[fs[i].path] == File(Written(src(pod, fs[i].container)))
    ensures forall c :: c in all ==> sub + [LogName(c)] in t && t[sub + [LogName(c)]] == File(Written(src(pod, c)))
  {
    var fs := Files(sub, all);
    forall c | c in all
      ensures sub + [LogName(c)] in t && t[sub + [LogName(c)]] == File(Written(src(pod, c)))
    {
      var k :| 0 <= k < |all| && all[k] == c;
      assert fs[k].path == sub + [LogName(c)];
    }
  }

  /** The counts streamLog collects: each container's finished copy, in list order. */
  lemma ContainerLoopCounts(t1: Tree, denied: set<Path>, pod: Pod, sub: Path, src: LogSource)
    requires FreshRun(t1, denied, pod, sub)
    ensures var r1 := TargetsEffect(t1, denied, pod.name, Files(sub, pod.containers), src);
      var r2 := TargetsEffect(r1.0, denied, pod.name, Files(sub, pod.initContainers), src);
      r1.1 == Counts(pod.name, pod.containers, src) && r2.1 == Counts(pod.name, pod.initContainers, src)
  {
    var all := pod.containers + pod.initContainers;
    var fs := Files(sub, all);
    var rs := Files(sub, pod.containers);
    var ins := Files(sub, pod.initContainers);
    assert rs + ins == fs;
    TargetsAppend(t1, denied, pod.name, rs, ins, src);
    ContainerLoopsAsOne(t1, denied, pod, sub, src);
    var r1 := TargetsEffect(t1, denied, pod.name, rs, src);
    var r2 := TargetsEffect(r1.0, denied, pod.name, ins, src);
    var c1 := Counts(pod.name, pod.containers, src);
    var c2 := Counts(pod.name, pod.initContainers, src);
    assert r1.1 + r2.1 == c1 + c2 by {
      var ns := TargetsEffect(t1, denied, pod.name, fs, src).1;
      assert ns == Counts(pod.name, all, src);
      CountsAppend(pod.name, pod.containers, pod.initContainers, src);
    }
    SplitEqual(r1.1, r2.1, c1, c2);
  }

  lemma CountsAppend(pod: string, a: seq<string>, b: seq<string>, src: LogSource)
    ensures Counts(pod, a + b, src) == Counts(pod, a, src) + Counts(pod, b, src)
  {
    assert forall i :: 0 <= i < |a + b| ==> Counts(pod, a + b, src)[i] == (Counts(pod, a, src) + Counts(pod, b, src))[i];
  }

  lemma SplitEqual(a: seq<nat>, b: seq<nat>, c: seq<nat>, d: seq<nat>)
    requires a + b == c + d && |a| == |c|
    ensures a == c && b == d
  {
    assert a == (a + b)[..|a|];
    assert b == (a + b)[|a|..];
  }

  /**
   * A pod with zero or several regular containers, whose sub-directory can be made and
   * whose log files are not protected, gets one file per container holding that
   * container's stream, and streamLog reports the copy counts of every container.
   */
  lemma MultiContainerPod(t: Tree, denied: set<Path>, pod: Pod, dir: Path, src: LogSource)
    requires TreeShaped(t) && |pod.containers| != 1
    requires var sub := dir + [pod.name];
      !(sub in t && RemovalDenied(t, denied, sub)) && sub !in denied && ParentIsDir(t, sub)
    requires var all := pod.containers + pod.initContainers;
      forall i, j :: 0 <= i < j < |all| ==> all[i] != all[j]
    requires forall c :: c in pod.containers + pod.initContainers ==> dir + [pod.name, c + ".log"] !in denied
    ensures var sub := dir + [pod.name];
      var (t', report) := PodEffect(t, denied, pod, dir, src);
      && report == Wrote(sub,
           LoggedAmount(Counts(pod.name, pod.containers, src), Counts(pod.name, pod.initContainers, src)),
           TotalAmount(Counts(pod.name, pod.containers, src), Counts(pod.name, pod.initContainers, src)))
      && forall c :: c in pod.containers + pod.initContainers ==>
           sub + [c + ".log"] in t' && t'[sub + [c + ".log"]] == File(Written(src(pod.name, c)))
  {
    var sub := dir + [pod.name];
    MakeDirectoryOutcome(t, denied, sub);
    var t1 := MakeDirectoryEffect(t, denied, sub).0;
    forall c | c in pod.containers + pod.initContainers
      ensures sub + [LogName(c)] !in denied
    {
      assert sub + [LogName(c)] == dir + [pod.name, c + ".log"];
    }
    ContainerLoopFiles(t1, denied, pod, sub, src);
    ContainerLoopCounts(t1, denied, pod, sub, src);
  }


  // ---------------------------------------------------------------------------
  // The byte count (see README "## Findings")

  /** As written, the figure logged for a pod with two regular containers drops the first one. */
  lemma LoggedAmountDropsRegularCounts()
    ensures LoggedAmount([10, 5], []) == 5
    ensures TotalAmount([10, 5], []) == 15
  {
  }

  lemma {:induction false} SumAppend(a: seq<nat>, b: seq<nat>)
    ensures Sum(a + b) == Sum(a) + Sum(b)
  {
    if b != [] {
      assert (a + b)[..|a + b| - 1] == a + b[..|b| - 1];
      SumAppend(a, b[..|b| - 1]);
    } else {
      assert a + b == a;
    }
  }

  /**
   * The corrected figure counts every container; the logged one equals it exactly when
   * all regular containers but the last copied nothing.
   */
  lemma TotalAmountCountsEveryContainer(regular: seq<nat>, init: seq<nat>)
    ensures TotalAmount(regular, init) == Sum(regular + init)
    ensures LoggedAmount(regular, init) <= TotalAmount(regular, init)
    ensures LoggedAmount(regular, init) == TotalAmount(regular, init)
        <==> regular == [] || Sum(regular[..|regular| - 1]) == 0
  {
    SumAppend(regular, init);
  }

  // ---------------------------------------------------------------------------
  // The dispatcher

  /** One more pod: the dispatcher's step. */
  lemma CollectStep(t: Tree, denied: set<Path>, pods: seq<Pod>, dir: Path, src: LogSource)
    requires pods != []
    ensures var front := CollectEffect(t, denied, pods[..|pods| - 1], dir, src);
      var step := PodEffect(front.0, denied, pods[|pods| - 1], dir, src);
      CollectEffect(t, denied, pods, dir, src) == (step.0, front.1 + [step.1])
  {
  }

  /** Every pod is handled once, in listing order, each report naming that pod's path. */
  lemma {:induction false} CollectReportsEveryPod(t: Tree, denied: set<Path>, pods: seq<Pod>, dir: Path, src: LogSource)
    ensures var reports := CollectEffect(t, denied, pods, dir, src).1;
      |reports| == |pods| && forall i :: 0 <= i < |pods| ==> reports[i].path == PodPath(pods[i], dir)
  {
    if pods != [] {
      var front := pods[..|pods| - 1];
      CollectReportsEveryPod(t, denied, front, dir, src);
      CollectStep(t, denied, pods, dir, src);
      var t1 := CollectEffect(t, denied, front, dir, src).0;
      PodReportPath(t1, denied, pods[|pods| - 1], dir, src);
      ReportsExtend(CollectEffect(t, denied, front, dir, src).1, PodEffect(t1, denied, pods[|pods| - 1], dir, src).1, pods, dir);
    }
  }

  /** One more report, for the last pod, keeps every report at its own pod's path. */
  lemma ReportsExtend(earlier: seq<PodReport>, last: PodReport, pods: seq<Pod>, dir: Path)
    requires pods != [] && |earlier| == |pods| - 1
    requires forall i :: 0 <= i < |earlier| ==> earlier[i].path == PodPath(pods[..|pods| - 1][i], dir)
    requires last.path == PodPath(pods[|pods| - 1], dir)
    ensures forall i :: 0 <= i < |pods| ==> (earlier + [last])[i].path == PodPath(pods[i], dir)
  {
    forall i | 0 <= i < |pods|
      ensures (earlier + [last])[i].path == PodPath(pods[i], dir)
    {
      if i < |earlier| {
        assert pods[..|pods| - 1][i] == pods[i];
      }
    }
  }

  /** Collecting never touches anything but what lies strictly inside the output directory. */
  lemma {:induction false} CollectStaysInside(t: Tree, denied: set<Path>, pods: seq<Pod>, dir: Path, src: LogSource)
    ensures SameAbove(t, CollectEffect(t, denied, pods, dir, src).0, dir)
  {
    if pods != [] {
      var front := pods[..|pods| - 1];
      CollectStaysInside(t, denied, front, dir, src);
      CollectStep(t, denied, pods, dir, src);
      var t1 := CollectEffect(t, denied, front, dir, src).0;
      var pod := pods[|pods| - 1];
      PodStaysInside(t1, denied, pod, dir, src);
      var pp := PodPath(pod, dir);
      assert pp == dir + [pp[|dir|]];
      var t2 := CollectEffect(t, denied, pods, dir, src).0;
      forall q | !(dir < q)
        ensures SameAt(t, t2, q)
      {
        assert SameAt(t, t1, q);
        assert !Within(q, pp);
      }
    }
  }
}
