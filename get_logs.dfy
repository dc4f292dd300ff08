/**
 * `splicectl get logs` (cmd/get/get_logs.go): resolve the workspace namespace, list its
 * pods, prepare the output directory and copy every container log of every pod into it.
 *
 * The file system is a map from paths to nodes held by a FileSystem object; the Kubernetes
 * log stream of a (pod, container) pair is an abstract StreamOutcome.  The dispatcher's
 * ticket buffer has capacity 1, so streamLog runs one pod at a time in listing order and
 * the dispatcher is the sequential loop in FileSystem.CollectLogs.
 */
module Logs {
  import opened Wrappers
  import DatabaseList
  type ClusterInfo = DatabaseList.ClusterInfo

  /** A path as its components; path.Join(dir, name) is dir + [name]. */
  type Path = seq<string>

  datatype Node = Dir | File(size: nat)

  type Tree = map<Path, Node>

  /** A pod as the listing returns it: its regular and init container names, in order. */
  datatype Pod = Pod(name: string, containers: seq<string>, initContainers: seq<string>)

  /** What the log request for one container does once the local file is open. */
  datatype StreamOutcome = OpenFails | CopyFails(partial: nat) | Copied(bytes: nat)

  /** The pods' log endpoints: the outcome of streaming (pod name, container name). */
  type LogSource = (string, string) -> StreamOutcome

  const DefaultSelector: string := "app=hbase"

  /** allOrDefault: --all clears the selector, otherwise the --selector value is used. */
  function AllOrDefault(all: bool, def: string): (r: string)
    ensures all ==> r == ""
    ensures !all ==> r == def
  {
    if all then "" else def
  }

  /** The value of --selector: the given one, or "app=hbase" when the flag is absent. */
  function SelectorFlag(given: Option<string>): (r: string)
    ensures given.None? ==> r == DefaultSelector
    ensures given.Some? ==> r == given.value
  {
    match given
    case None => DefaultSelector
    case Some(s) => s
  }

  lemma SelectorChoice(all: bool, given: Option<string>)
    ensures all ==> AllOrDefault(all, SelectorFlag(given)) == ""
    ensures !all && given.None? ==> AllOrDefault(all, SelectorFlag(given)) == "app=hbase"
    ensures !all && given.Some? ==> AllOrDefault(all, SelectorFlag(given)) == given.value
  {
  }

  // ---------------------------------------------------------------------------
  // Workspace namespace (getDBNamespace)

  datatype NamespaceError = PromptFailed(cause: string) | ListFailed(cause: string) | NoMatch(name: string)

  /** The namespace of the LAST cluster whose DcosAppId is `name`, or "" when none is. */
  function LastMatchNamespace(clusters: seq<ClusterInfo>, name: string): (r: string)
  {
    if |clusters| == 0 then ""
    else if clusters[|clusters| - 1].dcosAppId == name then clusters[|clusters| - 1].namespace
    else LastMatchNamespace(clusters[..|clusters| - 1], name)
  }

  lemma {:induction false} LastMatchNamespaceIsLast(clusters: seq<ClusterInfo>, name: string)
    ensures LastMatchNamespace(clusters, name) == ""
      || (exists i :: 0 <= i < |clusters| && clusters[i].dcosAppId == name
            && clusters[i].namespace == LastMatchNamespace(clusters, name)
            && forall j :: i < j < |clusters| ==> clusters[j].dcosAppId != name)
    ensures (forall i :: 0 <= i < |clusters| ==> clusters[i].dcosAppId != name)
      ==> LastMatchNamespace(clusters, name) == ""
  {
    if |clusters| > 0 && clusters[|clusters| - 1].dcosAppId != name {
      var front := clusters[..|clusters| - 1];
      LastMatchNamespaceIsLast(front, name);
      if LastMatchNamespace(front, name) != "" {
        var i :| 0 <= i < |front| && front[i].dcosAppId == name
          && front[i].namespace == LastMatchNamespace(front, name)
          && forall j :: i < j < |front| ==> front[j].dcosAppId != name;
        assert clusters[i] == front[i];
      }
      assert forall i :: 0 <= i < |front| ==> front[i] == clusters[i];
    }
  }

  /**
   * What getDBNamespace returns: the prompt's failure, the listing's failure, or the
   * namespace of the last cluster with the chosen name, which must not be "".
   */
  function DBNamespace(name: string, prompt: Result<string, string>, listing: Result<seq<ClusterInfo>, string>)
    : Result<string, NamespaceError>
  {
    if name == "" && prompt.Err? then Err(PromptFailed(prompt.error))
    else if listing.Err? then Err(ListFailed(listing.error))
    else
      var chosen := if name == "" then prompt.value else name;
      var ns := LastMatchNamespace(listing.value, chosen);
      if ns == "" then Err(NoMatch(chosen)) else Ok(ns)
  }

  /**
   * getDBNamespace: `name` is what DatabaseName read from the flags; an empty one is
   * replaced by the interactive choice.  The loop keeps overwriting, so the last match wins.
   */
  method GetDBNamespace(name: string, prompt: Result<string, string>, listing: Result<seq<ClusterInfo>, string>)
    returns (r: Result<string, NamespaceError>)
    ensures name == "" && prompt.Err? ==> r == Err(PromptFailed(prompt.error))
    ensures (name != "" || prompt.Ok?) && listing.Err? ==> r == Err(ListFailed(listing.error))
    ensures (name != "" || prompt.Ok?) && listing.Ok? ==>
      var chosen := if name == "" then prompt.value else name;
      var ns := LastMatchNamespace(listing.value, chosen);
      r == if ns == "" then Err(NoMatch(chosen)) else Ok(ns)
    ensures r == DBNamespace(name, prompt, listing)
  {
    var dbName := name;
    if |dbName| == 0 {
      if prompt.Err? {
        return Err(PromptFailed(prompt.error));
      }
      dbName := prompt.value;
    }
    if listing.Err? {
      return Err(ListFailed(listing.error));
    }
    var clusters := listing.value;
    var dbNamespace := "";
    for i := 0 to |clusters|
      invariant dbNamespace == LastMatchNamespace(clusters[..i], dbName)
    {
      assert clusters[..i + 1][..i] == clusters[..i];
      if clusters[i].dcosAppId == dbName {
        dbNamespace := clusters[i].namespace;
      }
    }
    assert clusters[..|clusters|] == clusters;
    if dbNamespace == "" {
      return Err(NoMatch(dbName));
    }
    return Ok(dbNamespace);
  }

  // ---------------------------------------------------------------------------
  // The file-system model

  /** q lies in the subtree rooted at p (p itself included). */
  predicate Within(q: Path, p: Path) { p <= q }

  /** Every entry's parent is a directory; the working directory [] is implicit. */
  ghost predicate TreeShaped(t: Tree) {
    [] !in t && forall q :: q in t && |q| > 1 ==> q[..|q| - 1] in t && t[q[..|q| - 1]] == Dir
  }

  predicate ParentIsDir(t: Tree, p: Path) {
    |p| == 1 || (|p| > 1 && p[..|p| - 1] in t && t[p[..|p| - 1]] == Dir)
  }

  /** os.RemoveAll meets a path it may not delete. */
  predicate RemovalDenied(t: Tree, denied: set<Path>, p: Path) {
    exists q :: q in t && Within(q, p) && q in denied
  }

  /**
   * q survives os.RemoveAll(p) although it lies in the subtree: it is a protected entry
   * of the subtree, or a directory above one, which never becomes empty.
   */
  predicate Pinned(t: Tree, denied: set<Path>, p: Path, q: Path) {
    exists d :: d in t && d in denied && Within(d, p) && Within(d, q)
  }

  /**
   * The tree after os.RemoveAll(p), which is not atomic: it deletes every entry of the
   * subtree it can and keeps only the pinned ones; everything outside stays.
   */
  function RemoveAllEffect(t: Tree, denied: set<Path>, p: Path): (r: Tree)
    ensures forall q :: q in r <==> q in t && (!Within(q, p) || Pinned(t, denied, p, q))
    ensures forall q :: q in r ==> r[q] == t[q]
  {
    map q | q in t && (!Within(q, p) || Pinned(t, denied, p, q)) :: t[q]
  }

  /** The parent of a pinned entry below p is pinned too, so the tree keeps its shape. */
  lemma RemoveAllKeepsShape(t: Tree, denied: set<Path>, p: Path)
    requires TreeShaped(t)
    ensures TreeShaped(RemoveAllEffect(t, denied, p))
  {
    var r := RemoveAllEffect(t, denied, p);
    forall q | q in r && |q| > 1
      ensures q[..|q| - 1] in r
    {
      var parent := q[..|q| - 1];
      if Within(parent, p) {
        assert Within(q, p);
        var d :| d in t && d in denied && Within(d, p) && Within(d, q);
        assert Within(d, parent);
      }
    }
  }

  /** os.Mkdir(p, 0755) succeeds. */
  predicate CanMkdir(t: Tree, denied: set<Path>, p: Path) {
    p !in t && p !in denied && ParentIsDir(t, p)
  }

  /** os.OpenFile(p, O_CREATE|O_TRUNC|O_WRONLY, 0777) succeeds. */
  predicate CanCreate(t: Tree, denied: set<Path>, p: Path) {
    p !in denied && ParentIsDir(t, p) && !(p in t && t[p] == Dir)
  }

  datatype DirError = RemoveFailed | MkdirFailed

  /** makeDirectory: the tree afterwards and the error it returns. */
  function MakeDirectoryEffect(t: Tree, denied: set<Path>, p: Path): (Tree, Option<DirError>)
  {
    if p in t && RemovalDenied(t, denied, p) then (RemoveAllEffect(t, denied, p), Some(RemoveFailed))
    else
      var t1 := if p in t then RemoveAllEffect(t, denied, p) else t;
      if CanMkdir(t1, denied, p) then (t1[p := Dir], None) else (t1, Some(MkdirFailed))
  }

  /** The bytes left in the file after the copy. */
  function Written(o: StreamOutcome): nat {
    match o
    case OpenFails => 0
    case CopyFails(k) => k
    case Copied(n) => n
  }

  /** What streamContainerLog returns once the file is open: only a finished copy counts. */
  function Reported(o: StreamOutcome): nat {
    if o.Copied? then o.bytes else 0
  }

  /** streamContainerLog: the file is created before the stream is opened. */
  function ContainerLogEffect(t: Tree, denied: set<Path>, p: Path, o: StreamOutcome): (Tree, nat)
  {
    if CanCreate(t, denied, p) then (t[p := File(Written(o))], Reported(o)) else (t, 0)
  }

  lemma ContainerLogCount(t: Tree, denied: set<Path>, p: Path, o: StreamOutcome)
    ensures ContainerLogEffect(t, denied, p, o).1 == (if CanCreate(t, denied, p) && o.Copied? then o.bytes else 0)
    ensures !CanCreate(t, denied, p) ==> ContainerLogEffect(t, denied, p, o).0 == t
    ensures CanCreate(t, denied, p) && o.OpenFails? ==> ContainerLogEffect(t, denied, p, o).0 == t[p := File(0)]
  {
  }

  // ---------------------------------------------------------------------------
  // The plan for one pod (streamLog)

  datatype Target = Target(path: Path, container: string)

  function LogName(name: string): string { name + ".log" }

  /** One `<name>.log` per container, in list order, inside `sub`. */
  function Files(sub: Path, names: seq<string>): (r: seq<Target>)
    ensures |r| == |names|
    ensures forall i :: 0 <= i < |names| ==> r[i] == Target(sub + [LogName(names[i])], names[i])
  {
    seq(|names|, i requires 0 <= i < |names| => Target(sub + [LogName(names[i])], names[i]))
  }

  /** Every log file streamLog writes for `pod`, in the order it writes them. */
  function Targets(pod: Pod, dir: Path): (r: seq<Target>)
  {
    if |pod.containers| == 1 then [Target(dir + [LogName(pod.name)], "")]
    else Files(dir + [pod.name], pod.containers) + Files(dir + [pod.name], pod.initContainers)
  }

  lemma TargetsShape(pod: Pod, dir: Path)
    ensures |pod.containers| == 1 ==> Targets(pod, dir) == [Target(dir + [pod.name + ".log"], "")]
    ensures |pod.containers| != 1 ==>
      |Targets(pod, dir)| == |pod.containers| + |pod.initContainers|
      && (forall i :: 0 <= i < |pod.containers| ==>
            Targets(pod, dir)[i] == Target(dir + [pod.name, pod.containers[i] + ".log"], pod.containers[i]))
      && (forall i :: 0 <= i < |pod.initContainers| ==>
            Targets(pod, dir)[|pod.containers| + i]
              == Target(dir + [pod.name, pod.initContainers[i] + ".log"], pod.initContainers[i]))
  {
    if |pod.containers| != 1 {
      var sub := dir + [pod.name];
      forall i | 0 <= i < |pod.containers|
        ensures Targets(pod, dir)[i] == Target(dir + [pod.name, pod.containers[i] + ".log"], pod.containers[i])
      {
        assert sub + [LogName(pod.containers[i])] == dir + [pod.name, pod.containers[i] + ".log"];
      }
      forall i | 0 <= i < |pod.initContainers|
        ensures Targets(pod, dir)[|pod.containers| + i]
          == Target(dir + [pod.name, pod.initContainers[i] + ".log"], pod.initContainers[i])
      {
        assert sub + [LogName(pod.initContainers[i])] == dir + [pod.name, pod.initContainers[i] + ".log"];
      }
    }
  }

  /** Streaming the targets one after the other: the tree and the count each call returned. */
  function TargetsEffect(t: Tree, denied: set<Path>, pod: string, ts: seq<Target>, src: LogSource): (r: (Tree, seq<nat>))
    ensures |r.1| == |ts|
  {
    if ts == [] then (t, [])
    else
      var (t1, ns) := TargetsEffect(t, denied, pod, ts[..|ts| - 1], src);
      var last := ts[|ts| - 1];
      var (t2, n) := ContainerLogEffect(t1, denied, last.path, src(pod, last.container));
      (t2, ns + [n])
  }

  function Sum(ns: seq<nat>): nat {
    if ns == [] then 0 else Sum(ns[..|ns| - 1]) + ns[|ns| - 1]
  }

  /**
   * The figure streamLog logs for a pod with a sub-directory: `amount =` in the regular
   * loop keeps only the last regular container's count, `amount +=` adds the init ones.
   */
  function LoggedAmount(regular: seq<nat>, init: seq<nat>): nat {
    (if regular == [] then 0 else regular[|regular| - 1]) + Sum(init)
  }

  /** The bytes actually copied for the pod: every container's count. */
  function TotalAmount(regular: seq<nat>, init: seq<nat>): nat {
    Sum(regular) + Sum(init)
  }

  /**
   * What streamLog does for a pod: the path it wrote, the byte count it logs and the
   * bytes its copies reported in total; or the sub-directory error that skips the pod.
   */
  datatype PodReport = Wrote(path: Path, logged: nat, copied: nat) | Skipped(path: Path)

  function PodEffect(t: Tree, denied: set<Path>, pod: Pod, dir: Path, src: LogSource): (Tree, PodReport)
  {
    if |pod.containers| == 1 then
      var p := dir + [LogName(pod.name)];
      var (t1, n) := ContainerLogEffect(t, denied, p, src(pod.name, ""));
      (t1, Wrote(p, n, n))
    else
      var sub := dir + [pod.name];
      var (t1, e) := MakeDirectoryEffect(t, denied, sub);
      if e.Some? then (t1, Skipped(sub))
      else
        var (t2, rs) := TargetsEffect(t1, denied, pod.name, Files(sub, pod.containers), src);
        var (t3, ins) := TargetsEffect(t2, denied, pod.name, Files(sub, pod.initContainers), src);
        (t3, Wrote(sub, LoggedAmount(rs, ins), TotalAmount(rs, ins)))
  }

  /** The dispatcher: every listed pod in listing order. */
  function CollectEffect(t: Tree, denied: set<Path>, pods: seq<Pod>, dir: Path, src: LogSource): (Tree, seq<PodReport>)
  {
    if pods == [] then (t, [])
    else
      var (t1, rs) := CollectEffect(t, denied, pods[..|pods| - 1], dir, src);
      var (t2, r) := PodEffect(t1, denied, pods[|pods| - 1], dir, src);
      (t2, rs + [r])
  }

  /** How a run of `get logs` ends. */
  datatype RunOutcome =
    | NamespaceFatal(err: NamespaceError)
    | KubeConfigFatal
    | ListPodsFatal(cause: string)
    | DirectoryFatal(dirErr: DirError)
    | Completed(namespace: string, selector: string, reports: seq<PodReport>)

  /** The local file system as the command sees it; `denied` are the paths the OS refuses to touch. */
  class FileSystem {
    var entries: Tree
    const denied: set<Path>

    ghost predicate Valid()
      reads this
    {
      TreeShaped(entries)
    }

    constructor (initial: Tree, denied: set<Path>)
      requires TreeShaped(initial)
      ensures Valid() && entries == initial && this.denied == denied
    {
      entries := initial;
      this.denied := denied;
    }

    /** os.Stat(p) reports no error. */
    function Stat(p: Path): bool
      reads this
    {
      p in entries
    }

    /** os.RemoveAll(p) */
    method RemoveAll(p: Path) returns (failed: bool)
      requires Valid()
      modifies this
      ensures Valid()
      ensures failed == RemovalDenied(old(entries), denied, p)
      ensures entries == RemoveAllEffect(old(entries), denied, p)
    {
      failed := RemovalDenied(entries, denied, p);
      RemoveAllKeepsShape(entries, denied, p);
      entries := RemoveAllEffect(entries, denied, p);
    }

    /** os.Mkdir(p, 0755) */
    method Mkdir(p: Path) returns (failed: bool)
      requires Valid()
      modifies this
      ensures Valid()
      ensures failed == !CanMkdir(old(entries), denied, p)
      ensures entries == if failed then old(entries) else old(entries)[p := Dir]
    {
      failed := !CanMkdir(entries, denied, p);
      if !failed {
        entries := entries[p := Dir];
      }
    }

    /** os.OpenFile(p, O_CREATE|O_TRUNC|O_WRONLY, 0777) */
    method OpenFile(p: Path) returns (failed: bool)
      requires Valid()
      modifies this
      ensures Valid()
      ensures failed == !CanCreate(old(entries), denied, p)
      ensures entries == if failed then old(entries) else old(entries)[p := File(0)]
    {
      failed := !CanCreate(entries, denied, p);
      if !failed {
        entries := entries[p := File(0)];
      }
    }

    /** io.Copy from an opened stream into the open file at p. */
    method Copy(p: Path, o: StreamOutcome) returns (amount: nat, failed: bool)
      requires Valid() && p in entries && entries[p].File? && !o.OpenFails?
      modifies this
      ensures Valid()
      ensures entries == old(entries)[p := File(Written(o))]
      ensures failed == o.CopyFails? && amount == Written(o)
    {
      entries := entries[p := File(Written(o))];
      amount, failed := Written(o), o.CopyFails?;
    }

    /** makeDirectory: clear whatever is at p, then make a fresh directory there. */
    method MakeDirectory(p: Path) returns (err: Option<DirError>)
      requires Valid()
      modifies this
      ensures Valid()
      ensures (entries, err) == MakeDirectoryEffect(old(entries), denied, p)
    {
      if Stat(p) {
        var removeFailed := RemoveAll(p);
        if removeFailed {
          return Some(RemoveFailed);
        }
      }
      var mkdirFailed := Mkdir(p);
      if mkdirFailed {
        return Some(MkdirFailed);
      }
      return None;
    }

    /** streamContainerLog: any failure reports 0 bytes, success the bytes copied. */
    method StreamContainerLog(p: Path, o: StreamOutcome) returns (amount: nat)
      requires Valid()
      modifies this
      ensures Valid()
      ensures (entries, amount) == ContainerLogEffect(old(entries), denied, p, o)
    {
      var openFailed := OpenFile(p);
      if openFailed {
        return 0;
      }
      if o.OpenFails? {
        return 0;
      }
      var copied, copyFailed := Copy(p, o);
      if copyFailed {
        assert entries == old(entries)[p := File(Written(o))];
        return 0;
      }
      assert o.Copied? && copied == Reported(o);
      assert entries == old(entries)[p := File(Written(o))];
      return copied;
    }

    /** The two container loops of streamLog. */
    method StreamContainers(pod: string, ts: seq<Target>, src: LogSource) returns (counts: seq<nat>)
      requires Valid()
      modifies this
      ensures Valid()
      ensures (entries, counts) == TargetsEffect(old(entries), denied, pod, ts, src)
    {
      counts := [];
      for i := 0 to |ts|
        invariant Valid()
        invariant (entries, counts) == TargetsEffect(old(entries), denied, pod, ts[..i], src)
      {
        assert ts[..i + 1][..i] == ts[..i];
        var n := StreamContainerLog(ts[i].path, src(pod, ts[i].container));
        counts := counts + [n];
      }
      assert ts[..|ts|] == ts;
    }

    /** streamLog: one file for a single-container pod, otherwise a sub-directory of files. */
    method StreamLog(pod: Pod, dir: Path, src: LogSource) returns (report: PodReport)
      requires Valid()
      modifies this
      ensures Valid()
      ensures (entries, report) == PodEffect(old(entries), denied, pod, dir, src)
    {
      if |pod.containers| == 1 {
        var filName := dir + [LogName(pod.name)];
        var amount := StreamContainerLog(filName, src(pod.name, ""));
        return Wrote(filName, amount, amount);
      }
      var filName := dir + [pod.name];
      var err := MakeDirectory(filName);
      if err.Some? {
        return Skipped(filName);
      }
      var regular := StreamContainers(pod.name, Files(filName, pod.containers), src);
      var init := StreamContainers(pod.name, Files(filName, pod.initContainers), src);
      return Wrote(filName, LoggedAmount(regular, init), TotalAmount(regular, init));
    }

    /**
     * Run: namespace, selector, pod listing, output directory, then every pod in turn.
     * `name` is what DatabaseName read from the flags; `listPods` answers a
     * (namespace, selector) listing request.
     */
    method CollectLogs(
      name: string, prompt: Result<string, string>, listing: Result<seq<ClusterInfo>, string>,
      all: bool, selector: string, kubeConfigOk: bool,
      listPods: (string, string) -> Result<seq<Pod>, string>, dir: Path, src: LogSource)
      returns (outcome: RunOutcome)
      requires Valid()
      modifies this
      ensures Valid()
      ensures outcome.NamespaceFatal? <==> DBNamespace(name, prompt, listing).Err?
      ensures outcome.NamespaceFatal? ==> outcome.err == DBNamespace(name, prompt, listing).error
      ensures outcome.KubeConfigFatal? <==> DBNamespace(name, prompt, listing).Ok? && !kubeConfigOk
      ensures outcome.ListPodsFatal? <==>
        && DBNamespace(name, prompt, listing).Ok? && kubeConfigOk
        && listPods(DBNamespace(name, prompt, listing).value, AllOrDefault(all, selector)).Err?
      ensures outcome.ListPodsFatal? ==>
        outcome.cause == listPods(DBNamespace(name, prompt, listing).value, AllOrDefault(all, selector)).error
      ensures outcome.DirectoryFatal? <==>
        && DBNamespace(name, prompt, listing).Ok? && kubeConfigOk
        && listPods(DBNamespace(name, prompt, listing).value, AllOrDefault(all, selector)).Ok?
        && MakeDirectoryEffect(old(entries), denied, dir).1.Some?
      ensures outcome.NamespaceFatal? || outcome.KubeConfigFatal? || outcome.ListPodsFatal?
        ==> entries == old(entries)
      ensures outcome.DirectoryFatal? ==> (entries, Some(outcome.dirErr)) == MakeDirectoryEffect(old(entries), denied, dir)
      ensures outcome.Completed? ==>
        && outcome.namespace == DBNamespace(name, prompt, listing).value
        && outcome.selector == AllOrDefault(all, selector)
        && listPods(outcome.namespace, outcome.selector).Ok?
        && var t1 := MakeDirectoryEffect(old(entries), denied, dir);
           t1.1.None?
           && (entries, outcome.reports)
              == CollectEffect(t1.0, denied, listPods(outcome.namespace, outcome.selector).value, dir, src)
    {
      var ns := GetDBNamespace(name, prompt, listing);
      if ns.Err? {
        return NamespaceFatal(ns.error);
      }
      var sel := AllOrDefault(all, selector);
      if !kubeConfigOk {
        return KubeConfigFatal;
      }
      var pods := listPods(ns.value, sel);
      if pods.Err? {
        return ListPodsFatal(pods.error);
      }
      var err := MakeDirectory(dir);
      if err.Some? {
        return DirectoryFatal(err.value);
      }
      var reports := CollectPods(pods.value, dir, src);
      return Completed(ns.value, sel, reports);
    }

    /** The loop over the listed pods: streamLog for each, in listing order. */
    method CollectPods(items: seq<Pod>, dir: Path, src: LogSource) returns (reports: seq<PodReport>)
      requires Valid()
      modifies this
      ensures Valid()
      ensures (entries, reports) == CollectEffect(old(entries), denied, items, dir, src)
    {
      ghost var t1 := entries;
      reports := [];
      for i := 0 to |items|
        invariant Valid()
        invariant (entries, reports) == CollectEffect(t1, denied, items[..i], dir, src)
      {
        assert items[..i + 1][..i] == items[..i];
        var report := StreamLog(items[i], dir, src);
        reports := reports + [report];
      }
      assert items[..|items|] == items;
    }
  }
}
