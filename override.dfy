/**
 * cmd/override/component.go: the components whose configuration resources can be
 * overridden, the lookups by name, the name listings, and the guards that keep
 * Get/Put*Resource from sending a request for a resource the component does not have.
 */
module Override {
  import opened Wrappers

  datatype Resource = Resource(name: string)

  datatype Component = Component(name: string, resources: seq<Resource>)

  function NoResourceError(name: string): string { "no resource with name: " + name }

  function NoComponentError(name: string): string { "no component with name: " + name }

  // ---------------------------------------------------------------------------
  // Resources

  /** The names of a resource list, in list order. */
  function ResourceNames(rs: seq<Resource>): (r: seq<string>)
    ensures |r| == |rs| && forall i :: 0 <= i < |rs| ==> r[i] == rs[i].name
  {
    seq(|rs|, i requires 0 <= i < |rs| => rs[i].name)
  }

  /** Resources.Resource: the first resource with that name, or the lookup error. */
  function FindResource(rs: seq<Resource>, name: string): (r: Result<Resource, string>)
    ensures r.Ok? ==> r.value.name == name && r.value in rs
    ensures r.Err? ==> r.error == NoResourceError(name)
  {
    if rs == [] then Err(NoResourceError(name))
    else if rs[0].name == name then Ok(rs[0])
    else FindResource(rs[1..], name)
  }

  /** A lookup succeeds exactly for the names the listing shows. */
  lemma {:induction false} FindResourceIffListed(rs: seq<Resource>, name: string)
    ensures FindResource(rs, name).Ok? <==> name in ResourceNames(rs)
  {
    if rs != [] {
      FindResourceIffListed(rs[1..], name);
      assert ResourceNames(rs) == [rs[0].name] + ResourceNames(rs[1..]);
    }
  }

  /** rs[i] carries the name and no entry before it does. */
  predicate FirstAt(rs: seq<Resource>, i: int, name: string) {
    0 <= i < |rs| && rs[i].name == name && forall j :: 0 <= j < i ==> rs[j].name != name
  }

  /** The found resource is the first with that name: no earlier entry carries it. */
  lemma {:induction false} FindResourceIsFirst(rs: seq<Resource>, name: string)
    requires FindResource(rs, name).Ok?
    ensures exists i :: FirstAt(rs, i, name) && rs[i] == FindResource(rs, name).value
  {
    if rs[0].name == name {
      assert FirstAt(rs, 0, name);
    } else {
      FindResourceIsFirst(rs[1..], name);
      var i :| FirstAt(rs[1..], i, name) && rs[1..][i] == FindResource(rs[1..], name).value;
      forall j | 0 <= j < i + 1
        ensures rs[j].name != name
      {
        if j > 0 {
          assert rs[j] == rs[1..][j - 1];
        }
      }
      assert FirstAt(rs, i + 1, name);
    }
  }

  /** Resources.Strings: a slice of len(r) filled by index. */
  method ResourceStrings(rs: seq<Resource>) returns (names: seq<string>)
    ensures names == ResourceNames(rs)
  {
    var rsrcs := new string[|rs|];
    for i := 0 to |rs|
      invariant forall k :: 0 <= k < i ==> rsrcs[k] == rs[k].name
    {
      rsrcs[i] := rs[i].name;
    }
    names := rsrcs[..];
  }

  /** Component.ListResources */
  method ListResources(co: Component) returns (names: seq<string>)
    ensures names == ResourceNames(co.resources)
  {
    names := ResourceStrings(co.resources);
  }

  /** Component.Resource */
  function ComponentResource(co: Component, name: string): (r: Result<Resource, string>)
    ensures r == FindResource(co.resources, name)
    ensures r.Ok? <==> name in ResourceNames(co.resources)
  {
    FindResourceIffListed(co.resources, name);
    FindResource(co.resources, name)
  }

  /** The cases of cmd/override/override_test.go. */
  lemma ComponentTestCases()
    ensures var comp1 := Component("cone", [Resource("rone")]);
      var comp2 := Component("ctwo", [Resource("rone"), Resource("rtwo")]);
      && ComponentResource(comp1, "rone") == Ok(Resource("rone"))
      && ResourceNames(comp1.resources) == ["rone"]
      && ComponentResource(comp1, "rthree").Err?
      && ComponentNames([comp1, comp2]) == ["cone", "ctwo"]
      && FindComponent([comp1, comp2], "cone") == Ok(comp1)
      && FindComponent([comp1, comp2], "cthree").Err?
  {
  }

  // ---------------------------------------------------------------------------
  // prettyStrings

  /** One "\t<s>\n" line per string, in order. */
  function Pretty(strs: seq<string>): string {
    if strs == [] then "" else Pretty(strs[..|strs| - 1]) + "\t" + strs[|strs| - 1] + "\n"
  }

  /** prettyStrings: a strings.Builder written to once per string. */
  method PrettyStrings(strs: seq<string>) returns (out: string)
    ensures out == Pretty(strs)
  {
    out := "";
    for i := 0 to |strs|
      invariant out == Pretty(strs[..i])
    {
      assert strs[..i + 1][..i] == strs[..i];
      out := out + "\t" + strs[i] + "\n";
    }
    assert strs[..|strs|] == strs;
  }

  /** Listing two lists one after the other is listing their concatenation. */
  lemma {:induction false} PrettyAppend(a: seq<string>, b: seq<string>)
    ensures Pretty(a + b) == Pretty(a) + Pretty(b)
  {
    if b == [] {
      assert a + b == a;
    } else {
      assert (a + b)[..|a + b| - 1] == a + b[..|b| - 1];
      PrettyAppend(a, b[..|b| - 1]);
    }
  }

  /** The text is empty exactly for no strings; each string costs its length plus two. */
  lemma {:induction false} PrettyLength(strs: seq<string>)
    ensures Pretty(strs) == "" <==> strs == []
    ensures |Pretty(strs)| == TotalLength(strs) + 2 * |strs|
  {
    if strs != [] {
      PrettyLength(strs[..|strs| - 1]);
    }
  }

  function TotalLength(strs: seq<string>): nat {
    if strs == [] then 0 else TotalLength(strs[..|strs| - 1]) + |strs[|strs| - 1]|
  }

  /** Component.PrettyListResources */
  method PrettyListResources(co: Component) returns (out: string)
    ensures out == Pretty(ResourceNames(co.resources))
  {
    var names := ListResources(co);
    out := PrettyStrings(names);
  }

  // ---------------------------------------------------------------------------
  // Components

  function ComponentNames(cs: seq<Component>): (r: seq<string>)
    ensures |r| == |cs| && forall i :: 0 <= i < |cs| ==> r[i] == cs[i].name
  {
    seq(|cs|, i requires 0 <= i < |cs| => cs[i].name)
  }

  /** Components.Component: the first component with that name, or the lookup error. */
  function FindComponent(cs: seq<Component>, name: string): (r: Result<Component, string>)
    ensures r.Ok? ==> r.value.name == name && r.value in cs
    ensures r.Err? ==> r.error == NoComponentError(name)
  {
    if cs == [] then Err(NoComponentError(name))
    else if cs[0].name == name then Ok(cs[0])
    else FindComponent(cs[1..], name)
  }

  lemma {:induction false} FindComponentIffListed(cs: seq<Component>, name: string)
    ensures FindComponent(cs, name).Ok? <==> name in ComponentNames(cs)
  {
    if cs != [] {
      FindComponentIffListed(cs[1..], name);
      assert ComponentNames(cs) == [cs[0].name] + ComponentNames(cs[1..]);
    }
  }

  /** Components.Strings: a slice of len(co) filled by index. */
  method ComponentStrings(cs: seq<Component>) returns (names: seq<string>)
    ensures names == ComponentNames(cs)
  {
    var comps := new string[|cs|];
    for i := 0 to |cs|
      invariant forall k :: 0 <= k < i ==> comps[k] == cs[k].name
    {
      comps[i] := cs[i].name;
    }
    names := comps[..];
  }

  /** Components.Process: the hook hands the collection back untouched. */
  function Process(cs: seq<Component>): (r: seq<Component>)
    ensures r == cs
  {
    cs
  }

  // ---------------------------------------------------------------------------
  // Requests to splicectl/api

  function DefaultsUri(co: Component, resource: string): string {
    "splicectl/v1/defaults/components/" + co.name + "/resources/" + resource
  }

  function OverridesUri(co: Component, resource: string): string {
    "splicectl/v1/overrides/components/" + co.name + "/resources/" + resource
  }

  /** A resource document as responseToYaml returns it; None is the nil map of a failed response. */
  type ResourceData = Option<map<string, string>>

  /** What GetDefaultResource or GetOverrideResource did: the GET it sent, if any, and its result. */
  datatype GetOutcome = GetOutcome(request: Option<string>, result: Result<ResourceData, string>)

  /**
   * GetDefaultResource (defaults = true) and GetOverrideResource: the lookup guards the
   * request; after it the response's own error is dropped, so the error is always nil.
   */
  function GetResource(co: Component, name: string, defaults: bool, response: ResourceData): (r: GetOutcome)
  {
    match ComponentResource(co, name)
    case Err(e) => GetOutcome(None, Err(e))
    case Ok(res) =>
      GetOutcome(Some(if defaults then DefaultsUri(co, res.name) else OverridesUri(co, res.name)), Ok(response))
  }

  lemma GetResourceGuard(co: Component, name: string, defaults: bool, response: ResourceData)
    ensures GetResource(co, name, defaults, response).request.None?
      <==> name !in ResourceNames(co.resources)
    ensures name !in ResourceNames(co.resources) ==>
      GetResource(co, name, defaults, response).result == Err(NoResourceError(name))
    ensures name in ResourceNames(co.resources) ==>
      && GetResource(co, name, defaults, response).result == Ok(response)
      && GetResource(co, name, defaults, response).request
         == Some(if defaults then DefaultsUri(co, name) else OverridesUri(co, name))
  {
  }

  /** What PutOverrideResource did: the PUT it sent (uri and YAML body), if any, and its error. */
  datatype PutOutcome = PutOutcome(request: Option<(string, string)>, err: Option<string>)

  /**
   * PutOverrideResource: lookup, then yaml.Marshal of the data (`marshalled`), then the
   * PUT, whose transport error (`putError`) is returned.
   */
  function PutOverrideResource(co: Component, name: string, marshalled: Result<string, string>, putError: Option<string>): (r: PutOutcome)
  {
    match ComponentResource(co, name)
    case Err(e) => PutOutcome(None, Some(e))
    case Ok(res) =>
      match marshalled
      case Err(e) => PutOutcome(None, Some(e))
      case Ok(body) => PutOutcome(Some((OverridesUri(co, res.name), body)), putError)
  }

  lemma PutOverrideResourceGuard(co: Component, name: string, marshalled: Result<string, string>, putError: Option<string>)
    ensures PutOverrideResource(co, name, marshalled, putError).request.Some?
      <==> name in ResourceNames(co.resources) && marshalled.Ok?
    ensures name !in ResourceNames(co.resources) ==>
      PutOverrideResource(co, name, marshalled, putError).err == Some(NoResourceError(name))
    ensures name in ResourceNames(co.resources) && marshalled.Ok? ==>
      PutOverrideResource(co, name, marshalled, putError)
        == PutOutcome(Some((OverridesUri(co, name), marshalled.value)), putError)
  {
  }

  // ---------------------------------------------------------------------------
  // The built-in table

  const FairScheduler := Resource("fairscheduler.xml")
  const CoreSite := Resource("core-site.xml")
  const HdfsSite := Resource("hdfs-site.xml")
  const HbaseSite := Resource("hbase-site.xml")
  const KafkaEnv := Resource("kafka-env.sh")
  const HbaseEnv := Resource("hbase-env.sh")
  const Shiro := Resource("shiro.ini")
  const PromJmxAgent := Resource("prom-jmx-agent-config.yml")
  const Log4j := Resource("log4j.properties")
  const ServerProps := Resource("server.properties")

  const Components: seq<Component> := Process([
    Component("splicedb-hbase-config", [FairScheduler, HbaseEnv, Log4j, Shiro, HbaseSite]),
    Component("splicedb-hbase-config-extra", [HbaseEnv, Log4j]),
    Component("splicedb-kafka-config", [Log4j, PromJmxAgent, ServerProps, KafkaEnv]),
    Component("splicedb-olap-config", [FairScheduler, HbaseEnv, Log4j, Shiro, HbaseSite]),
    Component("splicedb-olap-config-extra", [HbaseEnv, Log4j]),
    Component("splicedb-hadoop-config", [CoreSite, HdfsSite]),
    Component("splicedb-spark-config", [HbaseSite])
  ])

  predicate DistinctNames(names: seq<string>) {
    forall i, j :: 0 <= i < j < |names| ==> names[i] != names[j]
  }

  const ComponentNameList: seq<string> := [
    "splicedb-hbase-config", "splicedb-hbase-config-extra", "splicedb-kafka-config",
    "splicedb-olap-config", "splicedb-olap-config-extra", "splicedb-hadoop-config",
    "splicedb-spark-config"
  ]

  /** Seven components with pairwise distinct names. */
  lemma ComponentTableNames()
    ensures ComponentNames(Components) == ComponentNameList
    ensures |Components| == 7
    ensures DistinctNames(ComponentNames(Components))
  {
    var ns := ComponentNameList;
    assert ComponentNames(Components) == ns;
    forall i, j | 0 <= i < j < 7
      ensures ns[i] != ns[j]
    {
      assert |ns[i]| != |ns[j]| || ns[i][9] != ns[j][9];
    }
  }

  /** No component lists a resource twice. */
  lemma ComponentTableResources()
    ensures forall co :: co in Components ==> DistinctNames(ResourceNames(co.resources))
  {
  }

  /** Every listed component name finds its own entry of the table. */
  lemma ComponentTableLookups()
    ensures forall i :: 0 <= i < |Components| ==> FindComponent(Components, Components[i].name) == Ok(Components[i])
  {
    ComponentTableNames();
    forall i | 0 <= i < |Components|
      ensures FindComponent(Components, Components[i].name) == Ok(Components[i])
    {
      FirstIsOnly(Components, i);
    }
  }

  lemma {:induction false} FirstIsOnly(cs: seq<Component>, i: int)
    requires 0 <= i < |cs| && DistinctNames(ComponentNames(cs))
    ensures FindComponent(cs, cs[i].name) == Ok(cs[i])
  {
    if i > 0 {
      assert cs[0].name != cs[i].name by {
        assert ComponentNames(cs)[0] == cs[0].name && ComponentNames(cs)[i] == cs[i].name;
      }
      assert DistinctNames(ComponentNames(cs[1..])) by {
        forall a, b | 0 <= a < b < |cs[1..]|
          ensures ComponentNames(cs[1..])[a] != ComponentNames(cs[1..])[b]
        {
          assert ComponentNames(cs)[a + 1] == cs[1..][a].name;
          assert ComponentNames(cs)[b + 1] == cs[1..][b].name;
        }
      }
      FirstIsOnly(cs[1..], i - 1);
    }
  }
}
