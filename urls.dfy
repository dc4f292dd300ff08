/**
 * `splicectl get urls` (cmd/get/get_urls.go): turn the ingresses of the system and
 * workspace namespaces into "name: url" lines, sorted by name.
 */
module Urls {
  import opened Wrappers
  import opened Text

  /**
   * An ingress rule: its host and its HTTP block's paths.  `http` is None when the rule
   * has no HTTP block, a nil pointer that reading rule.HTTP.Paths dereferences.
   */
  datatype Rule = Rule(host: string, http: Option<seq<string>>)

  datatype Ingress = Ingress(name: string, labels: map<string, string>, rules: seq<Rule>)

  datatype NamedURL = NamedURL(name: string, url: string)

  const OauthProxySuffix: string := "-oauth2-proxy"
  const SystemNamespace: string := "splice-system"
  const DisplayNameLabel: string := "displayName"
  const DefaultNameLabel: string := "app"

  const BuildURLs: string :=
    "\nKube:                   https://kube.build.splicemachine-dev.io/\nEngineering Dashboard:  https://dashboard.build.splicemachine-dev.io/\n"

  const ProdURLs: string :=
    "\nDashboard:            https://cloud-dashboard.splicemachine.io/\n"
    + "Kibana:               https://cloudadmin.splicemachine.io/kibana\n"
    + "Chronograf:           https://cloudadmin.splicemachine.io/chronograf\n"
    + "Oauth:                https://cloudadmin.splicemachine.io/oauth2\n"
    + "Cloud Manager Admin:  https://cloudadmin.splicemachine.io\n"
    + "Cloud Manager:        https://cloud.splicemachine.io\n"

  // ---------------------------------------------------------------------------
  // preferredName

  /** Whether strings.Title starts a new word after c (ASCII rule; other code points by white space). */
  predicate IsSeparator(c: char) {
    if (c as int) < 128 then !(IsAsciiUpper(c) || IsAsciiLower(c) || IsDigit(c) || c == '_')
    else IsSpace(c)
  }

  /** Whether strings.Title upper-cases s[i]: it opens the string or follows a separator. */
  predicate StartsWord(s: string, i: int)
    requires 0 <= i < |s|
  {
    i == 0 || IsSeparator(s[i - 1])
  }

  /** strings.Title: upper-case the first letter of every word, leave every other character alone. */
  function Title(s: string): (r: string)
    ensures |r| == |s|
    ensures forall i :: 0 <= i < |s| && StartsWord(s, i) ==> r[i] == UpperChar(s[i])
    ensures forall i :: 0 <= i < |s| && !StartsWord(s, i) ==> r[i] == s[i]
  {
    seq(|s|, i requires 0 <= i < |s| => if StartsWord(s, i) then UpperChar(s[i]) else s[i])
  }

  /** preferredName: the displayName label when present (even empty), else the titled app label. */
  function PreferredName(labels: map<string, string>): (r: string)
  {
    if DisplayNameLabel in labels then labels[DisplayNameLabel]
    else Title(if DefaultNameLabel in labels then labels[DefaultNameLabel] else "")
  }

  lemma PreferredNameCases(labels: map<string, string>)
    ensures DisplayNameLabel in labels ==> PreferredName(labels) == labels[DisplayNameLabel]
    ensures DisplayNameLabel !in labels && DefaultNameLabel !in labels ==> PreferredName(labels) == ""
    ensures DisplayNameLabel !in labels && DefaultNameLabel in labels ==>
      |PreferredName(labels)| == |labels[DefaultNameLabel]|
      && (|labels[DefaultNameLabel]| > 0 ==> PreferredName(labels)[0] == UpperChar(labels[DefaultNameLabel][0]))
  {
  }

  lemma TitleExamples()
    ensures Title("hbase") == "Hbase"
    ensures Title("a-b") == "A-B"
    ensures Title("a_b") == "A_b"
  {
    assert StartsWord("a-b", 2) && !StartsWord("a_b", 2);
    assert !StartsWord("hbase", 1) && !StartsWord("hbase", 2) && !StartsWord("hbase", 3) && !StartsWord("hbase", 4);
  }

  // ---------------------------------------------------------------------------
  // generateURLsFromIngresses

  /** Ingresses whose lower-cased name contains "-oauth2-proxy" are not listed. */
  predicate Excluded(ing: Ingress) {
    Contains(ToLower(ing.name), OauthProxySuffix)
  }

  function PathURLs(name: string, host: string, paths: seq<string>): (r: seq<NamedURL>)
    ensures |r| == |paths|
    ensures forall i :: 0 <= i < |paths| ==> r[i] == NamedURL(name + ":", "https://" + host + paths[i])
  {
    seq(|paths|, i requires 0 <= i < |paths| => NamedURL(name + ":", "https://" + host + paths[i]))
  }

  /** The paths of a rule's HTTP block; a rule without one never gets this far. */
  function Paths(rule: Rule): seq<string> {
    if rule.http.Some? then rule.http.value else []
  }

  function RuleURLs(name: string, rules: seq<Rule>): seq<NamedURL> {
    if rules == [] then []
    else RuleURLs(name, rules[..|rules| - 1]) + PathURLs(name, rules[|rules| - 1].host, Paths(rules[|rules| - 1]))
  }

  /** Some rule has no HTTP block, so reading its paths panics. */
  predicate NilHTTP(rules: seq<Rule>) {
    exists k :: 0 <= k < |rules| && rules[k].http.None?
  }

  /** generateURLsFromIngresses panics: an ingress it does not skip has a rule without HTTP block. */
  predicate Panics(ings: seq<Ingress>) {
    exists i :: 0 <= i < |ings| && !Excluded(ings[i]) && NilHTTP(ings[i].rules)
  }

  function IngressURLs(ing: Ingress): seq<NamedURL> {
    if Excluded(ing) then [] else RuleURLs(PreferredName(ing.labels), ing.rules)
  }

  /** Every ingress's entries, ingress after ingress. */
  function URLsOf(ings: seq<Ingress>): seq<NamedURL> {
    if ings == [] then [] else URLsOf(ings[..|ings| - 1]) + IngressURLs(ings[|ings| - 1])
  }

  lemma RuleURLsStep(name: string, rules: seq<Rule>, r: int)
    requires 0 <= r < |rules|
    ensures RuleURLs(name, rules[..r + 1]) == RuleURLs(name, rules[..r]) + PathURLs(name, rules[r].host, Paths(rules[r]))
  {
    assert rules[..r + 1][..r] == rules[..r];
  }

  lemma URLsOfStep(ings: seq<Ingress>, i: int)
    requires 0 <= i < |ings|
    ensures URLsOf(ings[..i + 1]) == URLsOf(ings[..i]) + IngressURLs(ings[i])
  {
    assert ings[..i + 1][..i] == ings[..i];
  }

  lemma PathURLsStep(name: string, host: string, paths: seq<string>, p: int)
    requires 0 <= p < |paths|
    ensures PathURLs(name, host, paths[..p + 1]) == PathURLs(name, host, paths[..p]) + [NamedURL(name + ":", "https://" + host + paths[p])]
  {
  }

  /** The innermost loop of generateURLsFromIngresses: one entry per path of a rule. */
  method AppendPathURLs(urls: seq<NamedURL>, name: string, host: string, paths: seq<string>) returns (r: seq<NamedURL>)
    ensures r == urls + PathURLs(name, host, paths)
  {
    r := urls;
    for p := 0 to |paths|
      invariant r == urls + PathURLs(name, host, paths[..p])
    {
      PathURLsStep(name, host, paths, p);
      r := r + [NamedURL(name + ":", "https://" + host + paths[p])];
    }
    assert paths[..|paths|] == paths;
  }

  /**
   * The loop over the rules of one ingress in generateURLsFromIngresses; `panicked` when
   * a rule without HTTP block is reached.
   */
  method AppendRuleURLs(urls: seq<NamedURL>, name: string, rules: seq<Rule>) returns (r: seq<NamedURL>, panicked: bool)
    ensures panicked <==> NilHTTP(rules)
    ensures !panicked ==> r == urls + RuleURLs(name, rules)
  {
    r, panicked := urls, false;
    for k := 0 to |rules|
      invariant r == urls + RuleURLs(name, rules[..k])
      invariant !NilHTTP(rules[..k])
    {
      RuleURLsStep(name, rules, k);
      if rules[k].http.None? {
        return r, true;
      }
      r := AppendPathURLs(r, name, rules[k].host, rules[k].http.value);
      NilHTTPStep(rules, k);
    }
    assert rules[..|rules|] == rules;
  }

  lemma NilHTTPStep(rules: seq<Rule>, k: int)
    requires 0 <= k < |rules|
    ensures NilHTTP(rules[..k + 1]) <==> NilHTTP(rules[..k]) || rules[k].http.None?
  {
    assert forall j :: 0 <= j < k ==> rules[..k + 1][j] == rules[..k][j];
    assert rules[..k + 1][k] == rules[k];
  }

  lemma PanicsStep(ings: seq<Ingress>, i: int)
    requires 0 <= i < |ings|
    ensures Panics(ings[..i + 1]) <==> Panics(ings[..i]) || (!Excluded(ings[i]) && NilHTTP(ings[i].rules))
  {
    assert forall j :: 0 <= j < i ==> ings[..i + 1][j] == ings[..i][j];
    assert ings[..i + 1][i] == ings[i];
  }

  /** generateURLsFromIngresses: nested loops appending to `urls`, or a nil-pointer panic. */
  method GenerateURLsFromIngresses(ings: seq<Ingress>) returns (urls: seq<NamedURL>, panicked: bool)
    ensures panicked <==> Panics(ings)
    ensures !panicked ==> urls == URLsOf(ings)
  {
    urls, panicked := [], false;
    for i := 0 to |ings|
      invariant urls == URLsOf(ings[..i])
      invariant !Panics(ings[..i])
    {
      URLsOfStep(ings, i);
      var ing := ings[i];
      if !Excluded(ing) {
        var name := PreferredName(ing.labels);
        var nilHTTP;
        urls, nilHTTP := AppendRuleURLs(urls, name, ing.rules);
        if nilHTTP {
          return urls, true;
        }
      }
      PanicsStep(ings, i);
    }
    assert ings[..|ings|] == ings;
  }

  /** An entry is listed exactly when some path of some rule of a listed ingress produces it. */
  lemma {:induction false} RuleURLsMembership(name: string, rules: seq<Rule>, u: NamedURL)
    ensures u in RuleURLs(name, rules) <==>
      u.name == name + ":" && exists r, p :: 0 <= r < |rules| && 0 <= p < |Paths(rules[r])|
                                            && u.url == "https://" + rules[r].host + Paths(rules[r])[p]
  {
    if rules != [] {
      var front := rules[..|rules| - 1];
      var last := rules[|rules| - 1];
      RuleURLsMembership(name, front, u);
      if u in PathURLs(name, last.host, Paths(last)) {
        var p :| 0 <= p < |Paths(last)| && PathURLs(name, last.host, Paths(last))[p] == u;
        assert rules[|rules| - 1] == last;
      }
      if u.name == name + ":" {
        if r, p :| 0 <= r < |rules| && 0 <= p < |Paths(rules[r])| && u.url == "https://" + rules[r].host + Paths(rules[r])[p] {
          if r < |front| {
            assert rules[r] == front[r];
          } else {
            assert PathURLs(name, last.host, Paths(last))[p] == u;
          }
        }
      }
    }
  }

  /** The ingress is not an OAuth proxy and one of its rule paths gives u. */
  predicate Contributes(ing: Ingress, u: NamedURL) {
    !Excluded(ing) && u in RuleURLs(PreferredName(ing.labels), ing.rules)
  }

  /** An entry is listed exactly when some ingress that is not excluded has a path giving it. */
  lemma URLsOfMembership(ings: seq<Ingress>, u: NamedURL)
    ensures u in URLsOf(ings) <==> exists i :: 0 <= i < |ings| && Contributes(ings[i], u)
  {
    if u in URLsOf(ings) {
      ListedHasSource(ings, u);
    }
    if i :| 0 <= i < |ings| && Contributes(ings[i], u) {
      SourceIsListed(ings, i, u);
    }
  }

  lemma {:induction false} ListedHasSource(ings: seq<Ingress>, u: NamedURL)
    requires u in URLsOf(ings)
    ensures exists i :: 0 <= i < |ings| && Contributes(ings[i], u)
  {
    var front, last := ings[..|ings| - 1], ings[|ings| - 1];
    assert URLsOf(ings) == URLsOf(front) + IngressURLs(last);
    if u in URLsOf(front) {
      ListedHasSource(front, u);
      var i :| 0 <= i < |front| && Contributes(front[i], u);
      assert front[i] == ings[i];
    } else {
      assert Contributes(ings[|ings| - 1], u);
    }
  }

  lemma {:induction false} SourceIsListed(ings: seq<Ingress>, i: int, u: NamedURL)
    requires 0 <= i < |ings| && Contributes(ings[i], u)
    ensures u in URLsOf(ings)
  {
    var front, last := ings[..|ings| - 1], ings[|ings| - 1];
    assert URLsOf(ings) == URLsOf(front) + IngressURLs(last);
    if i < |front| {
      assert front[i] == ings[i];
      SourceIsListed(front, i, u);
      assert u in URLsOf(front);
    } else {
      assert ings[i] == last;
      assert u in IngressURLs(last);
    }
  }

  /** Excluded ingresses contribute nothing, whatever their rules. */
  lemma ExcludedContributeNothing(ing: Ingress)
    requires Excluded(ing)
    ensures IngressURLs(ing) == []
  {
  }

  // ---------------------------------------------------------------------------
  // generateOutputFromNamedURLs

  predicate SortedByName(us: seq<NamedURL>) {
    forall i, j :: 0 <= i < j < |us| ==> LexLeq(us[i].name, us[j].name)
  }

  /** a[..i + 1] is sorted except that position j may be out of place, and a[j] is below its right. */
  ghost predicate InsertionState(s: seq<NamedURL>, j: int, i: int)
    requires 0 <= j <= i < |s|
  {
    && (forall k, l :: 0 <= k < l <= i && k != j && l != j ==> LexLeq(s[k].name, s[l].name))
    && (forall l :: j < l <= i ==> LexLeq(s[j].name, s[l].name))
  }

  /** Swapping a greater left neighbour past position j keeps the insertion state. */
  lemma InsertionSwap(s: seq<NamedURL>, j: int, i: int)
    requires 0 < j <= i < |s| && InsertionState(s, j, i) && LexLess(s[j].name, s[j - 1].name)
    ensures InsertionState(s[j - 1 := s[j]][j := s[j - 1]], j - 1, i)
  {
    LexLessAsymmetric(s[j].name, s[j - 1].name);
  }

  /** Once the left neighbour is not greater, the prefix is sorted. */
  lemma InsertionDone(s: seq<NamedURL>, j: int, i: int)
    requires 0 <= j <= i < |s| && InsertionState(s, j, i)
    requires j == 0 || !LexLess(s[j].name, s[j - 1].name)
    ensures SortedByName(s[..i + 1])
  {
    forall k, l | 0 <= k < l <= i
      ensures LexLeq(s[k].name, s[l].name)
    {
      if l == j && k < j - 1 {
        LexLeqTransitive(s[k].name, s[j - 1].name, s[j].name);
      }
    }
  }

  /** Move a[i] left past every greater name, leaving a[..i + 1] sorted. */
  method InsertByName(a: array<NamedURL>, i: int)
    requires 0 <= i < a.Length && SortedByName(a[..i])
    modifies a
    ensures SortedByName(a[..i + 1])
    ensures multiset(a[..]) == multiset(old(a[..]))
  {
    var j := i;
    while j > 0 && LexLess(a[j].name, a[j - 1].name)
      invariant 0 <= j <= i
      invariant multiset(a[..]) == multiset(old(a[..]))
      invariant InsertionState(a[..], j, i)
    {
      InsertionSwap(a[..], j, i);
      a[j - 1], a[j] := a[j], a[j - 1];
      j := j - 1;
    }
    InsertionDone(a[..], j, i);
  }

  /** sort.Slice with strings.Compare(name_i, name_j) < 0. */
  method SortByName(a: array<NamedURL>)
    modifies a
    ensures SortedByName(a[..])
    ensures multiset(a[..]) == multiset(old(a[..]))
  {
    for i := 0 to a.Length
      invariant SortedByName(a[..i])
      invariant multiset(a[..]) == multiset(old(a[..]))
    {
      InsertByName(a, i);
    }
    assert a[..a.Length] == a[..];
  }

  /** One "name url" line per entry. */
  function Lines(us: seq<NamedURL>): string {
    if us == [] then "" else Lines(us[..|us| - 1]) + us[|us| - 1].name + " " + us[|us| - 1].url + "\n"
  }

  /** The console text: a blank first line, then the lines. */
  function Render(us: seq<NamedURL>): (r: string)
    ensures |r| > 0 && r[0] == '\n'
  {
    "\n" + Lines(us)
  }

  /**
   * generateOutputFromNamedURLs: sort in place, compute the (unused) longest-name width,
   * then write the lines.  `sorted` is the order the sort left the entries in.
   */
  method GenerateOutputFromNamedURLs(urls: seq<NamedURL>) returns (out: string, ghost sorted: seq<NamedURL>)
    ensures SortedByName(sorted) && multiset(sorted) == multiset(urls)
    ensures out == Render(sorted)
  {
    var a := new NamedURL[|urls|](i requires 0 <= i < |urls| => urls[i]);
    assert a[..] == urls;
    SortByName(a);
    sorted := a[..];
    // The width is computed from the url of any longer name and then never used.
    var nameLen := -1;
    for i := 0 to a.Length {
      if |a[i].name| > nameLen {
        nameLen := |a[i].url|;
      }
    }
    var sb := "\n";
    for i := 0 to a.Length
      invariant sb == "\n" + Lines(a[..i])
    {
      assert a[..i + 1][..i] == a[..i];
      sb := sb + a[i].name + " " + a[i].url + "\n";
    }
    assert a[..a.Length] == a[..];
    out := sb;
  }

  /** The rendering is never empty, even with no entries, so "" only ever stands for a failure. */
  lemma RenderNeverEmpty(us: seq<NamedURL>)
    ensures Render(us) != ""
    ensures Render([]) == "\n"
  {
  }

  // ---------------------------------------------------------------------------
  // generateURLsFromNamespaces and getURLOutput

  /** What the namespace loop ends with: every entry, or the first listing failure or panic. */
  datatype Listing = Listed(urls: seq<NamedURL>) | ListingFailed | Panicked

  /** The entries of every non-empty namespace in turn, stopping at the first failure. */
  function NamespaceURLs(namespaces: seq<string>, list: string -> Result<seq<Ingress>, string>): Listing {
    if namespaces == [] then Listed([])
    else
      match NamespaceURLs(namespaces[..|namespaces| - 1], list)
      case Listed(us) =>
        var ns := namespaces[|namespaces| - 1];
        if ns == "" then Listed(us)
        else if list(ns).Err? then ListingFailed
        else if Panics(list(ns).value) then Panicked
        else Listed(us + URLsOf(list(ns).value))
      case stopped => stopped
  }

  /**
   * generateURLsFromNamespaces: "" when the kube client or any listing fails, a panic
   * when a listed ingress has a rule without HTTP block, otherwise the rendering of every
   * entry, sorted.  `sorted` is the order the sort chose.
   */
  method GenerateURLsFromNamespaces(kubeClientOk: bool, namespaces: seq<string>, list: string -> Result<seq<Ingress>, string>)
    returns (out: string, panicked: bool, ghost sorted: seq<NamedURL>)
    ensures panicked <==> kubeClientOk && NamespaceURLs(namespaces, list).Panicked?
    ensures !kubeClientOk || NamespaceURLs(namespaces, list).ListingFailed? ==> out == ""
    ensures kubeClientOk && NamespaceURLs(namespaces, list).Listed? ==>
      && SortedByName(sorted)
      && multiset(sorted) == multiset(NamespaceURLs(namespaces, list).urls)
      && out == Render(sorted)
  {
    sorted, panicked := [], false;
    if !kubeClientOk {
      return "", false, sorted;
    }
    var urls := [];
    for i := 0 to |namespaces|
      invariant NamespaceURLs(namespaces[..i], list) == Listed(urls)
    {
      assert namespaces[..i + 1][..i] == namespaces[..i];
      var namespace := namespaces[i];
      if namespace == "" {
        continue;
      }
      var ings := list(namespace);
      if ings.Err? {
        FirstStopStays(namespaces, list, i + 1);
        return "", false, sorted;
      }
      var found, nilHTTP := GenerateURLsFromIngresses(ings.value);
      if nilHTTP {
        FirstStopStays(namespaces, list, i + 1);
        return "", true, sorted;
      }
      urls := urls + found;
    }
    assert namespaces[..|namespaces|] == namespaces;
    out, sorted := GenerateOutputFromNamedURLs(urls);
  }

  /** Once a listing fails or panics, later namespaces change nothing. */
  lemma {:induction false} FirstStopStays(namespaces: seq<string>, list: string -> Result<seq<Ingress>, string>, k: nat)
    requires k <= |namespaces| && !NamespaceURLs(namespaces[..k], list).Listed?
    ensures NamespaceURLs(namespaces, list) == NamespaceURLs(namespaces[..k], list)
    decreases |namespaces| - k
  {
    if k < |namespaces| {
      assert namespaces[..k + 1][..k] == namespaces[..k];
      FirstStopStays(namespaces, list, k + 1);
    } else {
      assert namespaces[..k] == namespaces;
    }
  }

  /** The fixed block getURLOutput prints for a flag choice, as written: --prod gives the build block. */
  function FlagOutput(build: bool, prod: bool): (r: Option<string>)
    ensures build || prod ==> r == Some(BuildURLs)
    ensures !build && !prod ==> r.None?
  {
    if build then Some(BuildURLs) else if prod then Some(BuildURLs) else None
  }

  /**
   * getURLOutput: a fixed block for --build or --prod, otherwise the ingress listing of
   * the system and database namespaces, which may panic.  `sorted` is the listing's order.
   */
  method GetURLOutput(build: bool, prod: bool, databaseName: string, kubeClientOk: bool, list: string -> Result<seq<Ingress>, string>)
    returns (out: string, panicked: bool, ghost sorted: seq<NamedURL>)
    ensures FlagOutput(build, prod).Some? ==> out == FlagOutput(build, prod).value && !panicked
    ensures build || prod ==> out == BuildURLs
    ensures !build && !prod ==>
      var listing := NamespaceURLs([SystemNamespace, databaseName], list);
      && (panicked <==> kubeClientOk && listing.Panicked?)
      && (!panicked ==> (out == "" <==> !kubeClientOk || listing.ListingFailed?))
      && (kubeClientOk && listing.Listed? ==>
            SortedByName(sorted) && multiset(sorted) == multiset(listing.urls) && out == Render(sorted))
  {
    sorted := [];
    if build {
      return BuildURLs, false, sorted;
    } else if prod {
      return BuildURLs, false, sorted;
    }
    out, panicked, sorted := GenerateURLsFromNamespaces(kubeClientOk, [SystemNamespace, databaseName], list);
    if !panicked && kubeClientOk && NamespaceURLs([SystemNamespace, databaseName], list).Listed? {
      RenderNeverEmpty(sorted);
    }
  }

  /** The block getURLOutput is documented to print for a flag choice: only the chosen urls. */
  function IntendedFlagOutput(build: bool, prod: bool): (r: Option<string>)
    ensures build ==> r == Some(BuildURLs)
    ensures !build && prod ==> r == Some(ProdURLs)
    ensures !build && !prod ==> r.None?
  {
    if build then Some(BuildURLs) else if prod then Some(ProdURLs) else None
  }

  /** --prod alone prints the build block, which is not the production block. */
  lemma ProdFlagGivesBuildURLs()
    ensures FlagOutput(false, true) == Some(BuildURLs)
    ensures IntendedFlagOutput(false, true) == Some(ProdURLs)
    ensures FlagOutput(false, true) != IntendedFlagOutput(false, true)
  {
    assert |BuildURLs| != |ProdURLs|;
  }

  /** An empty database name is skipped: only the system namespace is listed. */
  lemma EmptyDatabaseNameSkipped(list: string -> Result<seq<Ingress>, string>)
    ensures NamespaceURLs([SystemNamespace, ""], list) == NamespaceURLs([SystemNamespace], list)
  {
    assert [SystemNamespace, ""][..1] == [SystemNamespace];
  }
}
