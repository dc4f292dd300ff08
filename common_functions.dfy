/**
 * common/functions.go: the database-name flag aliases, the JSON pass-through of
 * WantJSON, and the reshaping of Vault's version map into a sorted version list.
 */
module CommonFunctions {
  import opened Wrappers
  import opened Json
  import opened Text

  // ---------------------------------------------------------------------------
  // DatabaseName

  /**
   * The preference the flag help promises: --database-name (or -d) over --workspace
   * over --database, and "" when none was given.
   */
  function PreferredName(dbName: string, workspace: string, db: string): string {
    if dbName != "" then dbName else if workspace != "" then workspace else db
  }

  /** The last non-empty name of the list, or "" when there is none. */
  function LastNonEmpty(names: seq<string>): string {
    if names == [] then ""
    else if names[|names| - 1] != "" then names[|names| - 1]
    else LastNonEmpty(names[..|names| - 1])
  }

  function NonEmptyCount(names: seq<string>): nat {
    if names == [] then 0
    else NonEmptyCount(names[..|names| - 1]) + (if names[|names| - 1] != "" then 1 else 0)
  }

  function Supplied(name: string): nat { if name != "" then 1 else 0 }

  /**
   * DatabaseName: walk db, workspace, dbName keeping the last non-empty one and counting
   * the non-empty ones; `warned` says whether the "multiple flags" warning is logged.
   */
  method DatabaseName(dbName: string, workspace: string, db: string) returns (prefName: string, warned: bool)
    ensures prefName == PreferredName(dbName, workspace, db)
    ensures warned <==> Supplied(dbName) + Supplied(workspace) + Supplied(db) > 1
  {
    var names := [db, workspace, dbName];
    prefName := "";
    var numFlagsSupplied := 0;
    for i := 0 to |names|
      invariant numFlagsSupplied == NonEmptyCount(names[..i])
      invariant prefName == LastNonEmpty(names[..i])
    {
      assert names[..i + 1][..i] == names[..i];
      if names[i] != "" {
        numFlagsSupplied := numFlagsSupplied + 1;
        prefName := names[i];
      }
    }
    assert names[..3] == names;
    assert names[..2] == [db, workspace] && names[..2][..1] == [db] && names[..2][..1][..0] == [];
    assert LastNonEmpty(names) == if dbName != "" then dbName else LastNonEmpty([db, workspace]);
    assert LastNonEmpty([db, workspace]) == if workspace != "" then workspace else LastNonEmpty([db]);
    assert NonEmptyCount(names) == NonEmptyCount([db, workspace]) + Supplied(dbName);
    assert NonEmptyCount([db, workspace]) == NonEmptyCount([db]) + Supplied(workspace);
    warned := numFlagsSupplied > 1;
  }

  /** The test cases of common/functions_test.go: no flag gives "", and every alias set picks "splicedb". */
  lemma DatabaseNameCases()
    ensures PreferredName("", "", "") == ""
    ensures PreferredName("splicedb", "", "") == "splicedb"
    ensures PreferredName("", "splicedb", "") == "splicedb"
    ensures PreferredName("", "", "splicedb") == "splicedb"
    ensures PreferredName("splicedb", "workspace", "database") == "splicedb"
    ensures PreferredName("splicedb", "workspace", "") == "splicedb"
    ensures PreferredName("splicedb", "", "database") == "splicedb"
    ensures PreferredName("", "splicedb", "workspace") == "splicedb"
  {
  }

  /** The chosen name is one of the given ones, and "" exactly when none was given. */
  lemma PreferredNameIsGiven(dbName: string, workspace: string, db: string)
    ensures PreferredName(dbName, workspace, db) in [dbName, workspace, db]
    ensures PreferredName(dbName, workspace, db) == "" <==> dbName == "" && workspace == "" && db == ""
  {
  }

  // ---------------------------------------------------------------------------
  // WantJSON

  /**
   * WantJSON: input that already parses as JSON is returned as it is; anything else goes
   * through the YAML conversion, whose success or error is given by `fromYaml`.
   */
  function WantJSON(raw: string, isJson: string -> bool, fromYaml: string -> Result<string, string>): (r: Result<string, string>)
  {
    if isJson(raw) then Ok(raw) else fromYaml(raw)
  }

  /**
   * Whenever the YAML conversion produces JSON (json.MarshalIndent output always parses),
   * WantJSON yields JSON, and JSON passes through a second time unchanged.
   */
  lemma WantJSONIdempotent(raw: string, isJson: string -> bool, fromYaml: string -> Result<string, string>)
    requires forall s :: fromYaml(s).Ok? ==> isJson(fromYaml(s).value)
    ensures WantJSON(raw, isJson, fromYaml).Ok? ==> isJson(WantJSON(raw, isJson, fromYaml).value)
    ensures WantJSON(raw, isJson, fromYaml).Ok? ==>
      WantJSON(WantJSON(raw, isJson, fromYaml).value, isJson, fromYaml) == WantJSON(raw, isJson, fromYaml)
    ensures isJson(raw) ==> WantJSON(raw, isJson, fromYaml) == Ok(raw)
  {
  }

  // ---------------------------------------------------------------------------
  // strconv.ParseInt(s, 10, 0)

  const MinInt64: int := -0x8000_0000_0000_0000
  const MaxInt64: int := 0x7FFF_FFFF_FFFF_FFFF

  /** The value of an optionally signed decimal literal, before the range check. */
  function SignedValue(s: string): Option<int> {
    if |s| > 0 && (s[0] == '+' || s[0] == '-') then
      if |s| > 1 && AllDigits(s[1..]) then
        Some(if s[0] == '-' then -(DigitsValue(s[1..]) as int) else DigitsValue(s[1..]))
      else None
    else if |s| > 0 && AllDigits(s) then Some(DigitsValue(s))
    else None
  }

  /** strconv.ParseInt(s, 10, 0) on a 64-bit platform: None stands for its error. */
  function ParseInt(s: string): (r: Option<int>)
    ensures r.Some? ==> MinInt64 <= r.value <= MaxInt64
    ensures r.Some? ==> |s| > 0 && (IsDigit(s[0]) || s[0] == '+' || s[0] == '-')
  {
    match SignedValue(s)
    case None => None
    case Some(v) => if MinInt64 <= v <= MaxInt64 then Some(v) else None
  }

  /** strconv.Itoa for a natural number. */
  function NatToDigits(n: nat): (s: string)
    ensures |s| > 0 && AllDigits(s)
  {
    if n < 10 then [('0' as int + n) as char] else NatToDigits(n / 10) + [('0' as int + n % 10) as char]
  }

  /** strconv.Itoa */
  function IntToString(n: int): string {
    if n < 0 then "-" + NatToDigits(-n) else NatToDigits(n)
  }

  lemma {:induction false} DigitsRoundTrip(n: nat)
    ensures DigitsValue(NatToDigits(n)) == n
  {
    if n >= 10 {
      DigitsRoundTrip(n / 10);
      var s := NatToDigits(n);
      assert s[..|s| - 1] == NatToDigits(n / 10);
    }
  }

  /**
   * Every 64-bit integer written in decimal parses back to itself; every integer outside
   * that range is rejected.
   */
  lemma ParseIntRoundTrip(n: int)
    ensures ParseInt(IntToString(n)) == if MinInt64 <= n <= MaxInt64 then Some(n) else None
  {
    DigitsRoundTrip(if n < 0 then -n else n);
    if n < 0 {
      assert IntToString(n)[1..] == NatToDigits(-n);
    }
  }

  lemma ParseIntExamples()
    ensures ParseInt("12") == Some(12)
    ensures ParseInt("-3") == Some(-3)
    ensures ParseInt("+7") == Some(7)
    ensures ParseInt("") == None
    ensures ParseInt("1a") == None
    ensures ParseInt("-") == None
  {
    assert "12"[..1] == "1" && "1"[..0] == "";
    assert DigitsValue("12") == 12;
    assert "-3"[1..] == "3" && "+7"[1..] == "7";
    assert !AllDigits("1a") by { assert !IsDigit("1a"[1]); }
  }

  // ---------------------------------------------------------------------------
  // RestructureVersions

  /** objects.VaultVersion */
  datatype VaultVersion = VaultVersion(version: int, createdTime: string, deletionTime: string, destroyed: bool)

  /** `order` lists every key of `m` exactly once: the order Go's map iteration happened to take. */
  predicate IsOrderOf<V>(order: seq<string>, m: map<string, V>) {
    && (forall k :: k in m ==> k in order)
    && (forall k :: k in order ==> k in m)
    && (forall i, j :: 0 <= i < j < |order| ==> order[i] != order[j])
  }

  /** How the loop of RestructureVersions ends. */
  datatype LoopEnd =
    | Finished(versions: seq<VaultVersion>)
    | NotAnInteger
    | DecodeFailed(error: string)

  /**
   * The loop of RestructureVersions: keys in iteration order, each value decoded into a
   * VaultVersion by `decode` (a failure is returned as the error) and its Version set to
   * the key's integer value; the first key that is not an integer ends the loop.
   */
  function Collected(m: map<string, Json>, order: seq<string>, decode: Json -> Result<VaultVersion, string>): LoopEnd
    requires forall k :: k in order ==> k in m
  {
    if order == [] then Finished([])
    else
      var k := order[0];
      match decode(m[k])
      case Err(e) => DecodeFailed(e)
      case Ok(v) =>
        match ParseInt(k)
        case None => NotAnInteger
        case Some(n) => Prepend([v.(version := n)], Collected(m, order[1..], decode))
  }

  function Prepend(vs: seq<VaultVersion>, e: LoopEnd): LoopEnd {
    if e.Finished? then Finished(vs + e.versions) else e
  }

  predicate SortedByVersion(vs: seq<VaultVersion>) {
    forall i, j :: 0 <= i < j < |vs| ==> vs[i].version <= vs[j].version
  }

  /**
   * What RestructureVersions returns for the decoded input, before the final sort:
   * `parsed` is json.Unmarshal's reading of the input text.  A non-integer key yields an
   * empty list and a nil error, because the code returns the inner unmarshal error, which
   * is nil at that point.
   */
  function Restructured(parsed: Result<Json, string>, order: seq<string>, decode: Json -> Result<VaultVersion, string>): Result<seq<VaultVersion>, string>
    requires parsed.Ok? && parsed.value.Object? ==> IsOrderOf(order, parsed.value.fields)
  {
    match parsed
    case Err(e) => Err(e)
    case Ok(Null) => Ok([])
    case Ok(Object(m)) =>
      (match Collected(m, order, decode)
       case Finished(vs) => Ok(vs)
       case NotAnInteger => Ok([])
       case DecodeFailed(e) => Err(e))
    case Ok(other) => Err(NotAMapError(other))
  }

  /** Exchange a[j - 1] and a[j]. */
  method SwapDown(a: array<VaultVersion>, j: int)
    requires 0 < j < a.Length
    modifies a
    ensures a[..] == old(a[..])[j - 1 := old(a[j])][j := old(a[j - 1])]
    ensures multiset(a[..]) == multiset(old(a[..]))
  {
    a[j - 1], a[j] := a[j], a[j - 1];
  }

  /** Move a[i] left past every larger Version, leaving a[..i + 1] sorted. */
  method InsertByVersion(a: array<VaultVersion>, i: int)
    requires 0 <= i < a.Length && SortedByVersion(a[..i])
    modifies a
    ensures SortedByVersion(a[..i + 1])
    ensures multiset(a[..]) == multiset(old(a[..]))
  {
    var j := i;
    while j > 0 && a[j - 1].version > a[j].version
      invariant 0 <= j <= i
      invariant multiset(a[..]) == multiset(old(a[..]))
      invariant forall k, l :: 0 <= k < l <= i && k != j && l != j ==> a[k].version <= a[l].version
      invariant forall l :: j < l <= i ==> a[j].version <= a[l].version
    {
      SwapDown(a, j);
      j := j - 1;
    }
  }

  /** sort.Slice by ascending Version, as an insertion sort in place. */
  method SortByVersion(a: array<VaultVersion>)
    modifies a
    ensures SortedByVersion(a[..])
    ensures multiset(a[..]) == multiset(old(a[..]))
  {
    for i := 0 to a.Length
      invariant SortedByVersion(a[..i])
      invariant multiset(a[..]) == multiset(old(a[..]))
    {
      InsertByVersion(a, i);
    }
    assert a[..a.Length] == a[..];
  }

  /** The loop of RestructureVersions, over the keys in iteration order. */
  method CollectVersions(m: map<string, Json>, order: seq<string>, decode: Json -> Result<VaultVersion, string>)
    returns (e: LoopEnd)
    requires forall k :: k in order ==> k in m
    ensures e == Collected(m, order, decode)
  {
    var versionList := [];
    for i := 0 to |order|
      invariant Collected(m, order, decode) == Prepend(versionList, Collected(m, order[i..], decode))
    {
      var k := order[i];
      assert order[i..][0] == k && order[i..][1..] == order[i + 1..];
      var crvData := decode(m[k]);
      if crvData.Err? {
        return DecodeFailed(crvData.error);
      }
      var n := ParseInt(k);
      if n.None? {
        return NotAnInteger;
      }
      versionList := versionList + [crvData.value.(version := n.value)];
    }
    return Finished(versionList);
  }

  /**
   * RestructureVersions: the loop appends one entry per key in iteration order, then the
   * list is sorted by Version.  The result is the collected entries, sorted.
   */
  method RestructureVersions(parsed: Result<Json, string>, order: seq<string>, decode: Json -> Result<VaultVersion, string>)
    returns (r: Result<seq<VaultVersion>, string>)
    requires parsed.Ok? && parsed.value.Object? ==> IsOrderOf(order, parsed.value.fields)
    ensures Restructured(parsed, order, decode).Err? ==> r == Restructured(parsed, order, decode)
    ensures Restructured(parsed, order, decode).Ok? ==>
      && r.Ok?
      && SortedByVersion(r.value)
      && multiset(r.value) == multiset(Restructured(parsed, order, decode).value)
  {
    if parsed.Err? {
      return Err(parsed.error);
    }
    if parsed.value.Null? {
      return Ok([]);
    }
    if !parsed.value.Object? {
      return Err(NotAMapError(parsed.value));
    }
    var collected := CollectVersions(parsed.value.fields, order, decode);
    match collected {
      case DecodeFailed(e) => return Err(e);
      case NotAnInteger => return Ok([]);
      case Finished(_) =>
    }
    var versionList := collected.versions;
    var a := new VaultVersion[|versionList|](i requires 0 <= i < |versionList| => versionList[i]);
    assert a[..] == versionList;
    SortByVersion(a);
    return Ok(a[..]);
  }

  /**
   * When every key is an integer and every value decodes, there is one entry per key, in
   * iteration order, carrying that key's value as its Version.
   */
  lemma {:induction false} OneEntryPerKey(m: map<string, Json>, order: seq<string>, decode: Json -> Result<VaultVersion, string>)
    requires forall k :: k in order ==> k in m
    requires forall k :: k in order ==> decode(m[k]).Ok? && ParseInt(k).Some?
    ensures Collected(m, order, decode).Finished?
    ensures var vs := Collected(m, order, decode).versions;
      |vs| == |order|
      && forall i :: 0 <= i < |order| ==> vs[i] == decode(m[order[i]]).value.(version := ParseInt(order[i]).value)
  {
    if order != [] {
      assert order[0] in order;
      assert forall k :: k in order[1..] ==> k in order;
      OneEntryPerKey(m, order[1..], decode);
    }
  }

  /** A non-integer key among values that all decode gives an empty list and no error. */
  lemma {:induction false} NonIntegerKeyGivesEmpty(m: map<string, Json>, order: seq<string>, decode: Json -> Result<VaultVersion, string>, bad: string)
    requires forall k :: k in order ==> k in m
    requires forall k :: k in order ==> decode(m[k]).Ok?
    requires bad in order && ParseInt(bad).None?
    ensures Collected(m, order, decode) == NotAnInteger
  {
    if order[0] != bad {
      assert forall k :: k in order[1..] ==> k in order;
      assert bad in order[1..];
      NonIntegerKeyGivesEmpty(m, order[1..], decode, bad);
    }
  }

  /** Whatever the loop collects carries integer Versions taken from keys of the map. */
  lemma {:induction false} VersionsComeFromKeys(m: map<string, Json>, order: seq<string>, decode: Json -> Result<VaultVersion, string>)
    requires forall k :: k in order ==> k in m
    ensures Collected(m, order, decode).Finished? ==>
      forall v :: v in Collected(m, order, decode).versions ==>
        exists k :: k in order && ParseInt(k) == Some(v.version)
  {
    if order != [] {
      assert forall k :: k in order[1..] ==> k in order;
      VersionsComeFromKeys(m, order[1..], decode);
    }
  }

  lemma RestructuredErrors(parsed: Result<Json, string>, order: seq<string>, decode: Json -> Result<VaultVersion, string>)
    requires parsed.Ok? && parsed.value.Object? ==> IsOrderOf(order, parsed.value.fields)
    ensures parsed.Err? ==> Restructured(parsed, order, decode) == Err(parsed.error)
    ensures parsed == Ok(Null) ==> Restructured(parsed, order, decode) == Ok([])
    ensures parsed.Ok? && !parsed.value.Object? && !parsed.value.Null? ==>
      Restructured(parsed, order, decode).Err?
  {
  }

  // ---------------------------------------------------------------------------
  // The conversion error (see README "## Findings")

  /** The error a key that is not a base-10 integer was evidently meant to report. */
  const NotAnIntegerError: string := "strconv.ParseInt: invalid syntax"

  /**
   * RestructureVersions as evidently intended: a key that is not an integer is reported
   * through the conversion error instead of the nil decode error; all else is unchanged.
   */
  function IntendedRestructured(parsed: Result<Json, string>, order: seq<string>, decode: Json -> Result<VaultVersion, string>): Result<seq<VaultVersion>, string>
    requires parsed.Ok? && parsed.value.Object? ==> IsOrderOf(order, parsed.value.fields)
  {
    if parsed.Ok? && parsed.value.Object? && Collected(parsed.value.fields, order, decode).NotAnInteger?
    then Err(NotAnIntegerError)
    else Restructured(parsed, order, decode)
  }

  /** The loop runs to the end exactly when every key is an integer whose value decodes. */
  lemma {:induction false} FinishedIffAllConvert(m: map<string, Json>, order: seq<string>, decode: Json -> Result<VaultVersion, string>)
    requires forall k :: k in order ==> k in m
    ensures Collected(m, order, decode).Finished? <==> forall k :: k in order ==> decode(m[k]).Ok? && ParseInt(k).Some?
  {
    if order != [] {
      assert forall k :: k in order[1..] ==> k in order;
      FinishedIffAllConvert(m, order[1..], decode);
      assert forall k :: k in order ==> k == order[0] || k in order[1..];
    }
  }

  /**
   * As written, a key that is not an integer leaves an empty list and no error, where the
   * corrected reading reports it.
   */
  lemma NonIntegerKeyHidden(m: map<string, Json>, order: seq<string>, decode: Json -> Result<VaultVersion, string>, bad: string)
    requires IsOrderOf(order, m) && forall k :: k in order ==> decode(m[k]).Ok?
    requires bad in order && ParseInt(bad).None?
    ensures Restructured(Ok(Object(m)), order, decode) == Ok([])
    ensures IntendedRestructured(Ok(Object(m)), order, decode) == Err(NotAnIntegerError)
  {
    NonIntegerKeyGivesEmpty(m, order, decode, bad);
  }

  /**
   * The corrected reading succeeds on an object exactly when every key is an integer and
   * every value decodes, and then gives what the code gives.
   */
  lemma IntendedRestructuredOk(m: map<string, Json>, order: seq<string>, decode: Json -> Result<VaultVersion, string>)
    requires IsOrderOf(order, m)
    ensures IntendedRestructured(Ok(Object(m)), order, decode).Ok? <==>
      forall k :: k in order ==> decode(m[k]).Ok? && ParseInt(k).Some?
    ensures IntendedRestructured(Ok(Object(m)), order, decode).Ok? ==>
      IntendedRestructured(Ok(Object(m)), order, decode) == Restructured(Ok(Object(m)), order, decode)
  {
    FinishedIffAllConvert(m, order, decode);
  }
}
