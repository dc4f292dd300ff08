/**
 * cmd/create_database.go and its older copy cmd/create_splice-database.go: the request
 * for a new workspace, read from a JSON or YAML file and then overridden field by field
 * from the command-line flags, with prompts for a missing account and cloud provider.
 * The file's decoding, the prompts' answers and the flags cobra parsed are inputs.
 */
module CreateDatabase {
  import opened Wrappers
  import opened Text
  import Tui
  import CommonFunctions

  /** objects.DatabaseRequest as plain values. */
  datatype RequestValues = RequestValues(
    accountID: string, authorizationCode: string, backupFrequency: string,
    backupInterval: int, backupKeepCount: int, backupStartWindow: string,
    cloudProvider: string, clusterPowerOlap: int, clusterPowerOltp: int,
    dedicatedStorage: bool, externalDatasetSizeGb: int, internalDatasetSizeGb: int,
    mlManager: bool, name: string, notebookActiveUsers: int,
    notebookExecutorsPerNotebook: int, notebookTotalUsers: int, notebooksPerUser: int,
    password: string)

  /** objects.DatabaseRequest{}: every field zero. */
  const ZeroRequest: RequestValues := RequestValues("", "", "", 0, 0, "", "", 0, 0, false, 0, 0, false, "", 0, 0, 0, 0, "")

  /** create_database.go (Current) or create_splice-database.go (Legacy). */
  datatype Variant = Current | Legacy

  /** The flag values cobra holds, and the names of the flags given on the command line. */
  datatype Flags = Flags(
    databaseName: string, workspace: string, database: string, password: string,
    accountID: string, authorizationCode: string, backupFrequency: string,
    backupInterval: int, keepBackups: int, backupStartWindow: string,
    cloudProvider: string, sparkExecutors: int, regionServers: int,
    dedicatedStorage: bool, externalDatasetSize: int, internalDatasetSize: int,
    enableMLManager: bool, notebookActiveUsers: int, notebookExecutors: int,
    notebookTotalUsers: int, notebooksPerUser: int,
    changed: set<string>)

  predicate Changed(f: Flags, flag: string) { flag in f.changed }

  /** The default of --database-name: "test" in the older command, "" in the newer. */
  function NameDefault(v: Variant): string {
    match v
    case Current => ""
    case Legacy => "test"
  }

  /** Every flag not given on the command line holds the default its declaration names. */
  predicate HoldsDefaults(f: Flags, v: Variant) {
    && (!Changed(f, "database-name") ==> f.databaseName == NameDefault(v))
    && (!Changed(f, "workspace") ==> f.workspace == "")
    && (!Changed(f, "database") ==> f.database == "")
    && (!Changed(f, "password") ==> f.password == "admin")
    && (!Changed(f, "account-id") ==> f.accountID == "")
    && (!Changed(f, "authorization-code") ==> f.authorizationCode == "")
    && (!Changed(f, "backup-frequency") ==> f.backupFrequency == "daily")
    && (!Changed(f, "backup-interval") ==> f.backupInterval == 1)
    && (!Changed(f, "keep-backups") ==> f.keepBackups == 1)
    && (!Changed(f, "backup-start-window") ==> f.backupStartWindow == "02:30")
    && (!Changed(f, "cloud-provider") ==> f.cloudProvider == "")
    && (!Changed(f, "spark-executors") ==> f.sparkExecutors == 4)
    && (!Changed(f, "region-servers") ==> f.regionServers == 4)
    && (!Changed(f, "dedicated-storage") ==> !f.dedicatedStorage)
    && (!Changed(f, "external-dataset-size") ==> f.externalDatasetSize == 0)
    && (!Changed(f, "internal-dataset-size") ==> f.internalDatasetSize == 1)
    && (!Changed(f, "enable-mlmanager") ==> !f.enableMLManager)
    && (!Changed(f, "notebook-active-users") ==> f.notebookActiveUsers == 4)
    && (!Changed(f, "notebook-executors") ==> f.notebookExecutors == 2)
    && (!Changed(f, "notebook-total-users") ==> f.notebookTotalUsers == 10)
    && (!Changed(f, "notebooks-per-user") ==> f.notebooksPerUser == 2)
  }

  /** The name read from the flags: the alias preference in the newer command, -d alone in the older. */
  function FlagName(f: Flags, v: Variant): string {
    match v
    case Current => CommonFunctions.PreferredName(f.databaseName, f.workspace, f.database)
    case Legacy => f.databaseName
  }

  /**
   * A plain field: the flag's value when the flag was given or there is no file, else the
   * file's.  populateRequest writes the flag only in the first case; the methods below
   * assign the merged value, which leaves the field as it was in the second.
   */
  function Merged<T>(changed: bool, fileData: bool, flag: T, fromFile: T): T {
    if changed || !fileData then flag else fromFile
  }

  /** Whether the account or cloud-provider prompt is shown. */
  predicate PromptRuns(changed: bool, fileData: bool, fromFile: string) {
    !changed && (fromFile == "" || !fileData)
  }

  /** The text a prompt hands back ("" with its error, when it failed). */
  function Answer(o: Tui.Outcome): string {
    match o
    case Returned(value, _) => value
    case Exited => ""
  }

  const AccountRequired: string := "--account-id, obtain from 'splicectl get accounts', or select from list"

  function CspRequired(v: Variant): string {
    match v
    case Current => "--cloud-provider, (aws|az|gcp|op|none)"
    case Legacy => "--cloud-provider, (aws|az|gcp|none)"
  }

  /** Name and password: the name from the flags, as FlagName reads it. */
  function NameStage(r: RequestValues, f: Flags, v: Variant, fileData: bool): RequestValues {
    r.(name := Merged(Changed(f, "database-name"), fileData, FlagName(f, v), r.name),
       password := Merged(Changed(f, "password"), fileData, f.password, r.password))
  }

  /** The account: the flag when given, the prompt's answer when it runs, else the file's. */
  function AccountStage(r: RequestValues, f: Flags, fileData: bool, account: Tui.Outcome): RequestValues {
    r.(accountID :=
         if Changed(f, "account-id") then f.accountID
         else if PromptRuns(false, fileData, r.accountID) then Answer(account)
         else r.accountID)
  }

  /** The backup settings. */
  function BackupStage(r: RequestValues, f: Flags, fileData: bool): RequestValues {
    r.(authorizationCode := Merged(Changed(f, "authorization-code"), fileData, f.authorizationCode, r.authorizationCode),
       backupFrequency := Merged(Changed(f, "backup-frequency"), fileData, f.backupFrequency, r.backupFrequency),
       backupInterval := Merged(Changed(f, "backup-interval"), fileData, f.backupInterval, r.backupInterval),
       backupKeepCount := Merged(Changed(f, "keep-backups"), fileData, f.keepBackups, r.backupKeepCount),
       backupStartWindow := Merged(Changed(f, "backup-start-window"), fileData, f.backupStartWindow, r.backupStartWindow))
  }

  /** The cloud provider, as the account: flag, prompt, or file. */
  function CloudProviderStage(r: RequestValues, f: Flags, fileData: bool, csp: Tui.Outcome): RequestValues {
    r.(cloudProvider :=
         if Changed(f, "cloud-provider") then f.cloudProvider
         else if PromptRuns(false, fileData, r.cloudProvider) then Answer(csp)
         else r.cloudProvider)
  }

  /** The cluster sizing and storage. */
  function SizingStage(r: RequestValues, f: Flags, fileData: bool): RequestValues {
    r.(clusterPowerOlap := Merged(Changed(f, "spark-executors"), fileData, f.sparkExecutors, r.clusterPowerOlap),
       clusterPowerOltp := Merged(Changed(f, "region-servers"), fileData, f.regionServers, r.clusterPowerOltp),
       dedicatedStorage := Merged(Changed(f, "dedicated-storage"), fileData, f.dedicatedStorage, r.dedicatedStorage),
       externalDatasetSizeGb := Merged(Changed(f, "external-dataset-size"), fileData, f.externalDatasetSize, r.externalDatasetSizeGb),
       internalDatasetSizeGb := Merged(Changed(f, "internal-dataset-size"), fileData, f.internalDatasetSize, r.internalDatasetSizeGb))
  }

  /** ML Manager and the notebook settings. */
  function NotebookStage(r: RequestValues, f: Flags, fileData: bool): RequestValues {
    r.(mlManager := Merged(Changed(f, "enable-mlmanager"), fileData, f.enableMLManager, r.mlManager),
       notebookActiveUsers := Merged(Changed(f, "notebook-active-users"), fileData, f.notebookActiveUsers, r.notebookActiveUsers),
       notebookExecutorsPerNotebook := Merged(Changed(f, "notebook-executors"), fileData, f.notebookExecutors, r.notebookExecutorsPerNotebook),
       notebookTotalUsers := Merged(Changed(f, "notebook-total-users"), fileData, f.notebookTotalUsers, r.notebookTotalUsers),
       notebooksPerUser := Merged(Changed(f, "notebooks-per-user"), fileData, f.notebooksPerUser, r.notebooksPerUser))
  }

  /** The provider upper-cased, whichever way it was given. */
  function UpperStage(r: RequestValues): RequestValues {
    r.(cloudProvider := ToUpper(r.cloudProvider))
  }

  /** The stages after the account, in order. */
  function SettingsStages(r: RequestValues, f: Flags, fileData: bool, csp: Tui.Outcome): RequestValues {
    UpperStage(NotebookStage(SizingStage(CloudProviderStage(BackupStage(r, f, fileData), f, fileData, csp), f, fileData), f, fileData))
  }

  /** The request populateRequest leaves, from the one it was given: the stages in order. */
  function Populated(r: RequestValues, f: Flags, v: Variant, fileData: bool, account: Tui.Outcome, csp: Tui.Outcome): RequestValues {
    SettingsStages(AccountStage(NameStage(r, f, v, fileData), f, fileData, account), f, fileData, csp)
  }

  /** Whether the account prompt ends the process (its listing did not decode). */
  predicate AccountPromptExits(fromFile: string, f: Flags, fileData: bool, account: Tui.Outcome) {
    PromptRuns(Changed(f, "account-id"), fileData, fromFile) && account.Exited?
  }

  /** The account, when its prompt was shown and failed. */
  function AccountMissing(fromFile: string, f: Flags, fileData: bool, account: Tui.Outcome): seq<string> {
    if PromptRuns(Changed(f, "account-id"), fileData, fromFile) && account.Returned? && account.err.Some?
    then [AccountRequired] else []
  }

  /** The cloud provider, when its prompt was shown and failed. */
  function CloudProviderMissing(fromFile: string, f: Flags, v: Variant, fileData: bool, csp: Tui.Outcome): seq<string> {
    if PromptRuns(Changed(f, "cloud-provider"), fileData, fromFile) && csp.Returned? && csp.err.Some?
    then [CspRequired(v)] else []
  }

  /** The required parameters recorded, in the order the prompts run. */
  function Required(r: RequestValues, f: Flags, v: Variant, fileData: bool, account: Tui.Outcome, csp: Tui.Outcome): seq<string> {
    AccountMissing(r.accountID, f, fileData, account) + CloudProviderMissing(r.cloudProvider, f, v, fileData, csp)
  }

  /** How populateRequest ends: done, the account prompt's fatal exit, or warnings then exit 1. */
  datatype PopulateEnd = Complete | PromptExited | MissingRequired(warnings: seq<string>)

  /** The warning logged for each required parameter. */
  function Warnings(required: seq<string>): seq<string>
  {
    seq(|required|, i requires 0 <= i < |required| => "Required parameter not provided: " + required[i])
  }

  /** How populateRequest ends, from the request it was given. */
  function PopulateOutcome(r: RequestValues, f: Flags, v: Variant, fileData: bool, account: Tui.Outcome, csp: Tui.Outcome): PopulateEnd {
    if AccountPromptExits(r.accountID, f, fileData, account) then PromptExited
    else if Required(r, f, v, fileData, account, csp) == [] then Complete
    else MissingRequired(Warnings(Required(r, f, v, fileData, account, csp)))
  }

  /**
   * A *objects.DatabaseRequest: the struct populateRequest updates through its pointer,
   * one field at a time.
   */
  class DatabaseRequest {
    var values: RequestValues

    /** &objects.DatabaseRequest{} */
    constructor ()
      ensures values == ZeroRequest
    {
      values := ZeroRequest;
    }

    /** json.Unmarshal into a zero request: the decoded file's values. */
    constructor Loaded(r: RequestValues)
      ensures values == r
    {
      values := r;
    }
  }

  /** The warnings, one per required parameter, built in order. */
  method RequiredWarnings(required: seq<string>) returns (warnings: seq<string>)
    ensures warnings == Warnings(required)
  {
    warnings := [];
    for i := 0 to |required|
      invariant warnings == Warnings(required[..i])
    {
      warnings := warnings + ["Required parameter not provided: " + required[i]];
      assert required[..i + 1] == required[..i] + [required[i]];
    }
    assert required[..|required|] == required;
  }

  /** The name, from the flags as FlagName reads them, and the password. */
  method PopulateName(req: DatabaseRequest, f: Flags, v: Variant, fileData: bool)
    modifies req
    ensures req.values == NameStage(old(req.values), f, v, fileData)
  {
    var databaseName: string;
    match v {
      case Current =>
        var warned;
        databaseName, warned := CommonFunctions.DatabaseName(f.databaseName, f.workspace, f.database);
      case Legacy =>
        databaseName := f.databaseName;
    }
    req.values := req.values.(name := Merged(Changed(f, "database-name"), fileData, databaseName, req.values.name));
    req.values := req.values.(password := Merged(Changed(f, "password"), fileData, f.password, req.values.password));
  }

  /** The account: the flag, or the prompt when the file has none; the prompt may end the process. */
  method PopulateAccount(req: DatabaseRequest, f: Flags, fileData: bool, account: Tui.Outcome)
    returns (exited: bool, required: seq<string>)
    modifies req
    ensures exited <==> AccountPromptExits(old(req.values.accountID), f, fileData, account)
    ensures !exited ==> req.values == AccountStage(old(req.values), f, fileData, account)
    ensures !exited ==> required == AccountMissing(old(req.values.accountID), f, fileData, account)
  {
    exited := false;
    required := [];
    if Changed(f, "account-id") {
      req.values := req.values.(accountID := f.accountID);
    } else if |req.values.accountID| == 0 || !fileData {
      if account.Exited? {
        exited := true;
      } else {
        if account.err.Some? {
          required := [AccountRequired];
        }
        req.values := req.values.(accountID := account.value);
      }
    }
  }

  /** The backup settings. */
  method PopulateBackup(req: DatabaseRequest, f: Flags, fileData: bool)
    modifies req
    ensures req.values == BackupStage(old(req.values), f, fileData)
  {
    req.values := req.values.(authorizationCode := Merged(Changed(f, "authorization-code"), fileData, f.authorizationCode, req.values.authorizationCode));
    req.values := req.values.(backupFrequency := Merged(Changed(f, "backup-frequency"), fileData, f.backupFrequency, req.values.backupFrequency));
    req.values := req.values.(backupInterval := Merged(Changed(f, "backup-interval"), fileData, f.backupInterval, req.values.backupInterval));
    req.values := req.values.(backupKeepCount := Merged(Changed(f, "keep-backups"), fileData, f.keepBackups, req.values.backupKeepCount));
    req.values := req.values.(backupStartWindow := Merged(Changed(f, "backup-start-window"), fileData, f.backupStartWindow, req.values.backupStartWindow));
  }

  /** The cloud provider, before it is upper-cased. */
  method PopulateCloudProvider(req: DatabaseRequest, f: Flags, v: Variant, fileData: bool, csp: Tui.Outcome)
    returns (required: seq<string>)
    requires csp.Returned?
    modifies req
    ensures req.values == CloudProviderStage(old(req.values), f, fileData, csp)
    ensures required == CloudProviderMissing(old(req.values.cloudProvider), f, v, fileData, csp)
  {
    required := [];
    if Changed(f, "cloud-provider") {
      req.values := req.values.(cloudProvider := f.cloudProvider);
    } else if |req.values.cloudProvider| == 0 || !fileData {
      if csp.err.Some? {
        required := [CspRequired(v)];
      }
      req.values := req.values.(cloudProvider := csp.value);
    }
  }

  /** The cluster sizing and storage. */
  method PopulateSizing(req: DatabaseRequest, f: Flags, fileData: bool)
    modifies req
    ensures req.values == SizingStage(old(req.values), f, fileData)
  {
    req.values := req.values.(clusterPowerOlap := Merged(Changed(f, "spark-executors"), fileData, f.sparkExecutors, req.values.clusterPowerOlap));
    req.values := req.values.(clusterPowerOltp := Merged(Changed(f, "region-servers"), fileData, f.regionServers, req.values.clusterPowerOltp));
    req.values := req.values.(dedicatedStorage := Merged(Changed(f, "dedicated-storage"), fileData, f.dedicatedStorage, req.values.dedicatedStorage));
    req.values := req.values.(externalDatasetSizeGb := Merged(Changed(f, "external-dataset-size"), fileData, f.externalDatasetSize, req.values.externalDatasetSizeGb));
    req.values := req.values.(internalDatasetSizeGb := Merged(Changed(f, "internal-dataset-size"), fileData, f.internalDatasetSize, req.values.internalDatasetSizeGb));
  }

  /** ML Manager and the notebook settings. */
  method PopulateNotebooks(req: DatabaseRequest, f: Flags, fileData: bool)
    modifies req
    ensures req.values == NotebookStage(old(req.values), f, fileData)
  {
    req.values := req.values.(mlManager := Merged(Changed(f, "enable-mlmanager"), fileData, f.enableMLManager, req.values.mlManager));
    req.values := req.values.(notebookActiveUsers := Merged(Changed(f, "notebook-active-users"), fileData, f.notebookActiveUsers, req.values.notebookActiveUsers));
    req.values := req.values.(notebookExecutorsPerNotebook := Merged(Changed(f, "notebook-executors"), fileData, f.notebookExecutors, req.values.notebookExecutorsPerNotebook));
    req.values := req.values.(notebookTotalUsers := Merged(Changed(f, "notebook-total-users"), fileData, f.notebookTotalUsers, req.values.notebookTotalUsers));
    req.values := req.values.(notebooksPerUser := Merged(Changed(f, "notebooks-per-user"), fileData, f.notebooksPerUser, req.values.notebooksPerUser));
  }

  /** The provider upper-cased. */
  method PopulateUpper(req: DatabaseRequest)
    modifies req
    ensures req.values == UpperStage(old(req.values))
  {
    req.values := req.values.(cloudProvider := ToUpper(req.values.cloudProvider));
  }

  /** Everything after the account: backup, provider, sizing, notebooks, the provider upper-cased. */
  method PopulateSettings(req: DatabaseRequest, f: Flags, v: Variant, fileData: bool, csp: Tui.Outcome)
    returns (required: seq<string>)
    requires csp.Returned?
    modifies req
    ensures req.values == SettingsStages(old(req.values), f, fileData, csp)
    ensures required == CloudProviderMissing(old(req.values.cloudProvider), f, v, fileData, csp)
  {
    PopulateBackup(req, f, fileData);
    required := PopulateCloudProvider(req, f, v, fileData, csp);
    PopulateSizing(req, f, fileData);
    PopulateNotebooks(req, f, fileData);
    PopulateUpper(req);
  }

  /**
   * populateRequest: merge the flags into the request field by field, prompt for a
   * missing account or cloud provider, upper-case the provider, and stop with a warning
   * per required parameter that is still missing.
   */
  method PopulateRequest(req: DatabaseRequest, f: Flags, v: Variant, fileData: bool, account: Tui.Outcome, csp: Tui.Outcome)
    returns (end: PopulateEnd)
    requires csp.Returned?
    modifies req
    ensures end == PopulateOutcome(old(req.values), f, v, fileData, account, csp)
    ensures !end.PromptExited? ==> req.values == Populated(old(req.values), f, v, fileData, account, csp)
  {
    PopulateName(req, f, v, fileData);
    var exited, requiredList := PopulateAccount(req, f, fileData, account);
    if exited {
      return PromptExited;
    }
    var cspRequired := PopulateSettings(req, f, v, fileData, csp);
    requiredList := requiredList + cspRequired;
    if |requiredList| > 0 {
      var warnings := RequiredWarnings(requiredList);
      end := MissingRequired(warnings);
    } else {
      end := Complete;
    }
  }

  /** How generateSkel prints the request: YAML unless -o asked for JSON or gron. */
  datatype SkelOut = SkelJson | SkelYaml | SkelNothing

  function SkelFormat(outputFormat: string, formatOverridden: bool): SkelOut {
    var f := ToLower(if formatOverridden then outputFormat else "yaml");
    if f == "json" || f == "gron" then SkelJson
    else if f == "yaml" || f == "text" || f == "table" then SkelYaml
    else SkelNothing
  }

  /** How Run ends: a fatal exit, the skeleton printed, or the request submitted. */
  datatype CreateOutcome = Exited | SkelPrinted(request: RequestValues, format: SkelOut) | Submitted(request: RequestValues)

  /**
   * The request the file gives, and whether there was a file: WantJSON failing or the
   * JSON not decoding is fatal (None); an empty conversion leaves the zero request.
   */
  function FileRequest(file: Option<string>, isJson: string -> bool, fromYaml: string -> Result<string, string>,
                       decode: string -> Option<RequestValues>): Option<RequestValues>
  {
    match file
    case None => Some(ZeroRequest)
    case Some(content) =>
      match CommonFunctions.WantJSON(content, isJson, fromYaml)
      case Err(_) => None
      case Ok(json) => if |json| > 0 then decode(json) else Some(ZeroRequest)
  }

  /**
   * Run: load the file (its contents, when --file names one), populate, then either print
   * the skeleton and stop or submit the request.
   */
  method Run(v: Variant, skel: bool, file: Option<string>, isJson: string -> bool,
             fromYaml: string -> Result<string, string>, decode: string -> Option<RequestValues>,
             f: Flags, account: Tui.Outcome, csp: Tui.Outcome, outputFormat: string, formatOverridden: bool)
    returns (outcome: CreateOutcome)
    requires csp.Returned?
    ensures FileRequest(file, isJson, fromYaml, decode).None? ==> outcome.Exited?
    ensures FileRequest(file, isJson, fromYaml, decode).Some? ==>
      var start := FileRequest(file, isJson, fromYaml, decode).value;
      var request := Populated(start, f, v, file.Some?, account, csp);
      if PopulateOutcome(start, f, v, file.Some?, account, csp) != Complete then outcome.Exited?
      else if skel then outcome == SkelPrinted(request, SkelFormat(outputFormat, formatOverridden))
      else outcome == Submitted(request)
  {
    var fileProvided := false;
    var dbReq := new DatabaseRequest();
    if file.Some? {
      var converted := CommonFunctions.WantJSON(file.value, isJson, fromYaml);
      if converted.Err? {
        return Exited;
      }
      if |converted.value| > 0 {
        var decoded := decode(converted.value);
        if decoded.None? {
          return Exited;
        }
        dbReq := new DatabaseRequest.Loaded(decoded.value);
      }
      fileProvided := true;
    }
    var end := PopulateRequest(dbReq, f, v, fileProvided, account, csp);
    if !end.Complete? {
      return Exited;
    }
    if skel {
      outcome := SkelPrinted(dbReq.values, SkelFormat(outputFormat, formatOverridden));
    } else {
      outcome := Submitted(dbReq.values);
    }
  }


  /** Without a file nothing of the starting request survives: the flags and prompts decide every field. */
  lemma NoFileIgnoresStart(r1: RequestValues, r2: RequestValues, f: Flags, v: Variant, account: Tui.Outcome, csp: Tui.Outcome)
    ensures Populated(r1, f, v, false, account, csp) == Populated(r2, f, v, false, account, csp)
    ensures Required(r1, f, v, false, account, csp) == Required(r2, f, v, false, account, csp)
    ensures AccountPromptExits(r1.accountID, f, false, account) == AccountPromptExits(r2.accountID, f, false, account)
  {
  }

  /**
   * With no file and no flag given, the request is the flags' defaults, with the account
   * and provider the prompts answered.
   */
  lemma DefaultRequest(r: RequestValues, f: Flags, v: Variant, account: Tui.Outcome, csp: Tui.Outcome)
    requires HoldsDefaults(f, v) && f.changed == {}
    ensures Populated(r, f, v, false, account, csp)
         == RequestValues(Answer(account), "", "daily", 1, 1, "02:30", ToUpper(Answer(csp)), 4, 4, false, 0, 1, false,
                          NameDefault(v), 4, 2, 10, 2, "admin")
    ensures Required(r, f, v, false, account, csp)
         == (if account.Returned? && account.err.Some? then [AccountRequired] else [])
            + (if csp.Returned? && csp.err.Some? then [CspRequired(v)] else [])
  {
  }

  /**
   * With a file that names an account and a provider and no flag given, the file's
   * request is submitted as it is, the provider upper-cased, and nothing is prompted.
   */
  lemma UntouchedFileKept(r: RequestValues, f: Flags, v: Variant, account: Tui.Outcome, csp: Tui.Outcome)
    requires f.changed == {} && r.accountID != "" && r.cloudProvider != ""
    ensures Populated(r, f, v, true, account, csp) == r.(cloudProvider := ToUpper(r.cloudProvider))
    ensures Required(r, f, v, true, account, csp) == [] && !AccountPromptExits(r.accountID, f, true, account)
  {
  }

  /** Over a file, a flag's value replaces the file's exactly when the flag was given. */
  lemma FlagWinsOnlyWhenGiven(r: RequestValues, f: Flags, v: Variant, account: Tui.Outcome, csp: Tui.Outcome)
    requires r.password != f.password && r.backupInterval != f.backupInterval
    ensures Populated(r, f, v, true, account, csp).password == f.password <==> Changed(f, "password")
    ensures Populated(r, f, v, true, account, csp).backupInterval == f.backupInterval <==> Changed(f, "backup-interval")
  {
  }

  /** The account prompt runs, and may end the process, only when the account is given nowhere. */
  lemma AccountPromptOnlyWhenMissing(r: RequestValues, f: Flags, fileData: bool, account: Tui.Outcome)
    ensures AccountPromptExits(r.accountID, f, fileData, account) ==>
      !Changed(f, "account-id") && (r.accountID == "" || !fileData)
    ensures Changed(f, "account-id") ==> AccountMissing(r.accountID, f, fileData, account) == []
  {
  }

  /** The provider submitted holds no lower-case ASCII letter, whichever way it was given. */
  lemma CloudProviderUpperCase(r: RequestValues, f: Flags, v: Variant, fileData: bool, account: Tui.Outcome, csp: Tui.Outcome)
    ensures forall i :: 0 <= i < |Populated(r, f, v, fileData, account, csp).cloudProvider| ==>
      !IsAsciiLower(Populated(r, f, v, fileData, account, csp).cloudProvider[i])
  {
    var p := Populated(r, f, v, fileData, account, csp).cloudProvider;
    forall i | 0 <= i < |p|
      ensures !IsAsciiLower(p[i])
    {
      var m := AccountStage(NameStage(r, f, v, fileData), f, fileData, account);
      var before := NotebookStage(SizingStage(CloudProviderStage(BackupStage(m, f, fileData), f, fileData, csp), f, fileData), f, fileData).cloudProvider;
      assert p[i] == UpperChar(before[i]);
    }
  }

  /**
   * In the newer command the --workspace and --database aliases fill the name only when
   * there is no file or -d was given; a file's name is not replaced by an alias.
   */
  lemma AliasesDoNotOverrideFile(r: RequestValues, f: Flags, account: Tui.Outcome, csp: Tui.Outcome)
    requires !Changed(f, "database-name")
    ensures Populated(r, f, Current, true, account, csp).name == r.name
    ensures Populated(r, f, Current, false, account, csp).name
         == CommonFunctions.PreferredName(f.databaseName, f.workspace, f.database)
  {
  }

  /** The older command names the workspace "test" when neither a file nor -d names it. */
  lemma LegacyNameDefaultsToTest(r: RequestValues, f: Flags, account: Tui.Outcome, csp: Tui.Outcome)
    requires HoldsDefaults(f, Legacy) && !Changed(f, "database-name")
    ensures Populated(r, f, Legacy, false, account, csp).name == "test"
    ensures Populated(r, f, Current, false, account, csp).name == CommonFunctions.PreferredName("test", f.workspace, f.database)
  {
  }

  /**
   * populateRequest stops with warnings exactly when a prompt it showed failed, one
   * warning per failed prompt.
   */
  lemma WarningsIffPromptFailed(r: RequestValues, f: Flags, v: Variant, fileData: bool, account: Tui.Outcome, csp: Tui.Outcome)
    ensures PopulateOutcome(r, f, v, fileData, account, csp).MissingRequired?
        <==> !AccountPromptExits(r.accountID, f, fileData, account)
             && (AccountMissing(r.accountID, f, fileData, account) != [] || CloudProviderMissing(r.cloudProvider, f, v, fileData, csp) != [])
    ensures PopulateOutcome(r, f, v, fileData, account, csp).MissingRequired? ==>
      1 <= |PopulateOutcome(r, f, v, fileData, account, csp).warnings| <= 2
  {
  }

  /** With --account-id and --cloud-provider both given, nothing is prompted and nothing is missing. */
  lemma FlagsAvoidPrompts(r: RequestValues, f: Flags, v: Variant, fileData: bool, account: Tui.Outcome, csp: Tui.Outcome)
    requires Changed(f, "account-id") && Changed(f, "cloud-provider")
    ensures PopulateOutcome(r, f, v, fileData, account, csp) == Complete
    ensures Populated(r, f, v, fileData, account, csp).accountID == f.accountID
    ensures Populated(r, f, v, fileData, account, csp).cloudProvider == ToUpper(f.cloudProvider)
  {
  }

  /** The skeleton is YAML unless -o was given, and JSON for -o json or gron in any case. */
  lemma SkelFormats(outputFormat: string)
    ensures SkelFormat(outputFormat, false) == SkelYaml
    ensures SkelFormat("JSON", true) == SkelJson && SkelFormat("gron", true) == SkelJson
    ensures SkelFormat("raw", true) == SkelNothing
  {
    assert ToLower("yaml") == "yaml";
    assert ToLower("JSON") == "json";
    assert ToLower("gron") == "gron";
    assert ToLower("raw") == "raw";
  }
}
