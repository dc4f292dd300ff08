/**
 * cmd/delete.go and its newer copy cmd/del/delete.go: a workspace is deleted only with
 * --delete and only when its ClusterId is found.  The two differ only in how the name is
 * read: the older one reads --database-name alone, the newer one also its aliases.
 */
module Delete {
  import opened Wrappers
  import opened DatabaseList
  import Tui
  import CommonFunctions

  /** getMatchingClusterID once the list is decoded: the first cluster named `db` gives its id. */
  function MatchingClusterID(clusters: seq<ClusterInfo>, db: string): (r: string)
    ensures FirstMatch(clusters, db).None? ==> r == ""
    ensures FirstMatch(clusters, db).Some? ==> r == clusters[FirstMatch(clusters, db).value].clusterId
  {
    match FirstMatch(clusters, db)
    case None => ""
    case Some(i) => clusters[i].clusterId
  }

  /**
   * The part both Runs share once the name is known (None: the prompt failed): without
   * --delete, or when no id is found, the process exits and nothing is deleted.
   */
  method DeleteNamed(verifyDelete: bool, name: Option<string>, listing: Tui.Fetch<ClusterInfo>)
    returns (outcome: RunOutcome)
    ensures !outcome.Skipped?
    ensures outcome.Sent? <==> verifyDelete && name.Some? && listing.Fetched? && MatchingClusterID(listing.items, name.value) != ""
    ensures outcome.Sent? ==> outcome.target == MatchingClusterID(listing.items, name.value)
  {
    if name.None? || !verifyDelete {
      outcome := Exited;
    } else if listing.Fetched? {
      var clusterID := MatchingClusterID(listing.items, name.value);
      if |clusterID| > 0 {
        outcome := Sent(clusterID);
      } else {
        outcome := Exited;
      }
    } else {
      outcome := Exited;
    }
  }

  /** Run in cmd/delete.go: the name comes from --database-name alone, or from the prompt. */
  method RunLegacy(verifyDelete: bool, databaseNameFlag: string,
                   promptListing: Tui.Fetch<ClusterInfo>, choice: Tui.Choice, listing: Tui.Fetch<ClusterInfo>)
    returns (outcome: RunOutcome)
    requires promptListing.Fetched? ==> Tui.PicksAmong(choice, |promptListing.items|)
    ensures var name := Tui.ResolvedName(databaseNameFlag, promptListing, choice);
      && !outcome.Skipped?
      && (outcome.Sent? <==> verifyDelete && name.Some? && listing.Fetched? && MatchingClusterID(listing.items, name.value) != "")
      && (outcome.Sent? ==> outcome.target == MatchingClusterID(listing.items, name.value))
  {
    var name := Tui.ResolveDatabaseName(databaseNameFlag, promptListing, choice);
    outcome := DeleteNamed(verifyDelete, name, listing);
  }

  /** Run in cmd/del/delete.go: the name follows the alias preference, or comes from the prompt. */
  method Run(verifyDelete: bool, dbName: string, workspace: string, db: string,
             promptListing: Tui.Fetch<ClusterInfo>, choice: Tui.Choice, listing: Tui.Fetch<ClusterInfo>)
    returns (outcome: RunOutcome)
    requires promptListing.Fetched? ==> Tui.PicksAmong(choice, |promptListing.items|)
    ensures var name := Tui.ResolvedName(CommonFunctions.PreferredName(dbName, workspace, db), promptListing, choice);
      && !outcome.Skipped?
      && (outcome.Sent? <==> verifyDelete && name.Some? && listing.Fetched? && MatchingClusterID(listing.items, name.value) != "")
      && (outcome.Sent? ==> outcome.target == MatchingClusterID(listing.items, name.value))
  {
    var databaseName, _ := CommonFunctions.DatabaseName(dbName, workspace, db);
    var name := Tui.ResolveDatabaseName(databaseName, promptListing, choice);
    outcome := DeleteNamed(verifyDelete, name, listing);
  }

  /** The id found belongs to the first cluster with that name, and no later one is read. */
  lemma MatchingClusterIDIsFirst(clusters: seq<ClusterInfo>, more: seq<ClusterInfo>, db: string)
    ensures MatchingClusterID(clusters, db) != "" ==>
      exists i :: 0 <= i < |clusters| && clusters[i].dcosAppId == db && clusters[i].clusterId == MatchingClusterID(clusters, db)
    ensures FirstMatch(clusters, db).Some? ==> MatchingClusterID(clusters + more, db) == MatchingClusterID(clusters, db)
  {
    if FirstMatch(clusters, db).Some? {
      FirstMatchIgnoresLater(clusters, more, db);
      var i := FirstMatch(clusters, db).value;
      assert (clusters + more)[i] == clusters[i];
    }
  }

  /** With --database-name given, both Runs delete the same workspace. */
  lemma RunsAgreeOnPreferredName(dbName: string, workspace: string, db: string,
                                 promptListing: Tui.Fetch<ClusterInfo>, choice: Tui.Choice)
    requires dbName != ""
    requires promptListing.Fetched? ==> Tui.PicksAmong(choice, |promptListing.items|)
    ensures Tui.ResolvedName(CommonFunctions.PreferredName(dbName, workspace, db), promptListing, choice)
         == Tui.ResolvedName(dbName, promptListing, choice)
  {
  }
}
