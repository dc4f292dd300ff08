/**
 * cmd/pause.go: a workspace is paused only when the Cloud Manager lists it as Active.
 * The two workspace listings (one for the prompt, one for the check) and the prompt
 * pick are inputs; the pause request itself is the outcome Sent.
 */
module Pause {
  import opened Wrappers
  import opened DatabaseList
  import Tui
  import CommonFunctions

  /** isDatabaseActive once the list is decoded. */
  function IsDatabaseActive(clusters: seq<ClusterInfo>, db: string): bool {
    FirstStatusIs(clusters, db, "Active")
  }

  /**
   * Run: the name from the flags or the prompt, then the pause request only for an
   * active workspace; a failed listing or prompt ends the process.
   */
  method Run(dbName: string, workspace: string, db: string,
             promptListing: Tui.Fetch<ClusterInfo>, choice: Tui.Choice, listing: Tui.Fetch<ClusterInfo>)
    returns (outcome: RunOutcome)
    requires promptListing.Fetched? ==> Tui.PicksAmong(choice, |promptListing.items|)
    ensures var name := Tui.ResolvedName(CommonFunctions.PreferredName(dbName, workspace, db), promptListing, choice);
      && (outcome.Sent? <==> name.Some? && listing.Fetched? && IsDatabaseActive(listing.items, name.value))
      && (outcome.Sent? ==> outcome.target == name.value)
      && (outcome.Skipped? <==> name.Some? && listing.Fetched? && !IsDatabaseActive(listing.items, name.value))
  {
    var databaseName, _ := CommonFunctions.DatabaseName(dbName, workspace, db);
    var name := Tui.ResolveDatabaseName(databaseName, promptListing, choice);
    if name.None? || !listing.Fetched? {
      outcome := Exited;
    } else if IsDatabaseActive(listing.items, name.value) {
      outcome := Sent(name.value);
    } else {
      outcome := Skipped;
    }
  }

  /** Only the first cluster carrying the name is consulted, and a missing name is not active. */
  lemma ActiveDecidedByFirstMatch(clusters: seq<ClusterInfo>, more: seq<ClusterInfo>, db: string)
    ensures FirstMatch(clusters, db).Some? ==> IsDatabaseActive(clusters + more, db) == IsDatabaseActive(clusters, db)
    ensures FirstMatch(clusters, db).None? ==> !IsDatabaseActive(clusters, db)
  {
    if FirstMatch(clusters, db).Some? {
      LaterDuplicatesIgnored(clusters, more, db, "Active");
    }
  }
}
