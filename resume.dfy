/**
 * cmd/resume.go: a workspace is resumed only when the Cloud Manager lists it as Paused.
 * The two workspace listings (one for the prompt, one for the check) and the prompt
 * pick are inputs; the resume request itself is the outcome Sent.
 */
module Resume {
  import opened Wrappers
  import opened DatabaseList
  import Tui
  import CommonFunctions
  import Pause

  /** isDatabasePaused once the list is decoded. */
  function IsDatabasePaused(clusters: seq<ClusterInfo>, db: string): bool {
    FirstStatusIs(clusters, db, "Paused")
  }

  /**
   * Run: the name from the flags or the prompt, then the resume request only for a
   * paused workspace; a failed listing or prompt ends the process.
   */
  method Run(dbName: string, workspace: string, db: string,
             promptListing: Tui.Fetch<ClusterInfo>, choice: Tui.Choice, listing: Tui.Fetch<ClusterInfo>)
    returns (outcome: RunOutcome)
    requires promptListing.Fetched? ==> Tui.PicksAmong(choice, |promptListing.items|)
    ensures var name := Tui.ResolvedName(CommonFunctions.PreferredName(dbName, workspace, db), promptListing, choice);
      && (outcome.Sent? <==> name.Some? && listing.Fetched? && IsDatabasePaused(listing.items, name.value))
      && (outcome.Sent? ==> outcome.target == name.value)
      && (outcome.Skipped? <==> name.Some? && listing.Fetched? && !IsDatabasePaused(listing.items, name.value))
  {
    var databaseName, _ := CommonFunctions.DatabaseName(dbName, workspace, db);
    var name := Tui.ResolveDatabaseName(databaseName, promptListing, choice);
    if name.None? || !listing.Fetched? {
      outcome := Exited;
    } else if IsDatabasePaused(listing.items, name.value) {
      outcome := Sent(name.value);
    } else {
      outcome := Skipped;
    }
  }

  /** Only the first cluster carrying the name is consulted, and a missing name is not paused. */
  lemma PausedDecidedByFirstMatch(clusters: seq<ClusterInfo>, more: seq<ClusterInfo>, db: string)
    ensures FirstMatch(clusters, db).Some? ==> IsDatabasePaused(clusters + more, db) == IsDatabasePaused(clusters, db)
    ensures FirstMatch(clusters, db).None? ==> !IsDatabasePaused(clusters, db)
  {
    if FirstMatch(clusters, db).Some? {
      LaterDuplicatesIgnored(clusters, more, db, "Paused");
    }
  }

  /** No workspace is both resumable and pausable: the first entry has one status. */
  lemma NeverBothActiveAndPaused(clusters: seq<ClusterInfo>, db: string)
    ensures !(IsDatabasePaused(clusters, db) && Pause.IsDatabaseActive(clusters, db))
  {
  }
}
