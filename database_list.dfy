/**
 * The workspace list the Cloud Manager API returns (objects.DatabaseList), reduced to
 * the fields the commands decide on, and the first-match search that pause, resume and
 * delete share.
 */
module DatabaseList {
  import opened Wrappers

  /** objects.CMClusterInfo: only the fields any decision reads. */
  datatype ClusterInfo = ClusterInfo(clusterId: string, dcosAppId: string, namespace: string, status: string)

  /**
   * The position of the first cluster whose DcosAppId is `db`: the loops in pause.go,
   * resume.go and both delete.go files return from inside the loop on the first hit.
   */
  function FirstMatch(clusters: seq<ClusterInfo>, db: string): (r: Option<nat>)
    ensures r.Some? ==> r.value < |clusters| && clusters[r.value].dcosAppId == db
    ensures r.Some? ==> forall j :: 0 <= j < r.value ==> clusters[j].dcosAppId != db
    ensures r.None? <==> forall j :: 0 <= j < |clusters| ==> clusters[j].dcosAppId != db
  {
    if |clusters| == 0 then None
    else if clusters[0].dcosAppId == db then Some(0)
    else match FirstMatch(clusters[1..], db)
      case None => None
      case Some(i) => Some(i + 1)
  }

  /** FirstMatch looks no further than the first hit, so what follows it is never read. */
  lemma {:induction false} FirstMatchIgnoresLater(clusters: seq<ClusterInfo>, more: seq<ClusterInfo>, db: string)
    requires FirstMatch(clusters, db).Some?
    ensures FirstMatch(clusters + more, db) == FirstMatch(clusters, db)
  {
    if clusters[0].dcosAppId != db {
      assert (clusters + more)[1..] == clusters[1..] + more;
      FirstMatchIgnoresLater(clusters[1..], more, db);
    }
  }

  /**
   * The test isDatabaseActive and isDatabasePaused make once the list is decoded: the
   * first cluster named `db` decides, by its status alone; no such cluster means false.
   */
  function FirstStatusIs(clusters: seq<ClusterInfo>, db: string, status: string): bool {
    match FirstMatch(clusters, db)
    case None => false
    case Some(i) => clusters[i].status == status
  }

  /** The same test read off the list directly. */
  lemma FirstStatusIsSpec(clusters: seq<ClusterInfo>, db: string, status: string)
    ensures FirstStatusIs(clusters, db, status) <==>
      exists i :: 0 <= i < |clusters| && clusters[i].dcosAppId == db && clusters[i].status == status
                  && forall j :: 0 <= j < i ==> clusters[j].dcosAppId != db
  {
    if FirstStatusIs(clusters, db, status) {
      var i := FirstMatch(clusters, db).value;
      assert clusters[i].dcosAppId == db && clusters[i].status == status;
    }
  }

  /** Clusters listed after the first one named `db` never change the answer. */
  lemma LaterDuplicatesIgnored(clusters: seq<ClusterInfo>, more: seq<ClusterInfo>, db: string, status: string)
    requires FirstMatch(clusters, db).Some?
    ensures FirstStatusIs(clusters + more, db, status) == FirstStatusIs(clusters, db, status)
  {
    FirstMatchIgnoresLater(clusters, more, db);
    var i := FirstMatch(clusters, db).value;
    assert (clusters + more)[i] == clusters[i];
  }

  /** How Run ends in pause, resume and delete: a fatal exit, a warning only, or a request for `target`. */
  datatype RunOutcome = Exited | Skipped | Sent(target: string)
}
