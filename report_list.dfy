/** The report list: which saved reports a user sees, which they may
    change, how owners and sources are named, and the guarded delete. */
module ReportList {
  import opened Models
  import opened Seqs
  import opened AppState

  datatype ReportFilter = All | Mine

  predicate Owns(user: Option<User>, r: ReportConfig)
  {
    user.Some? && r.ownerId == user.value.id
  }

  /** The predicate the list filters by: with 'mine' and a user, that
      user's reports; otherwise the public reports plus the user's own. */
  function Listed(filter: ReportFilter, user: Option<User>): ReportConfig -> bool
  {
    if filter == Mine && user.Some? then (x: ReportConfig) => x.ownerId == user.value.id
    else (x: ReportConfig) => x.visibility == Public || Owns(user, x)
  }

  /** What the list shows, in the stored order. */
  function FilteredReports(reports: seq<ReportConfig>, filter: ReportFilter, user: Option<User>): (r: seq<ReportConfig>)
    ensures |r| <= |reports|
    ensures forall i :: 0 <= i < |r| ==> r[i].visibility == Public || Owns(user, r[i])
    ensures KeptInOrder(r, reports, Listed(filter, user))
  {
    FilterInOrder(reports, Listed(filter, user));
    Filter(reports, Listed(filter, user))
  }

  /** Exactly which reports are listed. */
  lemma FilteredReportsMembers(reports: seq<ReportConfig>, filter: ReportFilter, user: Option<User>, x: ReportConfig)
    ensures filter == Mine && user.Some? ==>
      (x in FilteredReports(reports, filter, user) <==> x in reports && x.ownerId == user.value.id)
    ensures filter == All || user.None? ==>
      (x in FilteredReports(reports, filter, user) <==> x in reports && (x.visibility == Public || Owns(user, x)))
  {
    FilterMember(reports, Listed(filter, user), x);
  }

  /** Without a user only public reports are listed, whatever the filter. */
  lemma AnonymousSeesPublicOnly(reports: seq<ReportConfig>, filter: ReportFilter, x: ReportConfig)
    ensures x in FilteredReports(reports, filter, None) <==> x in reports && x.visibility == Public
  {
    FilteredReportsMembers(reports, filter, None, x);
  }

  /** The owner and administrators may edit or delete a report. */
  predicate CanModify(user: Option<User>, r: ReportConfig)
  {
    user.Some? && (r.ownerId == user.value.id || user.value.role == Admin)
  }

  /** An administrator may modify every report; a regular user exactly
      their own. */
  lemma CanModifyByRole(user: User, r: ReportConfig)
    ensures user.role == Admin ==> CanModify(Some(user), r)
    ensures user.role == RegularUser ==> (CanModify(Some(user), r) <==> r.ownerId == user.id)
    ensures !CanModify(None, r)
  {
  }

  function DataSourceName(sources: seq<DataSource>, id: string): (name: string)
    ensures name != ""
    ensures (forall i :: 0 <= i < |sources| ==> sources[i].id != id) ==> name == "Unknown Source"
    ensures forall i :: 0 <= i < |sources| && sources[i].id == id && (forall k :: 0 <= k < i ==> sources[k].id != id) ==>
      name == (if sources[i].name != "" then sources[i].name else "Unknown Source")
  {
    match FindIndex(sources, (d: DataSource) => d.id == id)
    case None => "Unknown Source"
    case Some(k) => OrElse(sources[k].name, "Unknown Source")
  }

  function OwnerName(user: Option<User>, id: string): (name: string)
    ensures name != ""
    ensures user.Some? && id == user.value.id ==> name == "Me"
    ensures !(user.Some? && id == user.value.id) ==>
      if id == "u1" then name == "Alice Admin"
      else if id == "u2" then name == "Bob Analyst"
      else if id == "u3" then name == "Charlie Viewer"
      else name == "Unknown"
  {
    if user.Some? && id == user.value.id then "Me"
    else match Find(MockUsers, (u: User) => u.id == id)
      case None => "Unknown"
      case Some(owner) => OrElse(owner.name, "Unknown")
  }

  /** The report list after a delete request for `id`: only a known report
      the user may modify, confirmed and accepted by the server, is
      removed, and the result goes through `setReports`. */
  function AfterDelete(reports: seq<ReportConfig>, user: Option<User>, id: string,
                       confirmed: bool, serverOk: bool): seq<ReportConfig>
  {
    match Find(reports, IdIs(id))
    case None => reports
    case Some(report) =>
      if CanModify(user, report) && confirmed && serverOk then Dedup(RemoveId(reports, id)) else reports
  }

  /** On a list with distinct ids (which the store keeps), a permitted
      delete removes exactly the report with that id; any other request
      leaves the list as it was. */
  lemma AfterDeleteEffect(reports: seq<ReportConfig>, user: Option<User>, id: string, confirmed: bool, serverOk: bool)
    requires DistinctIds(reports)
    ensures var r := AfterDelete(reports, user, id, confirmed, serverOk);
      && (r == reports || r == RemoveId(reports, id))
      && (r != reports <==> HasId(reports, id) && confirmed && serverOk &&
                            CanModify(user, reports[FirstWithId(reports, id)]))
  {
    match Find(reports, IdIs(id))
    case None =>
    case Some(report) =>
      assert HasId(reports, id);
      var k := FirstWithId(reports, id);
      assert report == reports[k] by {
        var j :| 0 <= j < |reports| && reports[j] == report && IdIs(id)(reports[j]);
      }
      RemoveIdSubsequence(reports, id);
      DedupIdempotent(RemoveId(reports, id));
      assert reports[k] in reports && reports[k] !in RemoveId(reports, id);
  }

  /** The list component's delete. The confirmation dialog and the server's
      answer are parameters; the list is the store's. */
  method DeleteReport(store: Store, user: Option<User>, id: string, confirmed: bool, serverOk: bool)
    modifies store
    ensures store.reports == AfterDelete(old(store.reports), user, id, confirmed, serverOk)
    ensures store.currentUser == old(store.currentUser) && store.dataSources == old(store.dataSources)
  {
    var report := Find(store.reports, IdIs(id));
    if report.Some? && CanModify(user, report.value) {
      if confirmed && serverOk {
        var updated := RemoveId(store.reports, id);
        store.SetReports(updated);
      }
    }
  }
}
