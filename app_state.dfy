/** The application's shared state: the current user, the data sources and
    the saved reports. Each collection is replaced wholesale by every
    operation; the report collection is kept free of duplicate ids. */
module AppState {
  import opened Models
  import opened Seqs

  // ---------------------------------------------------------------------
  // Reports keyed by id

  /** The predicate `r => r.id === id`. */
  function IdIs(id: string): ReportConfig -> bool
  {
    (r: ReportConfig) => r.id == id
  }

  /** The predicate `r => r.id !== id`. */
  function IdIsNot(id: string): ReportConfig -> bool
  {
    (r: ReportConfig) => r.id != id
  }

  predicate HasId(rs: seq<ReportConfig>, id: string)
  {
    exists k :: 0 <= k < |rs| && rs[k].id == id
  }

  predicate DistinctIds(rs: seq<ReportConfig>)
  {
    forall i, j :: 0 <= i < j < |rs| ==> rs[i].id != rs[j].id
  }

  /** The position of the first report with id `id`. */
  function FirstWithId(rs: seq<ReportConfig>, id: string): (k: nat)
    requires HasId(rs, id)
    ensures k < |rs| && rs[k].id == id
    ensures forall j :: 0 <= j < k ==> rs[j].id != id
  {
    FindIndex(rs, IdIs(id)).value
  }

  /** The list `setReports` stores: the reports in order, each id kept only
      at its first occurrence. */
  function Dedup(rs: seq<ReportConfig>): seq<ReportConfig>
  {
    if |rs| == 0 then []
    else
      var kept := Dedup(rs[..|rs| - 1]);
      var r := rs[|rs| - 1];
      if HasId(kept, r.id) then kept else kept + [r]
  }

  /** Deduplication keeps exactly the ids of the input, each once. */
  lemma {:induction false} DedupIds(rs: seq<ReportConfig>)
    ensures DistinctIds(Dedup(rs))
    ensures forall id :: HasId(Dedup(rs), id) <==> HasId(rs, id)
    ensures |Dedup(rs)| <= |rs|
  {
    if |rs| > 0 {
      var prefix := rs[..|rs| - 1];
      DedupIds(prefix);
      forall id | HasId(prefix, id)
        ensures HasId(rs, id)
      {
        var k :| 0 <= k < |prefix| && prefix[k].id == id;
        assert rs[k] == prefix[k];
      }
      forall id | HasId(rs, id)
        ensures HasId(Dedup(rs), id)
      {
        var k :| 0 <= k < |rs| && rs[k].id == id;
        if k < |prefix| {
          assert prefix[k] == rs[k];
          assert HasId(Dedup(prefix), id);
          var d :| 0 <= d < |Dedup(prefix)| && Dedup(prefix)[d].id == id;
          assert Dedup(rs)[d] == Dedup(prefix)[d];
        } else if !HasId(Dedup(prefix), id) {
          assert Dedup(rs)[|Dedup(rs)| - 1] == rs[k];
        }
      }
    }
  }

  /** Appending a report does not move the first occurrence of an id the
      list already has. */
  lemma FirstWithIdSnoc(rs: seq<ReportConfig>, r: ReportConfig, id: string)
    requires HasId(rs, id)
    ensures HasId(rs + [r], id) && FirstWithId(rs + [r], id) == FirstWithId(rs, id)
  {
    var k := FirstWithId(rs, id);
    assert (rs + [r])[k] == rs[k];
  }

  /** A report whose id is new is the first occurrence of its id. */
  lemma FirstWithIdNew(rs: seq<ReportConfig>, r: ReportConfig)
    requires !HasId(rs, r.id)
    ensures HasId(rs + [r], r.id) && FirstWithId(rs + [r], r.id) == |rs|
  {
    assert (rs + [r])[|rs|] == r;
  }

  /** Every kept report is the first one with its id. */
  lemma {:induction false} DedupKeepsFirst(rs: seq<ReportConfig>)
    ensures forall i :: 0 <= i < |Dedup(rs)| ==>
      HasId(rs, Dedup(rs)[i].id) && rs[FirstWithId(rs, Dedup(rs)[i].id)] == Dedup(rs)[i]
  {
    if |rs| > 0 {
      var prefix := rs[..|rs| - 1];
      var kept := Dedup(prefix);
      var r := rs[|rs| - 1];
      assert rs == prefix + [r];
      DedupKeepsFirst(prefix);
      DedupIds(prefix);
      forall i | 0 <= i < |Dedup(rs)|
        ensures HasId(rs, Dedup(rs)[i].id) && rs[FirstWithId(rs, Dedup(rs)[i].id)] == Dedup(rs)[i]
      {
        if i < |kept| {
          assert Dedup(rs)[i] == kept[i];
          FirstWithIdSnoc(prefix, r, kept[i].id);
          assert rs[FirstWithId(prefix, kept[i].id)] == prefix[FirstWithId(prefix, kept[i].id)];
        } else {
          assert Dedup(rs)[i] == r && !HasId(prefix, r.id);
          FirstWithIdNew(prefix, r);
        }
      }
    }
  }

  /** The kept reports are in the order of their ids' first occurrences. */
  lemma {:induction false} DedupKeepsOrder(rs: seq<ReportConfig>)
    ensures forall i, j :: 0 <= i < j < |Dedup(rs)| ==>
      HasId(rs, Dedup(rs)[i].id) && HasId(rs, Dedup(rs)[j].id) &&
      FirstWithId(rs, Dedup(rs)[i].id) < FirstWithId(rs, Dedup(rs)[j].id)
  {
    DedupIds(rs);
    if |rs| > 0 {
      var prefix := rs[..|rs| - 1];
      var kept := Dedup(prefix);
      var r := rs[|rs| - 1];
      assert rs == prefix + [r];
      DedupKeepsOrder(prefix);
      DedupIds(prefix);
      var d := Dedup(rs);
      forall i, j | 0 <= i < j < |d|
        ensures HasId(rs, d[i].id) && HasId(rs, d[j].id) && FirstWithId(rs, d[i].id) < FirstWithId(rs, d[j].id)
      {
        assert d[i] == kept[i];
        assert HasId(prefix, kept[i].id);
        FirstWithIdSnoc(prefix, r, kept[i].id);
        if j < |kept| {
          assert d[j] == kept[j];
          FirstWithIdSnoc(prefix, r, kept[j].id);
        } else {
          assert d[j] == r && !HasId(prefix, r.id);
          FirstWithIdNew(prefix, r);
        }
      }
    }
  }

  /** A list whose ids are already distinct is stored as it is. */
  lemma {:induction false} DedupIdempotent(rs: seq<ReportConfig>)
    requires DistinctIds(rs)
    ensures Dedup(rs) == rs
  {
    if |rs| > 0 {
      var prefix := rs[..|rs| - 1];
      assert DistinctIds(prefix);
      DedupIdempotent(prefix);
      var r := rs[|rs| - 1];
      assert forall k :: 0 <= k < |prefix| ==> prefix[k].id == rs[k].id != r.id;
      assert !HasId(prefix, r.id);
      assert Dedup(rs) == prefix + [r];
      assert rs == prefix + [r];
    }
  }

  /** The list without any report with id `id`, others in order. */
  function RemoveId(rs: seq<ReportConfig>, id: string): (r: seq<ReportConfig>)
    ensures !HasId(r, id)
    ensures forall x :: x in r <==> x in rs && x.id != id
    ensures KeptInOrder(r, rs, IdIsNot(id))
  {
    var r := Filter(rs, IdIsNot(id));
    FilterInOrder(rs, IdIsNot(id));
    forall x
      ensures x in r <==> x in rs && x.id != id
    {
      FilterMember(rs, IdIsNot(id), x);
    }
    r
  }

  /** Removing an id from a list with distinct ids leaves distinct ids. */
  lemma {:induction false} RemoveIdSubsequence(rs: seq<ReportConfig>, id: string)
    requires DistinctIds(rs)
    ensures DistinctIds(RemoveId(rs, id))
  {
    if |rs| > 0 {
      var tail := rs[1..];
      assert DistinctIds(tail);
      RemoveIdSubsequence(tail, id);
      assert RemoveId(rs, id) == if rs[0].id != id then [rs[0]] + RemoveId(tail, id) else RemoveId(tail, id);
      if rs[0].id != id {
        forall x | x in RemoveId(tail, id)
          ensures x.id != rs[0].id
        {
          var k :| 0 <= k < |tail| && tail[k] == x;
          assert rs[k + 1] == x;
        }
      }
    }
  }

  /** The list `updateReport` stores: every report with the id removed and
      the new one appended. */
  function Updated(rs: seq<ReportConfig>, report: ReportConfig): (r: seq<ReportConfig>)
    ensures |r| > 0 && r[|r| - 1] == report
    ensures forall i :: 0 <= i < |r| - 1 ==> r[i].id != report.id
    ensures forall x :: x in r <==> x == report || (x in rs && x.id != report.id)
    ensures KeptInOrder(r[..|r| - 1], rs, IdIsNot(report.id))
  {
    var kept := RemoveId(rs, report.id);
    assert (kept + [report])[..|kept|] == kept;
    kept + [report]
  }

  /** The list `addReport` stores: appended when the id is new, otherwise
      the same as an update. */
  function Added(rs: seq<ReportConfig>, report: ReportConfig): seq<ReportConfig>
  {
    if HasId(rs, report.id) then Updated(rs, report) else rs + [report]
  }

  /** Adding and updating store the same list in every case: with a new id,
      removing it first changes nothing. */
  lemma AddedIsUpdated(rs: seq<ReportConfig>, report: ReportConfig)
    ensures Added(rs, report) == Updated(rs, report)
  {
    if !HasId(rs, report.id) {
      assert Filter(rs, IdIsNot(report.id)) == rs;
    }
  }

  /** An update disturbs nothing but the reports with its id. */
  lemma UpdatedKeepsOthers(rs: seq<ReportConfig>, report: ReportConfig)
    ensures RemoveId(Updated(rs, report), report.id) == RemoveId(rs, report.id)
  {
    var p := IdIsNot(report.id);
    FilterAppend(Filter(rs, p), [report], p);
    assert Filter([report], p) == [];
    assert Filter(Filter(rs, p), p) == Filter(rs, p);
  }

  /** Updating a list with distinct ids leaves distinct ids. */
  lemma UpdatedKeepsDistinct(rs: seq<ReportConfig>, report: ReportConfig)
    requires DistinctIds(rs)
    ensures DistinctIds(Updated(rs, report))
  {
    RemoveIdSubsequence(rs, report.id);
  }

  // ---------------------------------------------------------------------
  // Data sources keyed by id

  /** The list `updateDataSource` stores: every entry with the id replaced
      in place. */
  function Replaced(sources: seq<DataSource>, source: DataSource): (r: seq<DataSource>)
    ensures |r| == |sources|
    ensures forall i :: 0 <= i < |r| ==> r[i].id == sources[i].id
    ensures forall i :: 0 <= i < |r| ==> (sources[i].id == source.id ==> r[i] == source)
    ensures forall i :: 0 <= i < |r| ==> (sources[i].id != source.id ==> r[i] == sources[i])
  {
    seq(|sources|, i requires 0 <= i < |sources| => if sources[i].id == source.id then source else sources[i])
  }

  /** The predicate `ds => ds.id !== id`. */
  function SourceIdIsNot(id: string): DataSource -> bool
  {
    (d: DataSource) => d.id != id
  }

  /** The list `removeDataSource` stores. */
  function WithoutSource(sources: seq<DataSource>, id: string): (r: seq<DataSource>)
    ensures forall x :: x in r <==> x in sources && x.id != id
    ensures KeptInOrder(r, sources, SourceIdIsNot(id))
  {
    var p := SourceIdIsNot(id);
    FilterInOrder(sources, p);
    var r := Filter(sources, p);
    forall x
      ensures x in r <==> x in sources && x.id != id
    {
      FilterMember(sources, p, x);
    }
    r
  }

  /** Replacing twice with the same record is replacing once. */
  lemma {:induction false} ReplacedIdempotent(sources: seq<DataSource>, source: DataSource)
    ensures Replaced(Replaced(sources, source), source) == Replaced(sources, source)
  {
    var once := Replaced(sources, source);
    var twice := Replaced(once, source);
    assert forall i :: 0 <= i < |twice| ==> twice[i] == once[i];
  }

  // ---------------------------------------------------------------------
  // The store

  class Store {
    var currentUser: User
    var dataSources: seq<DataSource>
    var reports: seq<ReportConfig>

    /** The stored reports never share an id. */
    predicate Valid()
      reads this
    {
      DistinctIds(reports)
    }

    constructor ()
      ensures currentUser == MockUsers[0] && dataSources == [] && reports == []
      ensures Valid()
    {
      currentUser := MockUsers[0];
      dataSources := [];
      reports := [];
    }

    method GetCurrentUser() returns (user: User)
      ensures user == currentUser
    {
      user := currentUser;
    }

    method SetCurrentUser(user: User)
      modifies this
      ensures currentUser == user
      ensures dataSources == old(dataSources) && reports == old(reports)
    {
      currentUser := user;
    }

    method GetDataSources() returns (sources: seq<DataSource>)
      ensures sources == dataSources
    {
      sources := dataSources;
    }

    method SetDataSources(sources: seq<DataSource>)
      modifies this
      ensures dataSources == sources
      ensures currentUser == old(currentUser) && reports == old(reports)
    {
      dataSources := sources;
    }

    /** Appends without checking for an existing id. */
    method AddDataSource(source: DataSource)
      modifies this
      ensures dataSources == old(dataSources) + [source]
      ensures currentUser == old(currentUser) && reports == old(reports)
    {
      dataSources := dataSources + [source];
    }

    method UpdateDataSource(source: DataSource)
      modifies this
      ensures dataSources == Replaced(old(dataSources), source)
      ensures currentUser == old(currentUser) && reports == old(reports)
    {
      dataSources := Replaced(dataSources, source);
    }

    method RemoveDataSource(id: string)
      modifies this
      ensures dataSources == WithoutSource(old(dataSources), id)
      ensures currentUser == old(currentUser) && reports == old(reports)
    {
      dataSources := WithoutSource(dataSources, id);
    }

    method GetReports() returns (rs: seq<ReportConfig>)
      ensures rs == reports
    {
      rs := reports;
    }

    /** Stores the given reports with duplicate ids dropped, the first
        report of each id winning. */
    method SetReports(rs: seq<ReportConfig>)
      modifies this
      ensures reports == Dedup(rs) && Valid()
      ensures currentUser == old(currentUser) && dataSources == old(dataSources)
    {
      var unique: seq<ReportConfig> := [];
      var i := 0;
      while i < |rs|
        invariant 0 <= i <= |rs|
        invariant unique == Dedup(rs[..i])
      {
        var r := rs[i];
        assert rs[..i + 1][..i] == rs[..i];
        if Find(unique, IdIs(r.id)).None? {
          unique := unique + [r];
        }
        i := i + 1;
      }
      assert rs[..i] == rs;
      DedupIds(rs);
      reports := unique;
    }

    method AddReport(report: ReportConfig)
      modifies this
      ensures reports == Added(old(reports), report)
      ensures old(Valid()) ==> Valid()
      ensures currentUser == old(currentUser) && dataSources == old(dataSources)
    {
      if Find(reports, IdIs(report.id)).Some? {
        UpdateReport(report);
        return;
      }
      reports := reports + [report];
    }

    method UpdateReport(report: ReportConfig)
      modifies this
      ensures reports == Updated(old(reports), report)
      ensures old(Valid()) ==> Valid()
      ensures currentUser == old(currentUser) && dataSources == old(dataSources)
    {
      if Valid() {
        UpdatedKeepsDistinct(reports, report);
      }
      reports := RemoveId(reports, report.id) + [report];
    }

    method RemoveReport(id: string)
      modifies this
      ensures reports == RemoveId(old(reports), id)
      ensures old(Valid()) ==> Valid()
      ensures currentUser == old(currentUser) && dataSources == old(dataSources)
    {
      if Valid() {
        RemoveIdSubsequence(reports, id);
      }
      reports := RemoveId(reports, id);
    }
  }
}
