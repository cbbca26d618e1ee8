/** What harvested records mean for whoever reads papers afterwards: for each paper the last record about it decides. */
module HarvestRecords {
  import opened Common
  import opened Papers
  import opened Harvest
  import opened HarvestRuns

  /** The record says something about the papers of a version family. */
  predicate Names(r: Record, family: nat) {
    || (r.paper.Some? && !r.deleted && r.paper.value.id.family == family)
    || (r.deleted && r.paperId.Some? && r.paperId.value.family == family)
  }

  /** A paper as the OAI feed delivers it: under its base id and with its OAI identifier. */
  predicate FromOai(p: Paper) { p.oaiId.Some? && p.id.version.None? }

  predicate SameFamily(rows: PaperRows, rows': PaperRows, family: nat) {
    && (forall x :: x in rows && x.family == family ==> x in rows' && rows'[x] == rows[x])
    && (forall x :: x in rows' && x.family == family ==> x in rows)
  }

  /** Reading a paper looks at its family only. */
  lemma ReadsItsFamily(rows: PaperRows, rows': PaperRows, id: PaperId)
    requires SameFamily(rows, rows', id.family)
    ensures Get(rows', id) == Get(rows, id)
  {
    assert Versioned(rows', id) == Versioned(rows, id);
  }

  lemma OaiWriteSpares(rows: PaperRows, p: Paper, family: nat)
    requires p.id.family != family
    ensures SameFamily(rows, OaiUpsert(rows, p), family)
  {
    assert OaiAlias(rows, p).id.family == p.id.family;
    assert LegacyAlias(rows, OaiAlias(rows, p)).id.family == p.id.family;
  }

  lemma RecordSpares(w: World, r: Record, family: nat)
    requires !Names(r, family)
    ensures SameFamily(w.rows, ApplyRecord(w, r).rows, family)
  {
    if r.paper.Some? && !r.deleted {
      OaiWriteSpares(w.rows, r.paper.value, family);
    }
  }

  /** Records leave the families alone that none of them names. */
  lemma {:induction false} RecordsSpare(w: World, rs: seq<Record>, family: nat)
    requires forall r :: r in rs ==> !Names(r, family)
    ensures SameFamily(w.rows, ApplyRecords(w, rs).rows, family)
    decreases |rs|
  {
    if rs != [] {
      var n := |rs| - 1;
      RecordsSpare(w, rs[..n], family);
      assert rs[n] in rs;
      RecordSpares(ApplyRecords(w, rs[..n]), rs[n], family);
    }
  }

  /** Reading the id of the paper gives the paper; only the row it lives in is the store's. */
  ghost predicate Shows(rows: PaperRows, p: Paper) {
    var read := Get(rows, p.id);
    read.Some? && read.value.id.family == p.id.family && read.value == p.(id := read.value.id, version := read.value.version)
  }

  /** Every row of the family says that it was deleted, and by which record. */
  ghost predicate ShowsDeleted(rows: PaperRows, r: Record, family: nat) {
    forall x :: x in rows && x.family == family ==>
      rows[x].deleted && rows[x].oaiId == Some(r.oaiId) && rows[x].oaiSets == r.sets && (r.stamp.Some? ==> rows[x].oaiStamp == r.stamp)
  }

  lemma OneRecord(w: World, r: Record)
    ensures r.paper.Some? && !r.deleted && FromOai(r.paper.value) ==> Shows(ApplyRecord(w, r).rows, r.paper.value)
    ensures r.deleted && r.paperId.Some? ==>
              && ShowsDeleted(ApplyRecord(w, r).rows, r, r.paperId.value.family)
              && ApplyRecord(w, r).rows.Keys == w.rows.Keys
    ensures r.oaiId in ApplyRecord(w, r).records && ApplyRecord(w, r).records[r.oaiId] == r
  {
    if r.paper.Some? && !r.deleted && FromOai(r.paper.value) {
      ReadAfterOaiWrite(w.rows, r.paper.value);
    }
  }

  lemma {:induction false} RecordStays(w: World, rs: seq<Record>, oaiId: nat)
    requires oaiId in w.records && forall r :: r in rs ==> r.oaiId != oaiId
    ensures oaiId in ApplyRecords(w, rs).records && ApplyRecords(w, rs).records[oaiId] == w.records[oaiId]
    decreases |rs|
  {
    if rs != [] {
      var n := |rs| - 1;
      RecordStays(w, rs[..n], oaiId);
      assert rs[n] in rs;
    }
  }

  /** After a list of records the last one that names a family decides: an undeleted paper is what reading its id
      returns, and a deletion is what every row of the family shows, none of them added or removed. The last record
      with an identifier is the one kept. */
  lemma LastRecordDecides(w: World, rs: seq<Record>, k: nat, family: nat)
    requires k < |rs| && Names(rs[k], family)
    requires forall j :: k < j < |rs| ==> !Names(rs[j], family)
    ensures var rows := ApplyRecords(w, rs).rows;
            && (!rs[k].deleted && FromOai(rs[k].paper.value) ==> Shows(rows, rs[k].paper.value))
            && (rs[k].deleted ==>
                && ShowsDeleted(rows, rs[k], family)
                && (forall x: PaperId :: x.family == family ==> (x in rows <==> x in ApplyRecords(w, rs[..k]).rows)))
  {
    var before := ApplyRecords(w, rs[..k]);
    var at := ApplyRecord(before, rs[k]);
    OneRecord(before, rs[k]);
    ThenTheRest(w, rs, k);
    RecordsSpare(at, rs[k + 1..], family);
    if !rs[k].deleted && FromOai(rs[k].paper.value) {
      ReadsItsFamily(at.rows, ApplyRecords(w, rs).rows, rs[k].paper.value.id);
    }
  }

  lemma ThenTheRest(w: World, rs: seq<Record>, k: nat)
    requires k < |rs|
    ensures ApplyRecords(w, rs) == ApplyRecords(ApplyRecord(ApplyRecords(w, rs[..k]), rs[k]), rs[k + 1..])
  {
    assert rs == rs[..k + 1] + rs[k + 1..] && rs[..k + 1][..k] == rs[..k];
    CountsAdd(rs[..k + 1], rs[k + 1..], None, w);
  }

  lemma LastIdentifierIsKept(w: World, rs: seq<Record>, k: nat)
    requires k < |rs| && forall j :: k < j < |rs| ==> rs[j].oaiId != rs[k].oaiId
    ensures rs[k].oaiId in ApplyRecords(w, rs).records && ApplyRecords(w, rs).records[rs[k].oaiId] == rs[k]
  {
    ThenTheRest(w, rs, k);
    OneRecord(ApplyRecords(w, rs[..k]), rs[k]);
    RecordStays(ApplyRecord(ApplyRecords(w, rs[..k]), rs[k]), rs[k + 1..], rs[k].oaiId);
  }

  /** In every run the papers are what the records of the committed pages say of them, whichever owners committed them. */
  lemma CommittedPapersRead(req: Request, ss: seq<Sys>, acts: seq<Act>, i: nat, k: nat, family: nat)
    requires IsRun(req, ss, acts) && i < |ss|
    requires var rs := AllRecords(ss[i].commits);
             k < |rs| && Names(rs[k], family) && forall j :: k < j < |rs| ==> !Names(rs[j], family)
    ensures var r, rows := AllRecords(ss[i].commits)[k], ss[i].world.rows;
            && (!r.deleted && FromOai(r.paper.value) ==> Shows(rows, r.paper.value))
            && (r.deleted ==> ShowsDeleted(rows, r, family))
  {
    RunningJobSumsItsPages(req, ss, acts, i);
    LastRecordDecides(ss[0].world, AllRecords(ss[i].commits), k, family);
  }

  /** And the papers that no committed record names are those that were there. */
  lemma OtherPapersStay(req: Request, ss: seq<Sys>, acts: seq<Act>, i: nat, id: PaperId)
    requires IsRun(req, ss, acts) && i < |ss|
    requires forall r :: r in AllRecords(ss[i].commits) ==> !Names(r, id.family)
    ensures Get(ss[i].world.rows, id) == Get(ss[0].world.rows, id)
  {
    RunningJobSumsItsPages(req, ss, acts, i);
    RecordsSpare(ss[0].world, AllRecords(ss[i].commits), id.family);
    ReadsItsFamily(ss[0].world.rows, ss[i].world.rows, id);
  }

  // ------------------------------------------------------------------ what is counted

  function Places(rs: seq<Record>, upserts: bool): set<nat> {
    set i: nat | i < |rs| && (if upserts then rs[i].paper.Some? && !rs[i].deleted else rs[i].deleted)
  }

  /** The counters count records: those with a paper that is not deleted, and those that delete. */
  lemma {:induction false} CountersCount(rs: seq<Record>)
    ensures Upserted(rs) == |Places(rs, true)| && Deleted(rs) == |Places(rs, false)|
    decreases |rs|
  {
    if rs != [] {
      var n := |rs| - 1;
      CountersCount(rs[..n]);
      assert Places(rs, true) == Places(rs[..n], true) + if rs[n].paper.Some? && !rs[n].deleted then {n} else {};
      assert Places(rs, false) == Places(rs[..n], false) + if rs[n].deleted then {n} else {};
    }
  }

  /** The response day kept is that of the last page that has one. */
  lemma {:induction false} ResponseIsLast(token: Option<Token>, pages: seq<Page>)
    ensures var day := Snap(token, pages).response;
            && (day.None? <==> forall k :: 0 <= k < |pages| ==> pages[k].responseDay.None?)
            && (day.Some? ==> exists k :: 0 <= k < |pages| && pages[k].responseDay == day
                                          && forall j :: k < j < |pages| ==> pages[j].responseDay.None?)
    decreases |pages|
  {
    if pages != [] {
      var n := |pages| - 1;
      ResponseIsLast(token, pages[..n]);
      if pages[n].responseDay.None? && Snap(token, pages[..n]).response.Some? {
        var k :| 0 <= k < n && pages[..n][k].responseDay == Snap(token, pages[..n]).response
                 && forall j :: k < j < n ==> pages[..n][j].responseDay.None?;
        assert pages[k].responseDay == Snap(token, pages).response;
      }
    }
  }
}
