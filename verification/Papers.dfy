/** Paper rows and the aliasing of the versions of one paper: a legacy feed writes versioned ids, the
    OAI feed writes base ids, and both may meet in one row. */
module Papers {
  import opened Common

  /** A row of papers; `content` stands for the bibliographic columns. */
  datatype Paper = Paper(
    id: PaperId, version: Option<nat>,
    oaiId: Option<nat>, oaiStamp: Option<int>, oaiSets: nat, deleted: bool, content: nat)

  type PaperRows = map<PaperId, Paper>

  function Base(id: PaperId): PaperId { PaperId(id.family, None) }

  function Family(rows: PaperRows, id: PaperId): set<PaperId> {
    set x | x in rows && x.family == id.family
  }

  function Versioned(rows: PaperRows, id: PaperId): set<PaperId> {
    set x | x in rows && x.family == id.family && x.version.Some?
  }

  // ------------------------------------------------------------------ preference within a family

  /** `arxiv_version(id) or -1`: version 0 counts like no version. */
  function VersionRank(id: PaperId): int {
    if id.version.Some? && id.version.value > 0 then id.version.value else -1
  }

  /** _version_family_merge_preference, ties broken by the longer id string. */
  predicate AtLeast(x: PaperId, y: PaperId) {
    VersionRank(x) > VersionRank(y) || (VersionRank(x) == VersionRank(y) && (x.version.Some? || y.version.None?))
  }

  predicate IsBest(ids: set<PaperId>, x: PaperId) {
    x in ids && forall y :: y in ids ==> AtLeast(x, y)
  }

  lemma {:induction false} BestExists(ids: set<PaperId>)
    requires ids != {}
    ensures exists x :: IsBest(ids, x)
    decreases |ids|
  {
    var i :| i in ids;
    if ids == {i} {
      assert IsBest(ids, i);
    } else {
      var rest := ids - {i};
      assert ids == rest + {i};
      BestExists(rest);
      var best :| IsBest(rest, best);
      var x := if AtLeast(i, best) then i else best;
      forall y | y in ids ensures AtLeast(x, y) {
        assert y == i || y in rest;
      }
      assert IsBest(ids, x);
    }
  }

  ghost function Best(ids: set<PaperId>): (x: PaperId)
    requires ids != {}
    ensures IsBest(ids, x)
  {
    BestExists(ids);
    var x :| IsBest(ids, x);
    x
  }

  lemma BestIsUnique(ids: set<PaperId>, x: PaperId, y: PaperId)
    requires IsBest(ids, x) && IsBest(ids, y)
    requires forall a, b :: a in ids && b in ids ==> a.family == b.family
    ensures x == y
  {
    assert AtLeast(x, y) && AtLeast(y, x);
  }

  // ------------------------------------------------------------------ writes

  /** _oai_paper_for_existing_version_family: without a row of its own id, the paper goes to the most
      recent row of its family. */
  ghost function OaiAlias(rows: PaperRows, p: Paper): Paper {
    if Family(rows, p.id) == {} || p.id in rows then p
    else
      var target := Best(Family(rows, p.id));
      p.(id := target, version := if target.version.Some? then target.version else p.version)
  }

  /** _legacy_paper_for_existing_oai_base_row: a versioned legacy paper goes to the base row when that
      row came from OAI and the family has no versioned row. */
  function LegacyAlias(rows: PaperRows, p: Paper): Paper {
    if p.oaiId.Some? || p.id.version.None? then p
    else if Base(p.id) !in rows || Versioned(rows, p.id) != {} || rows[Base(p.id)].oaiId.None? then p
    else p.(id := Base(p.id), version := None)
  }

  /** The row kept on conflict: a write without an OAI identifier leaves the OAI columns alone. */
  function Merged(held: Paper, p: Paper): Paper {
    if p.oaiId.None?
    then p.(oaiId := held.oaiId, oaiStamp := held.oaiStamp, oaiSets := held.oaiSets, deleted := held.deleted)
    else p
  }

  function Put(rows: PaperRows, p: Paper): PaperRows {
    rows[p.id := if p.id in rows then Merged(rows[p.id], p) else p]
  }

  /** _upsert_paper_conn: the rows after the write, and the id of the row written. */
  function Upsert(rows: PaperRows, p: Paper): (PaperRows, PaperId) {
    var q := LegacyAlias(rows, p);
    (Put(rows, q), q.id)
  }

  ghost function OaiUpsert(rows: PaperRows, p: Paper): PaperRows {
    Upsert(rows, OaiAlias(rows, p)).0
  }

  /** The effect of a deleted OAI record on the rows of its family. */
  function Tombstone(rows: PaperRows, id: PaperId, oaiId: nat, stamp: Option<int>, sets: nat): PaperRows {
    map x | x in rows ::
      if x.family == id.family
      then rows[x].(deleted := true, oaiId := Some(oaiId), oaiStamp := if stamp.Some? then stamp else rows[x].oaiStamp,
                    oaiSets := sets)
      else rows[x]
  }

  /** mark_paper_deleted: one row, if it exists. */
  function MarkDeleted(rows: PaperRows, id: PaperId, oaiId: Option<nat>, stamp: Option<int>, sets: nat): PaperRows {
    if id !in rows then rows
    else
      var held := rows[id];
      rows[id := held.(deleted := true, oaiId := if oaiId.Some? then oaiId else held.oaiId,
                       oaiStamp := if stamp.Some? then stamp else held.oaiStamp, oaiSets := sets)]
  }

  // ------------------------------------------------------------------ reads

  /** get_paper: the exact row, else the OAI base row for a version, else the latest version for a base. */
  ghost function Get(rows: PaperRows, id: PaperId): Option<Paper> {
    if id in rows then Some(rows[id])
    else if id.version.Some? then
      (if Base(id) in rows && rows[Base(id)].oaiId.Some? then Some(rows[Base(id)]) else None)
    else if Versioned(rows, id) == {} then None
    else Some(rows[Best(Versioned(rows, id))])
  }

  // ------------------------------------------------------------------ what is read is what was written

  ghost predicate WellKeyed(rows: PaperRows) {
    forall id :: id in rows ==> rows[id].id == id
  }

  /** After a legacy write of any id, reading that id returns the written data, whatever rows the
      family held; only the row it lives in and the OAI columns are the store's. */
  lemma ReadAfterLegacyWrite(rows: PaperRows, p: Paper)
    requires p.oaiId.None?
    ensures var read := Get(Upsert(rows, p).0, p.id);
      && read.Some? && read.value.content == p.content && read.value.id.family == p.id.family
      && read.value == Merged(read.value, p).(id := read.value.id, version := read.value.version)
      && (read.value.id == p.id ==> read.value.version == p.version)
  {
    assert p.id.version.Some? && p.id in rows ==> p.id in Versioned(rows, p.id);
    assert p.id.version.None? ==> Base(p.id) == p.id;
  }

  /** After an OAI write of a base id, reading that id returns the written data and OAI columns. */
  lemma ReadAfterOaiWrite(rows: PaperRows, p: Paper)
    requires p.oaiId.Some? && p.id.version.None?
    ensures var read := Get(OaiUpsert(rows, p), p.id);
      && read.Some? && read.value.id.family == p.id.family
      && read.value == p.(id := read.value.id, version := read.value.version)
      && (Family(rows, p.id) == {} || p.id in rows ==> read.value == p)
  {
    var rows' := OaiUpsert(rows, p);
    if Family(rows, p.id) != {} && p.id !in rows {
      var target := Best(Family(rows, p.id));
      assert forall x: PaperId :: x.family == p.id.family && x.version.None? ==> x == p.id;
      assert Versioned(rows', p.id) == Family(rows, p.id);
      BestIsUnique(Versioned(rows', p.id), target, Best(Versioned(rows', p.id)));
    }
  }

  /** Writes that may reach the rows. */
  datatype Write =
    | Legacy(paper: Paper)
    | Oai(paper: Paper)
    | Delete(id: PaperId, oaiId: nat, stamp: Option<int>, sets: nat)
    | Mark(id: PaperId, found: Option<nat>, stamp: Option<int>, sets: nat)

  ghost function Written(rows: PaperRows, w: Write): PaperRows {
    match w
    case Legacy(p) => Upsert(rows, p).0
    case Oai(p) => OaiUpsert(rows, p)
    case Delete(id, oaiId, stamp, sets) => Tombstone(rows, id, oaiId, stamp, sets)
    case Mark(id, oaiId, stamp, sets) => MarkDeleted(rows, id, oaiId, stamp, sets)
  }

  ghost function WrittenAll(rows: PaperRows, ws: seq<Write>): PaperRows
    decreases |ws|
  {
    if ws == [] then rows else WrittenAll(Written(rows, ws[0]), ws[1..])
  }

  predicate LoneOaiRow(rows: PaperRows, base: PaperId) {
    base in rows && base.version.None? && rows[base].oaiId.Some? && Family(rows, base) == {base}
  }

  /** Legacy papers carry no OAI identifier, OAI papers carry one and a base id. */
  predicate Proper(w: Write) {
    match w
    case Legacy(p) => p.oaiId.None?
    case Oai(p) => p.oaiId.Some? && p.id.version.None?
    case Delete(_, _, _, _) => true
    case Mark(_, _, _, _) => true
  }

  lemma LoneRowStep(rows: PaperRows, w: Write, base: PaperId)
    requires LoneOaiRow(rows, base) && Proper(w)
    ensures LoneOaiRow(Written(rows, w), base)
  {
    var rows' := Written(rows, w);
    assert base in Family(rows, base);
    match w
    case Legacy(p) =>
      if p.id.family == base.family {
        assert Base(p.id) == base;
        assert Versioned(rows, p.id) <= Family(rows, base);
        assert Versioned(rows, p.id) == {};
      }
      assert Family(rows', base) == {base};
    case Oai(p) =>
      if p.id.family == base.family {
        assert p.id == base;
      } else if Family(rows, p.id) != {} && p.id !in rows {
        assert Best(Family(rows, p.id)).family == p.id.family;
      }
      assert Family(rows', base) == {base};
    case Delete(_, _, _, _) =>
      assert Family(rows', base) == Family(rows, base);
    case Mark(_, _, _, _) =>
      assert Family(rows', base) == Family(rows, base);
  }

  /** Any sequence of writes to any papers leaves a lone OAI base row the only row of its family. */
  lemma {:induction false} LoneRowStays(rows: PaperRows, ws: seq<Write>, base: PaperId)
    requires LoneOaiRow(rows, base) && forall w :: w in ws ==> Proper(w)
    ensures LoneOaiRow(WrittenAll(rows, ws), base)
    decreases |ws|
  {
    if ws != [] {
      LoneRowStep(rows, ws[0], base);
      LoneRowStays(Written(rows, ws[0]), ws[1..], base);
    }
  }

  lemma WrittenKeepsRows(rows: PaperRows, w: Write)
    requires WellKeyed(rows)
    ensures WellKeyed(Written(rows, w)) && rows.Keys <= Written(rows, w).Keys
  {}

  // ------------------------------------------------------------------ which row it is

  /** The number of a version; a base id, and version 0, count as older than any other. */
  predicate NewerOrSame(x: PaperId, y: PaperId) {
    y.version.None? || y.version.value == 0 || (x.version.Some? && x.version.value >= y.version.value)
  }

  /** Reading a base id that has no row of its own returns the latest version there is. */
  lemma BaseReadIsLatest(rows: PaperRows, id: PaperId)
    requires id.version.None? && id !in rows
    ensures Get(rows, id).None? <==> !exists x: PaperId :: x in rows && x.family == id.family && x.version.Some?
    ensures Get(rows, id).Some? ==>
      exists x: PaperId ::
        && x in rows && x.family == id.family && x.version.Some? && Get(rows, id) == Some(rows[x])
        && forall y: PaperId :: y in rows && y.family == id.family ==> NewerOrSame(x, y)
  {
    var versions := Versioned(rows, id);
    if exists x: PaperId :: x in rows && x.family == id.family && x.version.Some? {
      var x: PaperId :| x in rows && x.family == id.family && x.version.Some?;
      assert x in versions;
      var best := Best(versions);
      forall y: PaperId | y in rows && y.family == id.family ensures NewerOrSame(best, y) {
        if y.version.Some? {
          assert y in versions && AtLeast(best, y);
        }
      }
      assert best in rows && Get(rows, id) == Some(rows[best]);
    }
  }

  /** Reading a version that has no row of its own returns the base row if that came from OAI, and nothing else. */
  lemma VersionReadFallsBack(rows: PaperRows, id: PaperId)
    requires id.version.Some? && id !in rows
    ensures Get(rows, id).Some? <==> Base(id) in rows && rows[Base(id)].oaiId.Some?
    ensures Get(rows, id).Some? ==> Get(rows, id) == Some(rows[Base(id)])
  {}

  /** An OAI paper without a row of its own id goes to the latest row of its family. */
  lemma OaiGoesToLatest(rows: PaperRows, p: Paper)
    requires p.oaiId.Some? && p.id !in rows
    ensures var after := OaiUpsert(rows, p);
      if forall x :: x in rows ==> x.family != p.id.family then after == rows[p.id := p]
      else exists x: PaperId ::
             && x in rows && x.family == p.id.family && after == rows[x := after[x]] && after[x].content == p.content
             && after[x].id == x && after[x].version == (if x.version.Some? then x.version else p.version)
             && after[x].oaiId == p.oaiId && after[x].oaiStamp == p.oaiStamp && after[x].oaiSets == p.oaiSets && after[x].deleted == p.deleted
             && forall y: PaperId :: y in rows && y.family == p.id.family ==> NewerOrSame(x, y)
  {
    var family := Family(rows, p.id);
    if family != {} {
      var best := Best(family);
      forall y: PaperId | y in rows && y.family == p.id.family ensures NewerOrSame(best, y) {
        assert y in family && AtLeast(best, y);
      }
      var after := OaiUpsert(rows, p);
      assert OaiAlias(rows, p).id == best && OaiAlias(rows, p).oaiId.Some?;
      assert after == rows[best := after[best]] && after[best].content == p.content;
    } else {
      assert forall x :: x in rows && x.family == p.id.family ==> x in family;
    }
  }

  /** A legacy write leaves the OAI columns and the deleted flag of the row it meets as they were. */
  lemma LegacyKeepsOaiColumns(rows: PaperRows, p: Paper)
    requires p.oaiId.None?
    ensures var (after, id) := Upsert(rows, p);
      && after == rows[id := after[id]] && after[id].content == p.content
      && (id in rows ==>
          && after[id].oaiId == rows[id].oaiId && after[id].oaiStamp == rows[id].oaiStamp
          && after[id].oaiSets == rows[id].oaiSets && after[id].deleted == rows[id].deleted)
      && after[id].id == id && after[id].version == (if id == p.id then p.version else None)
      && (id !in rows ==> id == p.id && after[id] == p)
  {}

  /** A deletion marks every row of the family and no other. A null date leaves the dates as they were, and the papers
      themselves stay. */
  lemma FamilyIsMarked(rows: PaperRows, id: PaperId, oaiId: nat, stamp: Option<int>, sets: nat)
    ensures var after := Tombstone(rows, id, oaiId, stamp, sets);
      && after.Keys == rows.Keys
      && (forall x :: x in rows && x.family != id.family ==> after[x] == rows[x])
      && (forall x :: x in rows && x.family == id.family ==>
            && after[x].deleted && after[x].oaiId == Some(oaiId) && after[x].oaiSets == sets
            && (stamp.Some? ==> after[x].oaiStamp == stamp) && (stamp.None? ==> after[x].oaiStamp == rows[x].oaiStamp)
            && after[x].content == rows[x].content && after[x].id == rows[x].id && after[x].version == rows[x].version)
  {}

  /** Marking a paper deleted touches that row only, and shows when its id is read. */
  lemma MarkedPaperReadsDeleted(rows: PaperRows, id: PaperId, oaiId: Option<nat>, stamp: Option<int>, sets: nat)
    ensures var after := MarkDeleted(rows, id, oaiId, stamp, sets);
      && after.Keys == rows.Keys && (forall x :: x in rows && x != id ==> after[x] == rows[x])
      && (id in rows ==>
          && Get(after, id).Some? && Get(after, id).value.deleted && Get(after, id).value.content == rows[id].content
          && (oaiId.Some? ==> after[id].oaiId == oaiId) && (oaiId.None? ==> after[id].oaiId == rows[id].oaiId)
          && (stamp.Some? ==> after[id].oaiStamp == stamp) && (stamp.None? ==> after[id].oaiStamp == rows[id].oaiStamp)
          && after[id].oaiSets == sets)
  {}
}
