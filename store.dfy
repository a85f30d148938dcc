/**
 * The catalog store of repertoire/database.py as an in-memory relational store.
 *
 * Each table is a sequence of rows in rowid order with an AUTOINCREMENT counter
 * (`...Seq`, the largest id handed out so far). `Tables` is the whole database as a
 * value; the functions on it say what each SQL statement does, and the class
 * `Database` at the end holds the tables as fields and runs the operations step by
 * step, each method proved to end in the state its function describes.
 */
module Store {
  import opened Wrappers
  import opened Text
  import opened Catalog

  // ----- rows: the columns the store writes -----

  datatype ComposerRow = ComposerRow(
    id: int, name: string, birthYear: Option<int>, deathYear: Option<int>,
    nationality: Option<string>, biography: Option<string>, musicbrainzId: Option<string>)

  /** `composer_id` is NOT NULL in the schema, so a stored work always has one. */
  datatype WorkRow = WorkRow(
    id: int, composerId: int, title: string, catalogNumber: Option<string>,
    key: Option<string>, opus: Option<string>, durationSeconds: Option<int>,
    notes: Option<string>, musicbrainzId: Option<string>)

  datatype PerformerRow = PerformerRow(
    id: int, name: string, performerType: string, instrument: Option<string>, biography: Option<string>)

  datatype LabelRow = LabelRow(id: int, name: string, country: Option<string>)

  datatype RecordingRow = RecordingRow(
    id: int, title: string, recordingType: RecordingType, labelId: Option<int>,
    catalogNumber: Option<string>, ean: Option<string>, releaseYear: Option<int>,
    recordingYear: Option<int>, durationSeconds: Option<int>, coverUrl: Option<string>,
    discogsId: Option<int>, discogsUrl: Option<string>, notes: Option<string>, inLibrary: bool)

  datatype RecordingWorkRow = RecordingWorkRow(recordingId: int, workId: int, trackNumber: int)

  datatype RecordingPerformerRow = RecordingPerformerRow(recordingId: int, performerId: int, role: Option<string>)

  datatype ScrapedPageRow = ScrapedPageRow(
    id: int, url: string, rubric: string, letter: Option<string>, pageNumber: Option<int>,
    rawHtml: Option<string>, notes: Option<string>)

  /** The UNIQUE constraints whose violation reaches a caller. */
  datatype Constraint = RecordingNaturalKey | RecordingDiscogsId | ScrapedPageUrl

  /** `add_recording` turns an integrity error into a ValueError; `save_scraped_page` lets
      it through. `AttributeError` is Python's error for reading an attribute an object
      does not have (used only by the members that model the code as written). */
  datatype StoreError = ValueError(cause: Constraint) | IntegrityError(cause: Constraint) | AttributeError(attribute: string)

  datatype Tables = Tables(
    composers: seq<ComposerRow>, composerSeq: nat,
    works: seq<WorkRow>, workSeq: nat,
    performers: seq<PerformerRow>, performerSeq: nat,
    labels: seq<LabelRow>, labelSeq: nat,
    recordings: seq<RecordingRow>, recordingSeq: nat,
    recordingWorks: seq<RecordingWorkRow>,
    recordingPerformers: seq<RecordingPerformerRow>,
    scrapedPages: seq<ScrapedPageRow>, scrapedPageSeq: nat)

  /** The schema of a freshly created database file: every table empty. */
  function EmptyTables(): (t: Tables)
    ensures TablesValid(t)
  {
    Tables([], 0, [], 0, [], 0, [], 0, [], 0, [], [], [], 0)
  }

  // ----- the schema constraints (`_init_schema`) -----

  predicate ComposersValid(rows: seq<ComposerRow>, last: nat)
  {
    (forall i :: 0 <= i < |rows| ==> 1 <= rows[i].id <= last) &&
    (forall i, j :: 0 <= i < j < |rows| ==> rows[i].id < rows[j].id && rows[i].name != rows[j].name)
  }

  /** UNIQUE(composer_id, title, catalog_number), where a NULL catalog number collides with nothing. */
  predicate WorkKeyClash(a: WorkRow, b: WorkRow)
  {
    a.composerId == b.composerId && a.title == b.title && SqlEq(a.catalogNumber, b.catalogNumber)
  }

  predicate WorksValid(rows: seq<WorkRow>, last: nat)
  {
    (forall i :: 0 <= i < |rows| ==> 1 <= rows[i].id <= last) &&
    (forall i, j :: 0 <= i < j < |rows| ==> rows[i].id < rows[j].id && !WorkKeyClash(rows[i], rows[j]))
  }

  predicate PerformersValid(rows: seq<PerformerRow>, last: nat)
  {
    (forall i :: 0 <= i < |rows| ==> 1 <= rows[i].id <= last) &&
    (forall i, j :: 0 <= i < j < |rows| ==> rows[i].id < rows[j].id && rows[i].name != rows[j].name)
  }

  predicate LabelsValid(rows: seq<LabelRow>, last: nat)
  {
    (forall i :: 0 <= i < |rows| ==> 1 <= rows[i].id <= last) &&
    (forall i, j :: 0 <= i < j < |rows| ==> rows[i].id < rows[j].id && rows[i].name != rows[j].name)
  }

  /** UNIQUE(title, catalog_number, label_id), NULLs colliding with nothing. */
  predicate RecordingKeyClash(title: string, catalogNumber: Option<string>, labelId: Option<int>, row: RecordingRow)
  {
    row.title == title && SqlEq(row.catalogNumber, catalogNumber) && SqlEq(row.labelId, labelId)
  }

  predicate RecordingsValid(rows: seq<RecordingRow>, last: nat)
  {
    (forall i :: 0 <= i < |rows| ==> 1 <= rows[i].id <= last) &&
    (forall i, j :: 0 <= i < j < |rows| ==>
       rows[i].id < rows[j].id &&
       !RecordingKeyClash(rows[i].title, rows[i].catalogNumber, rows[i].labelId, rows[j]) &&
       !SqlEq(rows[i].discogsId, rows[j].discogsId))
  }

  /** PRIMARY KEY (recording_id, work_id); the links of one recording were written in
      track order, so their track numbers grow along the table. */
  predicate RecordingWorksValid(links: seq<RecordingWorkRow>, lastRecording: nat)
  {
    (forall i :: 0 <= i < |links| ==> links[i].recordingId <= lastRecording) &&
    (forall i, j :: 0 <= i < j < |links| && links[i].recordingId == links[j].recordingId ==>
       links[i].workId != links[j].workId && links[i].trackNumber < links[j].trackNumber)
  }

  /** PRIMARY KEY (recording_id, performer_id). */
  predicate RecordingPerformersValid(links: seq<RecordingPerformerRow>, lastRecording: nat)
  {
    (forall i :: 0 <= i < |links| ==> links[i].recordingId <= lastRecording) &&
    (forall i, j :: 0 <= i < j < |links| && links[i].recordingId == links[j].recordingId ==>
       links[i].performerId != links[j].performerId)
  }

  predicate ScrapedPagesValid(rows: seq<ScrapedPageRow>, last: nat)
  {
    (forall i :: 0 <= i < |rows| ==> 1 <= rows[i].id <= last) &&
    (forall i, j :: 0 <= i < j < |rows| ==> rows[i].id < rows[j].id && rows[i].url != rows[j].url)
  }

  predicate TablesValid(t: Tables)
  {
    ComposersValid(t.composers, t.composerSeq) &&
    WorksValid(t.works, t.workSeq) &&
    PerformersValid(t.performers, t.performerSeq) &&
    LabelsValid(t.labels, t.labelSeq) &&
    RecordingsValid(t.recordings, t.recordingSeq) &&
    RecordingWorksValid(t.recordingWorks, t.recordingSeq) &&
    RecordingPerformersValid(t.recordingPerformers, t.recordingSeq) &&
    ScrapedPagesValid(t.scrapedPages, t.scrapedPageSeq)
  }

  // ----- composers -----

  /** `SELECT ... FROM composers WHERE name = ?` */
  function FindComposer(rows: seq<ComposerRow>, name: string): (r: Option<ComposerRow>)
    ensures r.None? <==> forall i :: 0 <= i < |rows| ==> rows[i].name != name
    ensures r.Some? ==> r.value in rows && r.value.name == name
  {
    if rows == [] then None
    else if rows[0].name == name then Some(rows[0])
    else FindComposer(rows[1..], name)
  }

  /** `add_composer`: the INSERT (which leaves `musicbrainz_id` NULL) succeeds unless the
      name is taken; then the existing row's id is fetched and the row is not changed. */
  function UpsertComposer(t: Tables, c: Composer): (res: (Tables, Composer))
    ensures res.1 == c.(id := res.1.id) && res.1.id.Some?
    ensures FindComposer(t.composers, c.name).Some? ==>
      res.0 == t && res.1.id == Some(FindComposer(t.composers, c.name).value.id)
    ensures FindComposer(t.composers, c.name).None? ==>
      res.0 == t.(composers := t.composers + [ComposerRow(t.composerSeq + 1, c.name, c.birthYear, c.deathYear, c.nationality, c.biography, None)],
                  composerSeq := t.composerSeq + 1) &&
      res.1.id == Some(t.composerSeq + 1)
  {
    match FindComposer(t.composers, c.name)
    case Some(row) => (t, c.(id := Some(row.id)))
    case None =>
      var id := t.composerSeq + 1;
      var row := ComposerRow(id, c.name, c.birthYear, c.deathYear, c.nationality, c.biography, None);
      (t.(composers := t.composers + [row], composerSeq := id), c.(id := Some(id)))
  }

  /** A composer read back by `get_composer` (which does not read `musicbrainz_id`). */
  function ComposerOfRow(row: ComposerRow): Composer
  {
    Composer(Some(row.id), row.name, row.birthYear, row.deathYear, row.nationality, row.biography, None)
  }

  /** `get_composer`: the composer stored under exactly `name`, if any. */
  function ComposerByName(t: Tables, name: string): (r: Option<Composer>)
    ensures r.None? <==> forall i :: 0 <= i < |t.composers| ==> t.composers[i].name != name
    ensures r.Some? ==> exists i :: 0 <= i < |t.composers| && t.composers[i].name == name && r.value == ComposerOfRow(t.composers[i])
  {
    match FindComposer(t.composers, name)
    case Some(row) => Some(ComposerOfRow(row))
    case None => None
  }

  lemma UpsertComposerValid(t: Tables, c: Composer)
    requires TablesValid(t)
    ensures TablesValid(UpsertComposer(t, c).0)
  {
  }

  /** Upserting a composer and then reading the name back gives the row under that name:
      the one already stored if there was one (the new values are discarded), else a
      row with exactly the values passed in. */
  lemma UpsertThenGetComposer(t: Tables, c: Composer)
    requires TablesValid(t)
    ensures var t', r := UpsertComposer(t, c).0, UpsertComposer(t, c).1;
      ComposerByName(t', c.name).Some? &&
      ComposerByName(t', c.name).value.id == r.id &&
      (ComposerByName(t, c.name).Some? ==> ComposerByName(t', c.name) == ComposerByName(t, c.name)) &&
      (ComposerByName(t, c.name).None? ==>
         ComposerByName(t', c.name) == Some(c.(id := r.id, musicbrainzId := None)))
  {
    var (t', r) := UpsertComposer(t, c);
    if FindComposer(t.composers, c.name).None? {
      var row := t'.composers[|t'.composers| - 1];
      assert FindComposer(t'.composers, c.name) == Some(row) by {
        FindComposerLast(t.composers, row);
      }
    } else {
      var i :| 0 <= i < |t.composers| && t.composers[i].name == c.name && ComposerByName(t, c.name).value == ComposerOfRow(t.composers[i]);
      var row := FindComposer(t.composers, c.name).value;
      var k :| 0 <= k < |t.composers| && t.composers[k] == row;
      assert i == k;
    }
  }

  lemma {:induction false} FindComposerLast(rows: seq<ComposerRow>, row: ComposerRow)
    requires forall i :: 0 <= i < |rows| ==> rows[i].name != row.name
    ensures FindComposer(rows + [row], row.name) == Some(row)
  {
    if rows != [] {
      assert (rows + [row])[1..] == rows[1..] + [row];
      FindComposerLast(rows[1..], row);
    }
  }

  /** Two upserts under one name resolve to one id, and the second leaves the store as
      the first left it. */
  lemma UpsertComposerTwice(t: Tables, c1: Composer, c2: Composer)
    requires c1.name == c2.name
    ensures var t1, r1 := UpsertComposer(t, c1).0, UpsertComposer(t, c1).1;
      var (t2, r2) := UpsertComposer(t1, c2);
      r1.id == r2.id && t2 == t1
  {
    UpsertComposerFound(t, c1);
  }

  /** After `add_composer`, the name lookup finds the row under the id it returned. */
  lemma UpsertComposerFound(t: Tables, c: Composer)
    ensures FindComposer(UpsertComposer(t, c).0.composers, c.name).Some?
    ensures Some(FindComposer(UpsertComposer(t, c).0.composers, c.name).value.id) == UpsertComposer(t, c).1.id
  {
    if FindComposer(t.composers, c.name).None? {
      var t' := UpsertComposer(t, c).0;
      FindComposerLast(t.composers, t'.composers[|t'.composers| - 1]);
    }
  }

  // ----- performers -----

  /** `SELECT id FROM performers WHERE name = ?` */
  function FindPerformer(rows: seq<PerformerRow>, name: string): (r: Option<PerformerRow>)
    ensures r.None? <==> forall i :: 0 <= i < |rows| ==> rows[i].name != name
    ensures r.Some? ==> r.value in rows && r.value.name == name
  {
    if rows == [] then None
    else if rows[0].name == name then Some(rows[0])
    else FindPerformer(rows[1..], name)
  }

  /** `add_performer`: insert, or on a taken name fetch the existing id. */
  function UpsertPerformer(t: Tables, p: Performer): (res: (Tables, Performer))
    ensures res.1 == p.(id := res.1.id) && res.1.id.Some?
    ensures FindPerformer(t.performers, p.name).Some? ==>
      res.0 == t && res.1.id == Some(FindPerformer(t.performers, p.name).value.id)
    ensures FindPerformer(t.performers, p.name).None? ==>
      res.0 == t.(performers := t.performers + [PerformerRow(t.performerSeq + 1, p.name, p.performerType, p.instrument, p.biography)],
                  performerSeq := t.performerSeq + 1) &&
      res.1.id == Some(t.performerSeq + 1)
  {
    match FindPerformer(t.performers, p.name)
    case Some(row) => (t, p.(id := Some(row.id)))
    case None =>
      var id := t.performerSeq + 1;
      var row := PerformerRow(id, p.name, p.performerType, p.instrument, p.biography);
      (t.(performers := t.performers + [row], performerSeq := id), p.(id := Some(id)))
  }

  lemma UpsertPerformerValid(t: Tables, p: Performer)
    requires TablesValid(t)
    ensures TablesValid(UpsertPerformer(t, p).0)
  {
  }

  /** Once a name is stored, upserting any performer under it returns the stored id and
      changes nothing. */
  lemma UpsertPerformerKeepsFirst(t: Tables, p1: Performer, p2: Performer)
    requires TablesValid(t)
    requires p1.name == p2.name
    ensures var t1, r1 := UpsertPerformer(t, p1).0, UpsertPerformer(t, p1).1;
      var (t2, r2) := UpsertPerformer(t1, p2);
      t2 == t1 && r2.id == r1.id
  {
    var (t1, r1) := UpsertPerformer(t, p1);
    UpsertPerformerValid(t, p1);
    if FindPerformer(t.performers, p1.name).None? {
      var row := t1.performers[|t1.performers| - 1];
      FindPerformerLast(t.performers, row);
    }
  }

  lemma {:induction false} FindPerformerLast(rows: seq<PerformerRow>, row: PerformerRow)
    requires forall i :: 0 <= i < |rows| ==> rows[i].name != row.name
    ensures FindPerformer(rows + [row], row.name) == Some(row)
  {
    if rows != [] {
      assert (rows + [row])[1..] == rows[1..] + [row];
      FindPerformerLast(rows[1..], row);
    }
  }

  // ----- works -----

  /** Whether a stored work has the natural key of `w`; the fallback
      `SELECT id FROM works WHERE composer_id = ? AND title = ? AND catalog_number = ?`
      matches exactly these rows, since `= NULL` matches nothing. */
  predicate WorkKeyMatch(row: WorkRow, w: Work)
  {
    SqlEq(Some(row.composerId), w.composerId) && row.title == w.title && SqlEq(row.catalogNumber, w.catalogNumber)
  }

  function FindWork(rows: seq<WorkRow>, w: Work): (r: Option<WorkRow>)
    ensures r.None? <==> forall i :: 0 <= i < |rows| ==> !WorkKeyMatch(rows[i], w)
    ensures r.Some? ==> r.value in rows && WorkKeyMatch(r.value, w)
  {
    if rows == [] then None
    else if WorkKeyMatch(rows[0], w) then Some(rows[0])
    else FindWork(rows[1..], w)
  }

  /** `add_work`. A NULL `composer_id` violates NOT NULL: nothing is stored and the work
      comes back with its `id` as it was. Otherwise the work is inserted unless a row
      with the same composer, title and non-NULL catalog number exists, whose id is then
      returned. */
  function UpsertWork(t: Tables, w: Work): (res: (Tables, Work))
    ensures res.1 == w.(id := res.1.id)
    ensures w.composerId.None? ==> res == (t, w)
    ensures w.composerId.Some? ==> res.1.id.Some?
    ensures w.composerId.Some? && w.catalogNumber.None? ==>
      res.1.id == Some(t.workSeq + 1) && |res.0.works| == |t.works| + 1
    ensures FindWork(t.works, w).Some? ==>
      res.0 == t && res.1.id == Some(FindWork(t.works, w).value.id)
    ensures w.composerId.Some? && FindWork(t.works, w).None? ==>
      res.0 == t.(works := t.works + [WorkRow(t.workSeq + 1, w.composerId.value, w.title, w.catalogNumber, w.key, w.opus, w.durationSeconds, w.notes, None)],
                  workSeq := t.workSeq + 1) &&
      res.1.id == Some(t.workSeq + 1)
  {
    if w.composerId.None? then (t, w)
    else match FindWork(t.works, w)
      case Some(row) => (t, w.(id := Some(row.id)))
      case None =>
        var id := t.workSeq + 1;
        var row := WorkRow(id, w.composerId.value, w.title, w.catalogNumber, w.key, w.opus, w.durationSeconds, w.notes, None);
        (t.(works := t.works + [row], workSeq := id), w.(id := Some(id)))
  }

  lemma UpsertWorkValid(t: Tables, w: Work)
    requires TablesValid(t)
    ensures TablesValid(UpsertWork(t, w).0)
  {
    if w.composerId.Some? && FindWork(t.works, w).None? {
      var rows := UpsertWork(t, w).0.works;
      var n := |t.works|;
      forall i | 0 <= i < n ensures !WorkKeyClash(rows[i], rows[n]) {
        assert !WorkKeyMatch(t.works[i], w);
      }
    }
  }

  /** Two works with equal composer, title and non-NULL catalog number resolve to one id,
      and the second upsert leaves the stored row as the first wrote it. */
  lemma UpsertWorkTwice(t: Tables, w1: Work, w2: Work)
    requires TablesValid(t)
    requires w1.composerId.Some? && w1.composerId == w2.composerId && w1.title == w2.title
    requires w1.catalogNumber.Some? && w1.catalogNumber == w2.catalogNumber
    ensures var t1, r1 := UpsertWork(t, w1).0, UpsertWork(t, w1).1;
      var (t2, r2) := UpsertWork(t1, w2);
      t2 == t1 && r2.id == r1.id
  {
    var (t1, r1) := UpsertWork(t, w1);
    FindWorkSameKey(t.works, w1, w2);
    if FindWork(t.works, w1).None? {
      var row := t1.works[|t1.works| - 1];
      assert WorkKeyMatch(row, w2);
      FindWorkLast(t.works, row, w2);
    }
  }

  /** The lookup reads only the composer, the title and the catalog number. */
  lemma {:induction false} FindWorkSameKey(rows: seq<WorkRow>, w1: Work, w2: Work)
    requires w1.composerId == w2.composerId && w1.title == w2.title && w1.catalogNumber == w2.catalogNumber
    ensures FindWork(rows, w1) == FindWork(rows, w2)
  {
    if rows != [] {
      FindWorkSameKey(rows[1..], w1, w2);
    }
  }

  lemma {:induction false} FindWorkLast(rows: seq<WorkRow>, row: WorkRow, w: Work)
    requires forall i :: 0 <= i < |rows| ==> !WorkKeyMatch(rows[i], w)
    requires WorkKeyMatch(row, w)
    ensures FindWork(rows + [row], w) == Some(row)
  {
    if rows != [] {
      assert (rows + [row])[1..] == rows[1..] + [row];
      FindWorkLast(rows[1..], row, w);
    }
  }

  /** A work with a NULL catalog number never collides: each upsert adds a new row. */
  lemma UpsertWorkNullCatalogAlwaysInserts(t: Tables, w: Work)
    requires TablesValid(t)
    requires w.composerId.Some? && w.catalogNumber.None?
    ensures var t1, r1 := UpsertWork(t, w).0, UpsertWork(t, w).1;
      var (t2, r2) := UpsertWork(t1, w);
      |t2.works| == |t.works| + 2 && r1.id != r2.id
  {
  }

  // ----- recordings -----

  predicate NaturalKeyTaken(rows: seq<RecordingRow>, rec: Recording)
  {
    exists i :: 0 <= i < |rows| && RecordingKeyClash(rec.title, rec.catalogNumber, rec.labelId, rows[i])
  }

  predicate DiscogsIdTaken(rows: seq<RecordingRow>, rec: Recording)
  {
    exists i :: 0 <= i < |rows| && SqlEq(rows[i].discogsId, rec.discogsId)
  }

  /** The columns `add_recording` inserts. */
  function RecordingRowOf(id: int, rec: Recording): RecordingRow
  {
    RecordingRow(id, rec.title, rec.recordingType, rec.labelId, rec.catalogNumber, rec.ean,
      rec.releaseYear, rec.recordingYear, rec.durationSeconds, rec.coverUrl, rec.discogsId,
      rec.discogsUrl, rec.notes, rec.inLibrary)
  }

  predicate PerformerLinked(links: seq<RecordingPerformerRow>, rid: int, pid: int)
  {
    exists i :: 0 <= i < |links| && links[i].recordingId == rid && links[i].performerId == pid
  }

  predicate WorkLinked(links: seq<RecordingWorkRow>, rid: int, wid: int)
  {
    exists i :: 0 <= i < |links| && links[i].recordingId == rid && links[i].workId == wid
  }

  /** One pass of the performer loop: upsert the performer if it has no id, then
      `INSERT OR IGNORE` the link, which ignores a repeated (recording, performer) pair and
      a NULL performer id alike. */
  function LinkPerformer(t: Tables, rid: int, p: Performer): (res: (Tables, Performer))
  {
    var (t1, p1) := if p.id.None? then UpsertPerformer(t, p) else (t, p);
    if p1.id.Some? then (WithPerformerLink(t1, rid, p1.id.value), p1) else (t1, p1)
  }

  /** `INSERT OR IGNORE INTO recording_performers (recording_id, performer_id)`: the
      primary key ignores a pair that is already linked. */
  function WithPerformerLink(t: Tables, rid: int, pid: int): Tables
  {
    if PerformerLinked(t.recordingPerformers, rid, pid) then t
    else t.(recordingPerformers := t.recordingPerformers + [RecordingPerformerRow(rid, pid, None)])
  }

  /** After the link statement the pair is linked; at most one row is appended and no
      other table changes. */
  lemma WithPerformerLinkEffect(t: Tables, rid: int, pid: int)
    ensures var r := WithPerformerLink(t, rid, pid);
      PerformerLinked(r.recordingPerformers, rid, pid) &&
      t.recordingPerformers <= r.recordingPerformers &&
      |r.recordingPerformers| <= |t.recordingPerformers| + 1 &&
      r.(recordingPerformers := t.recordingPerformers) == t
  {
    if !PerformerLinked(t.recordingPerformers, rid, pid) {
      var links := WithPerformerLink(t, rid, pid).recordingPerformers;
      assert links[|links| - 1] == RecordingPerformerRow(rid, pid, None);
    }
  }

  /** One pass of the performer loop returns the performer with an id and otherwise as
      given, and leaves the recording linked to it. */
  lemma LinkPerformerEffect(t: Tables, rid: int, p: Performer)
    ensures var (t', p') := LinkPerformer(t, rid, p);
      p' == p.(id := p'.id) && (p.id.Some? ==> p' == p) &&
      p'.id.Some? && PerformerLinked(t'.recordingPerformers, rid, p'.id.value)
  {
    var (t1, p1) := if p.id.None? then UpsertPerformer(t, p) else (t, p);
    WithPerformerLinkEffect(t1, rid, p1.id.value);
  }

  /** Linking one more performer extends the loop's result by that pass. */
  lemma LinkPerformersSnoc(t: Tables, rid: int, ps: seq<Performer>, i: nat)
    requires i < |ps|
    ensures LinkPerformers(t, rid, ps[..i + 1]) ==
      (LinkPerformer(LinkPerformers(t, rid, ps[..i]).0, rid, ps[i]).0,
       LinkPerformers(t, rid, ps[..i]).1 + [LinkPerformer(LinkPerformers(t, rid, ps[..i]).0, rid, ps[i]).1])
  {
    assert ps[..i + 1][..i] == ps[..i];
  }

  /** The performer loop over `ps`, giving the tables and the performers with their ids. */
  function LinkPerformers(t: Tables, rid: int, ps: seq<Performer>): (res: (Tables, seq<Performer>))
    ensures |res.1| == |ps|
    decreases |ps|
  {
    if ps == [] then (t, [])
    else
      var (t1, done) := LinkPerformers(t, rid, ps[..|ps| - 1]);
      var (t2, p) := LinkPerformer(t1, rid, ps[|ps| - 1]);
      (t2, done + [p])
  }

  /** One pass of the work loop, for the work at 1-based position `track`. */
  function LinkWork(t: Tables, rid: int, w: Work, track: int): (res: (Tables, Work))
  {
    var (t1, w1) := if w.id.None? then UpsertWork(t, w) else (t, w);
    if w1.id.Some? then (WithWorkLink(t1, rid, w1.id.value, track), w1) else (t1, w1)
  }

  /** `INSERT OR IGNORE INTO recording_works (recording_id, work_id, track_number)`: the
      primary key ignores a (recording, work) pair that is already linked. */
  function WithWorkLink(t: Tables, rid: int, wid: int, track: int): Tables
  {
    if WorkLinked(t.recordingWorks, rid, wid) then t
    else t.(recordingWorks := t.recordingWorks + [RecordingWorkRow(rid, wid, track)])
  }

  /** After the link statement the pair is linked; at most one row is appended and no
      other table changes. */
  lemma WithWorkLinkEffect(t: Tables, rid: int, wid: int, track: int)
    ensures var r := WithWorkLink(t, rid, wid, track);
      WorkLinked(r.recordingWorks, rid, wid) &&
      t.recordingWorks <= r.recordingWorks &&
      |r.recordingWorks| <= |t.recordingWorks| + 1 &&
      r.(recordingWorks := t.recordingWorks) == t
  {
    if !WorkLinked(t.recordingWorks, rid, wid) {
      var links := WithWorkLink(t, rid, wid, track).recordingWorks;
      assert links[|links| - 1] == RecordingWorkRow(rid, wid, track);
    }
  }

  /** One pass of the work loop returns the work otherwise as given; a work that has or
      gets an id is linked, and one without an id writes nothing. */
  lemma LinkWorkEffect(t: Tables, rid: int, w: Work, track: int)
    ensures var (t', w') := LinkWork(t, rid, w, track);
      w' == w.(id := w'.id) && (w.id.Some? ==> w' == w) &&
      (w'.id.Some? ==> WorkLinked(t'.recordingWorks, rid, w'.id.value)) &&
      (w'.id.None? ==> t' == t)
  {
    var (t1, w1) := if w.id.None? then UpsertWork(t, w) else (t, w);
    if w1.id.Some? {
      WithWorkLinkEffect(t1, rid, w1.id.value, track);
    }
  }

  /** Linking one more work, at the next position, extends the loop's result by that pass. */
  lemma LinkWorksSnoc(t: Tables, rid: int, ws: seq<Work>, j: nat)
    requires j < |ws|
    ensures LinkWorks(t, rid, ws[..j + 1]) ==
      (LinkWork(LinkWorks(t, rid, ws[..j]).0, rid, ws[j], j + 1).0,
       LinkWorks(t, rid, ws[..j]).1 + [LinkWork(LinkWorks(t, rid, ws[..j]).0, rid, ws[j], j + 1).1])
  {
    assert ws[..j + 1][..j] == ws[..j];
  }

  /** The work loop `for track_num, work in enumerate(recording.works, 1)`. */
  function LinkWorks(t: Tables, rid: int, ws: seq<Work>): (res: (Tables, seq<Work>))
    ensures |res.1| == |ws|
    decreases |ws|
  {
    if ws == [] then (t, [])
    else
      var (t1, done) := LinkWorks(t, rid, ws[..|ws| - 1]);
      var (t2, w) := LinkWork(t1, rid, ws[|ws| - 1], |ws|);
      (t2, done + [w])
  }

  /** The INSERT of the recording row under the next id. */
  function InsertRecording(t: Tables, rec: Recording): Tables
  {
    var rid := t.recordingSeq + 1;
    t.(recordings := t.recordings + [RecordingRowOf(rid, rec)], recordingSeq := rid)
  }

  /** The INSERT appends one row under the next id, with the given title, and keeps the
      rows before it. */
  lemma InsertRecordingAppends(t: Tables, rec: Recording)
    ensures var r := InsertRecording(t, rec);
      r.recordingSeq == t.recordingSeq + 1 &&
      |r.recordings| == |t.recordings| + 1 && t.recordings <= r.recordings &&
      r.recordings[|t.recordings|].id == r.recordingSeq && r.recordings[|t.recordings|].title == rec.title
  {
  }

  lemma InsertRecordingValid(t: Tables, rec: Recording)
    requires TablesValid(t)
    requires !DiscogsIdTaken(t.recordings, rec) && !NaturalKeyTaken(t.recordings, rec)
    ensures TablesValid(InsertRecording(t, rec))
  {
    var t1 := InsertRecording(t, rec);
    var n := |t.recordings|;
    forall i | 0 <= i < n
      ensures !RecordingKeyClash(t1.recordings[i].title, t1.recordings[i].catalogNumber, t1.recordings[i].labelId, t1.recordings[n])
      ensures !SqlEq(t1.recordings[i].discogsId, t1.recordings[n].discogsId)
    {
      assert !RecordingKeyClash(rec.title, rec.catalogNumber, rec.labelId, t.recordings[i]);
      assert !SqlEq(t.recordings[i].discogsId, rec.discogsId);
    }
  }

  /** `add_recording`. A recording clashing with a stored one on `discogs_id` or on
      (title, catalog number, label) is refused with a ValueError before anything is
      written; otherwise the row is inserted and its performers and works are linked. */
  function AddRecordingSpec(t: Tables, rec: Recording): (res: Result<(Tables, Recording), StoreError>)
    ensures res.Failure? <==> DiscogsIdTaken(t.recordings, rec) || NaturalKeyTaken(t.recordings, rec)
    ensures DiscogsIdTaken(t.recordings, rec) ==> res == Failure(ValueError(RecordingDiscogsId))
    ensures !DiscogsIdTaken(t.recordings, rec) && NaturalKeyTaken(t.recordings, rec) ==>
      res == Failure(ValueError(RecordingNaturalKey))
    ensures res.Success? ==> res.value.1.id == Some(t.recordingSeq + 1)
    ensures res.Success? ==> res.value.1.(id := rec.id, performers := rec.performers, works := rec.works) == rec
  {
    if DiscogsIdTaken(t.recordings, rec) then Failure(ValueError(RecordingDiscogsId))
    else if NaturalKeyTaken(t.recordings, rec) then Failure(ValueError(RecordingNaturalKey))
    else
      var rid := t.recordingSeq + 1;
      var t1 := InsertRecording(t, rec);
      var (t2, ps) := LinkPerformers(t1, rid, rec.performers);
      var (t3, ws) := LinkWorks(t2, rid, rec.works);
      Success((t3, rec.(id := Some(rid), performers := ps, works := ws)))
  }

  lemma {:induction false} LinkPerformersFrame(t: Tables, rid: int, ps: seq<Performer>)
    ensures var t' := LinkPerformers(t, rid, ps).0;
      t'.recordings == t.recordings && t'.recordingSeq == t.recordingSeq &&
      t'.works == t.works && t'.workSeq == t.workSeq && t'.composers == t.composers &&
      t'.composerSeq == t.composerSeq && t'.labels == t.labels && t'.labelSeq == t.labelSeq &&
      t'.recordingWorks == t.recordingWorks && t'.scrapedPages == t.scrapedPages &&
      t'.scrapedPageSeq == t.scrapedPageSeq &&
      t.performers <= t'.performers && t.recordingPerformers <= t'.recordingPerformers
    decreases |ps|
  {
    if ps != [] {
      LinkPerformersFrame(t, rid, ps[..|ps| - 1]);
    }
  }

  lemma {:induction false} LinkWorksFrame(t: Tables, rid: int, ws: seq<Work>)
    ensures var t' := LinkWorks(t, rid, ws).0;
      t'.recordings == t.recordings && t'.recordingSeq == t.recordingSeq &&
      t'.performers == t.performers && t'.performerSeq == t.performerSeq && t'.composers == t.composers &&
      t'.composerSeq == t.composerSeq && t'.labels == t.labels && t'.labelSeq == t.labelSeq &&
      t'.recordingPerformers == t.recordingPerformers && t'.scrapedPages == t.scrapedPages &&
      t'.scrapedPageSeq == t.scrapedPageSeq &&
      t.works <= t'.works && t.recordingWorks <= t'.recordingWorks
    decreases |ws|
  {
    if ws != [] {
      LinkWorksFrame(t, rid, ws[..|ws| - 1]);
    }
  }

  lemma AppendPerformerLink(links: seq<RecordingPerformerRow>, last: nat, rid: int, pid: int)
    requires RecordingPerformersValid(links, last) && rid <= last
    requires !PerformerLinked(links, rid, pid)
    ensures RecordingPerformersValid(links + [RecordingPerformerRow(rid, pid, None)], last)
  {
  }

  lemma LinkPerformerValid(t: Tables, rid: int, p: Performer)
    requires TablesValid(t) && rid <= t.recordingSeq
    ensures TablesValid(LinkPerformer(t, rid, p).0)
  {
    var (t1, p1) := if p.id.None? then UpsertPerformer(t, p) else (t, p);
    if p.id.None? {
      UpsertPerformerValid(t, p);
    }
    if p1.id.Some? {
      WithPerformerLinkValid(t1, rid, p1.id.value);
    }
  }

  lemma WithPerformerLinkValid(t: Tables, rid: int, pid: int)
    requires TablesValid(t) && rid <= t.recordingSeq
    ensures TablesValid(WithPerformerLink(t, rid, pid))
  {
    if !PerformerLinked(t.recordingPerformers, rid, pid) {
      AppendPerformerLink(t.recordingPerformers, t.recordingSeq, rid, pid);
    }
  }

  /** The performer loop keeps the schema constraints: each (recording, performer) pair is
      linked at most once. */
  lemma {:induction false} LinkPerformersValid(t: Tables, rid: int, ps: seq<Performer>)
    requires TablesValid(t) && rid <= t.recordingSeq
    ensures TablesValid(LinkPerformers(t, rid, ps).0)
    decreases |ps|
  {
    if ps != [] {
      var t1 := LinkPerformers(t, rid, ps[..|ps| - 1]).0;
      LinkPerformersValid(t, rid, ps[..|ps| - 1]);
      LinkPerformersFrame(t, rid, ps[..|ps| - 1]);
      LinkPerformerValid(t1, rid, ps[|ps| - 1]);
    }
  }

  /** Every link of recording `rid` has a track number between 1 and `n`. */
  predicate TracksAtMost(links: seq<RecordingWorkRow>, rid: int, n: int)
  {
    forall i :: 0 <= i < |links| && links[i].recordingId == rid ==> 1 <= links[i].trackNumber <= n
  }

  lemma AppendWorkLink(links: seq<RecordingWorkRow>, last: nat, rid: int, wid: int, track: int)
    requires RecordingWorksValid(links, last) && rid <= last
    requires !WorkLinked(links, rid, wid)
    requires TracksAtMost(links, rid, track - 1) && track >= 1
    ensures RecordingWorksValid(links + [RecordingWorkRow(rid, wid, track)], last)
    ensures TracksAtMost(links + [RecordingWorkRow(rid, wid, track)], rid, track)
  {
    var links' := links + [RecordingWorkRow(rid, wid, track)];
    forall i, j | 0 <= i < j < |links'| && links'[i].recordingId == links'[j].recordingId
      ensures links'[i].workId != links'[j].workId && links'[i].trackNumber < links'[j].trackNumber
    {
      if j == |links| {
        assert links'[i] == links[i];
      }
    }
  }

  lemma LinkWorkValid(t: Tables, rid: int, w: Work, track: int)
    requires TablesValid(t) && rid <= t.recordingSeq
    requires TracksAtMost(t.recordingWorks, rid, track - 1) && track >= 1
    ensures TablesValid(LinkWork(t, rid, w, track).0)
    ensures TracksAtMost(LinkWork(t, rid, w, track).0.recordingWorks, rid, track)
  {
    var (t1, w1) := if w.id.None? then UpsertWork(t, w) else (t, w);
    if w.id.None? {
      UpsertWorkValid(t, w);
    }
    if w1.id.Some? {
      WithWorkLinkValid(t1, rid, w1.id.value, track);
    }
  }

  lemma WithWorkLinkValid(t: Tables, rid: int, wid: int, track: int)
    requires TablesValid(t) && rid <= t.recordingSeq
    requires TracksAtMost(t.recordingWorks, rid, track - 1) && track >= 1
    ensures TablesValid(WithWorkLink(t, rid, wid, track))
    ensures TracksAtMost(WithWorkLink(t, rid, wid, track).recordingWorks, rid, track)
  {
    if !WorkLinked(t.recordingWorks, rid, wid) {
      AppendWorkLink(t.recordingWorks, t.recordingSeq, rid, wid, track);
    }
  }

  /** The work loop keeps the schema constraints: each (recording, work) pair is linked at
      most once, and the links of a recording stay in track order. */
  lemma {:induction false} LinkWorksValid(t: Tables, rid: int, ws: seq<Work>)
    requires TablesValid(t) && rid <= t.recordingSeq
    requires TracksAtMost(t.recordingWorks, rid, 0)
    ensures TablesValid(LinkWorks(t, rid, ws).0)
    ensures TracksAtMost(LinkWorks(t, rid, ws).0.recordingWorks, rid, |ws|)
    decreases |ws|
  {
    if ws != [] {
      var n := |ws|;
      var t1 := LinkWorks(t, rid, ws[..n - 1]).0;
      LinkWorksValid(t, rid, ws[..n - 1]);
      LinkWorksFrame(t, rid, ws[..n - 1]);
      LinkWorkValid(t1, rid, ws[n - 1], n);
    }
  }

  /** Fresh recording ids have no links yet. */
  lemma FreshRecordingUnlinked(t: Tables)
    requires TablesValid(t)
    ensures TracksAtMost(t.recordingWorks, t.recordingSeq + 1, 0)
    ensures forall i :: 0 <= i < |t.recordingPerformers| ==> t.recordingPerformers[i].recordingId != t.recordingSeq + 1
  {
  }

  /** A successful `add_recording` keeps every schema constraint. */
  lemma AddRecordingValid(t: Tables, rec: Recording)
    requires TablesValid(t)
    requires AddRecordingSpec(t, rec).Success?
    ensures TablesValid(AddRecordingSpec(t, rec).value.0)
  {
    var rid := t.recordingSeq + 1;
    var t2 := LinkPerformers(InsertRecording(t, rec), rid, rec.performers).0;
    AddRecordingSteps(t, rec);
    PerformersLinkedValid(t, rec);
    LinkWorksValid(t2, rid, rec.works);
  }

  /** A successful `add_recording` is the insert, then the performer loop, then the work loop. */
  lemma AddRecordingSteps(t: Tables, rec: Recording)
    requires AddRecordingSpec(t, rec).Success?
    ensures var rid := t.recordingSeq + 1;
      var (t2, ps) := LinkPerformers(InsertRecording(t, rec), rid, rec.performers);
      var (t3, ws) := LinkWorks(t2, rid, rec.works);
      AddRecordingSpec(t, rec).value == (t3, rec.(id := Some(rid), performers := ps, works := ws))
  {
  }

  /** After the insert and the performer loop, the tables are valid and the new recording
      has no work links yet. */
  lemma PerformersLinkedValid(t: Tables, rec: Recording)
    requires TablesValid(t)
    requires !DiscogsIdTaken(t.recordings, rec) && !NaturalKeyTaken(t.recordings, rec)
    ensures var rid := t.recordingSeq + 1;
      var t2 := LinkPerformers(InsertRecording(t, rec), rid, rec.performers).0;
      TablesValid(t2) && rid <= t2.recordingSeq && TracksAtMost(t2.recordingWorks, rid, 0)
  {
    var rid := t.recordingSeq + 1;
    var t1 := InsertRecording(t, rec);
    InsertRecordingValid(t, rec);
    LinkPerformersValid(t1, rid, rec.performers);
    LinkPerformersFrame(t1, rid, rec.performers);
    FreshRecordingUnlinked(t);
  }

  /** After a successful `add_recording`, adding a recording with the same non-NULL
      (title, catalog number, label) or the same non-NULL `discogs_id` is refused. */
  lemma AddRecordingTwiceRejected(t: Tables, r1: Recording, r2: Recording)
    requires AddRecordingSpec(t, r1).Success?
    requires (r2.title == r1.title && SqlEq(r1.catalogNumber, r2.catalogNumber) && SqlEq(r1.labelId, r2.labelId))
          || SqlEq(r1.discogsId, r2.discogsId)
    ensures AddRecordingSpec(AddRecordingSpec(t, r1).value.0, r2).Failure?
  {
    var rid := t.recordingSeq + 1;
    var t1 := InsertRecording(t, r1);
    LinkPerformersFrame(t1, rid, r1.performers);
    var t2 := LinkPerformers(t1, rid, r1.performers).0;
    LinkWorksFrame(t2, rid, r1.works);
    var t3 := AddRecordingSpec(t, r1).value.0;
    assert t3.recordings == t.recordings + [RecordingRowOf(rid, r1)];
    var n := |t.recordings|;
    assert t3.recordings[n] == RecordingRowOf(rid, r1);
    if SqlEq(r1.discogsId, r2.discogsId) {
      assert SqlEq(t3.recordings[n].discogsId, r2.discogsId);
    } else {
      assert RecordingKeyClash(r2.title, r2.catalogNumber, r2.labelId, t3.recordings[n]);
    }
  }

  /** `p1` is `p` given an id: the one it had, or a fresh one. */
  predicate PerformerResolved(p: Performer, p1: Performer)
  {
    p1 == p.(id := p1.id) && p1.id.Some? && (p.id.Some? ==> p1.id == p.id)
  }

  predicate PerformersResolved(ps: seq<Performer>, ps': seq<Performer>)
  {
    |ps'| == |ps| && forall i :: 0 <= i < |ps| ==> PerformerResolved(ps[i], ps'[i])
  }

  /** Every performer of `ps` has an id linked to recording `rid`. */
  predicate PerformersLinked(links: seq<RecordingPerformerRow>, rid: int, ps: seq<Performer>)
  {
    forall i :: 0 <= i < |ps| ==> ps[i].id.Some? && PerformerLinked(links, rid, ps[i].id.value)
  }

  /** Every link row from index `from` on belongs to `rid` and names a performer of `ps`. */
  predicate PerformerLinksListed(links: seq<RecordingPerformerRow>, from: int, rid: int, ps: seq<Performer>)
  {
    forall k :: 0 <= from <= k < |links| ==>
      links[k].recordingId == rid && exists i :: 0 <= i < |ps| && ps[i].id == Some(links[k].performerId)
  }

  /** `w1` is `w` with an id filled in when it had none and the upsert could give one. */
  predicate WorkResolved(w: Work, w1: Work)
  {
    w1 == w.(id := w1.id) && (w.id.Some? ==> w1.id == w.id) &&
    (w.id.None? ==> (w1.id.Some? <==> w.composerId.Some?))
  }

  predicate WorksResolved(ws: seq<Work>, ws': seq<Work>)
  {
    |ws'| == |ws| && forall i :: 0 <= i < |ws| ==> WorkResolved(ws[i], ws'[i])
  }

  /** Every work of `ws` that has an id is linked to recording `rid`. */
  predicate WorksLinked(links: seq<RecordingWorkRow>, rid: int, ws: seq<Work>)
  {
    forall i :: 0 <= i < |ws| && ws[i].id.Some? ==> WorkLinked(links, rid, ws[i].id.value)
  }

  /** A link row carries as track number the 1-based position of the FIRST work of
      `ws` with its work id: a repeated work keeps its first track. */
  predicate FirstTrack(ws: seq<Work>, l: RecordingWorkRow)
  {
    1 <= l.trackNumber <= |ws| && ws[l.trackNumber - 1].id == Some(l.workId) &&
    forall j :: 0 <= j < l.trackNumber - 1 ==> ws[j].id != Some(l.workId)
  }

  /** Every link row from index `from` on belongs to `rid` and has its first track in `ws`. */
  predicate WorkLinksFirstTrack(links: seq<RecordingWorkRow>, from: int, rid: int, ws: seq<Work>)
  {
    forall k :: 0 <= from <= k < |links| ==> links[k].recordingId == rid && FirstTrack(ws, links[k])
  }

  lemma PerformerLinkedGrows(a: seq<RecordingPerformerRow>, b: seq<RecordingPerformerRow>, rid: int, pid: int)
    requires a <= b && PerformerLinked(a, rid, pid)
    ensures PerformerLinked(b, rid, pid)
  {
    var j :| 0 <= j < |a| && a[j].recordingId == rid && a[j].performerId == pid;
    assert b[j] == a[j];
  }

  lemma WorkLinkedGrows(a: seq<RecordingWorkRow>, b: seq<RecordingWorkRow>, rid: int, wid: int)
    requires a <= b && WorkLinked(a, rid, wid)
    ensures WorkLinked(b, rid, wid)
  {
    var j :| 0 <= j < |a| && a[j].recordingId == rid && a[j].workId == wid;
    assert b[j] == a[j];
  }

  /** One pass of the performer loop: the performer is resolved and linked, and at most
      the one link row for it is appended. */
  lemma LinkPerformerStep(t: Tables, rid: int, p: Performer)
    ensures PerformerResolved(p, LinkPerformer(t, rid, p).1)
    ensures PerformerLinked(LinkPerformer(t, rid, p).0.recordingPerformers, rid, LinkPerformer(t, rid, p).1.id.value)
    ensures t.recordingPerformers <= LinkPerformer(t, rid, p).0.recordingPerformers
    ensures PerformerLinksListed(LinkPerformer(t, rid, p).0.recordingPerformers, |t.recordingPerformers|, rid, [LinkPerformer(t, rid, p).1])
  {
    var u := LinkPerformer(t, rid, p).0;
    var p1 := LinkPerformer(t, rid, p).1;
    if u.recordingPerformers != t.recordingPerformers {
      assert u.recordingPerformers[|t.recordingPerformers|].performerId == p1.id.value;
      assert [p1][0] == p1;
    }
  }

  /** The performer loop gives every performer an id, keeping the ids they had. */
  lemma {:induction false} LinkPerformersResolve(t: Tables, rid: int, ps: seq<Performer>)
    ensures PerformersResolved(ps, LinkPerformers(t, rid, ps).1)
    decreases |ps|
  {
    if ps != [] {
      var n := |ps|;
      var t1 := LinkPerformers(t, rid, ps[..n - 1]).0;
      var done := LinkPerformers(t, rid, ps[..n - 1]).1;
      LinkPerformersResolve(t, rid, ps[..n - 1]);
      LinkPerformerStep(t1, rid, ps[n - 1]);
      var ps' := LinkPerformers(t, rid, ps).1;
      forall i | 0 <= i < n ensures PerformerResolved(ps[i], ps'[i]) {
        if i < n - 1 {
          assert ps'[i] == done[i] && ps[i] == ps[..n - 1][i];
        }
      }
    }
  }

  /** After the performer loop every performer it returns is linked to `rid`. */
  lemma {:induction false} LinkPerformersLinked(t: Tables, rid: int, ps: seq<Performer>)
    ensures PerformersLinked(LinkPerformers(t, rid, ps).0.recordingPerformers, rid, LinkPerformers(t, rid, ps).1)
    decreases |ps|
  {
    if ps != [] {
      var n := |ps|;
      var t1 := LinkPerformers(t, rid, ps[..n - 1]).0;
      var done := LinkPerformers(t, rid, ps[..n - 1]).1;
      LinkPerformersLinked(t, rid, ps[..n - 1]);
      LinkPerformerStep(t1, rid, ps[n - 1]);
      var t' := LinkPerformers(t, rid, ps).0;
      var ps' := LinkPerformers(t, rid, ps).1;
      forall i | 0 <= i < n ensures ps'[i].id.Some? && PerformerLinked(t'.recordingPerformers, rid, ps'[i].id.value) {
        if i < n - 1 {
          assert ps'[i] == done[i];
          PerformerLinkedGrows(t1.recordingPerformers, t'.recordingPerformers, rid, done[i].id.value);
        }
      }
    }
  }

  /** Every link row the performer loop appends belongs to `rid` and names one of the
      performers it returns. */
  lemma {:induction false} LinkPerformersOnlyListed(t: Tables, rid: int, ps: seq<Performer>)
    ensures PerformerLinksListed(LinkPerformers(t, rid, ps).0.recordingPerformers, |t.recordingPerformers|, rid, LinkPerformers(t, rid, ps).1)
    decreases |ps|
  {
    if ps != [] {
      var n := |ps|;
      var t1 := LinkPerformers(t, rid, ps[..n - 1]).0;
      var done := LinkPerformers(t, rid, ps[..n - 1]).1;
      LinkPerformersOnlyListed(t, rid, ps[..n - 1]);
      LinkPerformersFrame(t, rid, ps[..n - 1]);
      LinkPerformerStep(t1, rid, ps[n - 1]);
      var t' := LinkPerformers(t, rid, ps).0;
      var ps' := LinkPerformers(t, rid, ps).1;
      var last := LinkPerformer(t1, rid, ps[n - 1]).1;
      forall k | |t.recordingPerformers| <= k < |t'.recordingPerformers|
        ensures t'.recordingPerformers[k].recordingId == rid
        ensures exists i :: 0 <= i < n && ps'[i].id == Some(t'.recordingPerformers[k].performerId)
      {
        if k < |t1.recordingPerformers| {
          assert t'.recordingPerformers[k] == t1.recordingPerformers[k];
          var i :| 0 <= i < n - 1 && done[i].id == Some(t1.recordingPerformers[k].performerId);
          assert ps'[i] == done[i];
        } else {
          assert [last][0].id == Some(t'.recordingPerformers[k].performerId);
          assert ps'[n - 1] == last;
        }
      }
    }
  }

  /** One pass of the work loop at position `track`: the work is resolved; if it has an
      id it is linked, and the only row possibly appended is (rid, id, track), appended
      only when that work was not linked yet. */
  lemma LinkWorkStep(t: Tables, rid: int, w: Work, track: int)
    ensures WorkResolved(w, LinkWork(t, rid, w, track).1)
    ensures WorksLinked(LinkWork(t, rid, w, track).0.recordingWorks, rid, [LinkWork(t, rid, w, track).1])
    ensures t.recordingWorks <= LinkWork(t, rid, w, track).0.recordingWorks
    ensures forall k :: |t.recordingWorks| <= k < |LinkWork(t, rid, w, track).0.recordingWorks| ==>
      LinkWork(t, rid, w, track).0.recordingWorks[k] == RecordingWorkRow(rid, LinkWork(t, rid, w, track).1.id.value, track) &&
      !WorkLinked(t.recordingWorks, rid, LinkWork(t, rid, w, track).1.id.value)
  {
    var u := LinkWork(t, rid, w, track).0;
    var w1 := LinkWork(t, rid, w, track).1;
    if w.id.None? {
      assert UpsertWork(t, w).0.recordingWorks == t.recordingWorks;
    }
    if u.recordingWorks != t.recordingWorks {
      assert u.recordingWorks[|t.recordingWorks|].workId == w1.id.value;
    }
    assert [w1][0] == w1;
  }

  /** The work loop resolves each work as the upsert allows. */
  lemma {:induction false} LinkWorksResolve(t: Tables, rid: int, ws: seq<Work>)
    ensures WorksResolved(ws, LinkWorks(t, rid, ws).1)
    decreases |ws|
  {
    if ws != [] {
      var n := |ws|;
      var t1 := LinkWorks(t, rid, ws[..n - 1]).0;
      var done := LinkWorks(t, rid, ws[..n - 1]).1;
      LinkWorksResolve(t, rid, ws[..n - 1]);
      LinkWorkStep(t1, rid, ws[n - 1], n);
      var ws' := LinkWorks(t, rid, ws).1;
      forall i | 0 <= i < n ensures WorkResolved(ws[i], ws'[i]) {
        if i < n - 1 {
          assert ws'[i] == done[i] && ws[i] == ws[..n - 1][i];
        }
      }
    }
  }

  /** After the work loop every work that has an id is linked to `rid`. */
  lemma {:induction false} LinkWorksLinked(t: Tables, rid: int, ws: seq<Work>)
    ensures WorksLinked(LinkWorks(t, rid, ws).0.recordingWorks, rid, LinkWorks(t, rid, ws).1)
    decreases |ws|
  {
    if ws != [] {
      var n := |ws|;
      var t1 := LinkWorks(t, rid, ws[..n - 1]).0;
      var done := LinkWorks(t, rid, ws[..n - 1]).1;
      LinkWorksLinked(t, rid, ws[..n - 1]);
      LinkWorkStep(t1, rid, ws[n - 1], n);
      var t' := LinkWorks(t, rid, ws).0;
      var ws' := LinkWorks(t, rid, ws).1;
      forall i | 0 <= i < n && ws'[i].id.Some? ensures WorkLinked(t'.recordingWorks, rid, ws'[i].id.value) {
        if i < n - 1 {
          assert ws'[i] == done[i];
          WorkLinkedGrows(t1.recordingWorks, t'.recordingWorks, rid, done[i].id.value);
        } else {
          assert ws'[i] == [ws'[i]][0];
        }
      }
    }
  }

  lemma FirstTrackExtend(ws: seq<Work>, w: Work, l: RecordingWorkRow)
    requires FirstTrack(ws, l)
    ensures FirstTrack(ws + [w], l)
  {
    var ws2 := ws + [w];
    assert ws2[l.trackNumber - 1] == ws[l.trackNumber - 1];
    forall j | 0 <= j < l.trackNumber - 1 ensures ws2[j].id != Some(l.workId) {
      assert ws2[j] == ws[j];
    }
  }

  /** Every link row the work loop appends belongs to `rid` and has its first track. */
  lemma {:induction false} LinkWorksFirstTrack(t: Tables, rid: int, ws: seq<Work>)
    ensures WorkLinksFirstTrack(LinkWorks(t, rid, ws).0.recordingWorks, |t.recordingWorks|, rid, LinkWorks(t, rid, ws).1)
    decreases |ws|
  {
    if ws != [] {
      var n := |ws|;
      var t1 := LinkWorks(t, rid, ws[..n - 1]).0;
      var done := LinkWorks(t, rid, ws[..n - 1]).1;
      LinkWorksFirstTrack(t, rid, ws[..n - 1]);
      LinkWorksFrame(t, rid, ws[..n - 1]);
      LinkWorksLinked(t, rid, ws[..n - 1]);
      LinkWorkStep(t1, rid, ws[n - 1], n);
      var t' := LinkWorks(t, rid, ws).0;
      var ws' := LinkWorks(t, rid, ws).1;
      assert ws' == done + [ws'[n - 1]];
      forall k | |t.recordingWorks| <= k < |t'.recordingWorks|
        ensures t'.recordingWorks[k].recordingId == rid && FirstTrack(ws', t'.recordingWorks[k])
      {
        var l := t'.recordingWorks[k];
        if k < |t1.recordingWorks| {
          assert l == t1.recordingWorks[k];
          FirstTrackExtend(done, ws'[n - 1], l);
        } else {
          forall j | 0 <= j < n - 1 ensures ws'[j].id != Some(l.workId) {
            assert ws'[j] == done[j];
          }
        }
      }
    }
  }

  /** Every link row of recording `rid` names a performer of `ps`. */
  predicate PerformerLinksOf(links: seq<RecordingPerformerRow>, rid: int, ps: seq<Performer>)
  {
    forall k :: 0 <= k < |links| && links[k].recordingId == rid ==>
      exists i :: 0 <= i < |ps| && ps[i].id == Some(links[k].performerId)
  }

  /** Every link row of recording `rid` carries its work's first track in `ws`. */
  predicate WorkLinksOf(links: seq<RecordingWorkRow>, rid: int, ws: seq<Work>)
  {
    forall k :: 0 <= k < |links| && links[k].recordingId == rid ==> FirstTrack(ws, links[k])
  }

  /** What a successful `add_recording` stores: the row under the next id; the
      performers each resolved and linked, and no other performer linked; the works
      resolved, each one with an id linked under the track of its first occurrence, and
      no other work linked; rows already stored are kept. */
  lemma AddRecordingStores(t: Tables, rec: Recording)
    requires TablesValid(t)
    requires AddRecordingSpec(t, rec).Success?
    ensures var rid := t.recordingSeq + 1;
      var t' := AddRecordingSpec(t, rec).value.0;
      var r := AddRecordingSpec(t, rec).value.1;
      t'.recordings == t.recordings + [RecordingRowOf(rid, rec)] &&
      r == rec.(id := Some(rid), performers := r.performers, works := r.works) &&
      PerformersResolved(rec.performers, r.performers) &&
      PerformersLinked(t'.recordingPerformers, rid, r.performers) &&
      PerformerLinksOf(t'.recordingPerformers, rid, r.performers) &&
      WorksResolved(rec.works, r.works) &&
      WorksLinked(t'.recordingWorks, rid, r.works) &&
      WorkLinksOf(t'.recordingWorks, rid, r.works) &&
      t.recordingPerformers <= t'.recordingPerformers && t.recordingWorks <= t'.recordingWorks
  {
    var rid := t.recordingSeq + 1;
    var t1 := InsertRecording(t, rec);
    var t2 := LinkPerformers(t1, rid, rec.performers).0;
    var ps := LinkPerformers(t1, rid, rec.performers).1;
    var t3 := LinkWorks(t2, rid, rec.works).0;
    var ws := LinkWorks(t2, rid, rec.works).1;
    AddRecordingSteps(t, rec);
    LinkPerformersFrame(t1, rid, rec.performers);
    LinkPerformersResolve(t1, rid, rec.performers);
    LinkPerformersLinked(t1, rid, rec.performers);
    LinkPerformersOnlyListed(t1, rid, rec.performers);
    LinkWorksFrame(t2, rid, rec.works);
    LinkWorksResolve(t2, rid, rec.works);
    LinkWorksLinked(t2, rid, rec.works);
    LinkWorksFirstTrack(t2, rid, rec.works);
    FreshRecordingUnlinked(t);
    forall k | 0 <= k < |t3.recordingPerformers| && t3.recordingPerformers[k].recordingId == rid
      ensures exists i :: 0 <= i < |ps| && ps[i].id == Some(t3.recordingPerformers[k].performerId)
    {
      if k < |t.recordingPerformers| {
        assert false;
      }
    }
    forall k | 0 <= k < |t3.recordingWorks| && t3.recordingWorks[k].recordingId == rid
      ensures FirstTrack(ws, t3.recordingWorks[k])
    {
      if k < |t.recordingWorks| {
        assert false;
      }
    }
  }

  // ----- scraped pages -----

  predicate UrlScraped(rows: seq<ScrapedPageRow>, url: string)
  {
    exists i :: 0 <= i < |rows| && rows[i].url == url
  }

  /** `save_scraped_page`: the INSERT under the next id, or the IntegrityError of
      `url UNIQUE` passed on to the caller with nothing written. */
  function SaveScrapedPageSpec(t: Tables, page: ScrapePage): (res: Result<(Tables, ScrapePage), StoreError>)
    ensures res.Failure? <==> UrlScraped(t.scrapedPages, page.url)
    ensures res.Failure? ==> res.error == IntegrityError(ScrapedPageUrl)
    ensures res.Success? ==> res.value.1 == page.(id := Some(t.scrapedPageSeq + 1))
  {
    if UrlScraped(t.scrapedPages, page.url) then Failure(IntegrityError(ScrapedPageUrl))
    else
      var id := t.scrapedPageSeq + 1;
      var row := ScrapedPageRow(id, page.url, page.rubric, page.letter, page.pageNumber, page.rawHtml, page.notes);
      Success((t.(scrapedPages := t.scrapedPages + [row], scrapedPageSeq := id), page.(id := Some(id))))
  }

  lemma SaveScrapedPageValid(t: Tables, page: ScrapePage)
    requires TablesValid(t)
    requires SaveScrapedPageSpec(t, page).Success?
    ensures TablesValid(SaveScrapedPageSpec(t, page).value.0)
  {
    var t' := SaveScrapedPageSpec(t, page).value.0;
    var n := |t.scrapedPages|;
    forall i | 0 <= i < n ensures t'.scrapedPages[i].url != t'.scrapedPages[n].url {
      assert t'.scrapedPages[i] == t.scrapedPages[i];
    }
  }

  /** `page_already_scraped` after a successful `save_scraped_page`: true for the saved
      URL, unchanged for every other URL. */
  lemma SavedPageIsScraped(t: Tables, page: ScrapePage, url: string)
    requires SaveScrapedPageSpec(t, page).Success?
    ensures UrlScraped(SaveScrapedPageSpec(t, page).value.0.scrapedPages, url) <==>
      url == page.url || UrlScraped(t.scrapedPages, url)
  {
    var rows' := SaveScrapedPageSpec(t, page).value.0.scrapedPages;
    var n := |t.scrapedPages|;
    if url == page.url {
      assert rows'[n].url == url;
    }
    if UrlScraped(t.scrapedPages, url) {
      var i :| 0 <= i < n && t.scrapedPages[i].url == url;
      assert rows'[i] == t.scrapedPages[i];
    }
    if UrlScraped(rows', url) {
      var i :| 0 <= i < |rows'| && rows'[i].url == url;
      if i < n {
        assert rows'[i] == t.scrapedPages[i];
      }
    }
  }

  /** Saving the same URL a second time raises the IntegrityError. */
  lemma SavePageTwiceFails(t: Tables, p1: ScrapePage, p2: ScrapePage)
    requires SaveScrapedPageSpec(t, p1).Success? && p2.url == p1.url
    ensures SaveScrapedPageSpec(SaveScrapedPageSpec(t, p1).value.0, p2) == Failure(IntegrityError(ScrapedPageUrl))
  {
    SavedPageIsScraped(t, p1, p2.url);
  }

  // ----- get_recordings -----

  /** Python truthiness of an optional text filter: `None` and `""` impose nothing. */
  predicate Given(s: Option<string>)
  {
    s.Some? && s.value != []
  }

  /** `column LIKE '%pattern%'` on ASCII text: a case-insensitive substring test. */
  predicate Like(column: string, pattern: string)
  {
    Contains(Lower(column), Lower(pattern))
  }

  /** LIKE ignores ASCII case on both sides. */
  lemma LikeIgnoresCase(column: string, pattern: string)
    ensures Like(Upper(column), pattern) == Like(column, pattern)
    ensures Like(column, Upper(pattern)) == Like(column, pattern)
  {
    LowerOfUpper(column);
    LowerOfUpper(pattern);
  }

  lemma LowerOfUpper(s: string)
    ensures Lower(Upper(s)) == Lower(s)
  {
    forall i | 0 <= i < |s| ensures Lower(Upper(s))[i] == Lower(s)[i] {
      assert Upper(s)[i] == UpperChar(s[i]);
    }
  }

  datatype RecordingQuery = RecordingQuery(
    composerName: Option<string>, workTitle: Option<string>, labelName: Option<string>, inLibrary: Option<bool>)

  const NoFilter := RecordingQuery(None, None, None, None)

  /** Recording `rid` has a linked work by a composer whose name is LIKE `%name%`. */
  predicate ComposerFilter(t: Tables, rid: int, name: string)
  {
    exists k, w, c :: 0 <= k < |t.recordingWorks| && 0 <= w < |t.works| && 0 <= c < |t.composers| &&
      t.recordingWorks[k].recordingId == rid && t.recordingWorks[k].workId == t.works[w].id &&
      t.works[w].composerId == t.composers[c].id && Like(t.composers[c].name, name)
  }

  /** Recording `rid` has a linked work whose title is LIKE `%title%`. */
  predicate WorkTitleFilter(t: Tables, rid: int, title: string)
  {
    exists k, w :: 0 <= k < |t.recordingWorks| && 0 <= w < |t.works| &&
      t.recordingWorks[k].recordingId == rid && t.recordingWorks[k].workId == t.works[w].id &&
      Like(t.works[w].title, title)
  }

  /** `label_id IN (SELECT id FROM labels WHERE name LIKE ?)`: a NULL label is in nothing. */
  predicate LabelFilter(t: Tables, labelId: Option<int>, name: string)
  {
    labelId.Some? && exists l :: 0 <= l < |t.labels| && t.labels[l].id == labelId.value && Like(t.labels[l].name, name)
  }

  /** The WHERE clause: the given filters, combined with AND. */
  predicate RowMatches(t: Tables, q: RecordingQuery, row: RecordingRow)
  {
    (Given(q.composerName) ==> ComposerFilter(t, row.id, q.composerName.value)) &&
    (Given(q.workTitle) ==> WorkTitleFilter(t, row.id, q.workTitle.value)) &&
    (Given(q.labelName) ==> LabelFilter(t, row.labelId, q.labelName.value)) &&
    (q.inLibrary.Some? ==> row.inLibrary == q.inLibrary.value)
  }

  /** The rows of `rows` that satisfy the WHERE clause, in table order. */
  function MatchingRows(t: Tables, q: RecordingQuery, rows: seq<RecordingRow>): (r: seq<RecordingRow>)
    ensures forall x :: x in r <==> x in rows && RowMatches(t, q, x)
    ensures |r| <= |rows|
  {
    if rows == [] then []
    else (if RowMatches(t, q, rows[0]) then [rows[0]] else []) + MatchingRows(t, q, rows[1..])
  }

  /** `SELECT * FROM recordings WHERE ... LIMIT ?`: at most `limit` rows, each satisfying
      every given filter, and every matching row when fewer than `limit` match. */
  function SelectedRows(t: Tables, q: RecordingQuery, limit: nat): (r: seq<RecordingRow>)
    ensures |r| <= limit
    ensures forall x :: x in r ==> x in t.recordings && RowMatches(t, q, x)
    ensures |r| < limit ==> forall x :: x in t.recordings && RowMatches(t, q, x) ==> x in r
    ensures Given(q.labelName) ==> forall x :: x in r ==> x.labelId.Some?
    ensures q.inLibrary.Some? ==> forall x :: x in r ==> x.inLibrary == q.inLibrary.value
  {
    var m := MatchingRows(t, q, t.recordings);
    if |m| <= limit then m
    else
      assert forall x :: x in m[..limit] ==> x in m;
      m[..limit]
  }

  /** With a filter that holds on every row, the selection is the table itself. */
  lemma {:induction false} MatchingAllRows(t: Tables, q: RecordingQuery, rows: seq<RecordingRow>)
    requires forall x :: x in rows ==> RowMatches(t, q, x)
    ensures MatchingRows(t, q, rows) == rows
  {
    if rows != [] {
      MatchingAllRows(t, q, rows[1..]);
      assert rows == [rows[0]] + rows[1..];
    }
  }

  /** Without filters `get_recordings` lists the first `limit` recordings. */
  lemma NoFilterSelectsFirst(t: Tables, limit: nat)
    ensures SelectedRows(t, NoFilter, limit) == t.recordings[..if limit < |t.recordings| then limit else |t.recordings|]
  {
    MatchingAllRows(t, NoFilter, t.recordings);
  }

  /** Two WHERE clauses that agree on every row select the same rows. */
  lemma {:induction false} MatchingSameRows(t: Tables, q1: RecordingQuery, q2: RecordingQuery, rows: seq<RecordingRow>)
    requires forall x :: x in rows ==> (RowMatches(t, q1, x) <==> RowMatches(t, q2, x))
    ensures MatchingRows(t, q1, rows) == MatchingRows(t, q2, rows)
  {
    if rows != [] {
      MatchingSameRows(t, q1, q2, rows[1..]);
    }
  }

  /** An empty text filter is the same as none (Python truthiness). */
  lemma EmptyFiltersIgnored(t: Tables, q: RecordingQuery, limit: nat)
    requires q.composerName == Some([]) || q.workTitle == Some([]) || q.labelName == Some([])
    ensures SelectedRows(t, q, limit) == SelectedRows(t, q.(
      composerName := if Given(q.composerName) then q.composerName else None,
      workTitle := if Given(q.workTitle) then q.workTitle else None,
      labelName := if Given(q.labelName) then q.labelName else None), limit)
  {
    var q2 := q.(
      composerName := if Given(q.composerName) then q.composerName else None,
      workTitle := if Given(q.workTitle) then q.workTitle else None,
      labelName := if Given(q.labelName) then q.labelName else None);
    MatchingSameRows(t, q, q2, t.recordings);
  }

  /** A recording just added is listed by an unfiltered query whose limit exceeds the
      number of recordings stored before. */
  lemma AddedRecordingListed(t: Tables, rec: Recording, limit: nat)
    requires TablesValid(t)
    requires AddRecordingSpec(t, rec).Success?
    requires limit > |t.recordings|
    ensures RecordingRowOf(t.recordingSeq + 1, rec) in SelectedRows(AddRecordingSpec(t, rec).value.0, NoFilter, limit)
  {
    var t' := AddRecordingSpec(t, rec).value.0;
    AddRecordingStores(t, rec);
    NoFilterSelectsFirst(t', limit);
    assert t'.recordings[|t.recordings|] == RecordingRowOf(t.recordingSeq + 1, rec);
  }

  // ----- hydrating a selected row -----

  function PerformerOfRow(row: PerformerRow): Performer
  {
    Performer(Some(row.id), row.name, row.performerType, row.instrument, row.biography)
  }

  function WorkOfRow(row: WorkRow): Work
  {
    Work(Some(row.id), Some(row.composerId), row.title, row.catalogNumber, row.key, row.opus,
         row.durationSeconds, row.notes, row.musicbrainzId)
  }

  /** The recording built from its row, before performers and works are added. */
  function RecordingOfRow(row: RecordingRow): Recording
  {
    Recording(Some(row.id), None, row.title, row.recordingType, row.labelId, row.catalogNumber,
              row.ean, row.releaseYear, row.recordingYear, row.durationSeconds, row.coverUrl,
              row.discogsId, row.discogsUrl, row.notes, row.inLibrary, [], None, None, [])
  }

  /** The performer rows with id `id` (at most one when the table is valid). */
  function PerformerRowsWithId(rows: seq<PerformerRow>, id: int): (r: seq<PerformerRow>)
    ensures forall p :: p in r <==> p in rows && p.id == id
  {
    if rows == [] then []
    else (if rows[0].id == id then [rows[0]] else []) + PerformerRowsWithId(rows[1..], id)
  }

  /** `SELECT p.* FROM performers p JOIN recording_performers rp ... WHERE rp.recording_id = ?`,
      in link-table order. */
  function LinkedPerformerRows(links: seq<RecordingPerformerRow>, rows: seq<PerformerRow>, rid: int): (r: seq<PerformerRow>)
  {
    if links == [] then []
    else
      var here := if links[0].recordingId == rid then PerformerRowsWithId(rows, links[0].performerId) else [];
      here + LinkedPerformerRows(links[1..], rows, rid)
  }

  /** The joined rows are exactly the stored rows of the performers linked to `rid`. */
  lemma {:induction false} LinkedPerformerRowsMembers(links: seq<RecordingPerformerRow>, rows: seq<PerformerRow>, rid: int)
    ensures forall p :: p in LinkedPerformerRows(links, rows, rid) <==> p in rows && PerformerLinked(links, rid, p.id)
    decreases |links|
  {
    if links != [] {
      LinkedPerformerRowsMembers(links[1..], rows, rid);
      assert forall pid :: PerformerLinked(links, rid, pid) <==>
        (links[0].recordingId == rid && links[0].performerId == pid) || PerformerLinked(links[1..], rid, pid) by {
        forall pid ensures PerformerLinked(links, rid, pid) ==>
          (links[0].recordingId == rid && links[0].performerId == pid) || PerformerLinked(links[1..], rid, pid) {
          if PerformerLinked(links, rid, pid) {
            var i :| 0 <= i < |links| && links[i].recordingId == rid && links[i].performerId == pid;
            if i > 0 {
              assert links[1..][i - 1] == links[i];
            }
          }
        }
        forall pid | PerformerLinked(links[1..], rid, pid) ensures PerformerLinked(links, rid, pid) {
          var i :| 0 <= i < |links[1..]| && links[1..][i].recordingId == rid && links[1..][i].performerId == pid;
          assert links[i + 1] == links[1..][i];
        }
      }
    }
  }

  /** One row of `SELECT w.* ... ORDER BY rw.track_number`, with its track number. */
  datatype Track = Track(trackNumber: int, work: WorkRow)

  function WorkRowsWithId(rows: seq<WorkRow>, id: int): (r: seq<WorkRow>)
    ensures forall w :: w in r <==> w in rows && w.id == id
  {
    if rows == [] then []
    else (if rows[0].id == id then [rows[0]] else []) + WorkRowsWithId(rows[1..], id)
  }

  function TracksOf(track: int, rows: seq<WorkRow>): (r: seq<Track>)
    ensures |r| == |rows|
    ensures forall e :: e in r <==> e.trackNumber == track && e.work in rows
  {
    if rows == [] then [] else [Track(track, rows[0])] + TracksOf(track, rows[1..])
  }

  /** The works linked to `rid` in link-table order, each with its track number. */
  function LinkedTracks(links: seq<RecordingWorkRow>, rows: seq<WorkRow>, rid: int): (r: seq<Track>)
    ensures forall e :: e in r ==> (e.work in rows &&
      exists k :: 0 <= k < |links| && links[k] == RecordingWorkRow(rid, e.work.id, e.trackNumber))
  {
    if links == [] then []
    else
      var here := if links[0].recordingId == rid then TracksOf(links[0].trackNumber, WorkRowsWithId(rows, links[0].workId)) else [];
      var rest := LinkedTracks(links[1..], rows, rid);
      assert forall e :: e in rest ==> exists k :: 0 <= k < |links| && links[k] == RecordingWorkRow(rid, e.work.id, e.trackNumber) by {
        forall e | e in rest ensures exists k :: 0 <= k < |links| && links[k] == RecordingWorkRow(rid, e.work.id, e.trackNumber) {
          var k :| 0 <= k < |links[1..]| && links[1..][k] == RecordingWorkRow(rid, e.work.id, e.trackNumber);
          assert links[k + 1] == links[1..][k];
        }
      }
      assert forall e :: e in here ==> links[0] == RecordingWorkRow(rid, e.work.id, e.trackNumber);
      here + rest
  }

  /** Every link row of `rid` with a stored work appears among the tracks. */
  lemma {:induction false} LinkedTracksComplete(links: seq<RecordingWorkRow>, rows: seq<WorkRow>, rid: int, k: int, w: WorkRow)
    requires 0 <= k < |links| && links[k].recordingId == rid && w in rows && w.id == links[k].workId
    ensures Track(links[k].trackNumber, w) in LinkedTracks(links, rows, rid)
    decreases k
  {
    if k > 0 {
      LinkedTracksComplete(links[1..], rows, rid, k - 1, w);
      assert links[1..][k - 1] == links[k];
    }
  }

  predicate InTrackOrder(tracks: seq<Track>)
  {
    forall i, j :: 0 <= i < j < |tracks| ==> tracks[i].trackNumber <= tracks[j].trackNumber
  }

  lemma RecordingWorksValidTail(links: seq<RecordingWorkRow>, last: nat)
    requires links != [] && RecordingWorksValid(links, last)
    ensures RecordingWorksValid(links[1..], last)
  {
    forall i, j | 0 <= i < j < |links[1..]| && links[1..][i].recordingId == links[1..][j].recordingId
      ensures links[1..][i].workId != links[1..][j].workId && links[1..][i].trackNumber < links[1..][j].trackNumber
    {
      assert links[1..][i] == links[i + 1] && links[1..][j] == links[j + 1];
    }
  }

  /** The later link rows of a recording carry larger track numbers than its first one. */
  lemma LaterTracksAfterHead(links: seq<RecordingWorkRow>, rows: seq<WorkRow>, rid: int, last: nat, e: Track)
    requires links != [] && RecordingWorksValid(links, last) && links[0].recordingId == rid
    requires e in LinkedTracks(links[1..], rows, rid)
    ensures links[0].trackNumber < e.trackNumber
  {
    var k :| 0 <= k < |links[1..]| && links[1..][k] == RecordingWorkRow(rid, e.work.id, e.trackNumber);
    assert links[k + 1] == links[1..][k];
  }

  lemma ConcatInTrackOrder(here: seq<Track>, rest: seq<Track>)
    requires InTrackOrder(here) && InTrackOrder(rest)
    requires forall x, y :: x in here && y in rest ==> x.trackNumber <= y.trackNumber
    ensures InTrackOrder(here + rest)
  {
    var r := here + rest;
    forall i, j | 0 <= i < j < |r| ensures r[i].trackNumber <= r[j].trackNumber {
      if j < |here| {
        assert r[i] == here[i] && r[j] == here[j];
      } else if i < |here| {
        assert r[i] == here[i] && r[j] == rest[j - |here|];
        assert r[i] in here && r[j] in rest;
      } else {
        assert r[i] == rest[i - |here|] && r[j] == rest[j - |here|];
      }
    }
  }

  /** The works come out in track order, as `ORDER BY rw.track_number` asks: the link rows
      of one recording carry growing track numbers. */
  lemma {:induction false} LinkedTracksInTrackOrder(links: seq<RecordingWorkRow>, rows: seq<WorkRow>, rid: int, last: nat)
    requires RecordingWorksValid(links, last)
    ensures InTrackOrder(LinkedTracks(links, rows, rid))
  {
    if links != [] {
      var here := if links[0].recordingId == rid then TracksOf(links[0].trackNumber, WorkRowsWithId(rows, links[0].workId)) else [];
      var rest := LinkedTracks(links[1..], rows, rid);
      RecordingWorksValidTail(links, last);
      LinkedTracksInTrackOrder(links[1..], rows, rid, last);
      assert InTrackOrder(here) by {
        forall i, j | 0 <= i < j < |here| ensures here[i].trackNumber <= here[j].trackNumber {
          assert here[i] in here && here[j] in here;
        }
      }
      forall x, y | x in here && y in rest ensures x.trackNumber <= y.trackNumber {
        LaterTracksAfterHead(links, rows, rid, last, y);
      }
      ConcatInTrackOrder(here, rest);
      assert LinkedTracks(links, rows, rid) == here + rest;
    }
  }

  function PerformersOfRows(rows: seq<PerformerRow>): (r: seq<Performer>)
    ensures |r| == |rows| && forall i :: 0 <= i < |rows| ==> r[i] == PerformerOfRow(rows[i])
  {
    if rows == [] then [] else [PerformerOfRow(rows[0])] + PerformersOfRows(rows[1..])
  }

  function WorksOfTracks(tracks: seq<Track>): (r: seq<Work>)
    ensures |r| == |tracks| && forall i :: 0 <= i < |tracks| ==> r[i] == WorkOfRow(tracks[i].work)
  {
    if tracks == [] then [] else [WorkOfRow(tracks[0].work)] + WorksOfTracks(tracks[1..])
  }

  /** Reading one more performer row adds its performer at the end. */
  lemma PerformersOfRowsSnoc(rows: seq<PerformerRow>, row: PerformerRow)
    ensures PerformersOfRows(rows + [row]) == PerformersOfRows(rows) + [PerformerOfRow(row)]
  {
    var a := PerformersOfRows(rows + [row]);
    var b := PerformersOfRows(rows) + [PerformerOfRow(row)];
    assert |a| == |b|;
    forall i | 0 <= i < |a| ensures a[i] == b[i] {
      if i < |rows| {
        assert (rows + [row])[i] == rows[i];
      }
    }
  }

  /** Reading one more track adds its work at the end. */
  lemma WorksOfTracksSnoc(tracks: seq<Track>, e: Track)
    ensures WorksOfTracks(tracks + [e]) == WorksOfTracks(tracks) + [WorkOfRow(e.work)]
  {
    var a := WorksOfTracks(tracks + [e]);
    var b := WorksOfTracks(tracks) + [WorkOfRow(e.work)];
    assert |a| == |b|;
    forall i | 0 <= i < |a| ensures a[i] == b[i] {
      if i < |tracks| {
        assert (tracks + [e])[i] == tracks[i];
      }
    }
  }

  /** One element of `get_recordings`' result: the row with its linked performers and its
      works in track order. */
  function Hydrate(t: Tables, row: RecordingRow): (r: Recording)
    ensures r.(performers := [], works := []) == RecordingOfRow(row)
    ensures r.id == Some(row.id)
  {
    RecordingOfRow(row).(
      performers := PerformersOfRows(LinkedPerformerRows(t.recordingPerformers, t.performers, row.id)),
      works := WorksOfTracks(LinkedTracks(t.recordingWorks, t.works, row.id)))
  }

  /** The performers of a listed recording are exactly the stored performers linked to it. */
  lemma HydratedPerformers(t: Tables, row: RecordingRow, p: Performer)
    ensures p in Hydrate(t, row).performers <==>
      exists k :: 0 <= k < |t.performers| && PerformerLinked(t.recordingPerformers, row.id, t.performers[k].id) &&
        p == PerformerOfRow(t.performers[k])
  {
    var prs := LinkedPerformerRows(t.recordingPerformers, t.performers, row.id);
    LinkedPerformerRowsMembers(t.recordingPerformers, t.performers, row.id);
    var ps := Hydrate(t, row).performers;
    if p in ps {
      var i :| 0 <= i < |ps| && ps[i] == p;
      assert prs[i] in prs;
      var k :| 0 <= k < |t.performers| && t.performers[k] == prs[i];
    }
    if exists k :: 0 <= k < |t.performers| && PerformerLinked(t.recordingPerformers, row.id, t.performers[k].id) &&
        p == PerformerOfRow(t.performers[k]) {
      var k :| 0 <= k < |t.performers| && PerformerLinked(t.recordingPerformers, row.id, t.performers[k].id) &&
        p == PerformerOfRow(t.performers[k]);
      assert t.performers[k] in prs;
      var i :| 0 <= i < |prs| && prs[i] == t.performers[k];
      assert ps[i] == p;
    }
  }

  /** The works of a listed recording: each one a stored work linked to it, every linked
      stored work present, in track order. */
  lemma HydratedWorks(t: Tables, row: RecordingRow)
    requires TablesValid(t)
    ensures var tracks := LinkedTracks(t.recordingWorks, t.works, row.id);
      Hydrate(t, row).works == WorksOfTracks(tracks) && InTrackOrder(tracks) &&
      (forall e :: e in tracks ==> e.work in t.works && WorkLinked(t.recordingWorks, row.id, e.work.id)) &&
      (forall k, w ::
         (0 <= k < |t.recordingWorks| && 0 <= w < |t.works| &&
          t.recordingWorks[k].recordingId == row.id && t.works[w].id == t.recordingWorks[k].workId) ==>
         Track(t.recordingWorks[k].trackNumber, t.works[w]) in tracks)
  {
    var tracks := LinkedTracks(t.recordingWorks, t.works, row.id);
    LinkedTracksInTrackOrder(t.recordingWorks, t.works, row.id, t.recordingSeq);
    forall e | e in tracks ensures WorkLinked(t.recordingWorks, row.id, e.work.id) {
      var k :| 0 <= k < |t.recordingWorks| && t.recordingWorks[k] == RecordingWorkRow(row.id, e.work.id, e.trackNumber);
    }
    forall k, w | 0 <= k < |t.recordingWorks| && 0 <= w < |t.works| &&
         t.recordingWorks[k].recordingId == row.id && t.works[w].id == t.recordingWorks[k].workId
      ensures Track(t.recordingWorks[k].trackNumber, t.works[w]) in tracks
    {
      LinkedTracksComplete(t.recordingWorks, t.works, row.id, k, t.works[w]);
    }
  }

  /** `get_recordings` as specified: the selected rows, hydrated. */
  function QueryRecordings(t: Tables, q: RecordingQuery, limit: nat): (r: seq<Recording>)
    ensures |r| == |SelectedRows(t, q, limit)| <= limit
    ensures forall i :: 0 <= i < |r| ==> r[i].id == Some(SelectedRows(t, q, limit)[i].id)
  {
    var rows := SelectedRows(t, q, limit);
    seq(|rows|, i requires 0 <= i < |rows| => Hydrate(t, rows[i]))
  }

  // ----- the code as written, where it fails -----

  /** `add_recording` as written: the work loop reads `recording.works`, which the
      recording record type does not declare. Unless the caller attached such an
      attribute (`worksAttached`), the read raises AttributeError before the commit and
      the uncommitted INSERT is discarded. */
  function AddRecordingAsWritten(t: Tables, rec: Recording, worksAttached: bool): (res: Result<(Tables, Recording), StoreError>)
    ensures !worksAttached ==> res.Failure?
    ensures res.Failure? <==> !worksAttached || AddRecordingSpec(t, rec).Failure?
  {
    if DiscogsIdTaken(t.recordings, rec) then Failure(ValueError(RecordingDiscogsId))
    else if NaturalKeyTaken(t.recordings, rec) then Failure(ValueError(RecordingNaturalKey))
    else if !worksAttached then Failure(AttributeError("works"))
    else AddRecordingSpec(t, rec)
  }

  /** The recording of `test_add_recording`: a title, a catalog number, a release year. */
  function PlainRecording(): Recording
  {
    Recording(None, None, "Symphony No. 5 in C minor", Studio, None, Some("DGG-001"), None, Some(2020),
              None, None, None, None, None, None, false, [], None, None, [])
  }

  /** On a new database the plain recording is refused as written, and stored under id 1
      with the track list an empty list. */
  lemma AddRecordingAsWrittenRefusesPlainRecording()
    ensures AddRecordingAsWritten(EmptyTables(), PlainRecording(), false) == Failure(AttributeError("works"))
    ensures AddRecordingSpec(EmptyTables(), PlainRecording()).Success?
    ensures AddRecordingSpec(EmptyTables(), PlainRecording()).value.1.id == Some(1)
  {
  }

  /** `get_recordings` as written: the query builds each recording without a `works`
      attribute, so appending the first linked work raises AttributeError (and so would
      the `.get` it calls on the fetched row). The query fails as soon as one selected
      recording has a linked stored work. */
  function QueryRecordingsAsWritten(t: Tables, q: RecordingQuery, limit: nat): (res: Result<seq<Recording>, StoreError>)
    ensures res.Failure? <==> exists x :: x in SelectedRows(t, q, limit) && LinkedTracks(t.recordingWorks, t.works, x.id) != []
    ensures res.Success? ==> res.value == QueryRecordings(t, q, limit)
  {
    var rows := SelectedRows(t, q, limit);
    if exists x :: x in rows && LinkedTracks(t.recordingWorks, t.works, x.id) != [] then Failure(AttributeError("works"))
    else Success(QueryRecordings(t, q, limit))
  }

  /** One composer, one work by that composer, one recording of it. */
  function OneLinkedRecording(): Tables
  {
    Tables(
      [ComposerRow(1, "Ludwig van Beethoven", Some(1770), Some(1827), None, None, None)], 1,
      [WorkRow(1, 1, "Symphony No. 5", Some("Op. 67"), None, None, None, None, None)], 1,
      [], 0, [], 0,
      [RecordingRow(1, "Symphony No. 5 in C minor", Studio, None, None, None, None, None, None, None, None, None, None, false)], 1,
      [RecordingWorkRow(1, 1, 1)], [], [], 0)
  }

  /** The one-recording database satisfies the schema constraints. */
  lemma OneLinkedRecordingValid()
    ensures TablesValid(OneLinkedRecording())
  {
  }

  /** Its one recording is linked to its one work, as track 1. */
  lemma OneLinkedRecordingTracks()
    ensures LinkedTracks(OneLinkedRecording().recordingWorks, OneLinkedRecording().works, 1) ==
      [Track(1, OneLinkedRecording().works[0])]
  {
    var t := OneLinkedRecording();
    assert t.recordingWorks[1..] == [];
    assert t.works[1..] == [];
    assert WorkRowsWithId(t.works, 1) == [t.works[0]];
  }

  /** Without a filter, the one recording is selected. */
  lemma OneLinkedRecordingSelected()
    ensures SelectedRows(OneLinkedRecording(), NoFilter, 100) == OneLinkedRecording().recordings
  {
    NoFilterSelectsFirst(OneLinkedRecording(), 100);
  }

  /** Listing that database fails as written; the corrected query lists the recording
      with its one work. */
  lemma QueryRecordingsAsWrittenFails()
    ensures TablesValid(OneLinkedRecording())
    ensures QueryRecordingsAsWritten(OneLinkedRecording(), NoFilter, 100) == Failure(AttributeError("works"))
    ensures |QueryRecordings(OneLinkedRecording(), NoFilter, 100)| == 1
    ensures QueryRecordings(OneLinkedRecording(), NoFilter, 100)[0].works == [WorkOfRow(OneLinkedRecording().works[0])]
  {
    var t := OneLinkedRecording();
    OneLinkedRecordingValid();
    OneLinkedRecordingSelected();
    OneLinkedRecordingTracks();
    assert t.recordings[0] in SelectedRows(t, NoFilter, 100);
  }

  // ----- the database object -----

  /** The store as an object: one field per table and counter, updated in place by the
      operations; `Snapshot()` is the whole database as a value. */
  class Database {
    var composers: seq<ComposerRow>
    var composerSeq: nat
    var works: seq<WorkRow>
    var workSeq: nat
    var performers: seq<PerformerRow>
    var performerSeq: nat
    var labels: seq<LabelRow>
    var labelSeq: nat
    var recordings: seq<RecordingRow>
    var recordingSeq: nat
    var recordingWorks: seq<RecordingWorkRow>
    var recordingPerformers: seq<RecordingPerformerRow>
    var scrapedPages: seq<ScrapedPageRow>
    var scrapedPageSeq: nat

    function Snapshot(): Tables
      reads this
    {
      Tables(composers, composerSeq, works, workSeq, performers, performerSeq, labels, labelSeq,
             recordings, recordingSeq, recordingWorks, recordingPerformers, scrapedPages, scrapedPageSeq)
    }

    /** The schema constraints hold. */
    ghost predicate Valid()
      reads this
    {
      TablesValid(Snapshot())
    }

    /** Opening a database file: `_init_schema` creates the tables that are missing
        (`CREATE TABLE IF NOT EXISTS`) and keeps the rows of the others, so the store
        starts from what the file holds, `EmptyTables()` for a new file. */
    constructor (existing: Tables)
      requires TablesValid(existing)
      ensures Snapshot() == existing && Valid()
    {
      composers, composerSeq := existing.composers, existing.composerSeq;
      works, workSeq := existing.works, existing.workSeq;
      performers, performerSeq := existing.performers, existing.performerSeq;
      labels, labelSeq := existing.labels, existing.labelSeq;
      recordings, recordingSeq := existing.recordings, existing.recordingSeq;
      recordingWorks, recordingPerformers := existing.recordingWorks, existing.recordingPerformers;
      scrapedPages, scrapedPageSeq := existing.scrapedPages, existing.scrapedPageSeq;
    }

    /** `add_composer` */
    method AddComposer(composer: Composer) returns (r: Composer)
      requires Valid()
      modifies this
      ensures Valid()
      ensures Snapshot() == UpsertComposer(old(Snapshot()), composer).0
      ensures r == UpsertComposer(old(Snapshot()), composer).1
    {
      ghost var t0 := Snapshot();
      UpsertComposerValid(t0, composer);
      var existing := FindComposer(composers, composer.name);
      if existing.Some? {
        r := composer.(id := Some(existing.value.id));
      } else {
        var id := composerSeq + 1;
        composers := composers + [ComposerRow(id, composer.name, composer.birthYear, composer.deathYear,
                                              composer.nationality, composer.biography, None)];
        composerSeq := id;
        r := composer.(id := Some(id));
      }
      assert Snapshot() == UpsertComposer(t0, composer).0;
    }

    /** `get_composer` */
    method GetComposer(name: string) returns (r: Option<Composer>)
      ensures r == ComposerByName(Snapshot(), name)
      ensures r.None? <==> forall i :: 0 <= i < |composers| ==> composers[i].name != name
    {
      var row := FindComposer(composers, name);
      if row.Some? {
        r := Some(ComposerOfRow(row.value));
      } else {
        r := None;
      }
    }

    /** `add_performer` */
    method AddPerformer(performer: Performer) returns (r: Performer)
      requires Valid()
      modifies this
      ensures Valid()
      ensures Snapshot() == UpsertPerformer(old(Snapshot()), performer).0
      ensures r == UpsertPerformer(old(Snapshot()), performer).1
    {
      ghost var t0 := Snapshot();
      UpsertPerformerValid(t0, performer);
      var existing := FindPerformer(performers, performer.name);
      if existing.Some? {
        r := performer.(id := Some(existing.value.id));
      } else {
        var id := performerSeq + 1;
        performers := performers + [PerformerRow(id, performer.name, performer.performerType,
                                                 performer.instrument, performer.biography)];
        performerSeq := id;
        r := performer.(id := Some(id));
      }
      assert Snapshot() == UpsertPerformer(t0, performer).0;
    }

    /** `add_work` */
    method AddWork(work: Work) returns (r: Work)
      requires Valid()
      modifies this
      ensures Valid()
      ensures Snapshot() == UpsertWork(old(Snapshot()), work).0
      ensures r == UpsertWork(old(Snapshot()), work).1
    {
      ghost var t0 := Snapshot();
      UpsertWorkValid(t0, work);
      r := work;
      if work.composerId.Some? {
        var existing := FindWork(works, work);
        if existing.Some? {
          r := work.(id := Some(existing.value.id));
        } else {
          var id := workSeq + 1;
          works := works + [WorkRow(id, work.composerId.value, work.title, work.catalogNumber, work.key,
                                    work.opus, work.durationSeconds, work.notes, None)];
          workSeq := id;
          r := work.(id := Some(id));
        }
      }
      assert Snapshot() == UpsertWork(t0, work).0;
    }
  
    /** `add_recording`: refuse a duplicate, else insert the row, upsert the performers
        and works that have no id, and link each one once. */
    method AddRecording(recording: Recording) returns (res: Result<Recording, StoreError>)
      requires Valid()
      modifies this
      ensures Valid()
      ensures AddRecordingSpec(old(Snapshot()), recording).Failure? ==>
        Snapshot() == old(Snapshot()) && res == Failure(AddRecordingSpec(old(Snapshot()), recording).error)
      ensures AddRecordingSpec(old(Snapshot()), recording).Success? ==>
        Snapshot() == AddRecordingSpec(old(Snapshot()), recording).value.0 &&
        res == Success(AddRecordingSpec(old(Snapshot()), recording).value.1)
      ensures DiscogsIdTaken(old(recordings), recording) ==> res == Failure(ValueError(RecordingDiscogsId))
      ensures !DiscogsIdTaken(old(recordings), recording) && NaturalKeyTaken(old(recordings), recording) ==>
        res == Failure(ValueError(RecordingNaturalKey))
    {
      if DiscogsIdTaken(recordings, recording) {
        return Failure(ValueError(RecordingDiscogsId));
      }
      if NaturalKeyTaken(recordings, recording) {
        return Failure(ValueError(RecordingNaturalKey));
      }
      ghost var t0 := Snapshot();
      InsertRecordingValid(t0, recording);
      FreshRecordingUnlinked(t0);
      var rid := recordingSeq + 1;
      recordings := recordings + [RecordingRowOf(rid, recording)];
      recordingSeq := rid;
      ghost var t1 := Snapshot();
      assert t1 == InsertRecording(t0, recording);
      var linkedPerformers := LinkRecordingPerformers(rid, recording.performers);
      LinkPerformersFrame(t1, rid, recording.performers);
      var linkedWorks := LinkRecordingWorks(rid, recording.works);
      res := Success(recording.(id := Some(rid), performers := linkedPerformers, works := linkedWorks));
    }

    /** The performer loop of `add_recording`. */
    method LinkRecordingPerformers(rid: int, ps: seq<Performer>) returns (linked: seq<Performer>)
      requires Valid() && rid <= recordingSeq
      modifies this
      ensures Valid()
      ensures Snapshot() == LinkPerformers(old(Snapshot()), rid, ps).0
      ensures linked == LinkPerformers(old(Snapshot()), rid, ps).1
    {
      ghost var t1 := Snapshot();
      linked := [];
      var i := 0;
      while i < |ps|
        invariant 0 <= i <= |ps|
        invariant Snapshot() == LinkPerformers(t1, rid, ps[..i]).0
        invariant linked == LinkPerformers(t1, rid, ps[..i]).1
        invariant Valid() && rid <= recordingSeq
      {
        LinkPerformersSnoc(t1, rid, ps, i);
        var performer := LinkRecordingPerformer(rid, ps[i]);
        linked := linked + [performer];
        i := i + 1;
      }
      assert ps[..i] == ps;
    }

    /** One pass of the performer loop. */
    method LinkRecordingPerformer(rid: int, p: Performer) returns (performer: Performer)
      requires Valid() && rid <= recordingSeq
      modifies this
      ensures Valid() && rid <= recordingSeq
      ensures Snapshot() == LinkPerformer(old(Snapshot()), rid, p).0
      ensures performer == LinkPerformer(old(Snapshot()), rid, p).1
    {
      performer := p;
      if performer.id.None? {
        performer := AddPerformer(performer);
      }
      if performer.id.Some? {
        InsertPerformerLink(rid, performer.id.value);
      }
    }

    /** The `INSERT OR IGNORE` of one performer link. */
    method InsertPerformerLink(rid: int, pid: int)
      requires Valid() && rid <= recordingSeq
      modifies this
      ensures Valid()
      ensures Snapshot() == WithPerformerLink(old(Snapshot()), rid, pid)
    {
      ghost var t0 := Snapshot();
      WithPerformerLinkValid(t0, rid, pid);
      if !PerformerLinked(recordingPerformers, rid, pid) {
        recordingPerformers := recordingPerformers + [RecordingPerformerRow(rid, pid, None)];
      }
      assert Snapshot() == WithPerformerLink(t0, rid, pid);
    }

    /** The work loop of `add_recording`, numbering tracks from 1. */
    method LinkRecordingWorks(rid: int, ws: seq<Work>) returns (linked: seq<Work>)
      requires Valid() && rid <= recordingSeq
      requires TracksAtMost(recordingWorks, rid, 0)
      modifies this
      ensures Valid()
      ensures Snapshot() == LinkWorks(old(Snapshot()), rid, ws).0
      ensures linked == LinkWorks(old(Snapshot()), rid, ws).1
    {
      ghost var t2 := Snapshot();
      linked := [];
      var j := 0;
      while j < |ws|
        invariant 0 <= j <= |ws|
        invariant Snapshot() == LinkWorks(t2, rid, ws[..j]).0
        invariant linked == LinkWorks(t2, rid, ws[..j]).1
        invariant Valid() && rid <= recordingSeq
        invariant TracksAtMost(recordingWorks, rid, j)
      {
        LinkWorksSnoc(t2, rid, ws, j);
        var work := LinkRecordingWork(rid, ws[j], j + 1);
        linked := linked + [work];
        j := j + 1;
      }
      assert ws[..j] == ws;
    }

    /** One pass of the work loop, for the work at 1-based position `track`. */
    method LinkRecordingWork(rid: int, w: Work, track: int) returns (work: Work)
      requires Valid() && rid <= recordingSeq
      requires track >= 1 && TracksAtMost(recordingWorks, rid, track - 1)
      modifies this
      ensures Valid() && rid <= recordingSeq
      ensures TracksAtMost(recordingWorks, rid, track)
      ensures Snapshot() == LinkWork(old(Snapshot()), rid, w, track).0
      ensures work == LinkWork(old(Snapshot()), rid, w, track).1
    {
      work := w;
      if work.id.None? {
        work := AddWork(work);
      }
      if work.id.Some? {
        InsertWorkLink(rid, work.id.value, track);
      }
    }

    /** The `INSERT OR IGNORE` of one work link. */
    method InsertWorkLink(rid: int, wid: int, track: int)
      requires Valid() && rid <= recordingSeq
      requires track >= 1 && TracksAtMost(recordingWorks, rid, track - 1)
      modifies this
      ensures Valid()
      ensures TracksAtMost(recordingWorks, rid, track)
      ensures Snapshot() == WithWorkLink(old(Snapshot()), rid, wid, track)
    {
      ghost var t0 := Snapshot();
      WithWorkLinkValid(t0, rid, wid, track);
      if !WorkLinked(recordingWorks, rid, wid) {
        recordingWorks := recordingWorks + [RecordingWorkRow(rid, wid, track)];
      }
      assert Snapshot() == WithWorkLink(t0, rid, wid, track);
    }

    /** `get_recordings`: select the rows, then read each one's performers and works. */
    method GetRecordings(composerName: Option<string>, workTitle: Option<string>, labelName: Option<string>,
                         inLibrary: Option<bool>, limit: nat) returns (result: seq<Recording>)
      ensures result == QueryRecordings(Snapshot(), RecordingQuery(composerName, workTitle, labelName, inLibrary), limit)
    {
      var rows := SelectedRows(Snapshot(), RecordingQuery(composerName, workTitle, labelName, inLibrary), limit);
      result := [];
      var i := 0;
      while i < |rows|
        invariant 0 <= i <= |rows|
        invariant |result| == i
        invariant forall k :: 0 <= k < i ==> result[k] == Hydrate(Snapshot(), rows[k])
      {
        var recording := ReadRecording(rows[i]);
        result := result + [recording];
        i := i + 1;
      }
    }

    /** One pass of the row loop of `get_recordings`. */
    method ReadRecording(row: RecordingRow) returns (recording: Recording)
      ensures recording == Hydrate(Snapshot(), row)
    {
      var found := ReadPerformers(row.id);
      var listed := ReadWorks(row.id);
      recording := RecordingOfRow(row).(performers := found, works := listed);
    }

    /** The performers of recording `rid`, in link order. */
    method ReadPerformers(rid: int) returns (found: seq<Performer>)
      ensures found == PerformersOfRows(LinkedPerformerRows(recordingPerformers, performers, rid))
    {
      var performerRows := LinkedPerformerRows(recordingPerformers, performers, rid);
      found := [];
      var j := 0;
      while j < |performerRows|
        invariant 0 <= j <= |performerRows|
        invariant found == PerformersOfRows(performerRows[..j])
      {
        assert performerRows[..j + 1] == performerRows[..j] + [performerRows[j]];
        PerformersOfRowsSnoc(performerRows[..j], performerRows[j]);
        found := found + [PerformerOfRow(performerRows[j])];
        j := j + 1;
      }
      assert performerRows[..j] == performerRows;
    }

    /** The works of recording `rid`, in track order. */
    method ReadWorks(rid: int) returns (listed: seq<Work>)
      ensures listed == WorksOfTracks(LinkedTracks(recordingWorks, works, rid))
    {
      var tracks := LinkedTracks(recordingWorks, works, rid);
      listed := [];
      var j := 0;
      while j < |tracks|
        invariant 0 <= j <= |tracks|
        invariant listed == WorksOfTracks(tracks[..j])
      {
        assert tracks[..j + 1] == tracks[..j] + [tracks[j]];
        WorksOfTracksSnoc(tracks[..j], tracks[j]);
        listed := listed + [WorkOfRow(tracks[j].work)];
        j := j + 1;
      }
      assert tracks[..j] == tracks;
    }

    /** `save_scraped_page` */
    method SaveScrapedPage(page: ScrapePage) returns (res: Result<ScrapePage, StoreError>)
      requires Valid()
      modifies this
      ensures Valid()
      ensures SaveScrapedPageSpec(old(Snapshot()), page).Failure? ==>
        Snapshot() == old(Snapshot()) && res == Failure(IntegrityError(ScrapedPageUrl))
      ensures SaveScrapedPageSpec(old(Snapshot()), page).Success? ==>
        Snapshot() == SaveScrapedPageSpec(old(Snapshot()), page).value.0 &&
        res == Success(SaveScrapedPageSpec(old(Snapshot()), page).value.1)
    {
      if UrlScraped(scrapedPages, page.url) {
        return Failure(IntegrityError(ScrapedPageUrl));
      }
      ghost var t0 := Snapshot();
      SaveScrapedPageValid(t0, page);
      var id := scrapedPageSeq + 1;
      scrapedPages := scrapedPages + [ScrapedPageRow(id, page.url, page.rubric, page.letter, page.pageNumber, page.rawHtml, page.notes)];
      scrapedPageSeq := id;
      res := Success(page.(id := Some(id)));
      assert Snapshot() == SaveScrapedPageSpec(t0, page).value.0;
    }

    /** `page_already_scraped` */
    method PageAlreadyScraped(url: string) returns (r: bool)
      ensures r <==> exists i :: 0 <= i < |scrapedPages| && scrapedPages[i].url == url
    {
      r := UrlScraped(scrapedPages, url);
    }
}
}
