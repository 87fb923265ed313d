/** The closing engine of js/db.js: the store the browser client talks to
    (the `pilots` table joined with its ledger rows, the `closing_history` table
    and the `fechamentos` storage bucket), `DB.addOrUpdatePilot`,
    `DB.performClosing`, `DB.checkAutoClosing`, and the hourly timer of
    js/app.js that calls the scan.

    The clock is not read: the day of the month and the `"YYYY-MM"` month
    reference are parameters. Every failure the backend can answer with is a
    parameter too (a `StepOutcome` per call), and so is the report generator. */
module Closing {
  import opened Wrappers
  import opened Strings
  import opened Ledger

  /** The bytes of a generated PDF. */
  type Document = seq<bv8>

  /** `PDF.generateReport(pilot, totals)`: the document, or the message it raises. */
  type ReportGenerator = (Pilot, Totals) -> Result<Document>

  /** A row of `closing_history`. */
  datatype HistoryRow = HistoryRow(pilotId: PilotId, monthReference: string, totalAmount: Cents, pdfPath: string)

  /** How an operation of `DB` ends: normally, or by throwing an `Error` with this message. */
  datatype Outcome = Done | Failed(message: string)

  /** The answers of the three store calls of one closing. */
  datatype ClosingFaults = ClosingFaults(fetch: StepOutcome, upload: StepOutcome, insertHistory: StepOutcome)

  /** The two places a closing writes to: the history table and the storage bucket. */
  datatype Tables = Tables(history: seq<HistoryRow>, objects: map<string, Document>)

  /** The fields of the pilot form that `DB.addOrUpdatePilot` saves; an empty `id` means a new pilot. */
  datatype PilotForm = PilotForm(
    id: PilotId,
    name: string,
    category: string,
    baseFee: Cents,
    closingDate: int,
    observations: string)

  /** PostgREST's answer to `.single()` when the filter does not select exactly one row. */
  const NotSingleRow := "JSON object requested, multiple (or no) rows returned"

  /** PostgreSQL's answer to an insert whose id is already taken. */
  const DuplicatePilotKey := "duplicate key value violates unique constraint \"pilots_pkey\""

  const FetchErrorPrefix := "Erro ao buscar dados do piloto para fechar: "
  const UploadErrorPrefix := "Erro ao fazer upload do PDF: "
  const HistoryErrorPrefix := "Erro ao salvar histórico: "

  // ---------------------------------------------------------------------------
  // The storage path of a report

  /** `name.replace(/ /g, '_')`: every space becomes an underscore, nothing else changes. */
  function ReplaceSpaces(name: string): (r: string)
    ensures |r| == |name|
    ensures forall i | 0 <= i < |name| :: r[i] == if name[i] == ' ' then '_' else name[i]
    decreases |name|
  {
    if name == [] then []
    else [if name[0] == ' ' then '_' else name[0]] + ReplaceSpaces(name[1..])
  }

  /** `${pilot.id}/${currentMonthRef}_${name with spaces replaced}.pdf`: a
      report lies in its pilot's folder, is named after the month, and has no
      space after `id/month_`. */
  function UploadPath(id: PilotId, monthReference: string, name: string): (path: string)
    ensures IsPrefix(id + "/" + monthReference + "_", path)
    ensures |path| == |id| + |monthReference| + |name| + 6
    ensures path[|path| - 4..] == ".pdf"
    ensures forall i | |id| + |monthReference| + 2 <= i < |path| :: path[i] != ' '
  {
    id + "/" + monthReference + "_" + ReplaceSpaces(name) + ".pdf"
  }

  /** Two pilots whose ids hold no '/' never share a report path, whatever the months and names. */
  lemma UploadPathSeparatesPilots(a: PilotId, b: PilotId, ma: string, mb: string, na: string, nb: string)
    requires '/' !in a && '/' !in b && a != b
    ensures UploadPath(a, ma, na) != UploadPath(b, mb, nb)
  {
    var pa, pb := UploadPath(a, ma, na), UploadPath(b, mb, nb);
    assert forall i | 0 <= i < |a| :: pa[i] == a[i];
    assert forall i | 0 <= i < |b| :: pb[i] == b[i];
    assert pa[|a|] == '/' && pb[|b|] == '/';
    if |a| == |b| {
      var i :| 0 <= i < |a| && a[i] != b[i];
      assert pa[i] != pb[i];
    } else if |a| < |b| {
      assert b[|a|] in b;
      assert pa[|a|] != pb[|a|];
    } else {
      assert a[|b|] in a;
      assert pa[|b|] != pb[|b|];
    }
  }

  /** One pilot's reports of two months (references of equal length) never share a path. */
  lemma UploadPathSeparatesMonths(id: PilotId, m1: string, m2: string, n1: string, n2: string)
    requires |m1| == |m2| && m1 != m2
    ensures UploadPath(id, m1, n1) != UploadPath(id, m2, n2)
  {
    var p1, p2 := UploadPath(id, m1, n1), UploadPath(id, m2, n2);
    var k :| 0 <= k < |m1| && m1[k] != m2[k];
    assert p1[|id| + 1 + k] == m1[k];
    assert p2[|id| + 1 + k] == m2[k];
  }

  // ---------------------------------------------------------------------------
  // performClosing as a function of its inputs

  /** The rows of `pilots` whose id is `id`, in table order. */
  function Matching(pilots: seq<Pilot>, id: PilotId): (rows: seq<Pilot>)
    ensures forall q | q in rows :: q in pilots && q.id == id
    ensures forall q | q in pilots && q.id == id :: q in rows
    decreases |pilots|
  {
    if pilots == [] then []
    else (if pilots[0].id == id then [pilots[0]] else []) + Matching(pilots[1..], id)
  }

  /** `select(*, expenses(*), reimbursements(*)).eq('id', id).single()`: the one
      row with the id, or an error when the call fails or the filter does not
      select exactly one row. */
  function Fetch(pilots: seq<Pilot>, id: PilotId, fault: StepOutcome): (r: Result<Pilot>)
    ensures r.Success? <==> fault.Succeeds? && |Matching(pilots, id)| == 1
    ensures r.Success? ==> r.value in pilots && r.value.id == id
    ensures fault.Fails? ==> r == Failure(fault.message)
    ensures fault.Succeeds? && r.Failure? ==> r.message == NotSingleRow
  {
    if fault.Fails? then Failure(fault.message)
    else
      var rows := Matching(pilots, id);
      if |rows| != 1 then Failure(NotSingleRow)
      else
        assert rows[0] in rows;
        Success(rows[0])
  }

  /** What one closing does: the object it uploads, the history row it inserts, how it ends. */
  datatype Closing = Closing(upload: Option<(string, Document)>, row: Option<HistoryRow>, outcome: Outcome)

  /** `DB.performClosing(pilotId)`: fetch, total, generate, upload, insert; the
      first failing step throws and the steps after it do not run. A closing
      ends normally exactly when it inserts its history row; that row is of the
      requested pilot and month and points at the object the closing uploaded,
      and anything uploaded lies in the pilot's folder. */
  function Plan(pilots: seq<Pilot>, id: PilotId, monthReference: string,
                generate: ReportGenerator, faults: ClosingFaults): (c: Closing)
    ensures c.outcome.Done? <==> c.row.Some?
    ensures c.row.Some? ==>
      && c.upload.Some? && c.row.value.pdfPath == c.upload.value.0
      && c.row.value.pilotId == id && c.row.value.monthReference == monthReference
    ensures c.upload.Some? ==> IsPrefix(id + "/", c.upload.value.0)
  {
    match Fetch(pilots, id, faults.fetch)
    case Failure(m) => Closing(None, None, Failed(FetchErrorPrefix + m))
    case Success(pilot) =>
      var totals := CalculateTotals(pilot);
      match generate(pilot, totals)
      case Failure(m) => Closing(None, None, Failed(m))
      case Success(pdf) =>
        var path := UploadPath(pilot.id, monthReference, pilot.name);
        if faults.upload.Fails? then Closing(None, None, Failed(UploadErrorPrefix + faults.upload.message))
        else if faults.insertHistory.Fails? then
          Closing(Some((path, pdf)), None, Failed(HistoryErrorPrefix + faults.insertHistory.message))
        else
          Closing(Some((path, pdf)), Some(HistoryRow(pilot.id, monthReference, totals.totalMonth, path)), Done)
  }

  /** The tables after a closing: its row appended, its object stored (or overwritten: `upsert: true`). */
  function Apply(t: Tables, c: Closing): (after: Tables)
    ensures |after.history| == |t.history| + (if c.row.Some? then 1 else 0)
    ensures after.history[..|t.history|] == t.history
    ensures c.row.Some? ==> after.history[|t.history|] == c.row.value
    ensures t.objects.Keys <= after.objects.Keys
    ensures c.upload.Some? ==> c.upload.value.0 in after.objects && after.objects[c.upload.value.0] == c.upload.value.1
    ensures forall path | path in t.objects && (c.upload.None? || path != c.upload.value.0) ::
      after.objects[path] == t.objects[path]
    ensures forall path | path in after.objects && path !in t.objects :: c.upload.Some? && path == c.upload.value.0
  {
    Tables(
      t.history + (if c.row.Some? then [c.row.value] else []),
      if c.upload.Some? then t.objects[c.upload.value.0 := c.upload.value.1] else t.objects)
  }

  /** The steps of a closing happen in order and the first failure stops it:
      a fetch, report or upload failure writes nothing; a history failure after
      a good upload leaves the uploaded object behind (nothing removes it) and
      writes no row; and an object without a row means the insert failed. */
  lemma ClosingStepOrder(pilots: seq<Pilot>, id: PilotId, monthReference: string,
                         generate: ReportGenerator, faults: ClosingFaults)
    ensures var c, fetched := Plan(pilots, id, monthReference, generate, faults), Fetch(pilots, id, faults.fetch);
      && (fetched.Failure? ==>
            c == Closing(None, None, Failed(FetchErrorPrefix + fetched.message)))
      && (fetched.Success? && generate(fetched.value, CalculateTotals(fetched.value)).Failure? ==>
            c == Closing(None, None, Failed(generate(fetched.value, CalculateTotals(fetched.value)).message)))
      && (faults.upload.Fails? ==> c.upload.None? && c.row.None? && c.outcome.Failed?)
      && (fetched.Success? && generate(fetched.value, CalculateTotals(fetched.value)).Success?
          && faults.upload.Fails? ==>
            c == Closing(None, None, Failed(UploadErrorPrefix + faults.upload.message)))
      && (fetched.Success? && generate(fetched.value, CalculateTotals(fetched.value)).Success?
          && faults.upload.Succeeds? && faults.insertHistory.Fails? ==>
            && c.upload.Some? && c.row.None?
            && c.outcome == Failed(HistoryErrorPrefix + faults.insertHistory.message))
      && (c.upload.Some? && c.row.None? ==>
            faults.insertHistory.Fails? && c.outcome == Failed(HistoryErrorPrefix + faults.insertHistory.message))
  {
  }

  /** A closing whose fetch, report, upload and insert all succeed ends
      normally, stores the report under the pilot's path and inserts the row
      with the month's total of the fetched pilot. */
  lemma ClosingCompletes(pilots: seq<Pilot>, id: PilotId, monthReference: string,
                         generate: ReportGenerator, faults: ClosingFaults)
    requires Fetch(pilots, id, faults.fetch).Success?
    requires var pilot := Fetch(pilots, id, faults.fetch).value; generate(pilot, CalculateTotals(pilot)).Success?
    requires faults.upload.Succeeds? && faults.insertHistory.Succeeds?
    ensures var c, pilot := Plan(pilots, id, monthReference, generate, faults), Fetch(pilots, id, faults.fetch).value;
      var path := UploadPath(id, monthReference, pilot.name);
      && c.outcome == Done
      && c.upload == Some((path, generate(pilot, CalculateTotals(pilot)).value))
      && c.row == Some(HistoryRow(id, monthReference, CalculateTotals(pilot).totalMonth, path))
  {
  }

  /** The history row of a successful closing belongs to the requested pilot
      and the month, records the month's total of the fetched snapshot and
      points at the object the closing uploaded. */
  lemma ClosingRecordsUpload(pilots: seq<Pilot>, id: PilotId, monthReference: string,
                             generate: ReportGenerator, faults: ClosingFaults)
    requires Plan(pilots, id, monthReference, generate, faults).row.Some?
    ensures var c := Plan(pilots, id, monthReference, generate, faults);
      var pilot := Fetch(pilots, id, faults.fetch).value;
      && pilot in pilots && pilot.id == id
      && c.row.value == HistoryRow(id, monthReference, CalculateTotals(pilot).totalMonth,
                                   UploadPath(id, monthReference, pilot.name))
      && c.upload.value.0 == c.row.value.pdfPath
  {
    var rows := Matching(pilots, id);
    assert rows[0] in rows;
  }

  // ---------------------------------------------------------------------------
  // checkAutoClosing as a function of its inputs

  /** `new Set(history.map(h => h.pilot_id))` over the rows of the month. */
  function ClosedPilots(history: seq<HistoryRow>, monthReference: string): (closed: set<PilotId>)
    ensures forall r | r in history && r.monthReference == monthReference :: r.pilotId in closed
    ensures forall id | id in closed :: exists r | r in history :: r.pilotId == id && r.monthReference == monthReference
  {
    set r | r in history && r.monthReference == monthReference :: r.pilotId
  }

  /** `pilot.closingDate === today && !alreadyClosed` */
  predicate Due(pilot: Pilot, today: int, closed: set<PilotId>) {
    pilot.closingDate == today && pilot.id !in closed
  }

  /** A pilot is due on its closing day only, so on at most one day of the
      month, and never once it has a closing in the month. */
  lemma DueOnlyOnClosingDay(pilot: Pilot, day1: int, day2: int, closed: set<PilotId>)
    ensures Due(pilot, day1, closed) && Due(pilot, day2, closed) ==> day1 == day2
    ensures pilot.id in closed ==> !Due(pilot, day1, closed)
    ensures pilot.id !in closed ==> Due(pilot, pilot.closingDate, closed)
  {
  }

  /** The tables after the loop of the scan has gone through `scanned`, in
      order: the history only grows at its end and no object is removed. */
  function Scan(pilots: seq<Pilot>, scanned: seq<Pilot>, closed: set<PilotId>, today: int, monthReference: string,
                generate: ReportGenerator, faults: PilotId -> ClosingFaults, t: Tables): (r: Tables)
    ensures |t.history| <= |r.history| && r.history[..|t.history|] == t.history
    ensures t.objects.Keys <= r.objects.Keys
    decreases |scanned|
  {
    if scanned == [] then t
    else
      var before := Scan(pilots, scanned[..|scanned| - 1], closed, today, monthReference, generate, faults, t);
      var pilot := scanned[|scanned| - 1];
      if Due(pilot, today, closed)
      then Apply(before, Plan(pilots, pilot.id, monthReference, generate, faults(pilot.id)))
      else before
  }

  /** The history rows the scan of `scanned` inserts: one per due pilot whose closing succeeds, in order. */
  function NewRows(pilots: seq<Pilot>, scanned: seq<Pilot>, closed: set<PilotId>, today: int, monthReference: string,
                   generate: ReportGenerator, faults: PilotId -> ClosingFaults): seq<HistoryRow>
    decreases |scanned|
  {
    if scanned == [] then []
    else
      var pilot := scanned[|scanned| - 1];
      var c := Plan(pilots, pilot.id, monthReference, generate, faults(pilot.id));
      NewRows(pilots, scanned[..|scanned| - 1], closed, today, monthReference, generate, faults)
        + (if Due(pilot, today, closed) && c.row.Some? then [c.row.value] else [])
  }

  /** The scan only appends to the history, and what it appends is `NewRows`. */
  lemma {:induction false} ScanAppendsNewRows(pilots: seq<Pilot>, scanned: seq<Pilot>, closed: set<PilotId>, today: int,
                                              monthReference: string, generate: ReportGenerator,
                                              faults: PilotId -> ClosingFaults, t: Tables)
    ensures Scan(pilots, scanned, closed, today, monthReference, generate, faults, t).history
         == t.history + NewRows(pilots, scanned, closed, today, monthReference, generate, faults)
    decreases |scanned|
  {
    if scanned != [] {
      ScanAppendsNewRows(pilots, scanned[..|scanned| - 1], closed, today, monthReference, generate, faults, t);
    }
  }

  /** The scan closes exactly the due pilots: every new row is the row of a due
      pilot's successful closing, and every due pilot whose closing succeeds has
      its row, whatever happened to the pilots before it. */
  lemma {:induction false} NewRowsAreDueClosings(pilots: seq<Pilot>, scanned: seq<Pilot>, closed: set<PilotId>, today: int,
                                                 monthReference: string, generate: ReportGenerator,
                                                 faults: PilotId -> ClosingFaults)
    ensures var rows := NewRows(pilots, scanned, closed, today, monthReference, generate, faults);
      forall r ::
        r in rows <==>
        exists pilot | pilot in scanned ::
          && Due(pilot, today, closed)
          && Plan(pilots, pilot.id, monthReference, generate, faults(pilot.id)).row == Some(r)
    decreases |scanned|
  {
    if scanned != [] {
      var init, pilot := scanned[..|scanned| - 1], scanned[|scanned| - 1];
      assert scanned == init + [pilot];
      NewRowsAreDueClosings(pilots, init, closed, today, monthReference, generate, faults);
    }
  }

  /** Every row the scan inserts is a row of the month for a pilot that was not closed yet. */
  lemma {:induction false} NewRowsOfOpenPilots(pilots: seq<Pilot>, scanned: seq<Pilot>, closed: set<PilotId>, today: int,
                                               monthReference: string, generate: ReportGenerator,
                                               faults: PilotId -> ClosingFaults)
    ensures var rows := NewRows(pilots, scanned, closed, today, monthReference, generate, faults);
      forall r | r in rows :: r.pilotId !in closed && r.monthReference == monthReference
  {
    NewRowsAreDueClosings(pilots, scanned, closed, today, monthReference, generate, faults);
    var rows := NewRows(pilots, scanned, closed, today, monthReference, generate, faults);
    forall r | r in rows
      ensures r.pilotId !in closed && r.monthReference == monthReference
    {
      var pilot :| pilot in scanned && Due(pilot, today, closed)
        && Plan(pilots, pilot.id, monthReference, generate, faults(pilot.id)).row == Some(r);
      ClosingRecordsUpload(pilots, pilot.id, monthReference, generate, faults(pilot.id));
    }
  }

  /** A second scan in the same month, with any outcomes, closes none of the
      pilots the first scan closed: their rows are now in the history. */
  lemma ScanTwiceClosesOnce(pilots: seq<Pilot>, today: int, monthReference: string,
                            generate: ReportGenerator, faults: PilotId -> ClosingFaults,
                            generate2: ReportGenerator, faults2: PilotId -> ClosingFaults, t: Tables)
    ensures
      var t1 := Scan(pilots, pilots, ClosedPilots(t.history, monthReference), today, monthReference, generate, faults, t);
      var first := NewRows(pilots, pilots, ClosedPilots(t.history, monthReference), today, monthReference, generate, faults);
      var second := NewRows(pilots, pilots, ClosedPilots(t1.history, monthReference), today, monthReference, generate2, faults2);
      forall r1, r2 | r1 in first && r2 in second :: r1.pilotId != r2.pilotId
  {
    var closed := ClosedPilots(t.history, monthReference);
    var t1 := Scan(pilots, pilots, closed, today, monthReference, generate, faults, t);
    var first := NewRows(pilots, pilots, closed, today, monthReference, generate, faults);
    var closed1 := ClosedPilots(t1.history, monthReference);
    ScanAppendsNewRows(pilots, pilots, closed, today, monthReference, generate, faults, t);
    NewRowsOfOpenPilots(pilots, pilots, closed, today, monthReference, generate, faults);
    NewRowsOfOpenPilots(pilots, pilots, closed1, today, monthReference, generate2, faults2);
    forall r1 | r1 in first
      ensures r1.pilotId in closed1
    {
      assert r1 in t1.history;
    }
  }

  /** The scan touches no other pilot's folder: every object it adds or
      overwrites lies under the folder of a due pilot. */
  lemma {:induction false} ScanWritesOnlyDueFolders(pilots: seq<Pilot>, scanned: seq<Pilot>, closed: set<PilotId>, today: int,
                                                    monthReference: string, generate: ReportGenerator,
                                                    faults: PilotId -> ClosingFaults, t: Tables)
    ensures var after := Scan(pilots, scanned, closed, today, monthReference, generate, faults, t);
      forall path | path in after.objects && (path !in t.objects || after.objects[path] != t.objects[path]) ::
        exists pilot | pilot in scanned :: Due(pilot, today, closed) && IsPrefix(pilot.id + "/", path)
    decreases |scanned|
  {
    if scanned != [] {
      var init, pilot := scanned[..|scanned| - 1], scanned[|scanned| - 1];
      assert scanned == init + [pilot];
      ScanWritesOnlyDueFolders(pilots, init, closed, today, monthReference, generate, faults, t);
      var c := Plan(pilots, pilot.id, monthReference, generate, faults(pilot.id));
      if Due(pilot, today, closed) && c.upload.Some? {
        var path := c.upload.value.0;
        assert path[..|pilot.id + "/"|] == pilot.id + "/";
      }
    }
  }

  /** At most one history row per pilot and month. */
  ghost predicate OneClosingPerMonth(history: seq<HistoryRow>) {
    forall i, j | 0 <= i < j < |history| ::
      history[i].pilotId != history[j].pilotId || history[i].monthReference != history[j].monthReference
  }

  /** Pilot ids are unique in the table (its primary key). */
  ghost predicate UniqueIds(pilots: seq<Pilot>) {
    forall i, j | 0 <= i < j < |pilots| :: pilots[i].id != pilots[j].id
  }

  /** Rows of distinct pilots, in the order of a table whose ids are unique. */
  lemma {:induction false} NewRowsDistinctPilots(pilots: seq<Pilot>, scanned: seq<Pilot>, closed: set<PilotId>, today: int,
                                                 monthReference: string, generate: ReportGenerator,
                                                 faults: PilotId -> ClosingFaults)
    requires UniqueIds(scanned)
    ensures var rows := NewRows(pilots, scanned, closed, today, monthReference, generate, faults);
      && (forall i, j | 0 <= i < j < |rows| :: rows[i].pilotId != rows[j].pilotId)
      && (forall r | r in rows :: exists pilot | pilot in scanned :: pilot.id == r.pilotId)
    decreases |scanned|
  {
    if scanned != [] {
      var init, pilot := scanned[..|scanned| - 1], scanned[|scanned| - 1];
      assert UniqueIds(init);
      NewRowsDistinctPilots(pilots, init, closed, today, monthReference, generate, faults);
      var c := Plan(pilots, pilot.id, monthReference, generate, faults(pilot.id));
      if Due(pilot, today, closed) && c.row.Some? {
        ClosingRecordsUpload(pilots, pilot.id, monthReference, generate, faults(pilot.id));
        var rows := NewRows(pilots, init, closed, today, monthReference, generate, faults);
        forall r | r in rows
          ensures r.pilotId != pilot.id
        {
          var q :| q in init && q.id == r.pilotId;
          var k :| 0 <= k < |init| && init[k] == q;
          assert scanned[k] == q;
        }
      }
    }
  }

  /** A scan keeps at most one history row per pilot and month: it only
      inserts rows of the month for pilots that had none, one per pilot. */
  lemma ScanKeepsOneClosingPerMonth(pilots: seq<Pilot>, today: int, monthReference: string,
                                    generate: ReportGenerator, faults: PilotId -> ClosingFaults, t: Tables)
    requires UniqueIds(pilots)
    requires OneClosingPerMonth(t.history)
    ensures OneClosingPerMonth(
      Scan(pilots, pilots, ClosedPilots(t.history, monthReference), today, monthReference, generate, faults, t).history)
  {
    var closed := ClosedPilots(t.history, monthReference);
    var rows := NewRows(pilots, pilots, closed, today, monthReference, generate, faults);
    ScanAppendsNewRows(pilots, pilots, closed, today, monthReference, generate, faults, t);
    NewRowsOfOpenPilots(pilots, pilots, closed, today, monthReference, generate, faults);
    NewRowsDistinctPilots(pilots, pilots, closed, today, monthReference, generate, faults);
    var h := t.history + rows;
    forall i, j | 0 <= i < j < |h|
      ensures h[i].pilotId != h[j].pilotId || h[i].monthReference != h[j].monthReference
    {
      if j >= |t.history| {
        assert h[j] == rows[j - |t.history|];
        assert h[j] in rows;
        if i < |t.history| {
          assert h[i] in t.history;
          if h[i].monthReference == monthReference {
            assert h[i].pilotId in closed;
          }
        } else {
          assert h[i] == rows[i - |t.history|];
        }
      }
    }
  }

  /** An update touches the rows with the form's id only, and keeps every row's id and ledger rows. */
  function Saved(pilot: Pilot, form: PilotForm): Pilot {
    pilot.(name := form.name, category := form.category, baseFee := form.baseFee,
           closingDate := form.closingDate, observations := form.observations)
  }

  /** `from('pilots').update(dataToSave).eq('id', pilotData.id)`: the rows with
      the form's id take its name, category, fee, closing day and observations;
      the table keeps its ids, order and ledger rows, and no other row changes. */
  function Updated(pilots: seq<Pilot>, form: PilotForm): (after: seq<Pilot>)
    ensures |after| == |pilots|
    ensures forall i | 0 <= i < |pilots| ::
      && after[i].id == pilots[i].id
      && after[i].expenses == pilots[i].expenses
      && after[i].reimbursements == pilots[i].reimbursements
      && (pilots[i].id != form.id ==> after[i] == pilots[i])
    ensures forall i | 0 <= i < |pilots| && pilots[i].id == form.id ::
      && after[i].name == form.name && after[i].category == form.category
      && after[i].baseFee == form.baseFee && after[i].closingDate == form.closingDate
      && after[i].observations == form.observations
  {
    seq(|pilots|, i requires 0 <= i < |pilots| => if pilots[i].id == form.id then Saved(pilots[i], form) else pilots[i])
  }

  /** An update with an id that no row has changes nothing and raises no error. */
  lemma UpdateOfUnknownIdChangesNothing(pilots: seq<Pilot>, form: PilotForm)
    requires forall i | 0 <= i < |pilots| :: pilots[i].id != form.id
    ensures Updated(pilots, form) == pilots
  {
  }

  // ---------------------------------------------------------------------------
  // The store and the operations of DB that change it

  class Store {
    /** The `pilots` table with each pilot's expense and reimbursement rows of the month. */
    var pilots: seq<Pilot>
    /** The `closing_history` table. */
    var history: seq<HistoryRow>
    /** The `fechamentos` bucket: objects by path. */
    var objects: map<string, Document>

    constructor (pilots: seq<Pilot>, history: seq<HistoryRow>, objects: map<string, Document>)
      ensures this.pilots == pilots && this.history == history && this.objects == objects
    {
      this.pilots := pilots;
      this.history := history;
      this.objects := objects;
    }

    function Snapshot(): Tables
      reads this
    {
      Tables(history, objects)
    }

    /** `select(*, expenses(*), reimbursements(*)).eq('id', id).single()` */
    method SelectPilot(id: PilotId, fault: StepOutcome) returns (r: Result<Pilot>)
      ensures r == Fetch(pilots, id, fault)
      ensures r.Success? ==> r.value in pilots && r.value.id == id
    {
      if fault.Fails? {
        return Failure(fault.message);
      }
      var rows := Matching(pilots, id);
      if |rows| != 1 {
        return Failure(NotSingleRow);
      }
      assert rows[0] in rows;
      return Success(rows[0]);
    }

    /** `storage.from('fechamentos').upload(path, pdf, { upsert: true })`: answers the path it stored under. */
    method Upload(path: string, pdf: Document, fault: StepOutcome) returns (r: Result<string>)
      modifies this`objects
      ensures fault.Succeeds? ==> r == Success(path) && objects == old(objects)[path := pdf]
      ensures fault.Fails? ==> r == Failure(fault.message) && objects == old(objects)
    {
      if fault.Fails? {
        return Failure(fault.message);
      }
      objects := objects[path := pdf];
      return Success(path);
    }

    /** `from('closing_history').insert(row)` */
    method InsertHistory(row: HistoryRow, fault: StepOutcome) returns (r: StepOutcome)
      modifies this`history
      ensures r == fault
      ensures history == if fault.Succeeds? then old(history) + [row] else old(history)
    {
      if fault.Succeeds? {
        history := history + [row];
      }
      return fault;
    }

    /** `DB.addOrUpdatePilot(pilotData)`: an update when the form carries an id,
        an insert (under the id the database generates) otherwise; a store error is rethrown. */
    method AddOrUpdatePilot(form: PilotForm, generatedId: PilotId, fault: StepOutcome) returns (r: Outcome)
      modifies this`pilots
      ensures fault.Fails? ==> r == Failed(fault.message) && pilots == old(pilots)
      ensures fault.Succeeds? && form.id != "" ==> r == Done && pilots == Updated(old(pilots), form)
      ensures fault.Succeeds? && form.id == "" && (exists i | 0 <= i < |old(pilots)| :: old(pilots)[i].id == generatedId) ==>
        r == Failed(DuplicatePilotKey) && pilots == old(pilots)
      ensures fault.Succeeds? && form.id == "" && (forall i | 0 <= i < |old(pilots)| :: old(pilots)[i].id != generatedId) ==>
        r == Done && pilots == old(pilots) + [Pilot(generatedId, form.name, form.category, form.baseFee,
                                                   form.closingDate, form.observations, [], [])]
      ensures UniqueIds(old(pilots)) ==> UniqueIds(pilots)
    {
      if fault.Fails? {
        return Failed(fault.message);
      }
      if form.id != "" {
        pilots := Updated(pilots, form);
      } else {
        if exists i | 0 <= i < |pilots| :: pilots[i].id == generatedId {
          return Failed(DuplicatePilotKey);
        }
        pilots := pilots + [Pilot(generatedId, form.name, form.category, form.baseFee,
                                  form.closingDate, form.observations, [], [])];
      }
      return Done;
    }

    /** `DB.performClosing(pilotId)` */
    method PerformClosing(pilotId: PilotId, monthReference: string, generate: ReportGenerator, faults: ClosingFaults)
      returns (r: Outcome)
      modifies this`history, this`objects
      ensures r == Plan(pilots, pilotId, monthReference, generate, faults).outcome
      ensures Snapshot() == Apply(old(Snapshot()), Plan(pilots, pilotId, monthReference, generate, faults))
    {
      var fetched := SelectPilot(pilotId, faults.fetch);
      if fetched.Failure? {
        return Failed(FetchErrorPrefix + fetched.message);
      }
      var pilot := fetched.value;
      var totals := CalculateTotals(pilot);
      var pdf := generate(pilot, totals);
      if pdf.Failure? {
        return Failed(pdf.message);
      }
      var filePath := UploadPath(pilot.id, monthReference, pilot.name);
      var uploaded := Upload(filePath, pdf.value, faults.upload);
      if uploaded.Failure? {
        return Failed(UploadErrorPrefix + uploaded.message);
      }
      var inserted := InsertHistory(HistoryRow(pilot.id, monthReference, totals.totalMonth, uploaded.value),
                                    faults.insertHistory);
      if inserted.Fails? {
        return Failed(HistoryErrorPrefix + inserted.message);
      }
      return Done;
    }

    /** `DB.checkAutoClosing()`: load the pilots, load the month's history, then
        close every pilot whose closing day is today and that has no row for
        the month; one pilot's failure is caught and the loop goes on. */
    method CheckAutoClosing(today: int, monthReference: string, pilotsQuery: StepOutcome, historyQuery: StepOutcome,
                            generate: ReportGenerator, faults: PilotId -> ClosingFaults)
      modifies this`history, this`objects
      ensures pilotsQuery.Fails? || historyQuery.Fails? ==> Snapshot() == old(Snapshot())
      ensures pilotsQuery.Succeeds? && historyQuery.Succeeds? ==>
        Snapshot() == Scan(pilots, pilots, ClosedPilots(old(history), monthReference), today, monthReference,
                           generate, faults, old(Snapshot()))
    {
      if pilotsQuery.Fails? {
        return;
      }
      var loaded := pilots;
      if historyQuery.Fails? {
        return;
      }
      var closedPilots := ClosedPilots(history, monthReference);
      var wasClosed := false;
      for i := 0 to |loaded|
        invariant Snapshot() == Scan(pilots, loaded[..i], closedPilots, today, monthReference, generate, faults, old(Snapshot()))
      {
        var pilot := loaded[i];
        assert loaded[..i + 1][..i] == loaded[..i];
        var alreadyClosed := pilot.id in closedPilots;
        if pilot.closingDate == today && !alreadyClosed {
          var outcome := PerformClosing(pilot.id, monthReference, generate, faults(pilot.id));
          if outcome.Done? {
            wasClosed := true;
          }
        }
      }
      assert loaded[..|loaded|] == loaded;
    }

    /** The hourly timer of js/app.js: the scan runs whenever a session exists;
        the admin role is not checked. */
    method SchedulerTick(authenticated: bool, today: int, monthReference: string,
                         pilotsQuery: StepOutcome, historyQuery: StepOutcome,
                         generate: ReportGenerator, faults: PilotId -> ClosingFaults)
      modifies this`history, this`objects
      ensures !authenticated ==> Snapshot() == old(Snapshot())
      ensures authenticated && pilotsQuery.Succeeds? && historyQuery.Succeeds? ==>
        Snapshot() == Scan(pilots, pilots, ClosedPilots(old(history), monthReference), today, monthReference,
                           generate, faults, old(Snapshot()))
      ensures authenticated && (pilotsQuery.Fails? || historyQuery.Fails?) ==> Snapshot() == old(Snapshot())
    {
      if authenticated {
        CheckAutoClosing(today, monthReference, pilotsQuery, historyQuery, generate, faults);
      }
    }
  }
}
