/** The resumable import of GAR files into staging: any number of imports, crashes and restarts in any order. */
module Importer {
  import opened Wrappers

  // Kind, region and object identity; two staged rows of a batch may not share it.
  datatype ObjectKey = ObjectKey(kind: string, region: int, objectId: int)

  // A decoded row; the hashes stand for the payloads.
  datatype Row = Good(key: ObjectKey, hash: string) | Bad(hash: string, code: string)

  // A file is a fixed list of rows, numbered from one.
  type File = seq<Row>

  datatype Place = Place(file: string, row: int)

  datatype Batch = Batch(staging: bool, checkpointFile: string, checkpointRow: nat,
                         staged: map<Place, Row>, rejected: map<Place, Row>)

  predicate Clashes(b: Batch, at: Place, row: Row) {
    row.Good? && exists p :: p in b.staged && p != at && b.staged[p].Good? && b.staged[p].key == row.key
  }

  // Stage or Reject: a repeat with the same payload is accepted and changes nothing. None is ErrBatchConflict.
  function Record(b: Batch, at: Place, row: Row): Option<Batch> {
    if !b.staging then None
    else if row.Good? then
      if at in b.staged then (if b.staged[at] == row then Some(b) else None)
      else if Clashes(b, at, row) then None
      else Some(b.(staged := b.staged[at := row]))
    else
      if at in b.rejected then (if b.rejected[at] == row then Some(b) else None)
      else Some(b.(rejected := b.rejected[at := row]))
  }

  function Advance(b: Batch, file: string, row: nat): Option<Batch> {
    if b.staging then Some(b.(checkpointFile := file, checkpointRow := row)) else None
  }

  predicate IsRecorded(b: Batch, at: Place, row: Row) {
    if row.Good? then at in b.staged && b.staged[at] == row else at in b.rejected && b.rejected[at] == row
  }

  // Rows 1 to n of a file are recorded.
  predicate Covered(b: Batch, name: string, file: File, n: int) {
    n <= |file| && forall i :: 1 <= i <= n ==> IsRecorded(b, Place(name, i), file[i - 1])
  }

  // Nothing is recorded that the files do not hold.
  predicate Faithful(b: Batch, files: map<string, File>) {
    && (forall p :: p in b.staged ==> Holds(files, p) && b.staged[p] == files[p.file][p.row - 1] && b.staged[p].Good?)
    && (forall p :: p in b.rejected ==> Holds(files, p) && b.rejected[p] == files[p.file][p.row - 1] && b.rejected[p].Bad?)
  }

  predicate Holds(files: map<string, File>, p: Place) {
    p.file in files && 1 <= p.row <= |files[p.file]|
  }

  // ---------- interleaved imports ----------

  // A running ImportFile: its file, and the last row it has seen (resumeRow before the first).
  datatype Process = Process(file: string, seen: nat)

  datatype State = State(batch: Batch, processes: map<int, Process>)

  datatype Op =
    | Start(process: int, file: string)
    | Next(process: int)                    // record the next row
    | Checkpoint(process: int)              // the periodic checkpoint
    | Finish(process: int)                  // the last checkpoint, after all rows
    | Crash(process: int)
    | FinishStaging

  function ResumeRow(b: Batch, file: string): nat {
    if b.checkpointFile == file then b.checkpointRow else 0
  }

  function Step(s: State, files: map<string, File>, op: Op): State {
    match op
    case Start(p, f) =>
      if p in s.processes || f == "" || f !in files || !s.batch.staging then s
      else s.(processes := s.processes[p := Process(f, ResumeRow(s.batch, f))])
    case Next(p) =>
      if p !in s.processes || s.processes[p].file !in files then s
      else
        var f, n := s.processes[p].file, s.processes[p].seen;
        if n >= |files[f]| then s
        else (match Record(s.batch, Place(f, n + 1), files[f][n])
              case None => s.(processes := s.processes - {p})
              case Some(b) => s.(batch := b, processes := s.processes[p := Process(f, n + 1)]))
    case Checkpoint(p) =>
      if p !in s.processes then s
      else (match Advance(s.batch, s.processes[p].file, s.processes[p].seen)
            case None => s.(processes := s.processes - {p})
            case Some(b) => s.(batch := b))
    case Finish(p) =>
      if p !in s.processes || s.processes[p].file !in files || s.processes[p].seen < |files[s.processes[p].file]| then s
      else (match Advance(s.batch, s.processes[p].file, s.processes[p].seen)
            case None => s.(processes := s.processes - {p})
            case Some(b) => State(b, s.processes - {p}))
    case Crash(p) => s.(processes := s.processes - {p})
    case FinishStaging => s.(batch := s.batch.(staging := false))
  }

  function Run(s: State, files: map<string, File>, ops: seq<Op>): State
    decreases |ops|
  {
    if ops == [] then s else Step(Run(s, files, ops[..|ops| - 1]), files, ops[|ops| - 1])
  }

  const FRESH := State(Batch(true, "", 0, map[], map[]), map[])

  // ---------- the invariant ----------

  ghost predicate CheckpointOk(b: Batch, files: map<string, File>) {
    b.checkpointFile != "" ==> b.checkpointFile in files && Covered(b, b.checkpointFile, files[b.checkpointFile], b.checkpointRow)
  }

  ghost predicate ProcessOk(s: State, files: map<string, File>, p: int) {
    p in s.processes && s.processes[p].file != "" && s.processes[p].file in files
    && Covered(s.batch, s.processes[p].file, files[s.processes[p].file], s.processes[p].seen)
  }

  ghost predicate Sound(s: State, files: map<string, File>) {
    && Faithful(s.batch, files) && CheckpointOk(s.batch, files)
    && forall p {:trigger ProcessOk(s, files, p)} :: p in s.processes ==> ProcessOk(s, files, p)
  }

  // Records are only ever added.
  ghost predicate Grows(b: Batch, c: Batch) {
    && (forall p :: p in b.staged ==> p in c.staged && c.staged[p] == b.staged[p])
    && (forall p :: p in b.rejected ==> p in c.rejected && c.rejected[p] == b.rejected[p])
  }

  lemma CoveredGrows(b: Batch, c: Batch, name: string, file: File, n: int)
    requires Grows(b, c) && Covered(b, name, file, n)
    ensures Covered(c, name, file, n)
  {
    forall i | 1 <= i <= n ensures IsRecorded(c, Place(name, i), file[i - 1]) {
      assert IsRecorded(b, Place(name, i), file[i - 1]);
    }
  }

  lemma RecordCovers(b: Batch, c: Batch, name: string, file: File, n: nat)
    requires Covered(b, name, file, n) && n < |file| && Record(b, Place(name, n + 1), file[n]) == Some(c)
    ensures Grows(b, c) && Covered(c, name, file, n + 1)
  {
    CoveredGrows(b, c, name, file, n);
    forall i | 1 <= i <= n + 1 ensures IsRecorded(c, Place(name, i), file[i - 1]) {
      if i <= n { assert IsRecorded(c, Place(name, i), file[i - 1]); }
    }
  }

  lemma GrownKeepsProcess(s: State, t: State, files: map<string, File>, p: int)
    requires ProcessOk(s, files, p) && Grows(s.batch, t.batch) && p in t.processes && t.processes[p] == s.processes[p]
    ensures ProcessOk(t, files, p)
  {
    CoveredGrows(s.batch, t.batch, s.processes[p].file, files[s.processes[p].file], s.processes[p].seen);
  }

  lemma NextKeepsSound(s: State, files: map<string, File>, p: int)
    requires Sound(s, files)
    ensures Sound(Step(s, files, Next(p)), files) && Grows(s.batch, Step(s, files, Next(p)).batch)
  {
    var t := Step(s, files, Next(p));
    if p in s.processes {
      assert ProcessOk(s, files, p);
      var f, n := s.processes[p].file, s.processes[p].seen;
      if n < |files[f]| && Record(s.batch, Place(f, n + 1), files[f][n]).Some? {
        RecordKeeps(s.batch, s.batch, files, f, n, t.batch);
      }
    }
    forall q | q in t.processes && t.processes[q] == s.processes[q] ensures ProcessOk(t, files, q) {
      assert ProcessOk(s, files, q);
      GrownKeepsProcess(s, t, files, q);
    }
  }

  lemma StepKeepsSound(s: State, files: map<string, File>, op: Op)
    requires Sound(s, files)
    ensures Sound(Step(s, files, op), files) && Grows(s.batch, Step(s, files, op).batch)
  {
    var t := Step(s, files, op);
    if op.Next? {
      NextKeepsSound(s, files, op.process);
    } else {
      if op.Checkpoint? || op.Finish? {
        if op.process in s.processes { assert ProcessOk(s, files, op.process); }
      }
      if t.batch.checkpointFile != "" {
        CoveredGrows(s.batch, t.batch, t.batch.checkpointFile, files[t.batch.checkpointFile], t.batch.checkpointRow);
      }
      forall q | q in t.processes ensures ProcessOk(t, files, q) {
        if q in s.processes {
          assert ProcessOk(s, files, q);
          GrownKeepsProcess(s, t, files, q);
        }
      }
    }
  }

  /** In every interleaving of imports, crashes and restarts the checkpoint is truthful: every row at or below it is
      recorded, and every record is a row of its file. */
  lemma {:induction false} CheckpointIsTruthful(files: map<string, File>, ops: seq<Op>)
    ensures Sound(Run(FRESH, files, ops), files)
    decreases |ops|
  {
    if ops != [] {
      CheckpointIsTruthful(files, ops[..|ops| - 1]);
      StepKeepsSound(Run(FRESH, files, ops[..|ops| - 1]), files, ops[|ops| - 1]);
    }
  }

  // ---------- same result as one uninterrupted import ----------

  // What a single import of the file records.
  function StagedOf(name: string, file: File): map<Place, Row> {
    map i | 1 <= i <= |file| && file[i - 1].Good? :: Place(name, i) := file[i - 1]
  }

  function RejectedOf(name: string, file: File): map<Place, Row> {
    map i | 1 <= i <= |file| && file[i - 1].Bad? :: Place(name, i) := file[i - 1]
  }

  function OfFile(records: map<Place, Row>, name: string): map<Place, Row> {
    map p | p in records && p.file == name :: records[p]
  }

  // The file's records are complete and exact.
  ghost predicate Imported(b: Batch, name: string, file: File) {
    OfFile(b.staged, name) == StagedOf(name, file) && OfFile(b.rejected, name) == RejectedOf(name, file)
  }

  lemma CoveredIsImported(b: Batch, files: map<string, File>, name: string)
    requires Faithful(b, files) && name in files && Covered(b, name, files[name], |files[name]|)
    ensures Imported(b, name, files[name])
  {
    StagedIsExact(b, files, name);
    RejectedIsExact(b, files, name);
  }

  lemma StagedIsExact(b: Batch, files: map<string, File>, name: string)
    requires Faithful(b, files) && name in files && Covered(b, name, files[name], |files[name]|)
    ensures OfFile(b.staged, name) == StagedOf(name, files[name])
  {
    forall p ensures p in OfFile(b.staged, name) <==> p in StagedOf(name, files[name]) {
      if p in StagedOf(name, files[name]) { assert IsRecorded(b, Place(name, p.row), files[name][p.row - 1]); }
    }
  }

  lemma RejectedIsExact(b: Batch, files: map<string, File>, name: string)
    requires Faithful(b, files) && name in files && Covered(b, name, files[name], |files[name]|)
    ensures OfFile(b.rejected, name) == RejectedOf(name, files[name])
  {
    forall p ensures p in OfFile(b.rejected, name) <==> p in RejectedOf(name, files[name]) {
      if p in RejectedOf(name, files[name]) { assert IsRecorded(b, Place(name, p.row), files[name][p.row - 1]); }
    }
  }

  lemma {:induction false} RecordsGrow(files: map<string, File>, ops: seq<Op>, more: seq<Op>)
    ensures Grows(Run(FRESH, files, ops).batch, Run(FRESH, files, ops + more).batch)
    decreases |more|
  {
    if more == [] {
      assert ops + more == ops;
    } else {
      var all := ops + more;
      assert all[..|all| - 1] == ops + more[..|more| - 1];
      RecordsGrow(files, ops, more[..|more| - 1]);
      CheckpointIsTruthful(files, all[..|all| - 1]);
      StepKeepsSound(Run(FRESH, files, all[..|all| - 1]), files, all[|all| - 1]);
    }
  }

  /** Once any import of a file has gone through all its rows, whatever crashed, resumed or ran beside it, the file's
      staged and rejected rows are and stay those of one uninterrupted import. */
  lemma FinishedImportIsExact(files: map<string, File>, ops: seq<Op>, more: seq<Op>, p: int)
    requires var s := Run(FRESH, files, ops);
             p in s.processes && s.processes[p].file in files && s.processes[p].seen == |files[s.processes[p].file]|
    ensures var name := Run(FRESH, files, ops).processes[p].file;
            Imported(Run(FRESH, files, ops + more).batch, name, files[name])
  {
    var s := Run(FRESH, files, ops);
    var name := s.processes[p].file;
    CheckpointIsTruthful(files, ops);
    assert ProcessOk(s, files, p);
    RecordsGrow(files, ops, more);
    var t := Run(FRESH, files, ops + more);
    CoveredGrows(s.batch, t.batch, name, files[name], |files[name]|);
    CheckpointIsTruthful(files, ops + more);
    CoveredIsImported(t.batch, files, name);
  }

  // No two rows of the files describe the same object.
  ghost predicate DistinctObjects(files: map<string, File>) {
    forall p, q :: Holds(files, p) && Holds(files, q) && p != q
                   && files[p.file][p.row - 1].Good? && files[q.file][q.row - 1].Good?
                   ==> files[p.file][p.row - 1].key != files[q.file][q.row - 1].key
  }

  /** While staging is open the next row fails to be recorded, first time or again, exactly when another row took
      its object; never when the files describe distinct objects. */
  lemma OnlyClashesConflict(files: map<string, File>, ops: seq<Op>, p: int)
    requires var s := Run(FRESH, files, ops);
             s.batch.staging && p in s.processes && s.processes[p].file in files && s.processes[p].seen < |files[s.processes[p].file]|
    ensures var s := Run(FRESH, files, ops);
            var f, n := s.processes[p].file, s.processes[p].seen;
            && (Record(s.batch, Place(f, n + 1), files[f][n]).None?
                <==> Place(f, n + 1) !in s.batch.staged && Clashes(s.batch, Place(f, n + 1), files[f][n]))
            && (DistinctObjects(files) ==> Record(s.batch, Place(f, n + 1), files[f][n]).Some?)
  {
    CheckpointIsTruthful(files, ops);
    var s := Run(FRESH, files, ops);
    var f, n := s.processes[p].file, s.processes[p].seen;
    var at, row := Place(f, n + 1), files[f][n];
    assert Holds(files, at) && files[at.file][at.row - 1] == row;
    if DistinctObjects(files) && row.Good? {
      forall q | q in s.batch.staged && q != at ensures s.batch.staged[q].key != row.key { assert Holds(files, q); }
    }
  }

  // ---------- the importer as it runs ----------

  class Store {
    var batch: Batch

    constructor ()
      ensures batch == FRESH.batch
    {
      batch := Batch(true, "", 0, map[], map[]);
    }

    /** ImportFile; `alive` says after which rows the context is still live, so that a run can stop at any row. */
    method ImportFile(name: string, files: map<string, File>, every: int, alive: nat -> bool) returns (ok: bool)
      requires name in files && name != ""
      requires Honest(batch, files)
      modifies this
      ensures Honest(batch, files) && Grows(old(batch), batch)
      ensures ok ==> Imported(batch, name, files[name])
                     && batch.checkpointFile == name && batch.checkpointRow == |files[name]|
      ensures batch.staging == old(batch).staging && (ok ==> old(batch).staging)
    {
      var file := files[name];
      if !batch.staging { return false; }
      var resume: nat := if batch.checkpointFile == name then batch.checkpointRow else 0;
      var interval: nat := if every <= 0 then 1000 else every;
      var seen := resume;
      while seen < |file|
        invariant resume <= seen <= |file| && batch.staging
        invariant Honest(batch, files) && Grows(old(batch), batch) && Covered(batch, name, file, seen)
      {
        if !alive(seen) { return false; }
        var next := Record(batch, Place(name, seen + 1), file[seen]);
        if next.None? { return false; }
        RecordKeeps(old(batch), batch, files, name, seen, next.value);
        batch := next.value;
        seen := seen + 1;
        if seen % interval == 0 {
          batch := batch.(checkpointFile := name, checkpointRow := seen);
          CheckpointMoves(old(batch), next.value, files, name, seen);
        }
      }
      CheckpointMoves(old(batch), batch, files, name, seen);
      batch := batch.(checkpointFile := name, checkpointRow := seen);
      CoveredIsImported(batch, files, name);
      ok := true;
    }
  }

  ghost predicate Honest(b: Batch, files: map<string, File>) {
    Faithful(b, files) && CheckpointOk(b, files)
  }

  lemma RecordKeeps(was: Batch, b: Batch, files: map<string, File>, name: string, n: nat, c: Batch)
    requires Honest(b, files) && name in files && Covered(b, name, files[name], n) && n < |files[name]| && Grows(was, b)
    requires Record(b, Place(name, n + 1), files[name][n]) == Some(c)
    ensures Honest(c, files) && Covered(c, name, files[name], n + 1) && Grows(was, c) && c.staging
  {
    RecordCovers(b, c, name, files[name], n);
    CheckpointGrows(b, c, files);
  }

  lemma CheckpointMoves(was: Batch, b: Batch, files: map<string, File>, name: string, n: nat)
    requires Honest(b, files) && name in files && Covered(b, name, files[name], n) && Grows(was, b)
    ensures var c := b.(checkpointFile := name, checkpointRow := n);
            Honest(c, files) && Covered(c, name, files[name], n) && Grows(was, c)
  {
    CoveredGrows(b, b.(checkpointFile := name, checkpointRow := n), name, files[name], n);
  }

  lemma CheckpointGrows(b: Batch, c: Batch, files: map<string, File>)
    requires CheckpointOk(b, files) && Grows(b, c)
    requires c.checkpointFile == b.checkpointFile && c.checkpointRow == b.checkpointRow
    ensures CheckpointOk(c, files)
  {
    if b.checkpointFile != "" {
      CoveredGrows(b, c, b.checkpointFile, files[b.checkpointFile], b.checkpointRow);
    }
  }
}
