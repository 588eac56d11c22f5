/** fs_write, fs_undo and the edit journal of tools/fs.py, with the single-use confirm tokens. */
module UndoJournal {
  import opened Prelude

  const MAX_UNDO_ENTRIES := 20

  /** What a file holds: UTF-8 text, or other bytes, which the tools read back as a lossy text. */
  datatype File = Text(text: string) | Bytes(lossy: string)

  function ReadBack(f: File): string {
    if f.Text? then f.text else f.lossy
  }

  /** One journaled edit: the state of the path before it (None when the edit created the file). */
  datatype Entry = Entry(number: nat, path: string, prior: Option<string>)

  type Files = map<string, File>

  datatype Workdir = Workdir(files: Files, journal: seq<Entry>)

  // ---- the journal as a bounded stack of prior states ----

  function NextNumber(journal: seq<Entry>): nat {
    if journal == [] then 1 else journal[|journal| - 1].number + 1
  }

  function Newest<T>(journal: seq<T>, n: nat): seq<T> {
    if |journal| <= n then journal else journal[|journal| - n..]
  }

  /** record_undo_entry: append the prior state, keep the newest MAX_UNDO_ENTRIES entries. */
  function Record(journal: seq<Entry>, path: string, prior: Option<string>): seq<Entry> {
    Newest(journal + [Entry(NextNumber(journal), path, prior)], MAX_UNDO_ENTRIES)
  }

  function PriorOf(files: Files, path: string): Option<string> {
    if path in files then Some(ReadBack(files[path])) else None
  }

  /** Undoing an edit puts the path back to its prior state. */
  function Restore(files: Files, e: Entry): Files {
    match e.prior
    case None => files - {e.path}
    case Some(text) => files[e.path := Text(text)]
  }

  /** What a write leaves at its path: the new text, or anything at all (or no file) when it fails half-way. */
  datatype Edit = Edit(path: string, left: Option<File>)

  function Put(files: Files, path: string, left: Option<File>): Files {
    if left.Some? then files[path := left.value] else files - {path}
  }

  /** A write that passed the gate, whether it then succeeds or fails: journaled first, then attempted. */
  function Write(w: Workdir, e: Edit): Workdir {
    Workdir(Put(w.files, e.path, e.left), Record(w.journal, e.path, PriorOf(w.files, e.path)))
  }

  /** An applied fs_undo of the k-th entry of the journal. */
  function UndoAt(w: Workdir, k: nat): Workdir
    requires k < |w.journal|
  {
    Workdir(Restore(w.files, w.journal[k]), w.journal[..k] + w.journal[k + 1..])
  }

  /** An applied fs_undo without an index: the newest edit. */
  function UndoLast(w: Workdir): Workdir {
    if w.journal == [] then w else UndoAt(w, |w.journal| - 1)
  }

  predicate Numbered(journal: seq<Entry>) {
    && |journal| <= MAX_UNDO_ENTRIES
    && (forall i, j | 0 <= i < j < |journal| :: journal[i].number < journal[j].number)
    && (forall i | 0 <= i < |journal| :: journal[i].number >= 1)
  }

  lemma RecordStaysNumbered(journal: seq<Entry>, path: string, prior: Option<string>)
    requires Numbered(journal)
    ensures Numbered(Record(journal, path, prior))
  {
    var longer := journal + [Entry(NextNumber(journal), path, prior)];
    forall i, j | 0 <= i < j < |longer| ensures longer[i].number < longer[j].number {
      if j == |journal| {
        assert i < |journal| - 1 ==> journal[i].number < journal[|journal| - 1].number;
      }
    }
  }

  lemma RemovalStaysNumbered(journal: seq<Entry>, k: nat)
    requires Numbered(journal) && k < |journal|
    ensures Numbered(journal[..k] + journal[k + 1..])
  {
    var shorter := journal[..k] + journal[k + 1..];
    forall i, j | 0 <= i < j < |shorter| ensures shorter[i].number < shorter[j].number {
      assert shorter[i] == journal[if i < k then i else i + 1] && shorter[j] == journal[if j < k then j else j + 1];
    }
  }

  /** One undo inverts one write, even a failed one, exactly when the overwritten file (if any) held UTF-8 text. */
  lemma UndoInvertsWriteIffText(w: Workdir, edit: Edit)
    ensures UndoLast(Write(w, edit)).files == w.files <==> (edit.path in w.files ==> w.files[edit.path].Text?)
    ensures UndoLast(Write(w, edit)).journal
         == if |w.journal| < MAX_UNDO_ENTRIES then w.journal else w.journal[|w.journal| - MAX_UNDO_ENTRIES + 1..]
  {
    var w1, path := Write(w, edit), edit.path;
    var e := Entry(NextNumber(w.journal), path, PriorOf(w.files, path));
    assert w1.journal[|w1.journal| - 1] == e;
    assert UndoLast(w1).files == Restore(w1.files, e);
    if path in w.files && w.files[path].Bytes? {
      assert Restore(w1.files, e)[path] == Text(ReadBack(w.files[path]));
    } else {
      RestoreInverts(w, edit);
    }
    var k := |w1.journal| - 1;
    assert w1.journal[..k] + w1.journal[k + 1..] == w1.journal[..k];
    if |w.journal| < MAX_UNDO_ENTRIES {
      assert w1.journal[..k] == w.journal;
    } else {
      assert w1.journal[..k] == w.journal[|w.journal| - MAX_UNDO_ENTRIES + 1..];
    }
  }

  function WriteAll(w: Workdir, edits: seq<Edit>): Workdir
    decreases |edits|
  {
    if edits == [] then w
    else
      var n := |edits| - 1;
      Write(WriteAll(w, edits[..n]), edits[n])
  }

  function UndoTimes(w: Workdir, k: nat): Workdir
    decreases k
  {
    if k == 0 then w else UndoTimes(UndoLast(w), k - 1)
  }

  /** Restoring the newest k entries, newest first. */
  function Rewind(files: Files, entries: seq<Entry>): Files
    decreases |entries|
  {
    if entries == [] then files
    else Rewind(Restore(files, entries[|entries| - 1]), entries[..|entries| - 1])
  }

  lemma {:induction false} UndoTimesRewinds(w: Workdir, k: nat)
    requires k <= |w.journal|
    ensures UndoTimes(w, k) == Workdir(Rewind(w.files, w.journal[|w.journal| - k..]), w.journal[..|w.journal| - k])
    decreases k
  {
    if k == 0 {
      assert w.journal[..|w.journal|] == w.journal;
      assert w.journal[|w.journal|..] == [];
    } else {
      var n := |w.journal|;
      assert UndoLast(w).journal == w.journal[..n - 1];
      UndoTimesRewinds(UndoLast(w), k - 1);
      assert w.journal[n - k..][k - 1] == w.journal[n - 1];
      assert w.journal[n - k..][..k - 1] == w.journal[..n - 1][n - 1 - (k - 1)..];
      assert w.journal[..n - 1][..n - k] == w.journal[..n - k];
    }
  }

  /** The newest k entries after one more write: the newest k - 1 of before, and the new one. */
  lemma NewestAfterWrite(journal: seq<Entry>, path: string, prior: Option<string>, k: nat)
    requires 1 <= k <= MAX_UNDO_ENTRIES && k - 1 <= |journal|
    ensures var j' := Record(journal, path, prior);
            k <= |j'| && j'[|j'| - k..] == journal[|journal| - (k - 1)..] + [Entry(NextNumber(journal), path, prior)]
  {
  }

  lemma RewindLast(files: Files, older: seq<Entry>, e: Entry)
    ensures Rewind(files, older + [e]) == Rewind(Restore(files, e), older)
  {
    assert (older + [e])[..|older|] == older;
  }

  /** Restoring the entry a write recorded gives the files of before it. */
  lemma RestoreInverts(w: Workdir, e: Edit)
    requires e.path in w.files ==> w.files[e.path].Text?
    ensures Restore(Put(w.files, e.path, e.left), Entry(NextNumber(w.journal), e.path, PriorOf(w.files, e.path))) == w.files
  {
  }

  // ---- what k undos restore ----

  function Paths(edits: seq<Edit>): set<string> {
    set e | e in edits :: e.path
  }

  /** The files with those of some paths read back and written again as text. */
  function ReadBackAt(files: Files, paths: set<string>): Files {
    map p | p in files :: if p in paths then Text(ReadBack(files[p])) else files[p]
  }

  /** Undoing a write goes back to the file as it was read then. */
  lemma RestoreReadsBack(files: Files, paths: set<string>, path: string, left: Option<File>, number: nat)
    ensures Restore(ReadBackAt(Put(files, path, left), paths), Entry(number, path, PriorOf(files, path)))
         == ReadBackAt(files, paths + {path})
  {
  }

  lemma PathsSnoc(edits: seq<Edit>, e: Edit)
    ensures Paths(edits + [e]) == Paths(edits) + {e.path}
  {
    assert e in edits + [e];
    assert forall x | x in edits :: x in edits + [e];
  }

  /** The newest n entries. */
  function Latest(journal: seq<Entry>, n: nat): seq<Entry>
    requires n <= |journal|
  {
    journal[|journal| - n..]
  }

  /** Rewinding one more write takes its path back to the file read before it. */
  lemma RewindOneMore(w: Workdir, e: Edit, paths: set<string>, n: nat)
    requires n < MAX_UNDO_ENTRIES && n <= |w.journal|
    ensures var w' := Write(w, e);
            && n + 1 <= |w'.journal|
            && Rewind(ReadBackAt(w'.files, paths), Latest(w'.journal, n + 1))
            == Rewind(ReadBackAt(w.files, paths + {e.path}), Latest(w.journal, n))
  {
    var prior := PriorOf(w.files, e.path);
    var entry := Entry(NextNumber(w.journal), e.path, prior);
    NewestAfterWrite(w.journal, e.path, prior, n + 1);
    RewindLast(ReadBackAt(Put(w.files, e.path, e.left), paths), Latest(w.journal, n), entry);
    RestoreReadsBack(w.files, paths, e.path, e.left, entry.number);
  }

  lemma WriteAllSnoc(w: Workdir, edits: seq<Edit>, e: Edit)
    ensures WriteAll(w, edits + [e]) == Write(WriteAll(w, edits), e)
  {
    assert (edits + [e])[..|edits|] == edits;
  }

  /** Rewinding all of at most 20 writes reads back exactly the written paths, as they were before. */
  lemma {:induction false} JournalRewinds(w: Workdir, edits: seq<Edit>, paths: set<string>)
    requires |edits| <= MAX_UNDO_ENTRIES
    ensures var w' := WriteAll(w, edits);
            && |edits| <= |w'.journal|
            && Rewind(ReadBackAt(w'.files, paths), Latest(w'.journal, |edits|)) == ReadBackAt(w.files, paths + Paths(edits))
    decreases |edits|
  {
    if edits == [] {
      assert Latest(w.journal, 0) == [];
      assert paths + Paths(edits) == paths;
    } else {
      var front, e := edits[..|edits| - 1], edits[|edits| - 1];
      assert edits == front + [e];
      JournalRewinds(w, front, paths + {e.path});
      WriteAllSnoc(w, front, e);
      RewindOneMore(WriteAll(w, front), e, paths, |front|);
      PathsSnoc(front, e);
      assert paths + {e.path} + Paths(front) == paths + Paths(edits);
    }
  }

  lemma {:induction false} WriteAllAppend(w: Workdir, a: seq<Edit>, b: seq<Edit>)
    ensures WriteAll(w, a + b) == WriteAll(WriteAll(w, a), b)
    decreases |b|
  {
    if b == [] {
      assert a + b == a;
    } else {
      var front, e := b[..|b| - 1], b[|b| - 1];
      assert b == front + [e] && a + b == (a + front) + [e];
      WriteAllAppend(w, a, front);
      WriteAllSnoc(w, a + front, e);
      WriteAllSnoc(WriteAll(w, a), front, e);
    }
  }

  /** Undoing all of at most 20 writes. */
  lemma UndosOfAll(w: Workdir, edits: seq<Edit>)
    requires |edits| <= MAX_UNDO_ENTRIES
    ensures UndoTimes(WriteAll(w, edits), |edits|).files == ReadBackAt(w.files, Paths(edits))
  {
    JournalRewinds(w, edits, {});
    ReadBackNone(WriteAll(w, edits).files);
    assert {} + Paths(edits) == Paths(edits);
    UndoTimesFiles(WriteAll(w, edits), |edits|);
  }

  lemma ReadBackNone(files: Files)
    ensures ReadBackAt(files, {}) == files
  {
  }

  lemma UndoTimesFiles(w: Workdir, k: nat)
    requires k <= |w.journal|
    ensures UndoTimes(w, k).files == Rewind(w.files, Latest(w.journal, k))
  {
    UndoTimesRewinds(w, k);
  }

  /** k default undos after a run of writes: the files before the last k writes, with what those overwrote read back. */
  lemma UndosReadBack(w: Workdir, edits: seq<Edit>, k: nat)
    requires k <= |edits| && k <= MAX_UNDO_ENTRIES
    ensures UndoTimes(WriteAll(w, edits), k).files
         == ReadBackAt(WriteAll(w, edits[..|edits| - k]).files, Paths(edits[|edits| - k..]))
  {
    var first, last := edits[..|edits| - k], edits[|edits| - k..];
    assert edits == first + last;
    WriteAllAppend(w, first, last);
    UndosOfAll(WriteAll(w, first), last);
  }

  /**
   In any workdir and whatever failed writes leave behind, k default undos restore the file map of before the last k
   writes, created files deleted again, exactly when every path they wrote that existed then held UTF-8 text.
   */
  lemma UndosInvertWritesIffText(w: Workdir, edits: seq<Edit>, k: nat)
    requires k <= |edits| && k <= MAX_UNDO_ENTRIES
    ensures var before := WriteAll(w, edits[..|edits| - k]).files;
            UndoTimes(WriteAll(w, edits), k).files == before
            <==> forall p | p in Paths(edits[|edits| - k..]) && p in before :: before[p].Text?
  {
    UndosReadBack(w, edits, k);
    var before, paths := WriteAll(w, edits[..|edits| - k]).files, Paths(edits[|edits| - k..]);
    if p :| p in paths && p in before && !before[p].Text? {
      assert ReadBackAt(before, paths)[p] != before[p];
    }
  }

  lemma {:induction false} WritesLeaveText(w: Workdir, edits: seq<Edit>, p: string)
    requires p in w.files ==> w.files[p].Text?
    requires forall e | e in edits && e.left.Some? :: e.left.value.Text?
    ensures p in WriteAll(w, edits).files ==> WriteAll(w, edits).files[p].Text?
    decreases |edits|
  {
    if edits != [] {
      WritesLeaveText(w, edits[..|edits| - 1], p);
    }
  }

  /**
   When the written paths held text (or nothing) at the start and no failed write left other bytes, any k undos restore
   the files, whatever other files hold.
   */
  lemma UndosInvertWrites(w: Workdir, edits: seq<Edit>, k: nat)
    requires forall e | e in edits :: e.path in w.files ==> w.files[e.path].Text?
    requires forall e | e in edits && e.left.Some? :: e.left.value.Text?
    requires k <= |edits| && k <= MAX_UNDO_ENTRIES
    ensures UndoTimes(WriteAll(w, edits), k).files == WriteAll(w, edits[..|edits| - k]).files
  {
    var before := WriteAll(w, edits[..|edits| - k]).files;
    forall p | p in Paths(edits[|edits| - k..]) && p in before ensures before[p].Text? {
      WritesLeaveText(w, edits[..|edits| - k], p);
    }
    UndosInvertWritesIffText(w, edits, k);
  }
}
