/** The confirm-gated fs_write and fs_undo tools over the edit journal (tools/fs.py). */
module ConfirmGate {
  import opened Prelude
  import opened UndoJournal

  type Token = string

  /** What a token approves. A write's digest of its content stands for the content. */
  datatype Signature = WriteOf(path: string, content: string) | UndoOf(number: nat)

  datatype Session = Session(dir: Workdir, tokens: map<Token, Signature>)

  datatype Outcome = Applied | Denied(token: Token) | Failed

  /** The file operation succeeds, or it fails and leaves anything at all (or no file) at its path. */
  datatype Io = Done | Broken(left: Option<File>)

  /** One tool call. `newToken` is the token the call would issue; `io` is how its file operation goes. */
  datatype Call =
    | WriteCall(path: Option<string>, content: string, token: Token, newToken: Token, io: Io)
    | UndoCall(index: Option<int>, token: Token, newToken: Token, io: Io)

  datatype Result = Result(session: Session, outcome: Outcome)

  /** confirm_tokens.pop(token, None) == signature: a presented token is consumed either way. */
  predicate Confirmed(tokens: map<Token, Signature>, token: Token, sig: Signature) {
    token != "" && token in tokens && tokens[token] == sig
  }

  function Spend(tokens: map<Token, Signature>, token: Token): map<Token, Signature> {
    if token == "" then tokens else tokens - {token}
  }

  /** What a write of this text leaves at its path. */
  function LeftBy(io: Io, text: string): Option<File> {
    if io.Done? then Some(Text(text)) else io.left
  }

  /** fs_write: journaled before the write is attempted. A path outside the jail, the root or the journal directory is None. */
  function FsWrite(auto: bool, s: Session, path: Option<string>, content: string, token: Token, newToken: Token, io: Io): Result
  {
    if path.None? then Result(s, Failed)
    else
      var sig := WriteOf(path.value, content);
      if !auto && !Confirmed(s.tokens, token, sig) then
        Result(s.(tokens := Spend(s.tokens, token)[newToken := sig]), Denied(newToken))
      else
        var tokens := if auto then s.tokens else Spend(s.tokens, token);
        Result(Session(Write(s.dir, Edit(path.value, LeftBy(io, content))), tokens), if io.Done? then Applied else Failed)
  }

  /** The journal position an undo call means: the entry with that number, or the newest one. */
  function Target(journal: seq<Entry>, index: Option<int>): (k: int)
    ensures -1 <= k < |journal|
    ensures index.Some? && k >= 0 ==> journal[k].number == index.value
    ensures index.Some? && k < 0 ==> forall i | 0 <= i < |journal| :: journal[i].number != index.value
    ensures index.None? ==> k == |journal| - 1
  {
    if index.None? || journal == [] || journal[|journal| - 1].number == index.value then |journal| - 1
    else Target(journal[..|journal| - 1], index)
  }

  /** fs_undo: the entry is removed only after the file operation. */
  function FsUndo(auto: bool, s: Session, index: Option<int>, token: Token, newToken: Token, io: Io): Result {
    var k := Target(s.dir.journal, index);
    if k < 0 then Result(s, Failed)
    else
      var e := s.dir.journal[k];
      var sig := UndoOf(e.number);
      if !auto && !Confirmed(s.tokens, token, sig) then
        Result(s.(tokens := Spend(s.tokens, token)[newToken := sig]), Denied(newToken))
      else
        var tokens := if auto then s.tokens else Spend(s.tokens, token);
        if io.Done? then Result(Session(UndoAt(s.dir, k), tokens), Applied)
        else Result(Session(s.dir.(files := Put(s.dir.files, e.path, io.left)), tokens), Failed)
  }

  function Do(auto: bool, s: Session, c: Call): Result {
    match c
    case WriteCall(path, content, token, newToken, io) => FsWrite(auto, s, path, content, token, newToken, io)
    case UndoCall(index, token, newToken, io) => FsUndo(auto, s, index, token, newToken, io)
  }

  /** The path a call is about. */
  function PathOf(s: Session, c: Call): Option<string> {
    match c
    case WriteCall(path, _, _, _, _) => path
    case UndoCall(index, _, _, _) =>
      var k := Target(s.dir.journal, index);
      if k < 0 then None else Some(s.dir.journal[k].path)
  }

  predicate SameAt(files: Files, files': Files, p: string) {
    (p in files <==> p in files') && (p in files ==> files[p] == files'[p])
  }

  /** A denied call leaves files and journal alone; any other, even one that fails half-way, changes one path only. */
  lemma DeniedChangesNothing(auto: bool, s: Session, c: Call)
    ensures var r := Do(auto, s, c);
            && (r.outcome.Denied? ==> !auto && r.session.dir == s.dir)
            && (forall p | PathOf(s, c) != Some(p) :: SameAt(s.dir.files, r.session.dir.files, p))
            && (r.outcome.Failed? && c.UndoCall? ==> r.session.dir.journal == s.dir.journal)
  {
  }

  // ---- what one call does, in terms of the session before it ----

  /** The call may go ahead: without a gate, or with an outstanding token for exactly this operation. */
  predicate Passes(auto: bool, s: Session, token: Token, sig: Signature) {
    auto || (token != "" && token in s.tokens && s.tokens[token] == sig)
  }

  /** A write that passes the gate is journaled with what its path reads as now; then its path holds the text, or what is left. */
  lemma WriteEffect(auto: bool, s: Session, c: Call)
    requires c.WriteCall?
    ensures var r := Do(auto, s, c);
            if c.path.None? then r == Result(s, Failed)
            else if !Passes(auto, s, c.token, WriteOf(c.path.value, c.content)) then
              r.outcome == Denied(c.newToken) && r.session.dir == s.dir
            else
              && (if c.io.Done? then r.outcome == Applied && r.session.dir.files == s.dir.files[c.path.value := Text(c.content)]
                  else r.outcome == Failed && r.session.dir.files
                                              == if c.io.left.Some? then s.dir.files[c.path.value := c.io.left.value]
                                                 else s.dir.files - {c.path.value})
              && Journaled(s.dir, c.path.value, r.session.dir.journal)
  {
  }

  /** One entry more, with the next number and what the path reads as, of which the newest 20 are kept. */
  predicate Journaled(before: Workdir, path: string, journal: seq<Entry>) {
    var n := |before.journal|;
    var prior := if path !in before.files then None
                 else match before.files[path] case Text(text) => Some(text) case Bytes(lossy) => Some(lossy);
    var all := before.journal + [Entry(if n == 0 then 1 else before.journal[n - 1].number + 1, path, prior)];
    journal == if |all| > 20 then all[|all| - 20..] else all
  }

  /** An undo that passes the gate puts its path back and takes the entry away; if that fails, the entry stays. */
  lemma UndoEffect(auto: bool, s: Session, c: Call)
    requires c.UndoCall?
    ensures var r, k := Do(auto, s, c), Target(s.dir.journal, c.index);
            if k < 0 then r == Result(s, Failed)
            else
              var e := s.dir.journal[k];
              if !Passes(auto, s, c.token, UndoOf(e.number)) then r.outcome == Denied(c.newToken) && r.session.dir == s.dir
              else if c.io.Done? then
                && r.outcome == Applied && r.session.dir.journal == s.dir.journal[..k] + s.dir.journal[k + 1..]
                && r.session.dir.files
                   == if e.prior.None? then s.dir.files - {e.path} else s.dir.files[e.path := Text(e.prior.value)]
              else
                && r.outcome == Failed && r.session.dir.journal == s.dir.journal
                && r.session.dir.files
                   == if c.io.left.Some? then s.dir.files[e.path := c.io.left.value] else s.dir.files - {e.path}
  {
  }

  /** A presented token is spent either way; a refusal issues the new one for exactly this operation; auto-confirm does neither. */
  lemma GateEffect(auto: bool, s: Session, c: Call, sig: Signature)
    requires SignatureOf(s, c) == Some(sig)
    ensures var after := Do(auto, s, c).session.tokens;
            if auto then after == s.tokens
            else if Passes(auto, s, c.token, sig) then after == s.tokens - {c.token}
            else after == (if c.token == "" then s.tokens else s.tokens - {c.token})[c.newToken := sig]
  {
  }

  /** The operation a call asks for in this session. */
  function SignatureOf(s: Session, c: Call): Option<Signature> {
    match c
    case WriteCall(path, content, _, _, _) => if path.Some? then Some(WriteOf(path.value, content)) else None
    case UndoCall(index, _, _, _) =>
      var k := Target(s.dir.journal, index);
      if k < 0 then None else Some(UndoOf(s.dir.journal[k].number))
  }

  // ---- whole runs ----

  /**
   The session with its history: every token ever issued, the tokens that approved something, and beside the journal
   an identity for each of its entries. Identities are given in order and never twice, whereas numbers are reused.
   */
  datatype History = History(session: Session, issued: map<Token, Signature>, spent: set<Token>, ids: seq<nat>, nextId: nat)

  function Journal(h: History): seq<Entry> {
    h.session.dir.journal
  }

  function Begin(start: Workdir): History {
    History(Session(start, map[]), map[], {}, seq(|start.journal|, i => i), |start.journal|)
  }

  datatype Effect = Nothing | Records | Removes(at: nat)

  /** What a call does to the journal. */
  function EffectOf(auto: bool, s: Session, c: Call): (e: Effect)
    ensures e.Removes? ==> e.at < |s.dir.journal|
  {
    match c
    case WriteCall(path, content, token, _, _) =>
      if path.Some? && (auto || Confirmed(s.tokens, token, WriteOf(path.value, content))) then Records else Nothing
    case UndoCall(index, _, _, _) =>
      if Do(auto, s, c).outcome.Applied? then Removes(Target(s.dir.journal, index)) else Nothing
  }

  function IdsAfter(ids: seq<nat>, nextId: nat, e: Effect): seq<nat> {
    match e
    case Nothing => ids
    case Records => Newest(ids + [nextId], MAX_UNDO_ENTRIES)
    case Removes(at) => if at < |ids| then ids[..at] + ids[at + 1..] else ids
  }

  function Advance(auto: bool, h: History, c: Call): History {
    var r := Do(auto, h.session, c);
    var e := EffectOf(auto, h.session, c);
    History(r.session,
            if r.outcome.Denied? then h.issued[r.outcome.token := SignatureOf(h.session, c).value] else h.issued,
            if SignatureOf(h.session, c).Some? && Confirmed(h.session.tokens, c.token, SignatureOf(h.session, c).value)
            then h.spent + {c.token} else h.spent,
            IdsAfter(h.ids, h.nextId, e),
            if e.Records? then h.nextId + 1 else h.nextId)
  }

  predicate Follows(auto: bool, hs: seq<History>, calls: seq<Call>, i: nat)
    requires |hs| == |calls| + 1 && i < |calls|
  {
    hs[i + 1] == Advance(auto, hs[i], calls[i])
  }

  /** The histories a run of calls passes through. */
  predicate Course(auto: bool, start: Workdir, hs: seq<History>, calls: seq<Call>) {
    && |hs| == |calls| + 1
    && hs[0] == Begin(start)
    && (forall i | 0 <= i < |calls| :: Follows(auto, hs, calls, i))
  }

  /** Random tokens: a new one was never issued before. */
  predicate FreshTokens(hs: seq<History>, calls: seq<Call>)
    requires |hs| == |calls| + 1
  {
    forall i | 0 <= i < |calls| :: calls[i].newToken !in hs[i].issued
  }

  // ---- tokens ----

  /** Outstanding tokens were issued for what they stand for, and a spent token is never outstanding again. */
  predicate TokenInv(h: History) {
    && (forall t | t in h.session.tokens :: t in h.issued && h.issued[t] == h.session.tokens[t] && t !in h.spent)
    && (forall t | t in h.spent :: t in h.issued)
  }

  lemma AdvanceKeepsTokens(h: History, c: Call)
    requires TokenInv(h) && c.newToken !in h.issued
    ensures TokenInv(Advance(false, h, c))
    ensures forall t | t in h.issued :: t in Advance(false, h, c).issued && Advance(false, h, c).issued[t] == h.issued[t]
  {
  }

  lemma {:induction false} RunKeepsTokens(start: Workdir, hs: seq<History>, calls: seq<Call>, i: nat)
    requires Course(false, start, hs, calls) && FreshTokens(hs, calls) && i < |hs|
    ensures TokenInv(hs[i])
    decreases i
  {
    if i > 0 {
      RunKeepsTokens(start, hs, calls, i - 1);
      assert Follows(false, hs, calls, i - 1);
      AdvanceKeepsTokens(hs[i - 1], calls[i - 1]);
    }
  }

  lemma {:induction false} IssuedStays(start: Workdir, hs: seq<History>, calls: seq<Call>, i: nat, j: nat, t: Token)
    requires Course(false, start, hs, calls) && FreshTokens(hs, calls) && i <= j < |hs|
    requires t in hs[i].issued
    ensures t in hs[j].issued && hs[j].issued[t] == hs[i].issued[t]
    decreases j
  {
    if i < j {
      IssuedStays(start, hs, calls, i, j - 1, t);
      RunKeepsTokens(start, hs, calls, j - 1);
      assert Follows(false, hs, calls, j - 1);
      AdvanceKeepsTokens(hs[j - 1], calls[j - 1]);
    }
  }

  /**
   In every run without auto-confirm, an operation is applied only with a token that an earlier denial
   issued for exactly that operation and that approved nothing before.
   */
  lemma AppliedOnlyOncePerDenial(start: Workdir, hs: seq<History>, calls: seq<Call>, i: nat)
    requires Course(false, start, hs, calls) && FreshTokens(hs, calls) && i < |calls|
    requires Do(false, hs[i].session, calls[i]).outcome.Applied?
    ensures var t := calls[i].token;
            && t in hs[i].issued && Some(hs[i].issued[t]) == SignatureOf(hs[i].session, calls[i])
            && t !in hs[i].spent && t in hs[i + 1].spent
  {
    RunKeepsTokens(start, hs, calls, i);
    assert Follows(false, hs, calls, i);
  }

  // ---- failed writes and undos ----

  /** The journal position an undo call means in a history. */
  function Aim(h: History, c: Call): int
    requires c.UndoCall?
  {
    Target(Journal(h), c.index)
  }

  lemma {:induction false} DeniedKeepDir(auto: bool, start: Workdir, hs: seq<History>, calls: seq<Call>, i: nat, j: nat)
    requires Course(auto, start, hs, calls) && i <= j < |hs|
    requires forall m | i <= m < j :: Do(auto, hs[m].session, calls[m]).outcome.Denied?
    ensures hs[j].session.dir == hs[i].session.dir
    decreases j
  {
    if i < j {
      DeniedKeepDir(auto, start, hs, calls, i, j - 1);
      assert Follows(auto, hs, calls, j - 1);
      DeniedChangesNothing(auto, hs[j - 1].session, calls[j - 1]);
    }
  }

  lemma WriteRecords(auto: bool, s: Session, c: Call)
    requires EffectOf(auto, s, c).Records?
    ensures c.WriteCall? && c.path.Some?
    ensures Do(auto, s, c).session.dir == Write(s.dir, Edit(c.path.value, LeftBy(c.io, c.content)))
  {
  }

  lemma DefaultUndo(auto: bool, s: Session, c: Call)
    requires c.UndoCall? && c.index.None? && Do(auto, s, c).outcome.Applied?
    ensures Do(auto, s, c).session.dir == UndoLast(s.dir)
  {
  }

  lemma WrittenInRun(auto: bool, start: Workdir, hs: seq<History>, calls: seq<Call>, i: nat)
    requires Course(auto, start, hs, calls) && i < |calls| && EffectOf(auto, hs[i].session, calls[i]).Records?
    ensures calls[i].WriteCall? && calls[i].path.Some?
    ensures hs[i + 1].session.dir == Write(hs[i].session.dir, Edit(calls[i].path.value, LeftBy(calls[i].io, calls[i].content)))
  {
    assert Follows(auto, hs, calls, i);
    WriteRecords(auto, hs[i].session, calls[i]);
  }

  lemma UndoneInRun(auto: bool, start: Workdir, hs: seq<History>, calls: seq<Call>, j: nat)
    requires Course(auto, start, hs, calls) && j < |calls|
    requires calls[j].UndoCall? && calls[j].index.None? && Do(auto, hs[j].session, calls[j]).outcome.Applied?
    ensures hs[j + 1].session.dir == UndoLast(hs[j].session.dir)
  {
    assert Follows(auto, hs, calls, j);
    DefaultUndo(auto, hs[j].session, calls[j]);
  }

  lemma Repaired(before: Workdir, written: Workdir, undone: Workdir, e: Edit)
    requires written == Write(before, e) && undone == UndoLast(written)
    ensures undone.files == before.files <==> (e.path in before.files ==> before.files[e.path].Text?)
  {
    UndoInvertsWriteIffText(before, e);
  }

  /**
   Why edits are journaled before they are written: in every run, the default undo that follows a write which passed the
   gate, refused calls aside, restores the file map exactly when the overwritten file, if any, held text; and so it does
   when the write failed, whatever that left at its path.
   */
  lemma UndoRepairsWriteIffText(auto: bool, start: Workdir, hs: seq<History>, calls: seq<Call>, i: nat, j: nat)
    requires Course(auto, start, hs, calls) && i < j < |calls|
    requires EffectOf(auto, hs[i].session, calls[i]).Records?
    requires forall m | i < m < j :: Do(auto, hs[m].session, calls[m]).outcome.Denied?
    requires calls[j].UndoCall? && calls[j].index.None? && Do(auto, hs[j].session, calls[j]).outcome.Applied?
    ensures calls[i].WriteCall? && calls[i].path.Some?
    ensures var before, path := hs[i].session.dir.files, calls[i].path.value;
            hs[j + 1].session.dir.files == before <==> (path in before ==> before[path].Text?)
  {
    WrittenInRun(auto, start, hs, calls, i);
    DeniedKeepDir(auto, start, hs, calls, i + 1, j);
    UndoneInRun(auto, start, hs, calls, j);
    Repaired(hs[i].session.dir, hs[j].session.dir, hs[j + 1].session.dir,
             Edit(calls[i].path.value, LeftBy(calls[i].io, calls[i].content)));
  }

  lemma RestoreAgain(files: Files, e: Entry, left: Option<File>)
    ensures Restore(Put(files, e.path, left), e) == Restore(files, e)
  {
  }

  /** An undo that failed half-way loses nothing: repeated, it has the whole effect it would have had at first. */
  lemma FailedUndoCanBeRepeated(auto: bool, start: Workdir, hs: seq<History>, calls: seq<Call>, i: nat, j: nat)
    requires Course(auto, start, hs, calls) && i < j < |calls|
    requires calls[i].UndoCall? && Do(auto, hs[i].session, calls[i]).outcome.Failed? && Aim(hs[i], calls[i]) >= 0
    requires forall m | i < m < j :: Do(auto, hs[m].session, calls[m]).outcome.Denied?
    requires calls[j].UndoCall? && Aim(hs[j], calls[j]) == Aim(hs[i], calls[i])
    requires Do(auto, hs[j].session, calls[j]).outcome.Applied?
    ensures hs[j + 1].session.dir == UndoAt(hs[i].session.dir, Aim(hs[i], calls[i]))
  {
    assert Follows(auto, hs, calls, i) && Follows(auto, hs, calls, j);
    DeniedKeepDir(auto, start, hs, calls, i + 1, j);
    RestoreAgain(hs[i].session.dir.files, Journal(hs[i])[Aim(hs[i], calls[i])], calls[i].io.left);
  }

  // ---- what files and journal entries hold after any run ----

  function FileAt(h: History, p: string): Option<File> {
    if p in h.session.dir.files then Some(h.session.dir.files[p]) else None
  }

  /** What the tools read there: a file's text, or its bytes decoded lossily. */
  function ReadAt(h: History, p: string): Option<string> {
    match FileAt(h, p)
    case None => None
    case Some(Text(text)) => Some(text)
    case Some(Bytes(lossy)) => Some(lossy)
  }

  /** The call touches this path: it is about it and was not refused. */
  predicate Touches(auto: bool, h: History, c: Call, p: string) {
    PathOf(h.session, c) == Some(p) && !Do(auto, h.session, c).outcome.Denied?
  }

  /** What a call that touches its path leaves there. */
  function LeftThere(h: History, c: Call): Option<File>
    requires c.UndoCall? ==> Aim(h, c) >= 0
  {
    if c.io.Broken? then c.io.left
    else if c.WriteCall? then Some(Text(c.content))
    else
      var prior := Journal(h)[Aim(h, c)].prior;
      if prior.Some? then Some(Text(prior.value)) else None
  }

  lemma TouchLeaves(auto: bool, h: History, c: Call, p: string)
    ensures Touches(auto, h, c, p) ==> (c.UndoCall? ==> Aim(h, c) >= 0) && FileAt(Advance(auto, h, c), p) == LeftThere(h, c)
    ensures !Touches(auto, h, c, p) ==> FileAt(Advance(auto, h, c), p) == FileAt(h, p)
  {
    DeniedChangesNothing(auto, h.session, c);
    if c.WriteCall? {
      WriteEffect(auto, h.session, c);
    } else {
      UndoEffect(auto, h.session, c);
    }
    assert PathOf(h.session, c) != Some(p) ==> SameAt(h.session.dir.files, Do(auto, h.session, c).session.dir.files, p);
  }

  /** A file nobody touched since holds what it held. */
  lemma {:induction false} UntouchedFile(auto: bool, start: Workdir, hs: seq<History>, calls: seq<Call>, i: nat, m: nat, p: string)
    requires Course(auto, start, hs, calls) && i <= m < |hs|
    requires forall k | i <= k < m :: !Touches(auto, hs[k], calls[k], p)
    ensures FileAt(hs[m], p) == FileAt(hs[i], p)
    decreases m
  {
    if i < m {
      UntouchedFile(auto, start, hs, calls, i, m - 1, p);
      assert Follows(auto, hs, calls, m - 1);
      TouchLeaves(auto, hs[m - 1], calls[m - 1], p);
    }
  }

  /** In every run each path holds what the last call that touched it left there. */
  lemma FileHoldsLast(auto: bool, start: Workdir, hs: seq<History>, calls: seq<Call>, i: nat, m: nat, p: string)
    requires Course(auto, start, hs, calls) && i < m < |hs| && Touches(auto, hs[i], calls[i], p)
    requires forall k | i < k < m :: !Touches(auto, hs[k], calls[k], p)
    ensures calls[i].UndoCall? ==> Aim(hs[i], calls[i]) >= 0
    ensures FileAt(hs[m], p) == LeftThere(hs[i], calls[i])
  {
    assert Follows(auto, hs, calls, i);
    TouchLeaves(auto, hs[i], calls[i], p);
    UntouchedFile(auto, start, hs, calls, i + 1, m, p);
  }

  // ---- edit numbers and identities ----

  predicate HasNumber(journal: seq<Entry>, n: nat) {
    Target(journal, Some(n)) >= 0
  }

  /** The journal is numbered, and its entries have increasing identities that were all given before. */
  predicate Identified(journal: seq<Entry>, ids: seq<nat>, nextId: nat) {
    && Numbered(journal) && |ids| == |journal|
    && (forall i, j | 0 <= i < j < |ids| :: ids[i] < ids[j])
    && (forall i | 0 <= i < |ids| :: ids[i] < nextId)
  }

  /** The identity of the entry with this number, if there is one. */
  function IdOf(journal: seq<Entry>, ids: seq<nat>, n: nat): Option<nat> {
    var k := Target(journal, Some(n));
    if 0 <= k < |ids| then Some(ids[k]) else None
  }

  /** Strictly numbered entries with the same number are the same entry. */
  lemma SameNumberSameEntry(journal: seq<Entry>, i: nat, k: nat)
    requires Numbered(journal) && i < |journal| && k < |journal| && journal[i].number == journal[k].number
    ensures i == k
  {
  }

  lemma TargetIs(journal: seq<Entry>, k: nat)
    requires Numbered(journal) && k < |journal|
    ensures Target(journal, Some(journal[k].number)) == k
  {
    var t := Target(journal, Some(journal[k].number));
    assert t >= 0;
    SameNumberSameEntry(journal, t, k);
  }

  /** A new number is larger than every number in the journal. */
  lemma NextNumberIsNew(journal: seq<Entry>, i: nat)
    requires Numbered(journal) && i < |journal|
    ensures journal[i].number < NextNumber(journal)
  {
    assert i < |journal| - 1 ==> journal[i].number < journal[|journal| - 1].number;
  }

  lemma NewestAt<T>(s: seq<T>, x: T, i: nat)
    requires |s| <= MAX_UNDO_ENTRIES && i < |Newest(s + [x], MAX_UNDO_ENTRIES)|
    ensures var was := i + (|s| + 1 - |Newest(s + [x], MAX_UNDO_ENTRIES)|);
            Newest(s + [x], MAX_UNDO_ENTRIES)[i] == if was < |s| then s[was] else x
  {
  }

  /** What a change of the journal does to the entry with one number: it stays the same edit, or it is a new one. */
  predicate SameOrNew(journal: seq<Entry>, ids: seq<nat>, nextId: nat, journal': seq<Entry>, ids': seq<nat>, n: nat) {
    var was, now := IdOf(journal, ids, n), IdOf(journal', ids', n);
    now.Some? ==> if was.Some? then now == was else now.value == nextId
  }

  lemma RecordIdentifies(journal: seq<Entry>, ids: seq<nat>, nextId: nat, path: string, prior: Option<string>)
    requires Identified(journal, ids, nextId)
    ensures Identified(Record(journal, path, prior), IdsAfter(ids, nextId, Records), nextId + 1)
  {
    RecordStaysNumbered(journal, path, prior);
  }

  lemma RecordSameOrNew(journal: seq<Entry>, ids: seq<nat>, nextId: nat, path: string, prior: Option<string>, n: nat)
    requires Identified(journal, ids, nextId)
    ensures SameOrNew(journal, ids, nextId, Record(journal, path, prior), IdsAfter(ids, nextId, Records), n)
  {
    var entry := Entry(NextNumber(journal), path, prior);
    var after := Record(journal, path, prior);
    var m := Target(after, Some(n));
    if m >= 0 {
      NewestAt(journal, entry, m);
      NewestAt(ids, nextId, m);
      var was := m + (|journal| + 1 - |after|);
      if was < |journal| {
        TargetIs(journal, was);
      } else if k :| 0 <= k < |journal| && journal[k].number == n {
        NextNumberIsNew(journal, k);
      }
    }
  }

  lemma RemovalIdentifies(journal: seq<Entry>, ids: seq<nat>, nextId: nat, at: nat)
    requires Identified(journal, ids, nextId) && at < |journal|
    ensures Identified(journal[..at] + journal[at + 1..], IdsAfter(ids, nextId, Removes(at)), nextId)
  {
    RemovalStaysNumbered(journal, at);
    var ids' := ids[..at] + ids[at + 1..];
    forall i, j | 0 <= i < j < |ids'| ensures ids'[i] < ids'[j] {
      assert ids'[i] == ids[if i < at then i else i + 1] && ids'[j] == ids[if j < at then j else j + 1];
    }
  }

  lemma RemovalSameOrNew(journal: seq<Entry>, ids: seq<nat>, nextId: nat, at: nat, n: nat)
    requires Identified(journal, ids, nextId) && at < |journal|
    ensures SameOrNew(journal, ids, nextId, journal[..at] + journal[at + 1..], IdsAfter(ids, nextId, Removes(at)), n)
  {
    var after := journal[..at] + journal[at + 1..];
    var m := Target(after, Some(n));
    if m >= 0 {
      var was := if m < at then m else m + 1;
      assert after[m] == journal[was];
      TargetIs(journal, was);
    }
  }

  lemma JournalAfter(auto: bool, s: Session, c: Call)
    ensures var j, j', e := s.dir.journal, Do(auto, s, c).session.dir.journal, EffectOf(auto, s, c);
            match e
            case Nothing => j' == j
            case Records => c.WriteCall? && c.path.Some? && j' == Record(j, c.path.value, PriorOf(s.dir.files, c.path.value))
            case Removes(at) => j' == j[..at] + j[at + 1..]
  {
  }

  lemma AdvanceIdentifies(auto: bool, h: History, c: Call, n: nat)
    requires Identified(Journal(h), h.ids, h.nextId)
    ensures var h' := Advance(auto, h, c);
            && Identified(Journal(h'), h'.ids, h'.nextId) && h.nextId <= h'.nextId
            && SameOrNew(Journal(h), h.ids, h.nextId, Journal(h'), h'.ids, n)
  {
    JournalAfter(auto, h.session, c);
    match EffectOf(auto, h.session, c) {
      case Nothing =>
      case Records =>
        var prior := PriorOf(h.session.dir.files, c.path.value);
        RecordIdentifies(Journal(h), h.ids, h.nextId, c.path.value, prior);
        RecordSameOrNew(Journal(h), h.ids, h.nextId, c.path.value, prior, n);
      case Removes(at) =>
        RemovalIdentifies(Journal(h), h.ids, h.nextId, at);
        RemovalSameOrNew(Journal(h), h.ids, h.nextId, at, n);
    }
  }

  /** In every state of every run the journal is strictly numbered, at most 20 entries long, and identified. */
  lemma {:induction false} RunsStayNumbered(auto: bool, start: Workdir, hs: seq<History>, calls: seq<Call>, i: nat)
    requires Course(auto, start, hs, calls) && Numbered(start.journal) && i < |hs|
    ensures Numbered(Journal(hs[i])) && Identified(Journal(hs[i]), hs[i].ids, hs[i].nextId)
    decreases i
  {
    if i > 0 {
      RunsStayNumbered(auto, start, hs, calls, i - 1);
      assert Follows(auto, hs, calls, i - 1);
      AdvanceIdentifies(auto, hs[i - 1], calls[i - 1], 0);
    }
  }

  /** The entry is for this write, and tells what its path reads as now. */
  predicate MadeNow(h: History, c: Call, e: Entry) {
    c.WriteCall? && c.path == Some(e.path) && e.prior == ReadAt(h, e.path)
  }

  /** Call i is the write that made this journal entry: the entry holds the path and what it read as before that write. */
  predicate MadeBy(auto: bool, hs: seq<History>, calls: seq<Call>, i: nat, e: Entry, id: nat)
    requires |hs| == |calls| + 1 && i < |calls|
  {
    EffectOf(auto, hs[i].session, calls[i]).Records? && hs[i].nextId == id && MadeNow(hs[i], calls[i], e)
  }

  /** Where an entry of the journal after a call comes from: the entry at this place before it (or the call's own, at the end). */
  function CameFrom(s: Session, e: Effect, k: nat): nat {
    match e
    case Nothing => k
    case Records => if |s.dir.journal| + 1 > 20 then k + |s.dir.journal| + 1 - 20 else k
    case Removes(at) => if k < at then k else k + 1
  }

  lemma KeptOrNew<T>(s: seq<T>, x: T, all: seq<T>, k: nat)
    requires |s| <= 20 && all == Newest(s + [x], MAX_UNDO_ENTRIES) && k < |all|
    ensures var was := if |s| + 1 > 20 then k + |s| + 1 - 20 else k;
            if was < |s| then all[k] == s[was] else was == |s| && all[k] == x
  {
  }

  lemma PriorIsRead(h: History, p: string)
    ensures PriorOf(h.session.dir.files, p) == ReadAt(h, p)
  {
  }

  lemma RecordedCameFrom(auto: bool, h: History, c: Call, k: nat)
    requires Identified(Journal(h), h.ids, h.nextId) && EffectOf(auto, h.session, c).Records?
    requires var h' := Advance(auto, h, c); k < |Journal(h')| && |h'.ids| == |Journal(h')|
    ensures var h', was := Advance(auto, h, c), CameFrom(h.session, Records, k);
            if was < |Journal(h)| then Journal(h')[k] == Journal(h)[was] && h'.ids[k] == h.ids[was]
            else was == |Journal(h)| && h'.ids[k] == h.nextId && MadeNow(h, c, Journal(h')[k])
  {
    var h' := Advance(auto, h, c);
    JournalAfter(auto, h.session, c);
    var e := Entry(NextNumber(Journal(h)), c.path.value, PriorOf(h.session.dir.files, c.path.value));
    KeptOrNew(Journal(h), e, Journal(h'), k);
    KeptOrNew(h.ids, h.nextId, h'.ids, k);
    PriorIsRead(h, c.path.value);
  }

  lemma EntryCameFrom(auto: bool, h: History, c: Call, k: nat)
    requires Identified(Journal(h), h.ids, h.nextId)
    requires var h' := Advance(auto, h, c); k < |Journal(h')| && |h'.ids| == |Journal(h')|
    ensures var h', was := Advance(auto, h, c), CameFrom(h.session, EffectOf(auto, h.session, c), k);
            if was < |Journal(h)| then Journal(h')[k] == Journal(h)[was] && h'.ids[k] == h.ids[was]
            else EffectOf(auto, h.session, c).Records? && h'.ids[k] == h.nextId && MadeNow(h, c, Journal(h')[k])
  {
    if EffectOf(auto, h.session, c).Records? {
      RecordedCameFrom(auto, h, c, k);
    } else {
      JournalAfter(auto, h.session, c);
    }
  }

  /** In every run each entry made in it says what its path read as just before the write that made it. */
  lemma {:induction false} EntriesTellBefore(auto: bool, start: Workdir, hs: seq<History>, calls: seq<Call>, m: nat, k: nat)
    returns (i: nat)
    requires Course(auto, start, hs, calls) && Numbered(start.journal) && m < |hs| && k < |Journal(hs[m])|
    requires |hs[m].ids| == |Journal(hs[m])| && hs[m].ids[k] >= |start.journal|
    ensures i < m && MadeBy(auto, hs, calls, i, Journal(hs[m])[k], hs[m].ids[k])
    decreases m
  {
    if m == 0 {
      assert false;
    } else {
      RunsStayNumbered(auto, start, hs, calls, m - 1);
      assert Follows(auto, hs, calls, m - 1);
      EntryCameFrom(auto, hs[m - 1], calls[m - 1], k);
      var was := CameFrom(hs[m - 1].session, EffectOf(auto, hs[m - 1].session, calls[m - 1]), k);
      if was < |Journal(hs[m - 1])| {
        i := EntriesTellBefore(auto, start, hs, calls, m - 1, was);
      } else {
        i := m - 1;
      }
    }
  }

  /** In every run an applied undo makes its path read as it did just before the write that is undone. */
  lemma UndoRestoresWhatWas(auto: bool, start: Workdir, hs: seq<History>, calls: seq<Call>, j: nat) returns (i: nat)
    requires Course(auto, start, hs, calls) && Numbered(start.journal) && j < |calls|
    requires calls[j].UndoCall? && Do(auto, hs[j].session, calls[j]).outcome.Applied?
    requires var k := Aim(hs[j], calls[j]); 0 <= k < |hs[j].ids| && hs[j].ids[k] >= |start.journal|
    ensures var k := Aim(hs[j], calls[j]);
            && k < |Journal(hs[j])| && i < j && MadeBy(auto, hs, calls, i, Journal(hs[j])[k], hs[j].ids[k])
            && ReadAt(hs[j + 1], Journal(hs[j])[k].path) == ReadAt(hs[i], Journal(hs[j])[k].path)
  {
    RunsStayNumbered(auto, start, hs, calls, j);
    assert Follows(auto, hs, calls, j);
    i := EntriesTellBefore(auto, start, hs, calls, j, Aim(hs[j], calls[j]));
    UndoEffect(auto, hs[j].session, calls[j]);
  }

  function IdIn(h: History, n: nat): Option<nat> {
    IdOf(Journal(h), h.ids, n)
  }

  lemma IdStep(auto: bool, start: Workdir, hs: seq<History>, calls: seq<Call>, i: nat, n: nat)
    requires Course(auto, start, hs, calls) && Numbered(start.journal) && i < |calls|
    ensures hs[i].nextId <= hs[i + 1].nextId
    ensures IdIn(hs[i], n).Some? && IdIn(hs[i + 1], n).Some? ==> IdIn(hs[i + 1], n) == IdIn(hs[i], n)
    ensures IdIn(hs[i], n).None? && IdIn(hs[i + 1], n).Some? ==> IdIn(hs[i + 1], n).value >= hs[i].nextId
    ensures IdIn(hs[i], n).Some? <==> HasNumber(Journal(hs[i]), n)
    ensures IdIn(hs[i], n).Some? ==> IdIn(hs[i], n).value < hs[i].nextId
  {
    RunsStayNumbered(auto, start, hs, calls, i);
    assert Follows(auto, hs, calls, i);
    AdvanceIdentifies(auto, hs[i], calls[i], n);
  }

  /** While a number stays it keeps its identity. */
  lemma {:induction false} IdStays(auto: bool, start: Workdir, hs: seq<History>, calls: seq<Call>, a: nat, b: nat, n: nat)
    requires Course(auto, start, hs, calls) && Numbered(start.journal) && a <= b < |hs|
    requires forall m | a <= m <= b :: IdIn(hs[m], n).Some?
    ensures IdIn(hs[b], n) == IdIn(hs[a], n)
    decreases b
  {
    if a < b {
      IdStays(auto, start, hs, calls, a, b - 1, n);
      IdStep(auto, start, hs, calls, b - 1, n);
    }
  }

  /** A number that was absent comes back only with an identity given since. */
  lemma {:induction false} IdComesBackNew(auto: bool, start: Workdir, hs: seq<History>, calls: seq<Call>, a: nat, b: nat, n: nat)
    requires Course(auto, start, hs, calls) && Numbered(start.journal) && a <= b < |hs|
    requires IdIn(hs[a], n).None?
    ensures IdIn(hs[b], n).Some? ==> IdIn(hs[b], n).value >= hs[a].nextId
    ensures hs[a].nextId <= hs[b].nextId
    decreases b
  {
    if a < b {
      IdComesBackNew(auto, start, hs, calls, a, b - 1, n);
      IdStep(auto, start, hs, calls, b - 1, n);
    }
  }

  lemma {:induction false} NextIdGrows(auto: bool, start: Workdir, hs: seq<History>, calls: seq<Call>, a: nat, b: nat)
    requires Course(auto, start, hs, calls) && Numbered(start.journal) && a <= b < |hs|
    ensures hs[a].nextId <= hs[b].nextId
    decreases b
  {
    if a < b {
      NextIdGrows(auto, start, hs, calls, a, b - 1);
      IdStep(auto, start, hs, calls, b - 1, 0);
    }
  }

  /**
   In every run a number names, at two moments, the same edit exactly when it has stayed in the journal in between.
   */
  lemma NumberNamesOneEditIff(auto: bool, start: Workdir, hs: seq<History>, calls: seq<Call>, a: nat, b: nat, n: nat)
    requires Course(auto, start, hs, calls) && Numbered(start.journal) && a <= b < |hs|
    requires IdIn(hs[a], n).Some? && IdIn(hs[b], n).Some?
    ensures IdIn(hs[a], n) == IdIn(hs[b], n) <==> forall m | a <= m <= b :: IdIn(hs[m], n).Some?
  {
    if m :| a <= m <= b && IdIn(hs[m], n).None? {
      NextIdGrows(auto, start, hs, calls, a, m);
      IdComesBackNew(auto, start, hs, calls, m, b, n);
      RunsStayNumbered(auto, start, hs, calls, a);
    } else {
      IdStays(auto, start, hs, calls, a, b, n);
    }
  }

  /** A token issued by denying an undo can only approve an undo of the same number. */
  lemma ApprovalKeepsNumber(start: Workdir, hs: seq<History>, calls: seq<Call>, a: nat, b: nat)
    requires Course(false, start, hs, calls) && FreshTokens(hs, calls) && a < b < |calls|
    requires calls[a].UndoCall? && Do(false, hs[a].session, calls[a]).outcome == Denied(calls[a].newToken)
    requires calls[b].UndoCall? && calls[b].token == calls[a].newToken
    requires Do(false, hs[b].session, calls[b]).outcome.Applied?
    ensures Aim(hs[a], calls[a]) >= 0 && Aim(hs[b], calls[b]) >= 0
    ensures Journal(hs[b])[Aim(hs[b], calls[b])].number == Journal(hs[a])[Aim(hs[a], calls[a])].number
  {
    var t := calls[a].newToken;
    assert Follows(false, hs, calls, a);
    assert t in hs[a + 1].issued && Some(hs[a + 1].issued[t]) == SignatureOf(hs[a].session, calls[a]);
    IssuedStays(start, hs, calls, a + 1, b, t);
    AppliedOnlyOncePerDenial(start, hs, calls, b);
  }

  /**
   What an approval really approves: in every run, the edit that is undone with a token is the one whose undo was denied
   with that token exactly when that edit's number has stayed in the journal ever since the denial.
   */
  lemma ApprovalMeansItsEditIff(start: Workdir, hs: seq<History>, calls: seq<Call>, a: nat, b: nat)
    requires Course(false, start, hs, calls) && FreshTokens(hs, calls) && Numbered(start.journal) && a < b < |calls|
    requires calls[a].UndoCall? && Do(false, hs[a].session, calls[a]).outcome == Denied(calls[a].newToken)
    requires calls[b].UndoCall? && calls[b].token == calls[a].newToken
    requires Do(false, hs[b].session, calls[b]).outcome.Applied?
    ensures var ka, kb := Aim(hs[a], calls[a]), Aim(hs[b], calls[b]);
            && 0 <= ka < |hs[a].ids| && 0 <= kb < |hs[b].ids|
            && (hs[b].ids[kb] == hs[a].ids[ka]
                <==> forall m | a <= m <= b :: HasNumber(Journal(hs[m]), Journal(hs[a])[ka].number))
  {
    ApprovalKeepsNumber(start, hs, calls, a, b);
    RunsStayNumbered(false, start, hs, calls, a);
    RunsStayNumbered(false, start, hs, calls, b);
    var ka, kb := Aim(hs[a], calls[a]), Aim(hs[b], calls[b]);
    var n := Journal(hs[a])[ka].number;
    TargetIs(Journal(hs[a]), ka);
    TargetIs(Journal(hs[b]), kb);
    NumberNamesOneEditIff(false, start, hs, calls, a, b, n);
    forall m | a <= m <= b ensures IdIn(hs[m], n).Some? <==> HasNumber(Journal(hs[m]), n) {
      RunsStayNumbered(false, start, hs, calls, m);
    }
  }

  // ---- a run in which an approval undoes another edit ----

  const CREATE_A := WriteOf("a", "x")
  const CREATE_B := WriteOf("b", "y")

  /** Create "a" and ask to undo it, twice; undo it once, create "b", and use the other token. */
  const REUSE: seq<Call> := [
    WriteCall(Some("a"), "x", "", "t0", Done), WriteCall(Some("a"), "x", "t0", "t1", Done),
    UndoCall(None, "", "old", Done), UndoCall(None, "", "t3", Done),
    WriteCall(Some("b"), "y", "", "t4", Done), UndoCall(None, "t3", "t5", Done),
    WriteCall(Some("b"), "y", "t4", "t6", Done), UndoCall(None, "old", "t7", Done)]

  const WITH_A := Workdir(map["a" := Text("x")], [Entry(1, "a", None)])
  const WITH_B := Workdir(map["b" := Text("y")], [Entry(1, "b", None)])
  const EMPTY := Workdir(map[], [])

  const TWO: map<Token, Signature> := map["t0" := CREATE_A, "old" := UndoOf(1)]
  const THREE: map<Token, Signature> := map["t0" := CREATE_A, "old" := UndoOf(1), "t3" := UndoOf(1)]
  const FOUR: map<Token, Signature> := map["t0" := CREATE_A, "old" := UndoOf(1), "t3" := UndoOf(1), "t4" := CREATE_B]

  const REUSED: seq<History> := [
    History(Session(EMPTY, map[]), map[], {}, [], 0),
    History(Session(EMPTY, map["t0" := CREATE_A]), map["t0" := CREATE_A], {}, [], 0),
    History(Session(WITH_A, map[]), map["t0" := CREATE_A], {"t0"}, [0], 1),
    History(Session(WITH_A, map["old" := UndoOf(1)]), TWO, {"t0"}, [0], 1),
    History(Session(WITH_A, map["old" := UndoOf(1), "t3" := UndoOf(1)]), THREE, {"t0"}, [0], 1),
    History(Session(WITH_A, map["old" := UndoOf(1), "t3" := UndoOf(1), "t4" := CREATE_B]), FOUR, {"t0"}, [0], 1),
    History(Session(EMPTY, map["old" := UndoOf(1), "t4" := CREATE_B]), FOUR, {"t0", "t3"}, [], 1),
    History(Session(WITH_B, map["old" := UndoOf(1)]), FOUR, {"t0", "t3", "t4"}, [1], 2),
    History(Session(EMPTY, map[]), FOUR, {"t0", "t3", "t4", "old"}, [], 2)]

  lemma CreatesA()
    ensures Advance(false, REUSED[0], REUSE[0]) == REUSED[1]
    ensures Advance(false, REUSED[1], REUSE[1]) == REUSED[2]
  {
    assert Advance(false, REUSED[1], REUSE[1]).session.dir == WITH_A;
  }

  lemma AsksTwice()
    ensures Advance(false, REUSED[2], REUSE[2]) == REUSED[3]
    ensures Advance(false, REUSED[3], REUSE[3]) == REUSED[4]
    ensures Do(false, REUSED[2].session, REUSE[2]).outcome == Denied("old")
  {
  }

  lemma UndoesA()
    ensures Advance(false, REUSED[4], REUSE[4]) == REUSED[5]
    ensures Advance(false, REUSED[5], REUSE[5]) == REUSED[6]
  {
    assert UndoAt(WITH_A, 0) == EMPTY;
    assert REUSED[5].session.tokens - {"t3"} == REUSED[6].session.tokens;
  }

  lemma UndoesB()
    ensures Advance(false, REUSED[6], REUSE[6]) == REUSED[7]
    ensures Advance(false, REUSED[7], REUSE[7]) == REUSED[8]
    ensures Do(false, REUSED[7].session, REUSE[7]).outcome.Applied?
  {
    assert REUSED[6].session.tokens - {"t4"} == REUSED[7].session.tokens;
    assert UndoAt(WITH_B, 0) == EMPTY;
    assert REUSED[7].session.tokens - {"old"} == map[];
  }

  lemma ReuseFollows(i: nat)
    requires i < 8
    ensures Follows(false, REUSED, REUSE, i)
  {
    match i
    case 0 => CreatesA();
    case 1 => CreatesA();
    case 2 => AsksTwice();
    case 3 => AsksTwice();
    case 4 => UndoesA();
    case 5 => UndoesA();
    case 6 => UndoesB();
    case 7 => UndoesB();
  }

  lemma ReuseIsCourse()
    ensures Course(false, EMPTY, REUSED, REUSE)
  {
    forall i | 0 <= i < |REUSE| ensures Follows(false, REUSED, REUSE, i) {
      ReuseFollows(i);
    }
    assert seq(|EMPTY.journal|, i => i) == [];
  }

  lemma ReuseIsFresh()
    ensures FreshTokens(REUSED, REUSE)
  {
  }

  /**
   From an empty workdir, with tokens all issued by denials: the token "old" is issued for undoing the creation of "a"
   (identity 0) and deletes "b" (identity 1).
   */
  lemma ApprovalOutlivesItsEdit()
    ensures Course(false, EMPTY, REUSED, REUSE) && FreshTokens(REUSED, REUSE)
    ensures Do(false, REUSED[2].session, REUSE[2]).outcome == Denied("old")
    ensures Journal(REUSED[2]) == [Entry(1, "a", None)] && REUSED[2].ids == [0]
    ensures REUSE[7].token == "old" && Do(false, REUSED[7].session, REUSE[7]).outcome.Applied?
    ensures Journal(REUSED[7]) == [Entry(1, "b", None)] && REUSED[7].ids == [1]
    ensures REUSED[7].session.dir.files == map["b" := Text("y")] && REUSED[8].session.dir.files == map[]
  {
    ReuseIsCourse();
    ReuseIsFresh();
    AsksTwice();
    UndoesB();
  }

  // ---- the mutable tools ----

  class FsTools {
    var files: Files
    var journal: seq<Entry>
    var tokens: map<Token, Signature>
    const autoConfirm: bool

    constructor (files: Files, autoConfirm: bool)
      ensures View() == Session(Workdir(files, []), map[]) && this.autoConfirm == autoConfirm
    {
      this.files, this.journal, this.tokens, this.autoConfirm := files, [], map[], autoConfirm;
    }

    function View(): Session
      reads this
    {
      Session(Workdir(files, journal), tokens)
    }

    /** Consumes the presented token; issues a new one when it does not approve the operation. */
    method PassGate(sig: Signature, token: Token, newToken: Token) returns (ok: bool)
      modifies this`tokens
      ensures ok <==> autoConfirm || Confirmed(old(tokens), token, sig)
      ensures tokens == if autoConfirm then old(tokens)
                        else if ok then Spend(old(tokens), token) else Spend(old(tokens), token)[newToken := sig]
    {
      if autoConfirm {
        return true;
      }
      ok := token != "" && token in tokens && tokens[token] == sig;
      if token != "" {
        tokens := tokens - {token};
      }
      if !ok {
        tokens := tokens[newToken := sig];
      }
    }

    method WriteFile(path: Option<string>, content: string, token: Token, newToken: Token, io: Io) returns (outcome: Outcome)
      modifies this
      ensures Result(View(), outcome) == FsWrite(autoConfirm, old(View()), path, content, token, newToken, io)
      ensures outcome.Applied? ==> path.Some? && files == old(files)[path.value := Text(content)]
      ensures outcome.Denied? ==> files == old(files) && journal == old(journal)
    {
      if path.None? {
        return Failed;
      }
      var prior := if path.value in files then Some(ReadBack(files[path.value])) else None;
      var ok := PassGate(WriteOf(path.value, content), token, newToken);
      if !ok {
        return Denied(newToken);
      }
      journal := Record(journal, path.value, prior);
      if io.Broken? {
        files := Put(files, path.value, io.left);
        return Failed;
      }
      files := files[path.value := Text(content)];
      outcome := Applied;
    }

    method UndoEdit(index: Option<int>, token: Token, newToken: Token, io: Io) returns (outcome: Outcome)
      modifies this
      ensures Result(View(), outcome) == FsUndo(autoConfirm, old(View()), index, token, newToken, io)
      ensures outcome.Denied? ==> files == old(files) && journal == old(journal)
      ensures outcome.Applied? ==> |journal| == |old(journal)| - 1
    {
      var k := Target(journal, index);
      if k < 0 {
        return Failed;
      }
      var entry := journal[k];
      var ok := PassGate(UndoOf(entry.number), token, newToken);
      if !ok {
        return Denied(newToken);
      }
      if io.Broken? {
        files := Put(files, entry.path, io.left);
        return Failed;
      }
      if entry.prior.None? {
        files := files - {entry.path};
      } else {
        files := files[entry.path := Text(entry.prior.value)];
      }
      journal := journal[..k] + journal[k + 1..];
      outcome := Applied;
    }
  }
}
