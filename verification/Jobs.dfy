/** Research jobs, activity and the deferred apply: jobs.py, app.py and post_apply as one state machine. */
module Jobs {
  import opened Prelude
  import Config

  type Id = string

  datatype RowState = Queued | Running | Completed | Failed | Cancelled

  predicate Terminal(r: RowState) {
    r.Completed? || r.Failed? || r.Cancelled?
  }

  datatype Row = Row(state: RowState, stage: Option<string>, percent: nat)

  /**
   An asyncio task. One that is cancelled before its first step never runs its body; one that is cancelled
   later runs on until it unwinds (or finishes all the same).
   */
  datatype Task = Scheduled(cancelled: bool) | InBody(cancelled: bool) | Done

  /** `fired` records for which jobs the terminal listeners have run, `commits` how often settings were committed. */
  datatype State = State(
    rows: map<Id, Row>, tasks: map<Id, Task>, chats: nat,
    store: Config.Store, pending: bool,
    fired: multiset<Id>, commits: nat, stopping: bool)

  /** A step that may commit settings carries the text that would be drawn if the commit has to mint a server token. */
  datatype Step =
    | Submit(id: Id)
    | Start(id: Id)
    | Progress(id: Id, stage: string, percent: int)
    | Finish(id: Id, outcome: RowState, token: string)
    | Drop(id: Id)
    | Cancel(id: Id, token: string)
    | Shutdown
    | ChatBegin
    | ChatEnd(token: string)
    | StagePatch(patch: Config.Table)
    | PostApply(downloading: bool, token: string)

  // ---- idle, and the commit that waits for it ----

  predicate ActiveRow(s: State) {
    exists id | id in s.rows :: !Terminal(s.rows[id].state)
  }

  predicate AliveTask(s: State) {
    exists id | id in s.tasks :: !s.tasks[id].Done?
  }

  predicate Idle(s: State) {
    s.chats == 0 && !ActiveRow(s)
  }

  function CommitNow(rules: Config.Rules, s: State, token: string): State {
    s.(store := Config.Apply(rules, s.store, token), pending := false,
       commits := if s.store.staged.Some? then s.commits + 1 else s.commits)
  }

  function MaybeCommit(rules: Config.Rules, s: State, token: string): State {
    if s.pending && Idle(s) && s.store.staged.Some? then CommitNow(rules, s, token) else s
  }

  /** Settings keys whose staged change is refused while the family download runs. */
  const FAMILY_KEY := "quant_family"

  function Post(rules: Config.Rules, s: State, downloading: bool, token: string): State {
    if s.store.staged.Some? && FAMILY_KEY in s.store.staged.value && downloading then s
    else if s.store.staged.Some? && !Idle(s) then s.(pending := true)
    else CommitNow(rules, s, token)
  }

  // ---- jobs ----

  /** _set_terminal: the first terminal state wins, and only it fires the listeners. */
  function SetTerminal(rules: Config.Rules, s: State, id: Id, outcome: RowState, token: string): State {
    if id !in s.rows || Terminal(s.rows[id].state) then s
    else
      var row := if outcome.Completed? then Row(Completed, None, 100) else s.rows[id].(state := outcome);
      MaybeCommit(rules, s.(rows := s.rows[id := row], fired := s.fired + multiset{id}), token)
  }

  function Clamp(percent: int): nat {
    Max(0, Min(100, percent))
  }

  function CancelTask(t: Task): Task {
    match t
    case Scheduled(_) => Scheduled(true)
    case InBody(_) => InBody(true)
    case Done => Done
  }

  function DoCancel(rules: Config.Rules, s: State, id: Id, token: string): State {
    if id !in s.rows || Terminal(s.rows[id].state) then s
    else
      var s1 := SetTerminal(rules, s, id, Cancelled, token);
      if id in s1.tasks then s1.(tasks := s1.tasks[id := CancelTask(s1.tasks[id])]) else s1
  }

  function DoSubmit(s: State, id: Id): State {
    if ActiveRow(s) || AliveTask(s) then s
    else s.(rows := s.rows[id := Row(Queued, None, 0)], tasks := s.tasks[id := Scheduled(false)])
  }

  predicate Enabled(s: State, st: Step) {
    match st
    case Submit(id) => id !in s.rows && id !in s.tasks && !s.stopping
    case Start(id) => id in s.tasks && s.tasks[id] == Scheduled(false) && id in s.rows
    case Progress(id, _, _) => id in s.tasks && s.tasks[id].InBody? && id in s.rows
    case Finish(id, outcome, _) => id in s.tasks && s.tasks[id].InBody? && Terminal(outcome)
    case Drop(id) => id in s.tasks && s.tasks[id] == Scheduled(true)
    case _ => true
  }

  function Next(rules: Config.Rules, s: State, st: Step): State
    requires Enabled(s, st)
  {
    match st
    case Submit(id) => DoSubmit(s, id)
    case Start(id) => s.(rows := s.rows[id := s.rows[id].(state := Running)], tasks := s.tasks[id := InBody(false)])
    case Progress(id, stage, percent) =>
      s.(rows := s.rows[id := s.rows[id].(stage := Some(stage), percent := Clamp(percent))])
    case Finish(id, outcome, token) => SetTerminal(rules, s, id, outcome, token).(tasks := s.tasks[id := Done])
    case Drop(id) => s.(tasks := s.tasks[id := Done])
    case Cancel(id, token) => DoCancel(rules, s, id, token)
    case Shutdown => s.(tasks := map id | id in s.tasks :: CancelTask(s.tasks[id]), stopping := true)
    case ChatBegin => s.(chats := s.chats + 1)
    case ChatEnd(token) =>
      var n := if s.chats == 0 then 0 else s.chats - 1;
      if n == 0 then MaybeCommit(rules, s.(chats := 0), token) else s.(chats := n)
    case StagePatch(patch) => s.(store := Config.Stage(rules, s.store, patch))
    case PostApply(downloading, token) => Post(rules, s, downloading, token)
  }

  /** Start-up: rows another process left active become failed; nothing listens yet. */
  function FailOrphans(rows: map<Id, Row>): map<Id, Row> {
    map id | id in rows :: if Terminal(rows[id].state) then rows[id] else rows[id].(state := Failed)
  }

  function Boot(rows: map<Id, Row>, store: Config.Store): State {
    State(FailOrphans(rows), map[], 0, store, false, multiset{}, 0, false)
  }

  // ---- what single steps do, in terms of the state before them ----

  /** No chat is open and every row is completed, failed or cancelled. */
  predicate Quiet(s: State) {
    s.chats == 0 && forall id | id in s.rows :: s.rows[id].state in {Completed, Failed, Cancelled}
  }

  lemma IdleIsQuiet(s: State)
    ensures Idle(s) <==> Quiet(s)
  {
    forall id | id in s.rows ensures Terminal(s.rows[id].state) <==> s.rows[id].state in {Completed, Failed, Cancelled} {}
  }

  /** A family switch waits for its download: such a request is refused. */
  predicate Refused(s: State, downloading: bool) {
    downloading && s.store.staged.Some? && "quant_family" in s.store.staged.value
  }

  /**
   POST /v1/system/apply: it commits at once exactly when something is staged, the system is idle and it is not refused; it
   leaves a commit pending exactly when something is staged and the system is busy; refused, it changes nothing.
   */
  lemma ApplyCommitsIff(rules: Config.Rules, s: State, downloading: bool, token: string)
    ensures var s', staged := Next(rules, s, PostApply(downloading, token)), s.store.staged.Some?;
            && (Refused(s, downloading) ==> s' == s)
            && (s'.commits != s.commits <==> staged && Quiet(s) && !Refused(s, downloading))
            && (s'.commits != s.commits ==>
                  s'.commits == s.commits + 1 && s'.store == Config.Apply(rules, s.store, token) && !s'.pending)
            && (s'.commits == s.commits ==> s'.store == s.store)
            && (!Refused(s, downloading) ==> (s'.pending <==> staged && !Quiet(s)))
            && s'.rows == s.rows && s'.tasks == s.tasks && s'.chats == s.chats && s'.fired == s.fired
  {
    IdleIsQuiet(s);
  }

  /** A commit that was deferred happens as soon as this makes the system idle, and only then. */
  lemma DeferredCommitsIff(rules: Config.Rules, s: State, token: string)
    ensures var s' := MaybeCommit(rules, s, token);
            if s.pending && Quiet(s) && s.store.staged.Some? then
              s' == s.(store := Config.Apply(rules, s.store, token), pending := false, commits := s.commits + 1)
            else s' == s
  {
    IdleIsQuiet(s);
  }

  /** A submission is let in exactly when every row is over and no task is left; it is queued without progress. */
  lemma SubmitAdmits(rules: Config.Rules, s: State, id: Id)
    requires Enabled(s, Submit(id))
    ensures var free := (forall other | other in s.rows :: s.rows[other].state in {Completed, Failed, Cancelled})
                        && (forall other | other in s.tasks :: s.tasks[other] == Done);
            Next(rules, s, Submit(id))
            == if free then s.(rows := s.rows[id := Row(Queued, None, 0)], tasks := s.tasks[id := Scheduled(false)]) else s
  {
    IdleIsQuiet(s.(chats := 0));
  }

  /** The first segment of a job's task writes running whatever the row says; progress writes stage and percent, within 0 and 100. */
  lemma WorkShows(rules: Config.Rules, s: State, id: Id, stage: string, percent: int)
    ensures Enabled(s, Start(id)) ==>
              Next(rules, s, Start(id)) == s.(rows := s.rows[id := Row(Running, s.rows[id].stage, s.rows[id].percent)],
                                              tasks := s.tasks[id := InBody(false)])
    ensures Enabled(s, Progress(id, stage, percent)) ==>
              Next(rules, s, Progress(id, stage, percent))
              == s.(rows := s.rows[id := Row(s.rows[id].state, Some(stage),
                                             if percent < 0 then 0 else if percent > 100 then 100 else percent)])
  {
  }

  /** The first terminal state is recorded and reported; only a completion changes what the row shows besides. */
  lemma FirstEndWins(rules: Config.Rules, s: State, id: Id, outcome: RowState, token: string)
    requires outcome in {Completed, Failed, Cancelled}
    ensures var s' := SetTerminal(rules, s, id, outcome, token);
            if id !in s.rows || s.rows[id].state in {Completed, Failed, Cancelled} then s' == s
            else
              && s'.rows == s.rows[id := if outcome == Completed then Row(Completed, None, 100)
                                         else Row(outcome, s.rows[id].stage, s.rows[id].percent)]
              && s'.fired == s.fired + multiset{id} && s'.tasks == s.tasks && s'.chats == s.chats
              && (s'.commits != s.commits <==>
                    s.pending && s.store.staged.Some? && Quiet(s.(rows := s'.rows)))
  {
    if id in s.rows && !Terminal(s.rows[id].state) {
      var row := if outcome.Completed? then Row(Completed, None, 100) else s.rows[id].(state := outcome);
      DeferredCommitsIff(rules, s.(rows := s.rows[id := row], fired := s.fired + multiset{id}), token);
      QuietByRows(s.(rows := s.rows[id := row], fired := s.fired + multiset{id}), s.(rows := s.rows[id := row]));
    }
  }

  lemma QuietByRows(s: State, t: State)
    requires s.rows == t.rows && s.chats == t.chats
    ensures Quiet(s) == Quiet(t)
  {
  }

  /** Cancelling asks the task of an active job to end, once its row says cancelled; a shutdown asks every task. */
  lemma CancelAsks(rules: Config.Rules, s: State, id: Id, token: string)
    ensures var s' := Next(rules, s, Cancel(id, token));
            if id !in s.rows || s.rows[id].state in {Completed, Failed, Cancelled} then s' == s
            else
              && id in s'.rows && s'.rows[id].state == Cancelled && s'.tasks.Keys == s.tasks.Keys
              && (id in s.tasks ==> s'.tasks[id] == WhenAsked(s.tasks[id]))
              && (forall other | other in s.tasks && other != id :: s'.tasks[other] == s.tasks[other])
    ensures var s' := Next(rules, s, Shutdown);
            && s'.tasks.Keys == s.tasks.Keys && s'.rows == s.rows && s'.stopping
            && (forall other | other in s.tasks :: s'.tasks[other] == WhenAsked(s.tasks[other]))
  {
    FirstEndWins(rules, s, id, Cancelled, token);
  }

  /** A task that is asked to end: it was not started, is in its body, or is over. */
  function WhenAsked(t: Task): Task {
    if t == Scheduled(false) then Scheduled(true) else if t == InBody(false) then InBody(true) else t
  }

  /** At start-up every row that is not over is failed, as it stands. */
  lemma OrphansFail(rows: map<Id, Row>, id: Id)
    requires id in rows
    ensures FailOrphans(rows).Keys == rows.Keys
    ensures FailOrphans(rows)[id] == if rows[id].state in {Completed, Failed, Cancelled} then rows[id]
                                     else Row(Failed, rows[id].stage, rows[id].percent)
  {
  }

  // ---- invariants ----

  predicate ActiveAt(s: State, id: Id) {
    id in s.rows && !Terminal(s.rows[id].state)
  }

  predicate AliveAt(s: State, id: Id) {
    id in s.tasks && !s.tasks[id].Done?
  }

  ghost predicate OneActive(s: State) {
    && (forall a, b | ActiveAt(s, a) && ActiveAt(s, b) :: a == b)
    && (forall a, b | AliveAt(s, a) && AliveAt(s, b) :: a == b)
  }

  // ---- one job by itself ----

  /** What a state says about one job: its row, its task, and how often its listeners have run. */
  datatype Job = Job(row: Option<Row>, task: Option<Task>, fired: nat, stopping: bool) {
    predicate Is(r: RowState) {
      row.Some? && row.value.state == r
    }

    predicate Active() {
      row.Some? && !Terminal(row.value.state)
    }

    predicate Over() {
      row.Some? && Terminal(row.value.state)
    }
  }

  function JobAt(s: State, id: Id): Job {
    Job(if id in s.rows then Some(s.rows[id]) else None, if id in s.tasks then Some(s.tasks[id]) else None,
        s.fired[id], s.stopping)
  }

  function Ended(j: Job, outcome: RowState): Job {
    if !j.Active() then j
    else
      j.(row := Some(if outcome.Completed? then Row(Completed, None, 100) else j.row.value.(state := outcome)),
         fired := j.fired + 1)
  }

  function Asked(j: Job): Job {
    j.(task := if j.task.Some? then Some(CancelTask(j.task.value)) else None)
  }

  predicate Admits(s: State) {
    !ActiveRow(s) && !AliveTask(s)
  }

  /** What a step does to the job `id`; `admitted` says whether a submission is let in. */
  function JobNext(j: Job, st: Step, id: Id, admitted: bool): Job {
    match st
    case Submit(other) =>
      if other == id && admitted then j.(row := Some(Row(Queued, None, 0)), task := Some(Scheduled(false))) else j
    case Start(other) =>
      if other == id && j.row.Some? then j.(row := Some(j.row.value.(state := Running)), task := Some(InBody(false))) else j
    case Progress(other, stage, percent) =>
      if other == id && j.row.Some? then j.(row := Some(j.row.value.(stage := Some(stage), percent := Clamp(percent)))) else j
    case Finish(other, outcome, _) => if other == id then Ended(j, outcome).(task := Some(Done)) else j
    case Drop(other) => if other == id then j.(task := Some(Done)) else j
    case Cancel(other, _) => if other == id && j.Active() then Asked(Ended(j, Cancelled)) else j
    case Shutdown => Asked(j).(stopping := true)
    case _ => j
  }

  /** What an enabled step presupposes of the job it names. */
  predicate JobMay(j: Job, st: Step, id: Id) {
    match st
    case Submit(other) => other == id ==> j.row.None? && j.task.None? && !j.stopping
    case Start(other) => other == id ==> j.task == Some(Scheduled(false)) && j.row.Some?
    case Progress(other, _, _) => other == id ==> j.task.Some? && j.task.value.InBody? && j.row.Some?
    case Finish(other, outcome, _) => Terminal(outcome) && (other == id ==> j.task.Some? && j.task.value.InBody?)
    case Drop(other) => other == id ==> j.task == Some(Scheduled(true))
    case _ => true
  }

  lemma CommitLeavesJobs(rules: Config.Rules, s: State, token: string, id: Id)
    ensures JobAt(MaybeCommit(rules, s, token), id) == JobAt(s, id) && JobAt(CommitNow(rules, s, token), id) == JobAt(s, id)
  {
  }

  lemma EndStep(rules: Config.Rules, s: State, ended: Id, outcome: RowState, token: string, id: Id)
    ensures JobAt(SetTerminal(rules, s, ended, outcome, token), id)
         == if ended == id then Ended(JobAt(s, id), outcome) else JobAt(s, id)
    ensures SetTerminal(rules, s, ended, outcome, token).tasks == s.tasks
  {
  }

  lemma CancelStep(rules: Config.Rules, s: State, cancelled: Id, token: string, id: Id)
    ensures JobAt(DoCancel(rules, s, cancelled, token), id)
         == if cancelled == id && JobAt(s, id).Active() then Asked(Ended(JobAt(s, id), Cancelled)) else JobAt(s, id)
  {
    EndStep(rules, s, cancelled, Cancelled, token, id);
  }

  lemma ShutdownStep(rules: Config.Rules, s: State, id: Id)
    ensures JobAt(Next(rules, s, Shutdown), id) == Asked(JobAt(s, id)).(stopping := true)
  {
  }

  /** Seen from one job, a step of the system is a step of the job. */
  lemma JobStep(rules: Config.Rules, s: State, st: Step, id: Id)
    requires Enabled(s, st)
    ensures JobMay(JobAt(s, id), st, id)
    ensures JobAt(Next(rules, s, st), id) == JobNext(JobAt(s, id), st, id, Admits(s))
  {
    match st {
      case Finish(other, outcome, token) => EndStep(rules, s, other, outcome, token, id);
      case Cancel(other, token) => CancelStep(rules, s, other, token, id);
      case Shutdown => ShutdownStep(rules, s, id);
      case ChatEnd(token) => CommitLeavesJobs(rules, s.(chats := 0), token, id);
      case PostApply(_, token) => CommitLeavesJobs(rules, s, token, id);
      case _ =>
    }
  }

  /** The row state a task goes with. */
  predicate Goes(t: Task, r: RowState, stopping: bool) {
    match t
    case Scheduled(false) => r.Queued?
    case Scheduled(true) => r.Cancelled? || (stopping && !r.Running?)
    case InBody(false) => r.Running?
    case InBody(true) => r.Cancelled? || (stopping && r.Running?)
    case Done => Terminal(r) || stopping
  }

  /**
   The row of a job follows its task; its listeners have run once if it is over and not otherwise; a completed
   job reads 100 percent without a stage.
   */
  predicate JobOk(j: Job) {
    && (j.Active() ==> j.task.Some?)
    && (j.task.Some? ==> j.row.Some? && Goes(j.task.value, j.row.value.state, j.stopping))
    && j.fired == (if j.task.Some? && j.Over() then 1 else 0)
    && (j.task.Some? && j.Is(Completed) ==> j.row == Some(Row(Completed, None, 100)))
  }

  lemma JobKept(j: Job, st: Step, id: Id, admitted: bool)
    requires JobOk(j) && JobMay(j, st, id)
    ensures JobOk(JobNext(j, st, id, admitted))
  {
  }

  ghost predicate JobsOk(s: State) {
    forall id: Id :: JobOk(JobAt(s, id))
  }

  predicate PendingInv(s: State) {
    s.pending ==> s.store.staged.Some? && !Idle(s)
  }

  ghost predicate Inv(s: State) {
    OneActive(s) && JobsOk(s) && PendingInv(s)
  }

  // ---- every step keeps the invariant ----

  lemma JobsKept(rules: Config.Rules, s: State, st: Step)
    requires JobsOk(s) && Enabled(s, st)
    ensures JobsOk(Next(rules, s, st))
  {
    forall id: Id ensures JobOk(JobAt(Next(rules, s, st), id)) {
      JobStep(rules, s, st, id);
      JobKept(JobAt(s, id), st, id, Admits(s));
    }
  }

  /** Only a submission makes a row active or a task alive. */
  lemma NothingRevives(j: Job, st: Step, id: Id, admitted: bool)
    requires JobOk(j) && JobMay(j, st, id) && (st.Submit? ==> st.id != id || !admitted)
    ensures JobNext(j, st, id, admitted).Active() ==> j.Active()
    ensures Alive(JobNext(j, st, id, admitted)) ==> Alive(j)
  {
  }

  predicate Alive(j: Job) {
    j.task.Some? && !j.task.value.Done?
  }

  lemma OneActiveKept(rules: Config.Rules, s: State, st: Step)
    requires OneActive(s) && JobsOk(s) && Enabled(s, st)
    ensures OneActive(Next(rules, s, st))
  {
    var s' := Next(rules, s, st);
    if st.Submit? && Admits(s) {
      forall id ensures (ActiveAt(s', id) ==> id == st.id) && (AliveAt(s', id) ==> id == st.id) {
        assert !ActiveAt(s, id) && !AliveAt(s, id);
      }
    } else {
      forall id ensures (ActiveAt(s', id) ==> ActiveAt(s, id)) && (AliveAt(s', id) ==> AliveAt(s, id)) {
        RevivesNone(rules, s, st, id);
      }
    }
  }

  lemma RevivesNone(rules: Config.Rules, s: State, st: Step, id: Id)
    requires JobsOk(s) && Enabled(s, st) && !(st.Submit? && Admits(s))
    ensures ActiveAt(Next(rules, s, st), id) ==> ActiveAt(s, id)
    ensures AliveAt(Next(rules, s, st), id) ==> AliveAt(s, id)
  {
    JobStep(rules, s, st, id);
    NothingRevives(JobAt(s, id), st, id, Admits(s));
    ActiveAndAlive(s, id);
    ActiveAndAlive(Next(rules, s, st), id);
  }

  lemma ActiveAndAlive(s: State, id: Id)
    ensures ActiveAt(s, id) == JobAt(s, id).Active() && AliveAt(s, id) == Alive(JobAt(s, id))
  {
  }

  /** After a commit attempt nothing that could be committed is left pending. */
  lemma CommitSettles(rules: Config.Rules, s: State, token: string)
    requires s.pending ==> s.store.staged.Some?
    ensures PendingInv(MaybeCommit(rules, s, token))
  {
    assert Idle(MaybeCommit(rules, s, token)) == Idle(s);
  }

  /** Only a terminal transition or a chat's end can make the system idle. */
  predicate MayDrain(st: Step) {
    st.Finish? || st.Cancel? || st.ChatEnd?
  }

  lemma BusyKept(rules: Config.Rules, s: State, st: Step)
    requires Enabled(s, st) && !Idle(s) && !MayDrain(st)
    ensures !Idle(Next(rules, s, st))
  {
    if s.chats == 0 {
      var id :| id in s.rows && !Terminal(s.rows[id].state);
      assert id in Next(rules, s, st).rows;
    }
  }

  lemma PendingKept(rules: Config.Rules, s: State, st: Step)
    requires PendingInv(s) && Enabled(s, st)
    ensures PendingInv(Next(rules, s, st))
  {
    match st {
      case Finish(id, outcome, token) => TerminalSettles(rules, s, id, outcome, token);
      case Cancel(id, token) => TerminalSettles(rules, s, id, Cancelled, token);
      case ChatEnd(token) => CommitSettles(rules, s.(chats := 0), token);
      case _ => if !Idle(s) { BusyKept(rules, s, st); }
    }
  }

  lemma TerminalSettles(rules: Config.Rules, s: State, id: Id, outcome: RowState, token: string)
    requires PendingInv(s)
    ensures PendingInv(SetTerminal(rules, s, id, outcome, token))
    ensures forall tasks :: PendingInv(SetTerminal(rules, s, id, outcome, token).(tasks := tasks))
  {
  }

  lemma NextKeepsInv(rules: Config.Rules, s: State, st: Step)
    requires Inv(s) && Enabled(s, st)
    ensures Inv(Next(rules, s, st))
  {
    JobsKept(rules, s, st);
    OneActiveKept(rules, s, st);
    PendingKept(rules, s, st);
  }

  // ---- whole runs of one process ----

  ghost predicate Run(rules: Config.Rules, states: seq<State>, steps: seq<Step>) {
    && |states| == |steps| + 1
    && (exists rows, store :: states[0] == Boot(rows, store))
    && (forall i | 0 <= i < |steps| :: Enabled(states[i], steps[i]) && states[i + 1] == Next(rules, states[i], steps[i]))
  }

  lemma {:induction false} RunKeepsInv(rules: Config.Rules, states: seq<State>, steps: seq<Step>, i: nat)
    requires Run(rules, states, steps) && i < |states|
    ensures Inv(states[i])
    decreases i
  {
    if i > 0 {
      RunKeepsInv(rules, states, steps, i - 1);
      assert Enabled(states[i - 1], steps[i - 1]) && states[i] == Next(rules, states[i - 1], steps[i - 1]);
      NextKeepsInv(rules, states[i - 1], steps[i - 1]);
    }
  }

  /** Chats begun and not ended; an end without a beginning does not count below zero. */
  function OpenChats(steps: seq<Step>): nat {
    if steps == [] then 0
    else
      var before := OpenChats(steps[..|steps| - 1]);
      match steps[|steps| - 1]
      case ChatBegin => before + 1
      case ChatEnd(_) => if before == 0 then 0 else before - 1
      case _ => before
  }

  /** In every run the activity count is the number of open chats. */
  lemma {:induction false} ChatsAreCounted(rules: Config.Rules, states: seq<State>, steps: seq<Step>, i: nat)
    requires Run(rules, states, steps) && i < |states|
    ensures states[i].chats == OpenChats(steps[..i])
    decreases i
  {
    if i > 0 {
      ChatsAreCounted(rules, states, steps, i - 1);
      assert steps[..i][..i - 1] == steps[..i - 1];
      assert Enabled(states[i - 1], steps[i - 1]) && states[i] == Next(rules, states[i - 1], steps[i - 1]);
    }
  }

  /** In every reachable state at most one job is non-terminal and at most one job task is alive. */
  lemma OneJobAtATime(rules: Config.Rules, states: seq<State>, steps: seq<Step>, i: nat, a: Id, b: Id)
    requires Run(rules, states, steps) && i < |states|
    ensures ActiveAt(states[i], a) && ActiveAt(states[i], b) ==> a == b
    ensures AliveAt(states[i], a) && AliveAt(states[i], b) ==> a == b
  {
    RunKeepsInv(rules, states, steps, i);
  }

  /** The step of a run, seen from one job. */
  lemma RunJobStep(rules: Config.Rules, states: seq<State>, steps: seq<Step>, i: nat, id: Id)
    requires Run(rules, states, steps) && i < |steps|
    ensures JobOk(JobAt(states[i], id)) && JobMay(JobAt(states[i], id), steps[i], id)
    ensures JobAt(states[i + 1], id) == JobNext(JobAt(states[i], id), steps[i], id, Admits(states[i]))
  {
    RunKeepsInv(rules, states, steps, i);
    assert Enabled(states[i], steps[i]) && states[i + 1] == Next(rules, states[i], steps[i]);
    JobStep(rules, states[i], steps[i], id);
  }

  /** A terminal row keeps its state and a fired listener does not fire again, whatever happens. */
  lemma OverStaysOver(j: Job, st: Step, id: Id, admitted: bool)
    requires JobOk(j) && JobMay(j, st, id) && j.Over()
    ensures var j' := JobNext(j, st, id, admitted);
            && j'.Is(j.row.value.state) && j'.fired == j.fired && (j.task.Some? ==> j'.task.Some?)
  {
  }

  /** Once terminal, a job keeps that state for the rest of the run, and its listeners have run exactly once. */
  lemma {:induction false} TerminalIsFinal(rules: Config.Rules, states: seq<State>, steps: seq<Step>, i: nat, j: nat, id: Id)
    requires Run(rules, states, steps) && i <= j < |states|
    requires id in states[i].rows && Terminal(states[i].rows[id].state)
    ensures id in states[j].rows && states[j].rows[id].state == states[i].rows[id].state
    ensures id in states[i].tasks ==> id in states[j].tasks && states[i].fired[id] == states[j].fired[id] == 1
    decreases j
  {
    RunKeepsInv(rules, states, steps, i);
    assert JobOk(JobAt(states[i], id));
    if i < j {
      TerminalIsFinal(rules, states, steps, i, j - 1, id);
      RunJobStep(rules, states, steps, j - 1, id);
      OverStaysOver(JobAt(states[j - 1], id), steps[j - 1], id, Admits(states[j - 1]));
      assert JobAt(states[j], id).row.Some?;
    }
  }

  lemma EndsOnce(j: Job, st: Step, id: Id, admitted: bool)
    requires JobOk(j) && JobMay(j, st, id) && j.Active() && !JobNext(j, st, id, admitted).Active()
    ensures (st.Cancel? || st.Finish?) && st.id == id
    ensures j.fired == 0 && JobNext(j, st, id, admitted).fired == 1
    ensures JobNext(j, st, id, admitted).Is(if st.Cancel? then Cancelled else st.outcome)
  {
  }

  /** In every run a job becomes terminal only by its own end or a cancel, which fires its listeners for the first time. */
  lemma BecomesTerminal(rules: Config.Rules, states: seq<State>, steps: seq<Step>, i: nat, id: Id)
    requires Run(rules, states, steps) && i < |steps|
    requires ActiveAt(states[i], id) && !ActiveAt(states[i + 1], id)
    ensures (steps[i].Cancel? || steps[i].Finish?) && steps[i].id == id
    ensures states[i].fired[id] == 0 && states[i + 1].fired[id] == 1
    ensures id in states[i + 1].rows
         && states[i + 1].rows[id].state == if steps[i].Cancel? then Cancelled else steps[i].outcome
  {
    RunJobStep(rules, states, steps, i, id);
    ActiveAndAlive(states[i], id);
    ActiveAndAlive(states[i + 1], id);
    EndsOnce(JobAt(states[i], id), steps[i], id, Admits(states[i]));
    assert JobAt(states[i + 1], id).row.Some?;
  }

  /** Until a shutdown is asked for, an active job has a task that will still bring it to an end. */
  lemma ActiveJobsAreServed(rules: Config.Rules, states: seq<State>, steps: seq<Step>, i: nat, id: Id)
    requires Run(rules, states, steps) && i < |states| && !states[i].stopping && ActiveAt(states[i], id)
    ensures Enabled(states[i], Start(id)) || Enabled(states[i], Finish(id, Completed, ""))
  {
    RunKeepsInv(rules, states, steps, i);
    assert JobOk(JobAt(states[i], id));
  }

  /**
   Settings are committed only into an idle system: by a request that finds it idle, or, when one was
   deferred, by the very step with which the last chat or job ends. What is committed is the whole staged patch,
   and a server token if the settings then need one.
   */
  lemma CommitsAtIdle(rules: Config.Rules, s: State, st: Step)
    requires Inv(s) && Enabled(s, st)
    requires Next(rules, s, st).store.settings != s.store.settings || Next(rules, s, st).commits != s.commits
    ensures var s' := Next(rules, s, st);
            && Idle(s') && !s'.pending && s'.commits == s.commits + 1
            && ((st.PostApply? && Idle(s)) || (MayDrain(st) && s.pending && !Idle(s)))
            && s.store.staged.Some? && s'.store.staged.None?
            && s'.store.settings == Config.Mint(rules, Config.Preview(s.store), st.token)
  {
    match st {
      case Finish(id, outcome, token) => CommitByEnd(rules, s, id, outcome, token);
      case Cancel(id, token) => CommitByEnd(rules, s, id, Cancelled, token);
      case ChatEnd(token) => IdleAfterCommit(rules, s.(chats := 0), token);
      case PostApply(_, token) => IdleAfterCommit(rules, s, token);
      case _ =>
    }
  }

  lemma CommitByEnd(rules: Config.Rules, s: State, id: Id, outcome: RowState, token: string)
    requires PendingInv(s)
    ensures var s' := SetTerminal(rules, s, id, outcome, token);
            s'.store != s.store || s'.commits != s.commits || s'.pending != s.pending ==>
              && Idle(s') && !s'.pending && s'.commits == s.commits + 1 && s.pending
              && s'.store == Config.Apply(rules, s.store, token)
  {
  }

  lemma IdleAfterCommit(rules: Config.Rules, s: State, token: string)
    ensures Idle(CommitNow(rules, s, token)) == Idle(s) && Idle(MaybeCommit(rules, s, token)) == Idle(s)
  {
  }

  /** A deferred commit waits exactly until the system is idle, and then happens. */
  lemma PendingUntilIdle(rules: Config.Rules, states: seq<State>, steps: seq<Step>, i: nat)
    requires Run(rules, states, steps) && i < |steps| && states[i].pending
    ensures states[i].store.staged.Some? && !Idle(states[i])
    ensures Idle(states[i + 1]) <==> states[i + 1].commits == states[i].commits + 1
    ensures Idle(states[i + 1]) <==> !states[i + 1].pending
    ensures Idle(states[i + 1]) ==>
              MayDrain(steps[i]) && states[i + 1].store == Config.Apply(rules, states[i].store, steps[i].token)
    ensures !Idle(states[i + 1]) ==> states[i + 1].store.settings == states[i].store.settings
  {
    RunKeepsInv(rules, states, steps, i);
    RunKeepsInv(rules, states, steps, i + 1);
    var s, st, s' := states[i], steps[i], states[i + 1];
    assert Enabled(s, st) && s' == Next(rules, s, st);
    if s'.store.settings != s.store.settings || s'.commits != s.commits {
      CommitsAtIdle(rules, s, st);
    }
    if !s'.pending {
      PendingClears(rules, s, st);
    }
  }

  lemma PendingClears(rules: Config.Rules, s: State, st: Step)
    requires Inv(s) && Enabled(s, st) && s.pending && !Next(rules, s, st).pending
    ensures Next(rules, s, st).commits == s.commits + 1
  {
  }

  /** A completed job always reads 100 percent and no stage: progress never reaches it any more. */
  lemma CompletedReadsFull(rules: Config.Rules, states: seq<State>, steps: seq<Step>, i: nat, id: Id)
    requires Run(rules, states, steps) && i < |states| && id in states[i].tasks && id in states[i].rows
    ensures states[i].rows[id].state.Completed? ==> states[i].rows[id] == Row(Completed, None, 100)
  {
    RunKeepsInv(rules, states, steps, i);
    assert JobOk(JobAt(states[i], id));
  }

  predicate MayCommit(st: Step) {
    MayDrain(st) || st.PostApply?
  }

  /** A step leaves the settings and the stage, stages a patch, or commits. */
  lemma StoreNext(rules: Config.Rules, s: State, st: Step)
    requires Enabled(s, st)
    ensures var s' := Next(rules, s, st);
            || (s'.store == s.store && s'.commits == s.commits)
            || (st.StagePatch? && s'.store == Config.Stage(rules, s.store, st.patch) && s'.commits == s.commits)
            || (MayCommit(st) && s.store.staged.Some? && s'.store == Config.Apply(rules, s.store, st.token)
                && s'.commits == s.commits + 1)
  {
  }

  /** No commit, at whatever moment it happens, leaves invalid settings: what is staged stays applicable. */
  lemma {:induction false} SettingsStayValid(rules: Config.Rules, states: seq<State>, steps: seq<Step>, i: nat)
    requires Run(rules, states, steps) && i < |states|
    requires Config.TokenIsFree(rules) && Config.StagedIsValid(rules, states[0].store)
    ensures Config.StagedIsValid(rules, states[i].store)
    decreases i
  {
    if i > 0 {
      SettingsStayValid(rules, states, steps, i - 1);
      var s, st := states[i - 1], steps[i - 1];
      assert Enabled(s, st) && states[i] == Next(rules, s, st);
      StoreNext(rules, s, st);
      Config.StagedStaysValid(rules, s.store, if st.StagePatch? then st.patch else map[], if MayCommit(st) then st.token else "");
    }
  }

  /** A server that is not bound to loopback has a token. */
  predicate Protected(rules: Config.Rules, t: Config.Table) {
    Config.Exposed(rules, t) ==> !Config.NoToken(t)
  }

  lemma CommitProtects(rules: Config.Rules, s: State, st: Step)
    requires Enabled(s, st) && (MayCommit(st) ==> st.token != "")
    ensures var s' := Next(rules, s, st);
            || (s'.commits == s.commits && s'.store.settings == s.store.settings)
            || (s'.commits == s.commits + 1 && Protected(rules, s'.store.settings))
  {
    StoreNext(rules, s, st);
    if MayCommit(st) && s.store.staged.Some? {
      Config.CommitProtects(rules, s.store, st.token);
    }
  }

  /** A step of a run either commits, which protects, or leaves the settings. */
  lemma CommitsProtect(rules: Config.Rules, states: seq<State>, steps: seq<Step>, i: nat)
    requires Run(rules, states, steps) && i < |steps| && (MayCommit(steps[i]) ==> steps[i].token != "")
    ensures var s, s' := states[i], states[i + 1];
            || (s'.commits == s.commits && s'.store.settings == s.store.settings)
            || (s'.commits == s.commits + 1 && Protected(rules, s'.store.settings))
  {
    assert Enabled(states[i], steps[i]) && states[i + 1] == Next(rules, states[i], steps[i]);
    CommitProtects(rules, states[i], steps[i]);
  }

  /**
   Whatever is patched, and whenever it is committed: once there was a commit, or if it was so at the start, a server that
   is not on loopback is never without a token.
   */
  lemma {:induction false} ExposedHasToken(rules: Config.Rules, states: seq<State>, steps: seq<Step>, i: nat)
    requires Run(rules, states, steps) && i < |states|
    requires forall k | 0 <= k < |steps| && MayCommit(steps[k]) :: steps[k].token != ""
    requires states[i].commits > 0 || Protected(rules, states[0].store.settings)
    ensures Protected(rules, states[i].store.settings)
    decreases i
  {
    if i > 0 {
      CommitsProtect(rules, states, steps, i - 1);
      if states[i].commits == states[i - 1].commits {
        ExposedHasToken(rules, states, steps, i - 1);
      }
    }
  }

  // ---- jobs under a shutdown ----

  /** A job whose body never ran: still queued, its task cancelled before its first step or already dropped. */
  predicate Unstarted(j: Job) {
    j.Is(Queued) && (j.task == Some(Scheduled(true)) || j.task == Some(Done))
  }

  /** A job whose body ran: it runs on until it unwinds, which ends the row too. */
  predicate Started(j: Job) {
    (j.Is(Running) && j.task == Some(InBody(true))) || (j.Over() && j.task == Some(Done))
  }

  lemma ShutdownSplits(j: Job, id: Id, admitted: bool)
    requires JobOk(j) && !j.stopping && j.Active()
    ensures j.task.Some?
    ensures var j' := JobNext(j, Shutdown, id, admitted);
            if j.task == Some(Scheduled(false)) then Unstarted(j') else Started(j')
  {
  }

  predicate Cancels(st: Step, id: Id) {
    st.Cancel? && st.id == id
  }

  lemma FateStays(j: Job, st: Step, id: Id, admitted: bool)
    requires JobMay(j, st, id) && !Cancels(st, id)
    ensures Unstarted(j) ==> Unstarted(JobNext(j, st, id, admitted))
    ensures Started(j) ==> Started(JobNext(j, st, id, admitted))
  {
  }

  predicate Fate(unstarted: bool, j: Job) {
    if unstarted then Unstarted(j) else Started(j)
  }

  lemma ShutdownFate(rules: Config.Rules, states: seq<State>, steps: seq<Step>, i: nat, id: Id)
    requires Run(rules, states, steps) && i < |steps|
    requires steps[i] == Shutdown && !states[i].stopping && ActiveAt(states[i], id)
    ensures id in states[i].tasks && Fate(states[i].tasks[id] == Scheduled(false), JobAt(states[i + 1], id))
  {
    RunJobStep(rules, states, steps, i, id);
    ActiveAndAlive(states[i], id);
    ShutdownSplits(JobAt(states[i], id), id, Admits(states[i]));
  }

  lemma FateNext(rules: Config.Rules, states: seq<State>, steps: seq<Step>, i: nat, id: Id, unstarted: bool)
    requires Run(rules, states, steps) && i < |steps| && !Cancels(steps[i], id)
    requires Fate(unstarted, JobAt(states[i], id))
    ensures Fate(unstarted, JobAt(states[i + 1], id))
  {
    RunJobStep(rules, states, steps, i, id);
    FateStays(JobAt(states[i], id), steps[i], id, Admits(states[i]));
  }

  lemma {:induction false} FateLater(rules: Config.Rules, states: seq<State>, steps: seq<Step>, i: nat, j: nat, id: Id, unstarted: bool)
    requires Run(rules, states, steps) && i <= j < |states|
    requires Fate(unstarted, JobAt(states[i], id))
    requires forall m | i <= m < j :: !Cancels(steps[m], id)
    ensures Fate(unstarted, JobAt(states[j], id))
    decreases j
  {
    if i < j {
      FateLater(rules, states, steps, i, j - 1, id, unstarted);
      FateNext(rules, states, steps, j - 1, id, unstarted);
    }
  }

  /**
   Exactly when a shutdown leaves a row behind that says queued or running: in every run, once the task of a job that
   was active at the shutdown has ended, without a cancel of that job since, its row is non-terminal if and only if the
   job had not taken its first step when the shutdown came. Only the next start-up fails such a row.
   */
  lemma ShutdownLeavesQueuedIffUnstarted(rules: Config.Rules, states: seq<State>, steps: seq<Step>, i: nat, j: nat, id: Id)
    requires Run(rules, states, steps) && i < j < |states|
    requires steps[i] == Shutdown && !states[i].stopping && ActiveAt(states[i], id)
    requires forall m | i < m < j :: !Cancels(steps[m], id)
    requires !AliveAt(states[j], id)
    ensures id in states[i].tasks && id in states[j].rows && id in FailOrphans(states[j].rows)
    ensures !Terminal(states[j].rows[id].state) <==> states[i].tasks[id] == Scheduled(false)
    ensures Terminal(FailOrphans(states[j].rows)[id].state)
  {
    ShutdownFate(rules, states, steps, i, id);
    FateLater(rules, states, steps, i + 1, j, id, states[i].tasks[id] == Scheduled(false));
    ActiveAndAlive(states[j], id);
    assert JobAt(states[j], id).row.Some?;
  }

  /** Such a run exists: submit, shut down, and the task is dropped without a step. */
  lemma ShutdownLeavesQueued(rules: Config.Rules, store: Config.Store, id: Id) returns (states: seq<State>, steps: seq<Step>)
    ensures Run(rules, states, steps)
    ensures var s := states[|steps|];
            && s.rows == map[id := Row(Queued, None, 0)] && s.tasks == map[id := Done]
            && s.fired == multiset{} && FailOrphans(s.rows) == map[id := Row(Failed, None, 0)]
  {
    var s0 := Boot(map[], store);
    var s1 := s0.(rows := map[id := Row(Queued, None, 0)], tasks := map[id := Scheduled(false)]);
    var s2 := s1.(tasks := map[id := Scheduled(true)], stopping := true);
    var s3 := s2.(tasks := map[id := Done]);
    assert Next(rules, s0, Submit(id)) == s1;
    assert Next(rules, s1, Shutdown) == s2;
    assert Next(rules, s2, Drop(id)) == s3;
    states, steps := [s0, s1, s2, s3], [Submit(id), Shutdown, Drop(id)];
  }

  // ---- the server's mutable state ----

  datatype Submission = Accepted | JobActive | StillUnwinding

  class Server {
    var rows: map<Id, Row>
    var tasks: map<Id, Task>
    var chats: nat
    var pending: bool
    var stopping: bool
    const config: Config.ConfigManager
    ghost var fired: multiset<Id>
    ghost var commits: nat

    constructor (rows: map<Id, Row>, config: Config.ConfigManager)
      ensures View() == Boot(rows, config.View()) && this.config == config
    {
      this.rows, tasks, chats, pending, stopping := FailOrphans(rows), map[], 0, false, false;
      this.config := config;
      fired, commits := multiset{}, 0;
    }

    ghost function View(): State
      reads this, config
    {
      State(rows, tasks, chats, config.View(), pending, fired, commits, stopping)
    }

    method IsIdle() returns (idle: bool)
      ensures idle == Idle(View())
    {
      idle := chats == 0 && !exists id | id in rows :: !Terminal(rows[id].state);
    }

    method MaybeCommitStaged(token: string)
      modifies this, config
      ensures View() == MaybeCommit(config.rules, old(View()), token)
    {
      var idle := IsIdle();
      if pending && idle && config.staged.Some? {
        var _ := config.ApplyStaged(token);
        pending := false;
        commits := commits + 1;
      }
    }

    method CommitStaged(token: string) returns (applied: bool)
      modifies this, config
      ensures View() == CommitNow(config.rules, old(View()), token)
      ensures applied == old(config.staged).Some?
    {
      pending := false;
      applied := config.ApplyStaged(token);
      commits := if applied then commits + 1 else commits;
    }

    method PostApply(downloading: bool, token: string) returns (applied: bool)
      modifies this, config
      ensures View() == Post(config.rules, old(View()), downloading, token)
      ensures applied <==> old(View()).store.staged.Some? && Quiet(old(View())) && !Refused(old(View()), downloading)
    {
      IdleIsQuiet(View());
      if config.staged.Some? && FAMILY_KEY in config.staged.value && downloading {
        return false;
      }
      var idle := IsIdle();
      if config.staged.Some? && !idle {
        pending := true;
        return false;
      }
      applied := CommitStaged(token);
    }

    method RecordTerminal(id: Id, outcome: RowState, token: string)
      modifies this, config
      ensures View() == SetTerminal(config.rules, old(View()), id, outcome, token)
    {
      if id !in rows || Terminal(rows[id].state) {
        return;
      }
      rows := rows[id := if outcome.Completed? then Row(Completed, None, 100) else rows[id].(state := outcome)];
      fired := fired + multiset{id};
      MaybeCommitStaged(token);
    }

    method Submit(id: Id) returns (result: Submission)
      modifies this
      ensures View() == DoSubmit(old(View()), id)
      ensures result == if ActiveRow(old(View())) then JobActive
                        else if AliveTask(old(View())) then StillUnwinding else Accepted
    {
      if exists other | other in rows :: !Terminal(rows[other].state) {
        return JobActive;
      }
      if exists other | other in tasks :: !tasks[other].Done? {
        return StillUnwinding;
      }
      rows := rows[id := Row(Queued, None, 0)];
      tasks := tasks[id := Scheduled(false)];
      result := Accepted;
    }

    /** The first segment of a job's task. */
    method StartTask(id: Id)
      requires Enabled(View(), Step.Start(id))
      modifies this
      ensures View() == Next(config.rules, old(View()), Step.Start(id))
    {
      rows := rows[id := rows[id].(state := Running)];
      tasks := tasks[id := InBody(false)];
    }

    method ReportProgress(id: Id, stage: string, percent: int)
      requires Enabled(View(), Progress(id, stage, percent))
      modifies this
      ensures View() == Next(config.rules, old(View()), Progress(id, stage, percent))
    {
      var shown := Max(0, Min(100, percent));
      rows := rows[id := rows[id].(stage := Some(stage), percent := shown)];
    }

    method FinishTask(id: Id, outcome: RowState, token: string)
      requires Enabled(View(), Finish(id, outcome, token))
      modifies this, config
      ensures View() == Next(config.rules, old(View()), Finish(id, outcome, token))
    {
      RecordTerminal(id, outcome, token);
      tasks := tasks[id := Done];
    }

    /** False when there is no such job; a terminal job is left as it is. */
    method CancelJob(id: Id, token: string) returns (found: bool)
      modifies this, config
      ensures found <==> id in old(rows)
      ensures View() == DoCancel(config.rules, old(View()), id, token)
    {
      if id !in rows {
        return false;
      }
      found := true;
      if Terminal(rows[id].state) {
        return;
      }
      RecordTerminal(id, Cancelled, token);
      if id in tasks {
        tasks := tasks[id := CancelTask(tasks[id])];
      }
    }

    method Shutdown()
      modifies this
      ensures View() == Next(config.rules, old(View()), Step.Shutdown)
    {
      var todo := tasks.Keys;
      stopping := true;
      while todo != {}
        invariant todo <= tasks.Keys
        invariant tasks.Keys == old(tasks).Keys
        invariant unchanged(`rows) && unchanged(`chats) && unchanged(`pending) && unchanged(`fired) && unchanged(`commits)
        invariant stopping && View().store == old(View().store)
        invariant forall id | id in tasks :: tasks[id] == if id in todo then old(tasks)[id] else CancelTask(old(tasks)[id])
        decreases |todo|
      {
        var id :| id in todo;
        tasks := tasks[id := CancelTask(tasks[id])];
        todo := todo - {id};
      }
      assert tasks == map id | id in old(tasks) :: CancelTask(old(tasks)[id]);
    }

    method BeginChat()
      modifies this
      ensures View() == old(View()).(chats := old(chats) + 1)
    {
      chats := chats + 1;
    }

    method EndChat(token: string)
      modifies this, config
      ensures View() == Next(config.rules, old(View()), ChatEnd(token))
    {
      if chats > 0 {
        chats := chats - 1;
      }
      if chats == 0 {
        MaybeCommitStaged(token);
      }
    }
  }
}
