/** The debate's fan-out and fan-in as a step relation over its goroutines: the round loop, one
    goroutine per panelist, the providers' producers, the consumer and the context. */
module Orchestrator {
  import opened Protocol
  import opened Transcripts
  import opened Streams

  datatype Member = Member(id: PersonaId, name: Text, systemPrompt: Text)

  datatype Role = User | Assistant

  datatype Message = Message(role: Role, content: Text)

  datatype Request = Request(systemPrompt: Text, messages: seq<Message>, model: string)

  /** A debate to run. `sharpen` and `rebut` are the fixed instructions of statement and rebuttal
      rounds after the first. The provider may answer each (round, speaker, request) as it likes. */
  datatype Council = Council(
    panel: seq<Member>,
    moderator: Member,
    question: Text,
    sharpen: Text,
    rebut: Text,
    rounds: nat,
    limit: int,
    model: string,
    provider: (nat, PersonaId, Request) -> Script)

  function Capacity(c: Council): nat {
    if c.limit <= 0 then 1 else c.limit
  }

  // ----- Requests

  /** Odd rounds are statements, even ones rebuttals. */
  function Instruction(c: Council, round: nat): Text {
    if round % 2 == 1 then c.sharpen else c.rebut
  }

  function BuildRequest(c: Council, member: Member, prior: Transcript, round: nat): Request {
    var own := OwnLatest(prior, member.id);
    var history :=
      if round <= 1 then []
      else (if own.Some? then [Message(Assistant, own.value.text)] else [])
           + [Message(User, Instruction(c, round) + Ascii("\n\n") + RenderAnswers(OthersFor(prior, member.id)))];
    Request(member.systemPrompt, [Message(User, c.question)] + history, c.model)
  }

  function ModeratorRequest(c: Council, transcript: Transcript): Request {
    Request(c.moderator.systemPrompt, [Message(User, c.question + Ascii("\n\n") + Render(transcript))], c.model)
  }

  // ----- State

  datatype Stage = Spawning(next: nat) | Joining | Announcing | Moderating | Shut

  /** `blocks` holds the delivered events of each finished round, `block` those of the current one;
      `orphans` counts producers of finished rounds that have not exited yet. `requests` is a
      history of what was asked of the provider for the current round, by seat. */
  datatype Orch = Orch(
    round: nat,
    stage: Stage,
    transcript: Transcript,
    tasks: seq<Task>,
    requests: map<nat, Request>,
    blocks: seq<seq<Event>>,
    block: seq<Event>,
    orphans: nat,
    cancelled: bool,
    reading: bool)

  datatype Act =
    | Spawn | AllSpawned | Join | Announce | Abort | CloseOut
    | Begin(i: nat) | BeginRefused(i: nat) | Work(i: nat, act: TaskAct)
    | OrphanExit | CancelContext | Leave

  function Total(f: Task -> nat, tasks: seq<Task>): nat {
    if tasks == [] then 0 else Total(f, tasks[..|tasks| - 1]) + f(tasks[|tasks| - 1])
  }

  /** Holding a slot of the concurrency limit. */
  function Running(t: Task): nat {
    if t.worker.Unborn? || t.worker.Exited? then 0 else 1
  }

  function Alive(t: Task): nat {
    if t.producer.Live? then 1 else 0
  }

  function InPanel(c: Council, s: Orch): bool {
    s.round <= c.rounds
  }

  /** Who speaks `i`-th in a round; past the last round, the moderator. */
  function PartAt(c: Council, round: nat, i: nat): Part {
    if round <= c.rounds then Part(if i < |c.panel| then c.panel[i].id else Other(""), round, false)
    else Part(c.moderator.id, round, true)
  }

  function RequestAt(c: Council, transcript: Transcript, round: nat, i: nat): Request {
    if round <= c.rounds then
      if i < |c.panel| then BuildRequest(c, c.panel[i], transcript, round) else Request([], [], c.model)
    else ModeratorRequest(c, transcript)
  }

  function PartOf(c: Council, s: Orch, i: nat): Part {
    PartAt(c, s.round, i)
  }

  function RequestFor(c: Council, s: Orch, i: nat): Request {
    RequestAt(c, s.transcript, s.round, i)
  }

  /** Tasks at the start of a round, or of the moderator's pass, which has a single one. */
  function Opening(c: Council, round: nat): seq<Task> {
    if round <= c.rounds then seq(|c.panel|, i => UNBORN) else [UNBORN.(worker := Spawned)]
  }

  function OpeningStage(c: Council, round: nat): Stage {
    if round <= c.rounds then Spawning(0) else Moderating
  }

  function Init(c: Council): Orch {
    Orch(1, OpeningStage(c, 1), [], Opening(c, 1), map[], [], [], 0, false, true)
  }

  function AnswerAt(c: Council, s: Orch, i: nat): Answer {
    if i < |c.panel| && i < |s.tasks| then Answer(c.panel[i].id, c.panel[i].name, s.tasks[i].text)
    else Answer(Other(""), [], [])
  }

  function Answers(c: Council, s: Orch): seq<Answer> {
    seq(|s.tasks|, i requires 0 <= i < |s.tasks| => AnswerAt(c, s, i))
  }

  predicate Enabled(c: Council, s: Orch, a: Act) {
    match a
    case Spawn =>
      s.stage.Spawning? && s.stage.next < |s.tasks| && Total(Running, s.tasks) < Capacity(c)
    case AllSpawned => s.stage.Spawning? && s.stage.next == |s.tasks|
    case Join => s.stage.Joining? && forall t <- s.tasks :: t.worker.Exited?
    case Announce => s.stage.Announcing? && s.reading
    case Abort => s.stage.Announcing? && s.cancelled
    case CloseOut => s.stage.Moderating? && forall t <- s.tasks :: t.worker.Exited?
    case Begin(i) => i < |s.tasks| && s.tasks[i].worker.Spawned?
    case BeginRefused(i) => i < |s.tasks| && s.tasks[i].worker.Spawned? && s.cancelled
    case Work(i, act) => i < |s.tasks| && TaskEnabled(s.tasks[i], act, s.cancelled, s.reading)
    case OrphanExit => s.orphans > 0
    case CancelContext => !s.cancelled
    case Leave => s.cancelled && s.reading
  }

  /** How the provider answers what it is asked. */
  function AnsweredAt(c: Council, transcript: Transcript, round: nat, i: nat): Script {
    c.provider(round, PartAt(c, round, i).id, RequestAt(c, transcript, round, i))
  }

  function Ask(c: Council, s: Orch, i: nat): Script {
    AnsweredAt(c, s.transcript, s.round, i)
  }

  function Next(c: Council, s: Orch, a: Act): Orch
    requires Enabled(c, s, a)
  {
    match a
    case Spawn =>
      s.(stage := Spawning(s.stage.next + 1),
         tasks := s.tasks[s.stage.next := s.tasks[s.stage.next].(worker := Spawned)])
    case AllSpawned => s.(stage := Joining)
    case Join =>
      s.(stage := Announcing, transcript := s.transcript + [Transcripts.Round(s.round, Answers(c, s))])
    case Announce =>
      s.(round := s.round + 1, stage := OpeningStage(c, s.round + 1), tasks := Opening(c, s.round + 1),
         requests := map[], blocks := s.blocks + [s.block], block := [],
         orphans := s.orphans + Total(Alive, s.tasks))
    case Abort => s.(stage := Shut)
    case CloseOut => s.(stage := Shut)
    case Begin(i) =>
      s.(tasks := s.tasks[i := Started(s.tasks[i], Ask(c, s, i))], requests := s.requests[i := RequestFor(c, s, i)])
    case BeginRefused(i) =>
      s.(tasks := s.tasks[i := Started(s.tasks[i], Refused)], requests := s.requests[i := RequestFor(c, s, i)])
    case Work(i, act) =>
      var p, t := PartOf(c, s, i), s.tasks[i];
      s.(tasks := s.tasks[i := TaskNext(p, t, act, s.cancelled, s.reading)],
         block := s.block + Says(p, t, act, s.cancelled, s.reading))
    case OrphanExit => s.(orphans := s.orphans - 1)
    case CancelContext => s.(cancelled := true)
    case Leave => s.(reading := false)
  }

  // ----- Runs

  /** A schedule: each action possible in the state the ones before it lead to. */
  predicate Possible(c: Council, acts: seq<Act>)
    decreases |acts|, 0
  {
    acts == [] ||
    (Possible(c, acts[..|acts| - 1]) && Enabled(c, Reached(c, acts[..|acts| - 1]), acts[|acts| - 1]))
  }

  function Reached(c: Council, acts: seq<Act>): Orch
    requires Possible(c, acts)
    decreases |acts|, 1
  {
    if acts == [] then Init(c) else Next(c, Reached(c, acts[..|acts| - 1]), acts[|acts| - 1])
  }

  /** Everything the consumer has received: each finished round's events and its announcement, then
      the current block. */
  function Past(blocks: seq<seq<Event>>): seq<Event> {
    if blocks == [] then []
    else Past(blocks[..|blocks| - 1]) + blocks[|blocks| - 1] + [RoundComplete(|blocks|)]
  }

  function Delivered(s: Orch): seq<Event> {
    Past(s.blocks) + s.block
  }

  // ----- The structural invariant

  ghost predicate TasksOk(c: Council, s: Orch) {
    forall i | 0 <= i < |s.tasks| :: TaskOk(PartOf(c, s, i), s.tasks[i], s.cancelled)
  }

  /** Where the round loop stands, and which goroutines exist there. */
  ghost predicate StageOk(c: Council, s: Orch) {
    && 1 <= s.round <= c.rounds + 1
    && |s.blocks| == s.round - 1
    && |s.tasks| == (if InPanel(c, s) then |c.panel| else 1)
    && (s.stage.Spawning? || s.stage.Joining? || s.stage.Announcing? ==> InPanel(c, s))
    && (s.stage.Moderating? ==> !InPanel(c, s))
    && (s.stage.Spawning? ==> s.stage.next <= |s.tasks|)
    && (forall i | 0 <= i < |s.tasks| ::
          s.tasks[i].worker.Unborn? <==> s.stage.Spawning? && s.stage.next <= i)
    && (s.stage.Announcing? || s.stage.Shut? ==> forall t <- s.tasks :: t.worker.Exited?)
    && (!s.reading ==> s.cancelled)
    && (s.orphans > 0 ==> s.cancelled)
    && (s.stage.Shut? && InPanel(c, s) ==> s.cancelled)
  }

  ghost predicate OrchOk(c: Council, s: Orch) {
    StageOk(c, s) && TasksOk(c, s) && Total(Running, s.tasks) <= Capacity(c)
  }

  lemma {:induction false} TotalUpdate(f: Task -> nat, tasks: seq<Task>, i: nat, t: Task)
    requires i < |tasks|
    ensures Total(f, tasks[i := t]) == Total(f, tasks) - f(tasks[i]) + f(t)
  {
    var n := |tasks| - 1;
    if i < n {
      TotalUpdate(f, tasks[..n], i, t);
      assert tasks[i := t][..n] == tasks[..n][i := t];
    } else {
      assert tasks[i := t][..n] == tasks[..n];
    }
  }

  lemma {:induction false} TotalZero(f: Task -> nat, tasks: seq<Task>)
    requires forall t <- tasks :: f(t) == 0
    ensures Total(f, tasks) == 0
  {
    if tasks != [] {
      var n := |tasks| - 1;
      assert tasks[n] in tasks && forall t <- tasks[..n] :: t in tasks;
      TotalZero(f, tasks[..n]);
    }
  }

  lemma {:induction false} TotalPositive(f: Task -> nat, tasks: seq<Task>) returns (i: nat)
    requires Total(f, tasks) > 0
    ensures i < |tasks| && f(tasks[i]) > 0
  {
    var n := |tasks| - 1;
    if f(tasks[n]) > 0 {
      i := n;
    } else {
      i := TotalPositive(f, tasks[..n]);
    }
  }

  lemma InitOk(c: Council)
    ensures OrchOk(c, Init(c))
  {
    OpeningOk(c, Init(c));
  }

  lemma OpeningOk(c: Council, s: Orch)
    requires s.tasks == Opening(c, s.round)
    ensures TasksOk(c, s) && Total(Running, s.tasks) <= Capacity(c)
  {
    if InPanel(c, s) {
      TotalZero(Running, s.tasks);
    } else {
      assert s.tasks[..0] == [];
      TotalZero(Running, []);
    }
    forall i | 0 <= i < |s.tasks|
      ensures TaskOk(PartOf(c, s, i), s.tasks[i], s.cancelled)
    {
      UnbornOk(PartOf(c, s, i), s.cancelled);
    }
  }

  lemma TaskChangeOk(c: Council, s: Orch, i: nat, u: Task, s': Orch)
    requires TasksOk(c, s) && i < |s.tasks| && TaskOk(PartOf(c, s, i), u, s.cancelled)
    requires s'.tasks == s.tasks[i := u] && s'.cancelled == s.cancelled && s'.round == s.round
    requires Total(Running, s.tasks) - Running(s.tasks[i]) + Running(u) <= Capacity(c)
    ensures TasksOk(c, s') && Total(Running, s'.tasks) <= Capacity(c)
  {
    TotalUpdate(Running, s.tasks, i, u);
    forall j | 0 <= j < |s'.tasks|
      ensures TaskOk(PartOf(c, s', j), s'.tasks[j], s'.cancelled)
    {
      assert PartOf(c, s', j) == PartOf(c, s, j);
    }
  }

  lemma AnnounceOk(c: Council, s: Orch)
    requires OrchOk(c, s) && Enabled(c, s, Announce)
    ensures OrchOk(c, Next(c, s, Announce))
  {
    OpeningOk(c, Next(c, s, Announce));
    if !s.cancelled {
      forall t <- s.tasks
        ensures Alive(t) == 0
      {
        var i :| 0 <= i < |s.tasks| && s.tasks[i] == t;
        assert TaskOk(PartOf(c, s, i), t, s.cancelled);
      }
      TotalZero(Alive, s.tasks);
    }
  }

  lemma CancelContextOk(c: Council, s: Orch)
    requires OrchOk(c, s) && !s.cancelled
    ensures OrchOk(c, Next(c, s, CancelContext))
  {
    var s' := Next(c, s, CancelContext);
    forall i | 0 <= i < |s'.tasks|
      ensures TaskOk(PartOf(c, s', i), s'.tasks[i], true)
    {
      CancelOk(PartOf(c, s, i), s.tasks[i]);
    }
  }

  lemma SpawnOk(c: Council, s: Orch)
    requires OrchOk(c, s) && Enabled(c, s, Spawn)
    ensures OrchOk(c, Next(c, s, Spawn))
  {
    var i := s.stage.next;
    var u := s.tasks[i].(worker := Spawned);
    assert s.tasks[i] == UNBORN;
    UnbornOk(PartOf(c, s, i), s.cancelled);
    TaskChangeOk(c, s, i, u, Next(c, s, Spawn));
  }

  lemma BeginOk(c: Council, s: Orch, i: nat, script: Script, s': Orch)
    requires OrchOk(c, s) && i < |s.tasks| && s.tasks[i].worker.Spawned?
    requires s' == s.(tasks := s.tasks[i := Started(s.tasks[i], script)], requests := s'.requests)
    ensures OrchOk(c, s')
  {
    StartedOk(PartOf(c, s, i), s.tasks[i], script, s.cancelled);
    TaskChangeOk(c, s, i, Started(s.tasks[i], script), s');
    assert s.tasks[i] in s.tasks;
  }

  /** A task's own step never takes it up or out of the pool, except by exiting. */
  lemma WorkerKept(p: Part, t: Task, act: TaskAct, cancelled: bool, reading: bool)
    requires TaskOk(p, t, cancelled) && TaskEnabled(t, act, cancelled, reading)
    ensures var u := TaskNext(p, t, act, cancelled, reading);
      !t.worker.Unborn? && !u.worker.Unborn? && Running(u) <= Running(t) && (t.worker.Exited? ==> u.worker.Exited?)
  {
  }

  lemma WorkOk(c: Council, s: Orch, i: nat, act: TaskAct)
    requires OrchOk(c, s) && Enabled(c, s, Work(i, act))
    ensures OrchOk(c, Next(c, s, Work(i, act)))
  {
    var p, t := PartOf(c, s, i), s.tasks[i];
    var u := TaskNext(p, t, act, s.cancelled, s.reading);
    var s' := Next(c, s, Work(i, act));
    TaskNextOk(p, t, act, s.cancelled, s.reading);
    WorkerKept(p, t, act, s.cancelled, s.reading);
    TaskChangeOk(c, s, i, u, s');
    WorkStageOk(c, s, i, u, s');
  }

  lemma WorkStageOk(c: Council, s: Orch, i: nat, u: Task, s': Orch)
    requires StageOk(c, s) && i < |s.tasks| && !s.tasks[i].worker.Unborn? && !u.worker.Unborn?
    requires s.tasks[i].worker.Exited? ==> u.worker.Exited?
    requires s' == s.(tasks := s.tasks[i := u], block := s'.block)
    ensures StageOk(c, s')
  {
    assert s.tasks[i] in s.tasks;
  }

  lemma SameTasksOk(c: Council, s: Orch, s': Orch)
    requires TasksOk(c, s) && s'.tasks == s.tasks && s'.round == s.round && s'.cancelled == s.cancelled
    ensures TasksOk(c, s')
  {
    forall i | 0 <= i < |s'.tasks|
      ensures TaskOk(PartOf(c, s', i), s'.tasks[i], s'.cancelled)
    {
      assert PartOf(c, s', i) == PartOf(c, s, i);
    }
  }

  /** Every step keeps it; in particular no more goroutines ever run than the limit allows. */
  lemma NextOk(c: Council, s: Orch, a: Act)
    requires OrchOk(c, s) && Enabled(c, s, a)
    ensures OrchOk(c, Next(c, s, a))
  {
    match a
    case Spawn => SpawnOk(c, s);
    case Announce => AnnounceOk(c, s);
    case Begin(i) => BeginOk(c, s, i, Ask(c, s, i), Next(c, s, a));
    case BeginRefused(i) => BeginOk(c, s, i, Refused, Next(c, s, a));
    case Work(i, act) => WorkOk(c, s, i, act);
    case CancelContext => CancelContextOk(c, s);
    case _ => SameTasksOk(c, s, Next(c, s, a));
  }

  lemma {:induction false} RunsOk(c: Council, acts: seq<Act>)
    requires Possible(c, acts)
    ensures OrchOk(c, Reached(c, acts))
    decreases |acts|
  {
    if acts == [] {
      InitOk(c);
    } else {
      RunsOk(c, acts[..|acts| - 1]);
      NextOk(c, Reached(c, acts[..|acts| - 1]), acts[|acts| - 1]);
    }
  }

  // ----- Clean unwinding

  /** After the channel is closed nothing is ever sent on it, and no more than the limit of
      panelists run at any time; a limit of 0 or less counts as 1. */
  lemma NoSendAfterClose(c: Council, acts: seq<Act>, a: Act)
    requires Possible(c, acts) && Enabled(c, Reached(c, acts), a)
    ensures Reached(c, acts).stage.Shut? ==> Delivered(Next(c, Reached(c, acts), a)) == Delivered(Reached(c, acts))
    ensures c.limit >= 1 ==> Total(Running, Reached(c, acts).tasks) <= c.limit
    ensures c.limit <= 0 ==> Total(Running, Reached(c, acts).tasks) <= 1
  {
    RunsOk(c, acts);
    var s := Reached(c, acts);
    if s.stage.Shut? && a.Work? {
      assert s.tasks[a.i] in s.tasks;
      assert s.block + [] == s.block;
    }
  }

  /** And no fewer: while panelists wait to be spawned and fewer run than the limit allows, the next
      one can start. */
  lemma FreeSlotIsUsed(c: Council, acts: seq<Act>)
    requires Possible(c, acts) && Reached(c, acts).stage.Spawning?
    requires Reached(c, acts).stage.next < |Reached(c, acts).tasks|
    requires Total(Running, Reached(c, acts).tasks) < (if c.limit <= 0 then 1 else c.limit)
    ensures Enabled(c, Reached(c, acts), Spawn)
    ensures Total(Running, Next(c, Reached(c, acts), Spawn).tasks) == Total(Running, Reached(c, acts).tasks) + 1
  {
    RunsOk(c, acts);
    var s := Reached(c, acts);
    assert s.tasks[s.stage.next].worker.Unborn?;
    TotalUpdate(Running, s.tasks, s.stage.next, s.tasks[s.stage.next].(worker := Spawned));
  }

  function StageRank(s: Orch): nat {
    match s.stage
    case Spawning(next) => 4 + if next <= |s.tasks| then |s.tasks| - next else 0
    case Joining => 3
    case Announcing => 2
    case Moderating => 1
    case Shut => 0
  }

  function Flags(s: Orch): nat {
    (if s.cancelled then 0 else 1) + (if s.reading then 1 else 0)
  }

  function RoundsToGo(c: Council, s: Orch): nat {
    if s.round <= c.rounds then c.rounds + 1 - s.round else 0
  }

  /** Closer to the end: rounds to go, tasks not begun, work of the begun ones, then the round loop,
      orphans and flags. */
  ghost predicate Closer(c: Council, s: Orch, t: Orch) {
    (RoundsToGo(c, s), Total(Streams.Idle, s.tasks), Total(Streams.Work, s.tasks), StageRank(s) + s.orphans + Flags(s)
      decreases to
     RoundsToGo(c, t), Total(Streams.Idle, t.tasks), Total(Streams.Work, t.tasks), StageRank(t) + t.orphans + Flags(t))
  }

  lemma SpawnShrinks(c: Council, s: Orch)
    requires OrchOk(c, s) && Enabled(c, s, Spawn)
    ensures Closer(c, s, Next(c, s, Spawn))
  {
    var i := s.stage.next;
    var u := s.tasks[i].(worker := Spawned);
    TotalUpdate(Streams.Idle, s.tasks, i, u);
    TotalUpdate(Streams.Work, s.tasks, i, u);
    assert s.tasks[i].worker.Unborn?;
    assert Streams.Idle(u) == Streams.Idle(s.tasks[i]) && Streams.Work(u) == Streams.Work(s.tasks[i]);
  }

  lemma BeginShrinks(c: Council, s: Orch, i: nat, script: Script, t: Orch)
    requires i < |s.tasks| && s.tasks[i].worker.Spawned?
    requires t == s.(tasks := s.tasks[i := Started(s.tasks[i], script)], requests := t.requests)
    ensures Closer(c, s, t)
  {
    TotalUpdate(Streams.Idle, s.tasks, i, Started(s.tasks[i], script));
  }

  lemma WorkMoves(c: Council, s: Orch, i: nat, act: TaskAct)
    requires OrchOk(c, s) && Enabled(c, s, Work(i, act))
    ensures Closer(c, s, Next(c, s, Work(i, act)))
  {
    var p := PartOf(c, s, i);
    WorkShrinks(p, s.tasks[i], act, s.cancelled, s.reading);
    var u := TaskNext(p, s.tasks[i], act, s.cancelled, s.reading);
    TotalUpdate(Streams.Idle, s.tasks, i, u);
    TotalUpdate(Streams.Work, s.tasks, i, u);
  }

  /** Every step of every process, the environment's two included, brings the end closer. */
  lemma StepsShrink(c: Council, s: Orch, a: Act)
    requires OrchOk(c, s) && Enabled(c, s, a)
    ensures Closer(c, s, Next(c, s, a))
  {
    match a
    case Spawn => SpawnShrinks(c, s);
    case Begin(i) => BeginShrinks(c, s, i, Ask(c, s, i), Next(c, s, a));
    case BeginRefused(i) => BeginShrinks(c, s, i, Refused, Next(c, s, a));
    case Work(i, act) => WorkMoves(c, s, i, act);
    case _ =>
  }

  /** No schedule goes on forever. */
  lemma {:induction false} NoEndlessRun(c: Council, state: nat -> Orch, act: nat -> Act, n: nat)
    requires OrchOk(c, state(n))
    requires forall k: nat :: Enabled(c, state(k), act(k)) && state(k + 1) == Next(c, state(k), act(k))
    ensures false
    decreases RoundsToGo(c, state(n)), Total(Streams.Idle, state(n).tasks), Total(Streams.Work, state(n).tasks),
              StageRank(state(n)) + state(n).orphans + Flags(state(n))
  {
    NextOk(c, state(n), act(n));
    StepsShrink(c, state(n), act(n));
    NoEndlessRun(c, state, act, n + 1);
  }

  /** Finished: the channel is closed and no producer is left. */
  ghost predicate Unwound(s: Orch) {
    s.stage.Shut? && s.orphans == 0 && forall t <- s.tasks :: !t.producer.Live?
  }

  predicate Environment(a: Act) {
    a.CancelContext? || a.Leave?
  }

  /** Nothing ever blocks for good: from every reachable state some process can move, whether the
      consumer is reading or has left, until everything is unwound. */
  lemma SomeoneMoves(c: Council, s: Orch) returns (a: Act)
    requires OrchOk(c, s) && !Unwound(s)
    ensures Enabled(c, s, a) && !Environment(a)
  {
    if Total(Running, s.tasks) > 0 {
      var i := TotalPositive(Running, s.tasks);
      if s.tasks[i].worker.Spawned? {
        a := Begin(i);
      } else {
        var act := TaskMoves(PartOf(c, s, i), s.tasks[i], s.cancelled, s.reading);
        a := Work(i, act);
      }
    } else {
      a := LoopMoves(c, s);
    }
  }

  lemma IdlePool(c: Council, s: Orch)
    requires OrchOk(c, s) && Total(Running, s.tasks) == 0 && !s.stage.Spawning?
    ensures forall t <- s.tasks :: t.worker.Exited?
  {
    forall i | 0 <= i < |s.tasks|
      ensures s.tasks[i].worker.Exited?
    {
      if !s.tasks[i].worker.Exited? {
        TotalUpdate(Running, s.tasks, i, UNBORN);
      }
    }
  }

  lemma LoopMoves(c: Council, s: Orch) returns (a: Act)
    requires OrchOk(c, s) && !Unwound(s) && Total(Running, s.tasks) == 0
    ensures Enabled(c, s, a) && !Environment(a)
  {
    match s.stage {
      case Spawning(next) => a := if next < |s.tasks| then Spawn else AllSpawned;
      case Joining => IdlePool(c, s); a := Join;
      case Announcing => a := if s.reading then Announce else Abort;
      case Moderating => IdlePool(c, s); a := CloseOut;
      case Shut =>
        if s.orphans > 0 {
          a := OrphanExit;
        } else {
          var i :| 0 <= i < |s.tasks| && s.tasks[i].producer.Live?;
          assert TaskOk(PartOf(c, s, i), s.tasks[i], s.cancelled);
          assert s.tasks[i] in s.tasks;
          a := Work(i, ProducerExit);
        }
    }
  }

  lemma OnlyTheEnvironmentCancels(c: Council, s: Orch, a: Act)
    requires Enabled(c, s, a) && !Environment(a)
    ensures Next(c, s, a).cancelled == s.cancelled && Next(c, s, a).reading == s.reading
  {
  }

  lemma PossibleSnoc(c: Council, acts: seq<Act>, a: Act)
    requires Possible(c, acts) && Enabled(c, Reached(c, acts), a)
    ensures Possible(c, acts + [a]) && Reached(c, acts + [a]) == Next(c, Reached(c, acts), a)
  {
    assert (acts + [a])[..|acts|] == acts;
  }

  lemma OneMoreStep(c: Council, acts: seq<Act>, s: Orch) returns (more: seq<Act>, t: Orch)
    requires Possible(c, acts) && s == Reached(c, acts) && !Unwound(s)
    ensures acts <= more && Possible(c, more) && t == Reached(c, more)
    ensures t.cancelled == s.cancelled && Closer(c, s, t)
  {
    RunsOk(c, acts);
    var a := SomeoneMoves(c, s);
    StepsShrink(c, s, a);
    OnlyTheEnvironmentCancels(c, s, a);
    PossibleSnoc(c, acts, a);
    more, t := acts + [a], Next(c, s, a);
  }

  /** Any run can be brought to its end by its own processes, the environment doing nothing more: an
      uncancelled one uncancelled, a cancelled one even if the consumer has left. */
  lemma {:induction false} RunsToItsEnd(c: Council, acts: seq<Act>, s: Orch) returns (all: seq<Act>)
    requires Possible(c, acts) && s == Reached(c, acts)
    ensures acts <= all && Possible(c, all) && Unwound(Reached(c, all))
    ensures Reached(c, all).cancelled == s.cancelled
    decreases RoundsToGo(c, s), Total(Streams.Idle, s.tasks), Total(Streams.Work, s.tasks),
              StageRank(s) + s.orphans + Flags(s)
  {
    if Unwound(s) {
      all := acts;
    } else {
      var more, t := OneMoreStep(c, acts, s);
      all := RunsToItsEnd(c, more, t);
    }
  }
}
