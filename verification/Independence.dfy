/** The schedule does not matter: what each panelist and the moderator is asked, and the text they
    answer, are functions of the council alone, under every interleaving and every limit. */
module Independence {
  import opened Protocol
  import opened Transcripts
  import opened Streams
  import opened Orchestrator
  import opened Grammar

  /** The debate run one round after another: the transcript after `r` rounds. */
  function IdealTranscript(c: Council, r: nat): Transcript {
    if r == 0 then []
    else IdealTranscript(c, r - 1) + [Transcripts.Round(r, IdealAnswers(c, IdealTranscript(c, r - 1), r))]
  }

  function AnswerGiven(c: Council, prior: Transcript, r: nat, i: nat): Answer
    requires i < |c.panel|
  {
    Answer(c.panel[i].id, c.panel[i].name, Concat(DeltasOf(AnsweredAt(c, prior, r, i))))
  }

  function IdealAnswers(c: Council, prior: Transcript, r: nat): (answers: seq<Answer>)
    ensures |answers| == |c.panel|
    ensures forall i | 0 <= i < |c.panel| :: answers[i] == AnswerGiven(c, prior, r, i)
  {
    seq(|c.panel|, i requires 0 <= i < |c.panel| => AnswerGiven(c, prior, r, i))
  }

  /** What speaker `i` of round `r` is asked; past the last round, the moderator. */
  function IdealRequest(c: Council, r: nat, i: nat): Request
    requires r >= 1
  {
    RequestAt(c, IdealTranscript(c, r - 1), r, i)
  }

  /** And how the provider answers. */
  function IdealScript(c: Council, r: nat, i: nat): Script
    requires r >= 1
  {
    AnsweredAt(c, IdealTranscript(c, r - 1), r, i)
  }

  predicate Begun(t: Task) {
    !t.worker.Unborn? && !t.worker.Spawned?
  }

  /** The transcript the current round is built from; its own round is appended on joining. */
  function PriorOf(s: Orch): Transcript {
    if s.stage.Announcing? && s.transcript != [] then s.transcript[..|s.transcript| - 1] else s.transcript
  }

  /** A begun task was asked, and answered, on the strength of `prior`. */
  ghost predicate TaskGiven(c: Council, prior: Transcript, r: nat, i: nat, t: Task, requests: map<nat, Request>) {
    && (i in requests <==> Begun(t))
    && (Begun(t) ==> t.script == AnsweredAt(c, prior, r, i) && requests[i] == RequestAt(c, prior, r, i))
  }

  ghost predicate ScriptsOk(c: Council, prior: Transcript, s: Orch) {
    forall i | 0 <= i < |s.tasks| :: TaskGiven(c, prior, s.round, i, s.tasks[i], s.requests)
  }

  ghost predicate TranscriptOk(c: Council, s: Orch)
    requires s.round >= 1
  {
    && PriorOf(s) == IdealTranscript(c, s.round - 1)
    && (s.stage.Announcing? ==> s.transcript == IdealTranscript(c, s.round))
  }

  /** A block interleaves the full speeches of its round's panelists, asked on the strength of `prior`. */
  ghost predicate FullGiven(c: Council, prior: Transcript, block: seq<Event>, r: nat) {
    forall i | 0 <= i < |c.panel| ::
      SpeechOf(block, PartAt(c, r, i).id) == FullSpeech(PartAt(c, r, i), AnsweredAt(c, prior, r, i))
  }

  ghost predicate FullBlock(c: Council, block: seq<Event>, r: nat)
    requires r >= 1
  {
    FullGiven(c, IdealTranscript(c, r - 1), block, r)
  }

  lemma SpeechInBlock(c: Council, block: seq<Event>, r: nat, i: nat, script: Script)
    requires r >= 1 && FullBlock(c, block, r) && i < |c.panel| && script == IdealScript(c, r, i)
    ensures SpeechOf(block, PartAt(c, r, i).id) == FullSpeech(PartAt(c, r, i), script)
  {
  }

  ghost predicate BlocksFull(c: Council, blocks: seq<seq<Event>>) {
    forall k | 0 <= k < |blocks| :: FullBlock(c, blocks[k], k + 1)
  }

  ghost predicate Indep(c: Council, s: Orch) {
    s.round >= 1
    && (!s.cancelled ==> TranscriptOk(c, s) && ScriptsOk(c, PriorOf(s), s) && BlocksFull(c, s.blocks))
  }

  lemma ChangeScripts(c: Council, prior: Transcript, s: Orch, i: nat, u: Task, t: Orch)
    requires ScriptsOk(c, prior, s) && i < |s.tasks|
    requires t.tasks == s.tasks[i := u] && t.round == s.round
    requires t.requests == s.requests || t.requests == s.requests[i := RequestAt(c, prior, s.round, i)]
    requires TaskGiven(c, prior, s.round, i, u, t.requests)
    ensures ScriptsOk(c, prior, t)
  {
    forall j | 0 <= j < |t.tasks|
      ensures TaskGiven(c, prior, t.round, j, t.tasks[j], t.requests)
    {
      if j != i {
        assert TaskGiven(c, prior, s.round, j, s.tasks[j], s.requests);
      }
    }
  }

  lemma BeginScripts(c: Council, s: Orch, i: nat)
    requires ScriptsOk(c, s.transcript, s) && Enabled(c, s, Begin(i))
    ensures ScriptsOk(c, s.transcript, Next(c, s, Begin(i)))
  {
    ChangeScripts(c, s.transcript, s, i, Started(s.tasks[i], Ask(c, s, i)), Next(c, s, Begin(i)));
  }

  lemma WorkGiven(p: Part, t: Task, act: TaskAct, cancelled: bool, reading: bool)
    requires TaskOk(p, t, cancelled) && TaskEnabled(t, act, cancelled, reading)
    ensures var u := TaskNext(p, t, act, cancelled, reading); u.script == t.script && Begun(t) && Begun(u)
  {
  }

  lemma WorkScripts(c: Council, prior: Transcript, s: Orch, i: nat, act: TaskAct)
    requires ScriptsOk(c, prior, s) && Enabled(c, s, Work(i, act)) && TasksOk(c, s)
    ensures ScriptsOk(c, prior, Next(c, s, Work(i, act)))
  {
    assert TaskGiven(c, prior, s.round, i, s.tasks[i], s.requests);
    WorkGiven(PartOf(c, s, i), s.tasks[i], act, s.cancelled, s.reading);
    ChangeScripts(c, prior, s, i, TaskNext(PartOf(c, s, i), s.tasks[i], act, s.cancelled, s.reading),
                  Next(c, s, Work(i, act)));
  }

  lemma SpawnScripts(c: Council, prior: Transcript, s: Orch)
    requires ScriptsOk(c, prior, s) && Enabled(c, s, Spawn) && s.tasks[s.stage.next].worker.Unborn?
    ensures ScriptsOk(c, prior, Next(c, s, Spawn))
  {
    var i := s.stage.next;
    assert TaskGiven(c, prior, s.round, i, s.tasks[i], s.requests);
    ChangeScripts(c, prior, s, i, s.tasks[i].(worker := Spawned), Next(c, s, Spawn));
  }

  lemma OpeningScripts(c: Council, prior: Transcript, s: Orch)
    requires s.tasks == Opening(c, s.round) && s.requests == map[]
    ensures ScriptsOk(c, prior, s)
  {
  }

  lemma ExitedSays(p: Part, t: Task, script: Script)
    requires TaskOk(p, t, false) && t.worker.Exited? && t.script == script
    ensures t.said == FullSpeech(p, script) && t.text == Concat(DeltasOf(script))
  {
  }

  /** An exited, uncancelled task has said everything and holds its whole text. */
  lemma ExitedSaidAll(c: Council, prior: Transcript, s: Orch, i: nat)
    requires TasksOk(c, s) && ScriptsOk(c, prior, s) && !s.cancelled
    requires i < |s.tasks| && s.tasks[i].worker.Exited?
    ensures s.tasks[i].said == FullSpeech(PartOf(c, s, i), AnsweredAt(c, prior, s.round, i))
    ensures s.tasks[i].text == Concat(DeltasOf(AnsweredAt(c, prior, s.round, i)))
  {
    assert TaskGiven(c, prior, s.round, i, s.tasks[i], s.requests);
    ExitedSays(PartOf(c, s, i), s.tasks[i], AnsweredAt(c, prior, s.round, i));
  }

  /** Joining an uncancelled round appends exactly the answers given on the strength of `prior`. */
  lemma JoinedAnswers(c: Council, s: Orch)
    requires TasksOk(c, s) && ScriptsOk(c, s.transcript, s) && !s.cancelled && |s.tasks| == |c.panel|
    requires forall t <- s.tasks :: t.worker.Exited?
    ensures Answers(c, s) == IdealAnswers(c, s.transcript, s.round)
  {
    forall i | 0 <= i < |s.tasks|
      ensures AnswerAt(c, s, i) == AnswerGiven(c, s.transcript, s.round, i)
    {
      assert s.tasks[i] in s.tasks;
      ExitedSaidAll(c, s.transcript, s, i);
    }
  }

  lemma JoinIndep(c: Council, s: Orch)
    requires Indep(c, s) && !s.cancelled && Enabled(c, s, Join) && TasksOk(c, s) && |s.tasks| == |c.panel|
    ensures Indep(c, Next(c, s, Join))
  {
    JoinedAnswers(c, s);
    var t := Next(c, s, Join);
    assert PriorOf(t) == s.transcript;
    assert t.transcript == IdealTranscript(c, s.round - 1)
      + [Transcripts.Round(s.round, IdealAnswers(c, IdealTranscript(c, s.round - 1), s.round))];
  }

  lemma RoundIsFull(c: Council, prior: Transcript, s: Orch)
    requires StageOk(c, s) && TasksOk(c, s) && BlockOk(c, s) && ScriptsOk(c, prior, s) && !s.cancelled
    requires s.stage.Announcing?
    ensures FullGiven(c, prior, s.block, s.round)
  {
    forall i | 0 <= i < |c.panel|
      ensures SpeechOf(s.block, PartAt(c, s.round, i).id) == FullSpeech(PartAt(c, s.round, i), AnsweredAt(c, prior, s.round, i))
    {
      assert s.tasks[i] in s.tasks;
      ExitedSaidAll(c, prior, s, i);
      assert PartOf(c, s, i) == PartAt(c, s.round, i);
    }
  }

  lemma BlocksSnoc(c: Council, blocks: seq<seq<Event>>, block: seq<Event>)
    requires BlocksFull(c, blocks) && FullBlock(c, block, |blocks| + 1)
    ensures BlocksFull(c, blocks + [block])
  {
    var all := blocks + [block];
    forall k | 0 <= k < |all|
      ensures FullBlock(c, all[k], k + 1)
    {
      if k < |blocks| {
        assert FullBlock(c, blocks[k], k + 1);
      }
    }
  }

  lemma AnnounceIndep(c: Council, s: Orch)
    requires Indep(c, s) && !s.cancelled && s.stage.Announcing? && Enabled(c, s, Announce)
    requires |s.blocks| == s.round - 1 && FullGiven(c, PriorOf(s), s.block, s.round)
    ensures Indep(c, Next(c, s, Announce))
  {
    var t := Next(c, s, Announce);
    BlocksSnoc(c, s.blocks, s.block);
    OpeningScripts(c, PriorOf(t), t);
  }

  /** A step within a round leaves transcript and blocks alone. */
  lemma SameRound(c: Council, s: Orch, t: Orch)
    requires Indep(c, s) && !s.cancelled && t.round == s.round && ScriptsOk(c, PriorOf(s), t)
    requires t.transcript == s.transcript && t.blocks == s.blocks && t.stage.Announcing? == s.stage.Announcing?
    ensures Indep(c, t)
  {
  }

  lemma NotAnnouncing(c: Council, s: Orch, i: nat)
    requires StageOk(c, s) && i < |s.tasks| && s.tasks[i].worker.Spawned?
    ensures !s.stage.Announcing?
  {
    assert s.tasks[i] in s.tasks;
  }

  lemma NextIndep(c: Council, s: Orch, a: Act)
    requires Proper(c) && StreamOk(c, s) && Indep(c, s) && Enabled(c, s, a)
    ensures Indep(c, Next(c, s, a))
  {
    var t := Next(c, s, a);
    if !t.cancelled {
      if a.Join? {
        JoinIndep(c, s);
      } else if a.Announce? {
        RoundIsFull(c, PriorOf(s), s);
        AnnounceIndep(c, s);
      } else {
        WithinRound(c, s, a);
        SameRound(c, s, t);
      }
    }
  }

  lemma WithinRound(c: Council, s: Orch, a: Act)
    requires OrchOk(c, s) && Enabled(c, s, a) && !a.Join? && !a.Announce? && !Next(c, s, a).cancelled
    requires ScriptsOk(c, PriorOf(s), s)
    ensures var t := Next(c, s, a);
      t.round == s.round && t.transcript == s.transcript && t.blocks == s.blocks
      && t.stage.Announcing? == s.stage.Announcing? && ScriptsOk(c, PriorOf(s), t)
  {
    if a.Begin? {
      NotAnnouncing(c, s, a.i);
      BeginScripts(c, s, a.i);
    } else if a.Work? {
      WorkScripts(c, PriorOf(s), s, a.i, a.act);
    } else if a.Spawn? {
      SpawnScripts(c, PriorOf(s), s);
    }
  }

  lemma InitIndep(c: Council)
    ensures Indep(c, Init(c))
  {
    OpeningScripts(c, [], Init(c));
  }

  lemma {:induction false} RunsIndep(c: Council, acts: seq<Act>)
    requires Proper(c) && Possible(c, acts)
    ensures Indep(c, Reached(c, acts))
    decreases |acts|
  {
    if acts == [] {
      InitIndep(c);
    } else {
      RunsIndep(c, acts[..|acts| - 1]);
      RunsStream(c, acts[..|acts| - 1]);
      NextIndep(c, Reached(c, acts[..|acts| - 1]), acts[|acts| - 1]);
    }
  }

  /** In every uncancelled state of every schedule, each request sent for a (round, speaker) and the
      transcript so far are the council's own: round `r` is built from exactly rounds 1 to r - 1,
      the moderator's prompt from all of them. */
  lemma RequestsAreScheduleIndependent(c: Council, acts: seq<Act>, i: nat)
    requires Proper(c) && Possible(c, acts) && !Reached(c, acts).cancelled && i < |Reached(c, acts).tasks|
    ensures var s := Reached(c, acts);
      && 1 <= s.round <= c.rounds + 1
      && (i in s.requests <==> Begun(s.tasks[i]))
      && (i in s.requests ==> s.requests[i] == IdealRequest(c, s.round, i))
      && s.transcript == IdealTranscript(c, if s.stage.Announcing? then s.round else s.round - 1)
  {
    RunsIndep(c, acts);
    RunsOk(c, acts);
    RequestIsIdeal(c, Reached(c, acts), i);
  }

  lemma RequestIsIdeal(c: Council, s: Orch, i: nat)
    requires Indep(c, s) && !s.cancelled && i < |s.tasks|
    ensures i in s.requests <==> Begun(s.tasks[i])
    ensures i in s.requests ==> s.requests[i] == IdealRequest(c, s.round, i)
  {
    assert TaskGiven(c, PriorOf(s), s.round, i, s.tasks[i], s.requests);
  }

  /** A debate that ran to its end uncancelled delivered every terminator: each panelist's full
      speech in each round, and the moderator's after the last. */
  lemma UncancelledRunIsComplete(c: Council, acts: seq<Act>)
    requires Proper(c) && Possible(c, acts)
    requires !Reached(c, acts).cancelled && Reached(c, acts).stage.Shut?
    ensures |Reached(c, acts).blocks| == c.rounds && BlocksFull(c, Reached(c, acts).blocks)
    ensures Reached(c, acts).block == FullSpeech(PartAt(c, c.rounds + 1, 0), IdealScript(c, c.rounds + 1, 0))
  {
    RunsIndep(c, acts);
    RunsStream(c, acts);
    ShutIsComplete(c, PriorOf(Reached(c, acts)), Reached(c, acts));
  }

  lemma ShutIsComplete(c: Council, prior: Transcript, s: Orch)
    requires Proper(c) && StageOk(c, s) && TasksOk(c, s) && BlockOk(c, s) && ScriptsOk(c, prior, s)
    requires !s.cancelled && s.stage.Shut?
    ensures |s.blocks| == c.rounds && s.round == c.rounds + 1
    ensures s.block == FullSpeech(PartAt(c, c.rounds + 1, 0), AnsweredAt(c, prior, c.rounds + 1, 0))
  {
    assert s.tasks[0] in s.tasks;
    ExitedSaidAll(c, prior, s, 0);
    SoloBlock(c, s);
  }

  lemma SoloBlock(c: Council, s: Orch)
    requires Proper(c) && BlockOk(c, s) && !InPanel(c, s) && |s.tasks| == 1
    ensures s.block == s.tasks[0].said
  {
    SpeechOfSilent(s.block, Moderator);
    assert PartOf(c, s, 0).id == Moderator;
  }

  // ----- Any two schedules, under any two limits

  lemma RequestIgnoresLimit(c: Council, limit: int, prior: Transcript, r: nat, i: nat)
    ensures RequestAt(c.(limit := limit), prior, r, i) == RequestAt(c, prior, r, i)
    ensures AnsweredAt(c.(limit := limit), prior, r, i) == AnsweredAt(c, prior, r, i)
  {
  }

  lemma AnswersIgnoreLimit(c: Council, limit: int, prior: Transcript, r: nat)
    ensures IdealAnswers(c.(limit := limit), prior, r) == IdealAnswers(c, prior, r)
  {
    forall i | 0 <= i < |c.panel|
      ensures AnswerGiven(c.(limit := limit), prior, r, i) == AnswerGiven(c, prior, r, i)
    {
      RequestIgnoresLimit(c, limit, prior, r, i);
    }
  }

  lemma {:induction false} TranscriptIgnoresLimit(c: Council, limit: int, r: nat)
    ensures IdealTranscript(c.(limit := limit), r) == IdealTranscript(c, r)
  {
    if r > 0 {
      TranscriptIgnoresLimit(c, limit, r - 1);
      AnswersIgnoreLimit(c, limit, IdealTranscript(c, r - 1), r);
    }
  }

  /** The debate run one round after another does not know the concurrency limit. */
  lemma IdealIgnoresLimit(c: Council, limit: int, r: nat, i: nat)
    requires r >= 1
    ensures IdealRequest(c.(limit := limit), r, i) == IdealRequest(c, r, i)
    ensures IdealScript(c.(limit := limit), r, i) == IdealScript(c, r, i)
  {
    TranscriptIgnoresLimit(c, limit, r - 1);
    RequestIgnoresLimit(c, limit, IdealTranscript(c, r - 1), r, i);
  }

  lemma AskedIdeally(c: Council, acts: seq<Act>, r: nat, i: nat, asked: Request)
    requires Proper(c) && Possible(c, acts) && !Reached(c, acts).cancelled && i < |Reached(c, acts).tasks|
    requires r == Reached(c, acts).round && i in Reached(c, acts).requests && asked == Reached(c, acts).requests[i]
    ensures r >= 1 && asked == IdealRequest(c, r, i)
  {
    RequestsAreScheduleIndependent(c, acts, i);
  }

  /** Two uncancelled schedules of one debate, under whatever two limits, ask the same of the same
      speaker in the same round. */
  lemma SameRequestUnderAnyLimits(c: Council, limit: int, d: Council, acts1: seq<Act>, acts2: seq<Act>, r: nat, i: nat)
    requires Proper(c) && d == c.(limit := limit) && Possible(c, acts1) && Possible(d, acts2)
    requires !Reached(c, acts1).cancelled && Reached(c, acts1).round == r
    requires !Reached(d, acts2).cancelled && Reached(d, acts2).round == r
    requires i < |Reached(c, acts1).tasks| && i in Reached(c, acts1).requests
    requires i < |Reached(d, acts2).tasks| && i in Reached(d, acts2).requests
    ensures Reached(c, acts1).requests[i] == Reached(d, acts2).requests[i]
  {
    AskedIdeally(c, acts1, r, i, Reached(c, acts1).requests[i]);
    AskedIdeally(d, acts2, r, i, Reached(d, acts2).requests[i]);
    IdealIgnoresLimit(c, limit, r, i);
  }

  lemma SpokenIdeally(c: Council, acts: seq<Act>, r: nat, i: nat, said: seq<Event>)
    requires Proper(c) && Possible(c, acts) && !Reached(c, acts).cancelled && Reached(c, acts).stage.Shut?
    requires 1 <= r <= c.rounds && i < |c.panel| && r <= |Reached(c, acts).blocks|
    requires said == SpeechOf(Reached(c, acts).blocks[r - 1], c.panel[i].id)
    ensures said == FullSpeech(PartAt(c, r, i), IdealScript(c, r, i))
  {
    UncancelledRunIsComplete(c, acts);
    assert FullBlock(c, Reached(c, acts).blocks[r - 1], r - 1 + 1);
    SpeechInBlock(c, Reached(c, acts).blocks[r - 1], r, i, IdealScript(c, r, i));
  }

  /** And when both have ended, every panelist has said the same in every round. */
  lemma SameSpeechUnderAnyLimits(c: Council, limit: int, d: Council, acts1: seq<Act>, acts2: seq<Act>, r: nat, i: nat)
    requires Proper(c) && d == c.(limit := limit) && Possible(c, acts1) && Possible(d, acts2)
    requires !Reached(c, acts1).cancelled && Reached(c, acts1).stage.Shut?
    requires !Reached(d, acts2).cancelled && Reached(d, acts2).stage.Shut?
    requires 1 <= r <= c.rounds && i < |c.panel|
    ensures |Reached(c, acts1).blocks| == |Reached(d, acts2).blocks| == c.rounds
    ensures SpeechOf(Reached(c, acts1).blocks[r - 1], c.panel[i].id) == SpeechOf(Reached(d, acts2).blocks[r - 1], c.panel[i].id)
  {
    UncancelledRunIsComplete(c, acts1);
    UncancelledRunIsComplete(d, acts2);
    SpokenIdeally(c, acts1, r, i, SpeechOf(Reached(c, acts1).blocks[r - 1], c.panel[i].id));
    SpokenIdeally(d, acts2, r, i, SpeechOf(Reached(d, acts2).blocks[r - 1], c.panel[i].id));
    IdealIgnoresLimit(c, limit, r, i);
  }
}
