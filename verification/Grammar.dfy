/** What the consumer of a debate receives under any schedule, and why the schedule does not
    matter to what is asked and answered. */
module Grammar {
  import opened Protocol
  import opened Sequences
  import opened Streams
  import opened Orchestrator

  /** Panelists have distinct ids, and only the moderator has the moderator's. */
  ghost predicate Proper(c: Council) {
    && c.moderator.id == Moderator
    && (forall m <- c.panel :: m.id != Moderator)
    && (forall i, j | 0 <= i < j < |c.panel| :: c.panel[i].id != c.panel[j].id)
  }

  function SpeakerOf(e: Event): Option<PersonaId> {
    match e
    case Token(persona, _, _) => Some(persona)
    case PersonaDone(persona, _) => Some(persona)
    case RoundComplete(_) => None
    case Verdict(_) => Some(Moderator)
    case Error(failure) => failure.persona
  }

  function OnlyBy(id: PersonaId): Event -> seq<Event> {
    (e: Event) => if SpeakerOf(e) == Some(id) then [e] else []
  }

  /** One speaker's events, in order. */
  function SpeechOf(events: seq<Event>, id: PersonaId): seq<Event> {
    Expand(OnlyBy(id), events)
  }

  predicate InRound(e: Event, round: nat) {
    match e
    case Token(_, r, _) => r == round
    case PersonaDone(_, r) => r == round
    case RoundComplete(_) => false
    case Verdict(_) => false
    case Error(_) => true
  }

  ghost predicate BySomePanelist(c: Council, e: Event) {
    exists m <- c.panel :: SpeakerOf(e) == Some(m.id)
  }

  ghost predicate SomeSpeech(p: Part, said: seq<Event>) {
    exists deltas :: Speech(p, deltas, said)
  }

  /** The events of a panel round: an interleaving of the panelists' speeches. */
  ghost predicate RoundBlock(c: Council, block: seq<Event>, round: nat) {
    && (forall e <- block :: InRound(e, round) && BySomePanelist(c, e))
    && (forall m <- c.panel :: SomeSpeech(Part(m.id, round, false), SpeechOf(block, m.id)))
  }

  /** The grammar of the stream: round blocks, each closed by its announcement, then one block that
      may be unfinished; after the last round that block is the moderator's alone. */
  ghost predicate WellFormed(c: Council, blocks: seq<seq<Event>>, block: seq<Event>) {
    && |blocks| <= c.rounds
    && (forall k | 0 <= k < |blocks| :: RoundBlock(c, blocks[k], k + 1))
    && (if |blocks| < c.rounds then RoundBlock(c, block, |blocks| + 1)
        else SomeSpeech(Part(c.moderator.id, c.rounds + 1, true), block))
  }

  // ----- The invariant behind it

  /** The current block interleaves exactly what each goroutine has said. */
  ghost predicate BlockOk(c: Council, s: Orch) {
    && (forall i | 0 <= i < |s.tasks| :: SpeechOf(s.block, PartOf(c, s, i).id) == s.tasks[i].said)
    && (InPanel(c, s) ==> forall e <- s.block :: InRound(e, s.round) && BySomePanelist(c, e))
    && (!InPanel(c, s) ==> forall e <- s.block :: SpeakerOf(e) == Some(Moderator))
  }

  ghost predicate PastOk(c: Council, s: Orch) {
    forall k | 0 <= k < |s.blocks| :: RoundBlock(c, s.blocks[k], k + 1)
  }

  ghost predicate StreamOk(c: Council, s: Orch) {
    OrchOk(c, s) && BlockOk(c, s) && PastOk(c, s)
  }

  lemma {:induction false} SpeechOfSilent(events: seq<Event>, id: PersonaId)
    requires forall e <- events :: SpeakerOf(e) == Some(id)
    ensures SpeechOf(events, id) == events
  {
    if events != [] {
      var init, last := events[..|events| - 1], events[|events| - 1];
      assert last in events && forall e <- init :: e in events;
      SpeechOfSilent(init, id);
      assert events == init + [last];
    }
  }

  lemma TaskSpeech(p: Part, t: Task, cancelled: bool)
    requires TaskOk(p, t, cancelled)
    ensures SomeSpeech(p, t.said)
  {
    var deltas := DeltasOf(t.script);
    if !t.worker.Exited? {
      var m := if t.worker.Sending? then t.taken - 1 else t.taken;
      assert t.said == Tokens(p, deltas[..m]);
    }
    assert Speech(p, deltas, t.said);
  }

  lemma PanelBlock(c: Council, s: Orch)
    requires StreamOk(c, s) && InPanel(c, s)
    ensures RoundBlock(c, s.block, s.round)
  {
    forall m <- c.panel
      ensures SomeSpeech(Part(m.id, s.round, false), SpeechOf(s.block, m.id))
    {
      var i :| 0 <= i < |c.panel| && c.panel[i] == m;
      assert PartOf(c, s, i) == Part(m.id, s.round, false);
      TaskSpeech(PartOf(c, s, i), s.tasks[i], s.cancelled);
    }
  }

  lemma DistinctParts(c: Council, s: Orch, i: nat, j: nat)
    requires Proper(c) && StageOk(c, s) && i < |s.tasks| && j < |s.tasks| && i != j
    ensures PartOf(c, s, i).id != PartOf(c, s, j).id
  {
  }

  lemma SaysBySpeaker(p: Part, t: Task, act: TaskAct, cancelled: bool, reading: bool)
    requires TaskEnabled(t, act, cancelled, reading) && (p.moderator ==> p.id == Moderator)
    ensures forall e <- Says(p, t, act, cancelled, reading) ::
              SpeakerOf(e) == Some(p.id) && (!p.moderator ==> InRound(e, p.round))
    ensures |Says(p, t, act, cancelled, reading)| <= 1
  {
  }

  lemma SpeechOfAppend(block: seq<Event>, says: seq<Event>, id: PersonaId, speaker: PersonaId)
    requires |says| <= 1 && forall e <- says :: SpeakerOf(e) == Some(speaker)
    ensures SpeechOf(block + says, id) == SpeechOf(block, id) + if id == speaker then says else []
  {
    if says == [] {
      assert block + says == block;
    } else {
      assert says == [says[0]];
      ExpandSnoc(OnlyBy(id), block, says[0]);
    }
  }

  lemma WorkBlock(c: Council, s: Orch, i: nat, act: TaskAct)
    requires Proper(c) && StreamOk(c, s) && Enabled(c, s, Work(i, act))
    ensures BlockOk(c, Next(c, s, Work(i, act)))
  {
    var p, t := PartOf(c, s, i), s.tasks[i];
    var says := Says(p, t, act, s.cancelled, s.reading);
    var s' := Next(c, s, Work(i, act));
    SaysBySpeaker(p, t, act, s.cancelled, s.reading);
    forall j | 0 <= j < |s'.tasks|
      ensures SpeechOf(s'.block, PartOf(c, s', j).id) == s'.tasks[j].said
    {
      assert PartOf(c, s', j) == PartOf(c, s, j);
      SpeechOfAppend(s.block, says, PartOf(c, s, j).id, p.id);
      if j != i {
        DistinctParts(c, s, i, j);
        assert SpeechOf(s.block, PartOf(c, s, j).id) + [] == SpeechOf(s.block, PartOf(c, s, j).id);
      }
    }
    if InPanel(c, s) {
      forall e <- says
        ensures BySomePanelist(c, e)
      {
        assert c.panel[i] in c.panel && SpeakerOf(e) == Some(c.panel[i].id);
      }
    }
  }

  lemma QuietBlock(c: Council, s: Orch, t: Orch)
    requires BlockOk(c, s) && t.block == s.block && t.round == s.round && |t.tasks| == |s.tasks|
    requires forall i | 0 <= i < |s.tasks| :: t.tasks[i].said == s.tasks[i].said
    ensures BlockOk(c, t)
  {
    forall i | 0 <= i < |t.tasks|
      ensures SpeechOf(t.block, PartOf(c, t, i).id) == t.tasks[i].said
    {
      assert PartOf(c, t, i) == PartOf(c, s, i);
    }
  }

  lemma NewBlock(c: Council, s: Orch)
    requires s.block == [] && s.tasks == Opening(c, s.round)
    ensures BlockOk(c, s)
  {
  }

  lemma PastSnoc(c: Council, s: Orch, t: Orch)
    requires PastOk(c, s) && RoundBlock(c, s.block, |s.blocks| + 1) && t.blocks == s.blocks + [s.block]
    ensures PastOk(c, t)
  {
    forall k | 0 <= k < |t.blocks|
      ensures RoundBlock(c, t.blocks[k], k + 1)
    {
      if k < |s.blocks| {
        assert RoundBlock(c, s.blocks[k], k + 1);
      }
    }
  }

  lemma AnnounceStream(c: Council, s: Orch)
    requires Proper(c) && StreamOk(c, s) && Enabled(c, s, Announce)
    ensures BlockOk(c, Next(c, s, Announce)) && PastOk(c, Next(c, s, Announce))
  {
    PanelBlock(c, s);
    NewBlock(c, Next(c, s, Announce));
    PastSnoc(c, s, Next(c, s, Announce));
  }

  /** Steps that deliver nothing and start no round leave every speech as it was. */
  lemma QuietStep(c: Council, s: Orch, a: Act)
    requires OrchOk(c, s) && Enabled(c, s, a) && !a.Work? && !a.Announce?
    ensures var t := Next(c, s, a);
      t.block == s.block && t.blocks == s.blocks && t.round == s.round && |t.tasks| == |s.tasks|
      && forall i | 0 <= i < |s.tasks| :: t.tasks[i].said == s.tasks[i].said
  {
  }

  lemma NextStream(c: Council, s: Orch, a: Act)
    requires Proper(c) && StreamOk(c, s) && Enabled(c, s, a)
    ensures StreamOk(c, Next(c, s, a))
  {
    NextOk(c, s, a);
    if a.Work? {
      WorkBlock(c, s, a.i, a.act);
    } else if a.Announce? {
      AnnounceStream(c, s);
    } else {
      QuietStep(c, s, a);
      QuietBlock(c, s, Next(c, s, a));
    }
  }

  lemma {:induction false} RunsStream(c: Council, acts: seq<Act>)
    requires Proper(c) && Possible(c, acts)
    ensures StreamOk(c, Reached(c, acts))
    decreases |acts|
  {
    if acts == [] {
      InitOk(c);
      NewBlock(c, Init(c));
    } else {
      RunsStream(c, acts[..|acts| - 1]);
      NextStream(c, Reached(c, acts[..|acts| - 1]), acts[|acts| - 1]);
    }
  }

  /** Every schedule, cancelled or not, delivers a well-formed stream. */
  lemma StreamFollowsGrammar(c: Council, acts: seq<Act>)
    requires Proper(c) && Possible(c, acts)
    ensures Delivered(Reached(c, acts)) == Past(Reached(c, acts).blocks) + Reached(c, acts).block
    ensures WellFormed(c, Reached(c, acts).blocks, Reached(c, acts).block)
  {
    RunsStream(c, acts);
    var s := Reached(c, acts);
    if InPanel(c, s) {
      PanelBlock(c, s);
    } else {
      SpeechOfSilent(s.block, Moderator);
      assert PartOf(c, s, 0) == Part(c.moderator.id, c.rounds + 1, true);
      TaskSpeech(PartOf(c, s, 0), s.tasks[0], s.cancelled);
    }
  }

  lemma NoVerdictInRound(c: Council, block: seq<Event>, round: nat)
    requires RoundBlock(c, block, round)
    ensures forall e <- block :: !e.Verdict?
  {
  }

  /** A moderator's speech that holds a verdict ends on it, and says before it just what it sums up. */
  lemma VerdictInSpeech(p: Part, said: seq<Event>, k: nat)
    requires p.moderator && SomeSpeech(p, said) && k < |said| && said[k].Verdict?
    ensures k == |said| - 1
    ensures exists deltas :: said == Tokens(p, deltas) + [Verdict(Concat(deltas))]
  {
    var deltas :| Speech(p, deltas, said);
    var m: nat :| m <= |deltas| &&
      (|| said == Tokens(p, deltas[..m])
       || said == Tokens(p, deltas[..m]) + [Apology(p)]
       || said == Tokens(p, deltas[..m]) + [Terminator(p, Concat(deltas[..m]))]);
    assert forall i | 0 <= i < m :: Tokens(p, deltas[..m])[i].Token?;
    assert said == Tokens(p, deltas[..m]) + [Verdict(Concat(deltas[..m]))];
  }

  /** In a well-formed stream a verdict is the very last event, and its text is exactly the
      moderator's tokens before it. */
  lemma VerdictIsLast(c: Council, blocks: seq<seq<Event>>, block: seq<Event>, j: nat)
    requires Proper(c) && WellFormed(c, blocks, block)
    requires j < |Past(blocks) + block| && (Past(blocks) + block)[j].Verdict?
    ensures j == |Past(blocks) + block| - 1 && |blocks| == c.rounds
    ensures exists deltas ::
      block == Tokens(Part(Moderator, c.rounds + 1, true), deltas) + [Verdict(Concat(deltas))]
  {
    NoVerdictInPast(c, blocks);
    assert j >= |Past(blocks)|;
    var k := j - |Past(blocks)|;
    assert (Past(blocks) + block)[j] == block[k];
    if |blocks| < c.rounds {
      NoVerdictInRound(c, block, |blocks| + 1);
      assert false;
    } else {
      VerdictInSpeech(Part(Moderator, c.rounds + 1, true), block, k);
    }
  }

  lemma {:induction false} NoVerdictInPast(c: Council, blocks: seq<seq<Event>>)
    requires forall k | 0 <= k < |blocks| :: RoundBlock(c, blocks[k], k + 1)
    ensures forall e <- Past(blocks) :: !e.Verdict?
  {
    if blocks != [] {
      NoVerdictInPast(c, blocks[..|blocks| - 1]);
      assert forall e <- blocks[|blocks| - 1] :: InRound(e, |blocks|);
    }
  }
}
