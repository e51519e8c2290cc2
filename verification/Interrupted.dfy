/** Debates that are cancelled or cut off: whatever the backend has delivered by then is a settled
    feed, and what the interface shows of it is the announced rounds, in full, and nothing else. */
module Interrupted {
  import opened Protocol
  import opened Sequences
  import opened Reducer
  import opened Playback
  import opened Wakeup
  import opened Replay
  import opened Sessions
  import opened Faithful
  import opened Display
  import opened Streams
  import opened Orchestrator
  import opened Grammar
  import opened Independence
  import opened Feeding
  import opened EndToEnd

  /** The verdict a stream ends on, if it does. */
  function VerdictOf(events: seq<Event>): Option<Text> {
    if events != [] && events[|events| - 1].Verdict? then Some(events[|events| - 1].verdict) else None
  }

  /** What a stream of `n` announced rounds, broken off anywhere, leaves recorded. */
  ghost predicate BrokenOff(events: seq<Event>, n: nat) {
    var rec := Recorded(Arrivals(events));
    && Settled(Arrivals(events))
    && RoundsRecorded(rec, n) && rec.verdict == VerdictOf(events)
  }

  lemma LastOfBlock(past: seq<Event>, block: seq<Event>)
    requires block != []
    ensures (past + block)[|past + block| - 1] == block[|block| - 1]
  {
  }

  lemma NoVerdictYet(c: Council, past: seq<Event>, block: seq<Event>, round: nat)
    requires RoundBlock(c, block, round) && VerdictOf(past) == None
    ensures VerdictOf(past + block) == None
  {
    if block == [] {
      assert past + block == past;
    } else {
      LastOfBlock(past, block);
      NoVerdictInRound(c, block, round);
      assert block[|block| - 1] in block;
    }
  }

  /** Broken off within a panel round. */
  lemma RoundBrokenOff(c: Council, blocks: seq<seq<Event>>, block: seq<Event>)
    requires Proper(c) && RoundBlock(c, block, |blocks| + 1)
    requires forall k | 0 <= k < |blocks| :: RoundBlock(c, blocks[k], k + 1)
    ensures BrokenOff(Past(blocks) + block, |blocks|)
  {
    FeedPast(c, blocks);
    FeedBlock(c, Past(blocks), |blocks|, block);
    PastHasNoVerdict(blocks);
    NoVerdictYet(c, Past(blocks), block, |blocks| + 1);
  }

  lemma TokensBrokenOff(past: seq<Event>, n: nat, p: Part, deltas: seq<Text>)
    requires AfterRounds(past, n) && VerdictOf(past) == None && p == Part(Moderator, n + 1, true)
    ensures BrokenOff(past + Tokens(p, deltas), n)
  {
    FeedSynthesis(past, n, p, deltas);
    if deltas != [] {
      LastOfBlock(past, Tokens(p, deltas));
    } else {
      assert past + Tokens(p, deltas) == past;
    }
  }

  lemma EndBrokenOff(past: seq<Event>, n: nat, p: Part, deltas: seq<Text>, end: Event)
    requires AfterRounds(past, n) && p == Part(Moderator, n + 1, true)
    requires end == Apology(p) || end == Terminator(p, Concat(deltas))
    ensures BrokenOff(past + (Tokens(p, deltas) + [end]), n)
  {
    FeedSynthesis(past, n, p, deltas);
    FeedEnd(past + Tokens(p, deltas), n, end);
    Assoc(past, Tokens(p, deltas), [end]);
  }

  lemma PastHasNoVerdict(blocks: seq<seq<Event>>)
    ensures VerdictOf(Past(blocks)) == None
  {
  }

  /** Broken off in the moderator's speech, or after it. */
  lemma SynthesisBrokenOff(past: seq<Event>, n: nat, p: Part, block: seq<Event>)
    requires AfterRounds(past, n) && VerdictOf(past) == None && p == Part(Moderator, n + 1, true) && SomeSpeech(p, block)
    ensures BrokenOff(past + block, n)
  {
    var deltas :| Speech(p, deltas, block);
    var m: nat :| m <= |deltas| &&
      (|| block == Tokens(p, deltas[..m])
       || block == Tokens(p, deltas[..m]) + [Apology(p)]
       || block == Tokens(p, deltas[..m]) + [Terminator(p, Concat(deltas[..m]))]);
    if block == Tokens(p, deltas[..m]) {
      TokensBrokenOff(past, n, p, deltas[..m]);
    } else {
      EndBrokenOff(past, n, p, deltas[..m], block[|block| - 1]);
    }
  }

  lemma StreamBrokenOff(c: Council, blocks: seq<seq<Event>>, block: seq<Event>)
    requires Proper(c) && WellFormed(c, blocks, block)
    ensures BrokenOff(Past(blocks) + block, |blocks|)
  {
    if |blocks| < c.rounds {
      RoundBrokenOff(c, blocks, block);
    } else {
      FeedPast(c, blocks);
      PastHasNoVerdict(blocks);
      SynthesisBrokenOff(Past(blocks), c.rounds, Part(Moderator, c.rounds + 1, true), block);
    }
  }

  /** Whatever the backend has delivered at any point of any schedule, cancelled or not, is a settled
      feed: exactly the announced rounds are complete in it, and its verdict is the one delivered. */
  lemma BackendFeedIsSettled(c: Council, acts: seq<Act>)
    requires Proper(c) && Possible(c, acts)
    ensures var rec := Recorded(Arrivals(Delivered(Reached(c, acts))));
      && Settled(Arrivals(Delivered(Reached(c, acts))))
      && rec.roundComplete == RoundsUpTo(|Reached(c, acts).blocks|)
      && rec.verdict == VerdictOf(Delivered(Reached(c, acts)))
  {
    StreamFollowsGrammar(c, acts);
    StreamBrokenOff(c, Reached(c, acts).blocks, Reached(c, acts).block);
  }

  /** What the interface shows of a broken-off stream: the announced rounds, and the synthesis only
      with its verdict, each cell cut at the limit. */
  function ShownOf(events: seq<Event>, n: nat, cell: Cell): Text {
    if (1 <= cell.round <= n && cell.persona in PANELISTS) || (cell == Cell(Moderator, n + 1) && VerdictOf(events).Some?)
    then Capped(SaidIn(events, cell)) else []
  }

  lemma HangupSettled(events: seq<Event>, n: nat, feed: seq<Delivery>)
    requires BrokenOff(events, n) && feed == Arrivals(events) + [Hangup]
    ensures Settled(feed) && Recorded(feed) == Recorded(Arrivals(events)).(closed := true)
  {
    SettledSnoc(Arrivals(events), Hangup);
  }

  function EndingAfter(rec: Recording): Atom {
    if rec.verdict.Some? then Decided(rec.verdict.value)
    else if rec.sessionError.Some? then Aborted(rec.sessionError.value)
    else CutOff
  }

  lemma BrokenOffReplay(events: seq<Event>, n: nat, rec: Recording, cell: Cell)
    requires BrokenOff(events, n) && rec == Recorded(Arrivals(events)).(closed := true)
    ensures TurnText(Turns(rec), cell) == ShownOf(events, n, cell)
    ensures Ending(rec) == [EndingAfter(rec)] && VerdictBy(EndingAfter(rec)) == VerdictOf(events)
  {
    RecordedText(events, cell);
    RecordedTurnsText(rec, n, cell);
  }

  lemma BrokenOffIsDisplayed(
    events: seq<Event>, n: nat, before: DebateState, reducedMotion: bool, rate: Rate, actions: seq<Action>, cell: Cell)
    requires BrokenOff(events, n) && WithinSession(actions) && FeedOf(actions) == Arrivals(events) + [Hangup]
    requires AtRest(Fresh(reducedMotion, rate)) && Run(Fresh(reducedMotion, rate), actions).player.timer.None?
    ensures Displays(View(before, reducedMotion, rate, actions), cell, ShownOf(events, n, cell), VerdictOf(events))
  {
    HangupSettled(events, n, FeedOf(actions));
    var rec := Recorded(FeedOf(actions));
    BrokenOffReplay(events, n, rec, cell);
    FeedIsDisplayed(rec, before, reducedMotion, rate, actions, cell, ShownOf(events, n, cell), EndingAfter(rec),
                    VerdictOf(events));
  }

  /** The theorem for interrupted debates. Wherever a schedule stands, cancelled or not, when the
      connection closes, and however the player is run until no timer is left: each cell of an
      announced round shows all its persona said in it, cut at the limit, no other panelist's cell
      shows anything, and the debate has failed unless the verdict was delivered. */
  lemma InterruptedDebateIsDisplayed(
    c: Council, acts: seq<Act>, before: DebateState, reducedMotion: bool, rate: Rate, actions: seq<Action>, cell: Cell)
    requires Proper(c) && Possible(c, acts) && WithinSession(actions)
    requires FeedOf(actions) == Arrivals(Delivered(Reached(c, acts))) + [Hangup]
    requires Run(Fresh(reducedMotion, rate), actions).player.timer.None?
    ensures var events := Delivered(Reached(c, acts));
      Displays(View(before, reducedMotion, rate, actions), cell,
               ShownOf(events, |Reached(c, acts).blocks|, cell), VerdictOf(events))
  {
    FreshAtRest(reducedMotion, rate);
    StreamFollowsGrammar(c, acts);
    StreamBrokenOff(c, Reached(c, acts).blocks, Reached(c, acts).block);
    BrokenOffIsDisplayed(Delivered(Reached(c, acts)), |Reached(c, acts).blocks|, before, reducedMotion, rate, actions, cell);
  }

  // ----- Announced rounds are whole

  /** The block after the announced rounds says nothing in their cells. */
  lemma LaterBlockSilent(c: Council, blocks: seq<seq<Event>>, block: seq<Event>, cell: Cell)
    requires Proper(c) && WellFormed(c, blocks, block) && 1 <= cell.round <= |blocks| && cell.persona in PANELISTS
    requires |blocks| == c.rounds ==> forall e <- block :: SpeakerOf(e) == Some(Moderator)
    ensures SaidIn(block, cell) == []
  {
    SaidInNone(block, cell);
  }

  lemma ModeratorAlone(c: Council, acts: seq<Act>)
    requires Proper(c) && Possible(c, acts) && |Reached(c, acts).blocks| == c.rounds
    ensures forall e <- Reached(c, acts).block :: SpeakerOf(e) == Some(Moderator)
  {
    StreamFollowsGrammar(c, acts);
    SpeechIsOwn(Part(Moderator, c.rounds + 1, true), Reached(c, acts).block);
  }

  lemma SpeechIsOwn(p: Part, said: seq<Event>)
    requires p.moderator && p.id == Moderator && SomeSpeech(p, said)
    ensures forall e <- said :: SpeakerOf(e) == Some(Moderator)
  {
  }

  /** As long as it is not cancelled, what a debate has delivered of an announced round is each
      panelist's whole answer; so an interruption costs at most the round in progress. */
  lemma AnnouncedRoundsAreWhole(c: Council, acts: seq<Act>, cell: Cell)
    requires Seated(c) && Possible(c, acts) && !Reached(c, acts).cancelled
    requires 1 <= cell.round <= |Reached(c, acts).blocks| && cell.persona in PANELISTS
    ensures SaidIn(Delivered(Reached(c, acts)), cell) == PanelProduced(c, cell)
  {
    StreamFollowsGrammar(c, acts);
    RunsIndep(c, acts);
    if |Reached(c, acts).blocks| == c.rounds {
      ModeratorAlone(c, acts);
    }
    AnnouncedIn(c, Reached(c, acts).blocks, Reached(c, acts).block, cell);
  }

  lemma AnnouncedIn(c: Council, blocks: seq<seq<Event>>, block: seq<Event>, cell: Cell)
    requires Seated(c) && WellFormed(c, blocks, block) && BlocksFull(c, blocks)
    requires 1 <= cell.round <= |blocks| && cell.persona in PANELISTS
    requires |blocks| == c.rounds ==> forall e <- block :: SpeakerOf(e) == Some(Moderator)
    ensures SaidIn(Past(blocks) + block, cell) == PanelProduced(c, cell)
  {
    var k := cell.round - 1;
    assert RoundBlock(c, blocks[k], k + 1) && FullBlock(c, blocks[k], k + 1);
    SaidInItsRound(c, blocks[k], cell);
    SaidInPast(c, blocks, cell);
    LaterBlockSilent(c, blocks, block, cell);
    ExpandConcat(DeltaIn(cell), Past(blocks), block);
  }
}
