/** From the backend's goroutines to the screen: an uncancelled debate, under any schedule, fed over
    a lossless ordered wire into any run of the player, ends up displayed in full. */
module EndToEnd {
  import opened Protocol
  import opened Sequences
  import opened Reducer
  import opened Playback
  import opened Wakeup
  import opened Replay
  import opened Sessions
  import opened Faithful
  import opened Display
  import opened Voice
  import opened Endings
  import opened Streams
  import opened Orchestrator
  import opened Grammar
  import opened Independence
  import opened Feeding

  // ----- What is displayed in the end

  lemma AllRoundsLead(rounds: nat)
    ensures LeadingRun(RoundsUpTo(rounds), 1) == rounds
  {
    LeadingRunIs(RoundsUpTo(rounds), 1, rounds);
  }

  ghost predicate SeatedBefore(cell: Cell, n: nat) {
    exists k :: 0 <= k < n && SeatCell(k) == cell
  }

  lemma {:induction false} PanelText(rec: Recording, n: nat, cell: Cell)
    ensures TurnText(PanelTurns(rec, n), cell) == if SeatedBefore(cell, n) then TextOf(rec, cell) else []
  {
    if n > 0 {
      PanelText(rec, n - 1, cell);
      assert PanelTurns(rec, n) == PanelTurns(rec, n - 1) + [Turn(SeatCell(n - 1), TextOf(rec, SeatCell(n - 1)))];
      TurnTextSnoc(PanelTurns(rec, n - 1), Turn(SeatCell(n - 1), TextOf(rec, SeatCell(n - 1))), cell);
      SeatedNext(cell, n - 1);
    }
  }

  lemma SeatedNext(cell: Cell, n: nat)
    ensures SeatedBefore(cell, n + 1) <==> SeatedBefore(cell, n) || SeatCell(n) == cell
  {
  }

  lemma SeatOfCell(cell: Cell, rounds: nat)
    ensures SeatedBefore(cell, SEATS * rounds) <==> 1 <= cell.round <= rounds && cell.persona in PANELISTS
  {
    if 1 <= cell.round <= rounds && cell.persona in PANELISTS {
      var k := SEATS * (cell.round - 1) + SeatOf(cell.persona);
      SeatCellAt(cell.round, SeatOf(cell.persona));
      assert 0 <= k < SEATS * rounds && SeatCell(k) == cell;
    }
  }

  /** Whether the moderator delivered a verdict. */
  predicate ModeratorSucceeds(c: Council) {
    var script := IdealScript(c, c.rounds + 1, 0);
    script.Stream? && !script.fails
  }

  /** What the interface shows of a debate: every panelist's text, and the synthesis if the moderator
      got to the end of it, each cut at the cell limit; nothing else. */
  function Expected(c: Council, cell: Cell): Text {
    if cell.persona == Moderator && !ModeratorSucceeds(c) then [] else Capped(Produced(c, cell))
  }

  lemma SynthesisRound(rec: Recording, n: nat)
    requires RoundsRecorded(rec, n)
    ensures SynthesisCell(rec) == Cell(Moderator, n + 1)
  {
    if rec.moderatorRound == None {
      assert n > 0 ==> n in RoundsUpTo(n);
    }
  }

  lemma PanelShows(rounds: nat, rec: Recording, cell: Cell)
    ensures TurnText(PanelTurns(rec, SEATS * rounds), cell) ==
            if 1 <= cell.round <= rounds && cell.persona in PANELISTS then TextOf(rec, cell) else []
  {
    PanelText(rec, SEATS * rounds, cell);
    SeatOfCell(cell, rounds);
  }

  lemma TurnTextSnoc(turns: seq<Turn>, turn: Turn, cell: Cell)
    ensures TurnText(turns + [turn], cell) == if turn.cell == cell then turn.text else TurnText(turns, cell)
  {
    assert (turns + [turn])[..|turns|] == turns;
  }

  /** The turns of such a recording: the panel's, then the synthesis if there is one to read. */
  lemma RecordedTurns(rec: Recording, n: nat)
    requires RoundsRecorded(rec, n)
    ensures var panel := PanelTurns(rec, SEATS * n);
      var cell := Cell(Moderator, n + 1);
      Turns(rec) == if rec.verdict.Some? && TextOf(rec, cell) != [] then panel + [Turn(cell, TextOf(rec, cell))] else panel
  {
    AllRoundsLead(n);
    SynthesisRound(rec, n);
  }

  lemma ModeratorRecorded(c: Council, rec: Recording)
    requires FullyRecorded(c, rec)
    ensures rec.verdict.Some? <==> ModeratorSucceeds(c)
  {
  }

  lemma RecordedTurnsText(rec: Recording, n: nat, cell: Cell)
    requires RoundsRecorded(rec, n)
    ensures TurnText(Turns(rec), cell) ==
            if (1 <= cell.round <= n && cell.persona in PANELISTS) || (cell == Cell(Moderator, n + 1) && rec.verdict.Some?)
            then TextOf(rec, cell) else []
  {
    RecordedTurns(rec, n);
    PanelShows(n, rec, cell);
    var last := Cell(Moderator, n + 1);
    TurnTextSnoc(PanelTurns(rec, SEATS * n), Turn(last, TextOf(rec, last)), cell);
  }

  lemma ProducedElsewhere(c: Council, cell: Cell)
    requires !(1 <= cell.round <= c.rounds && cell.persona in PANELISTS) && cell != Cell(Moderator, c.rounds + 1)
    ensures Produced(c, cell) == []
  {
  }

  lemma TurnsText(c: Council, rec: Recording, cell: Cell)
    requires FullyRecorded(c, rec) && TextOf(rec, cell) == Capped(Produced(c, cell))
    ensures TurnText(Turns(rec), cell) == Expected(c, cell)
  {
    RecordedTurnsText(rec, c.rounds, cell);
    ModeratorRecorded(c, rec);
    ExpectedIs(c, cell, Capped(Produced(c, cell)), rec.verdict.Some?);
  }

  lemma ExpectedIs(c: Council, cell: Cell, text: Text, decided: bool)
    requires text == Capped(Produced(c, cell)) && (decided <==> ModeratorSucceeds(c))
    ensures Expected(c, cell) ==
            if (1 <= cell.round <= c.rounds && cell.persona in PANELISTS) || (cell == Cell(Moderator, c.rounds + 1) && decided)
            then text else []
  {
    if 1 <= cell.round <= c.rounds && cell.persona in PANELISTS {
    } else if cell != Cell(Moderator, c.rounds + 1) {
      ProducedElsewhere(c, cell);
    }
  }

  /** The verdict a debate ends with, if its moderator succeeds. */
  function Outcome(c: Council): Option<Text> {
    if ModeratorSucceeds(c) then Some(Concat(DeltasOf(IdealScript(c, c.rounds + 1, 0)))) else None
  }

  lemma EndOfReplay(rec: Recording, ending: Atom)
    requires Ending(rec) == [ending]
    ensures EndingOf(ReplayOf(rec)) == Some(ending)
  {
  }

  function EndFor(outcome: Option<Text>): Atom {
    if outcome.Some? then Decided(outcome.value) else Aborted(Failure(Some(Moderator), STREAM_FAILED))
  }

  lemma RecordedEnding(rec: Recording, n: nat, script: Script, outcome: Option<Text>)
    requires RecordedWith(rec, n, script)
    requires outcome == if script.Stream? && !script.fails then Some(Concat(DeltasOf(script))) else None
    ensures Ending(rec) == [EndFor(outcome)]
  {
  }

  /** A close after the debate changes nothing that is replayed. */
  lemma HangupRecorded(c: Council, events: seq<Event>, feed: seq<Delivery>)
    requires Settled(Arrivals(events)) && FullyRecorded(c, Recorded(Arrivals(events)))
    requires feed == Arrivals(events) || feed == Arrivals(events) + [Hangup]
    ensures Settled(feed) && FullyRecorded(c, Recorded(feed))
    ensures forall cell :: TextOf(Recorded(feed), cell) == TextOf(Recorded(Arrivals(events)), cell)
  {
    if feed != Arrivals(events) {
      assert feed[..|feed| - 1] == Arrivals(events);
    }
  }

  /** The feed of a debate that ran to its end uncancelled, with or without the close after it. */
  ghost predicate FeedOfDebate(c: Council, acts: seq<Act>, feed: seq<Delivery>)
    requires Possible(c, acts)
  {
    var events := Delivered(Reached(c, acts));
    feed == Arrivals(events) || feed == Arrivals(events) + [Hangup]
  }

  lemma DebateIsRecorded(c: Council, acts: seq<Act>, feed: seq<Delivery>, cell: Cell)
    requires Seated(c) && Possible(c, acts) && FeedOfDebate(c, acts, feed)
    requires !Reached(c, acts).cancelled && Reached(c, acts).stage.Shut?
    ensures Settled(feed) && FullyRecorded(c, Recorded(feed))
    ensures TextOf(Recorded(feed), cell) == Capped(Produced(c, cell))
  {
    UncancelledRunIsComplete(c, acts);
    StreamFollowsGrammar(c, acts);
    var s := Reached(c, acts);
    var events := Delivered(s);
    FeedDebate(c, s.blocks, s.block);
    SaidInDebate(c, s.blocks, s.block, cell);
    RecordedText(events, cell);
    HangupRecorded(c, events, feed);
  }

  /** The display of a finished debate, at one cell: its text, and the outcome. */
  ghost predicate Displays(v: DebateState, cell: Cell, expected: Text, outcome: Option<Text>) {
    && Shown(v, cell) == expected
    && v.activeSpeakers == []
    && (if outcome.Some? then v.phase == Done && v.verdict == outcome.value else v.phase == Failed)
  }

  ghost predicate DisplaysDebate(c: Council, v: DebateState, cell: Cell) {
    Displays(v, cell, Expected(c, cell), Outcome(c))
  }

  /** The end-to-end theorem. For every schedule of the goroutines and every interleaving of the
      feed with timers, skips and rate changes that leaves no timer armed, each cell shows the text
      its persona streamed in that round, cut at the cell limit, and nothing else is shown; the
      debate is done with the moderator's whole text as its verdict, or, if the moderator's stream
      failed, it has failed. */
  lemma DebateIsDisplayed(
    c: Council, acts: seq<Act>, before: DebateState, reducedMotion: bool, rate: Rate, actions: seq<Action>, cell: Cell)
    requires Seated(c) && Possible(c, acts) && !Reached(c, acts).cancelled && Reached(c, acts).stage.Shut?
    requires WithinSession(actions) && FeedOfDebate(c, acts, FeedOf(actions))
    requires Run(Fresh(reducedMotion, rate), actions).player.timer.None?
    ensures DisplaysDebate(c, View(before, reducedMotion, rate, actions), cell)
  {
    FreshAtRest(reducedMotion, rate);
    DebateIsRecorded(c, acts, FeedOf(actions), cell);
    TurnsText(c, Recorded(FeedOf(actions)), cell);
    RecordedOutcome(c, Recorded(FeedOf(actions)), IdealScript(c, c.rounds + 1, 0), Outcome(c));
    FeedIsDisplayed(Recorded(FeedOf(actions)), before, reducedMotion, rate, actions, cell,
                    Expected(c, cell), EndFor(Outcome(c)), Outcome(c));
  }

  lemma RecordedOutcome(c: Council, rec: Recording, script: Script, outcome: Option<Text>)
    requires FullyRecorded(c, rec) && script == IdealScript(c, c.rounds + 1, 0) && outcome == Outcome(c)
    ensures Ending(rec) == [EndFor(outcome)] && VerdictBy(EndFor(outcome)) == outcome
  {
    RecordedEnding(rec, c.rounds, script, outcome);
  }

  /** The display of any settled, terminated feed is read off its recording. */
  lemma FeedIsDisplayed(
    rec: Recording, before: DebateState, reducedMotion: bool, rate: Rate, actions: seq<Action>,
    cell: Cell, expected: Text, ending: Atom, outcome: Option<Text>)
    requires WithinSession(actions) && Settled(FeedOf(actions)) && rec == Recorded(FeedOf(actions))
    requires AtRest(Fresh(reducedMotion, rate)) && Run(Fresh(reducedMotion, rate), actions).player.timer.None?
    requires TurnText(Turns(rec), cell) == expected && Ending(rec) == [ending] && VerdictBy(ending) == outcome
    ensures Displays(View(before, reducedMotion, rate, actions), cell, expected, outcome)
  {
    EndOfReplay(rec, ending);
    QuiescentRunReplaysRecording(reducedMotion, rate, actions);
    NothingDeferred(rec, Atoms(Run(Fresh(reducedMotion, rate), actions).out));
    var out := Run(Fresh(reducedMotion, rate), actions).out;
    SessionShows(before, reducedMotion, rate, actions, out, cell);
    ReplayIsDisplayed(rec, before, reducedMotion, rate, actions, Reduce(before, Status(Connecting)), out,
                      cell, expected, ending);
  }

  function FeedAll(events: seq<Event>): seq<Action> {
    if events == [] then [] else FeedAll(events[..|events| - 1]) + [Action.Feed(events[|events| - 1])]
  }

  lemma FeedOneMore(fed: seq<Action>, init: seq<Event>, last: Event)
    requires WithinSession(fed) && FeedOf(fed) == Arrivals(init)
    ensures WithinSession(fed + [Action.Feed(last)]) && FeedOf(fed + [Action.Feed(last)]) == Arrivals(init + [last])
  {
    ExpandSnoc(DeliveryOf, fed, Action.Feed(last));
    ArrivalsSnoc(init, last);
  }

  lemma {:induction false} FeedAllFeeds(events: seq<Event>)
    ensures WithinSession(FeedAll(events)) && FeedOf(FeedAll(events)) == Arrivals(events)
  {
    if events == [] {
      assert Arrivals(events) == [];
    } else {
      var init, last := events[..|events| - 1], events[|events| - 1];
      FeedAllFeeds(init);
      FeedOneMore(FeedAll(init), init, last);
      assert events == init + [last];
    }
  }

  lemma SkipAtTheEnd(s: Player, actions: seq<Action>)
    requires AtRest(s) && WithinSession(actions)
    ensures WithinSession(actions + [SkipToLive]) && FeedOf(actions + [SkipToLive]) == FeedOf(actions)
    ensures Run(s, actions + [SkipToLive]).player.timer.None?
  {
    ExpandSnoc(DeliveryOf, actions, SkipToLive);
    RunSnoc(s, actions + [SkipToLive], actions, SkipToLive);
    ActAtRest(Run(s, actions).player, SkipToLive);
  }

  /** The theorem speaks of something: the debate of any council can run to its end uncancelled, and
      be fed, and watched until no timer is left. */
  lemma DebateCanBeWatched(c: Council, reducedMotion: bool, rate: Rate)
    returns (acts: seq<Act>, actions: seq<Action>)
    ensures Possible(c, acts) && !Reached(c, acts).cancelled && Reached(c, acts).stage.Shut?
    ensures WithinSession(actions) && FeedOfDebate(c, acts, FeedOf(actions))
    ensures Run(Fresh(reducedMotion, rate), actions).player.timer.None?
  {
    acts := RunsToItsEnd(c, [], Init(c));
    var events := Delivered(Reached(c, acts));
    FeedAllFeeds(events);
    FreshAtRest(reducedMotion, rate);
    SkipAtTheEnd(Fresh(reducedMotion, rate), FeedAll(events));
    actions := FeedAll(events) + [SkipToLive];
  }

  lemma NothingDeferred(rec: Recording, atoms: seq<Atom>)
    requires TerminalKnown(rec)
    ensures atoms + Deferred(rec) == atoms
  {
    assert atoms + [] == atoms;
  }

  /** The verdict an ending brings, if it does. */
  function VerdictBy(ending: Atom): Option<Text> {
    if ending.Decided? then Some(ending.verdict) else None
  }

  lemma LogIsDisplayed(
    rec: Recording, v0: DebateState, out: seq<Input>, cell: Cell, expected: Text, ending: Atom)
    requires Atoms(out) == ReplayOf(rec)
    requires TurnText(Turns(rec), cell) == expected && EndingOf(ReplayOf(rec)) == Some(ending)
    requires v0.phase == ConnectingPhase && v0.activeSpeakers == []
    requires PlayerInputs(out) && FloorAfter(Nobody, out) != Disorder
    requires Shown(Fold(v0, out), cell) == CellText(Atoms(out), cell)
    ensures Displays(Fold(v0, out), cell, expected, VerdictBy(ending))
  {
    ReplayText(rec, cell);
    FoldEnds(v0, out);
    FoldVoices(v0, Nobody, out);
  }

  lemma ConnectingClears(before: DebateState, v0: DebateState)
    requires v0 == Reduce(before, Status(Connecting))
    ensures v0.phase == ConnectingPhase && v0.activeSpeakers == []
  {
  }

  lemma ReplayIsDisplayed(
    rec: Recording, before: DebateState, reducedMotion: bool, rate: Rate, actions: seq<Action>,
    v0: DebateState, out: seq<Input>, cell: Cell, expected: Text, ending: Atom)
    requires WithinSession(actions) && AtRest(Fresh(reducedMotion, rate))
    requires out == Run(Fresh(reducedMotion, rate), actions).out && Atoms(out) == ReplayOf(rec)
    requires v0 == Reduce(before, Status(Connecting))
    requires TurnText(Turns(rec), cell) == expected && EndingOf(ReplayOf(rec)) == Some(ending)
    ensures Displays(Fold(v0, out), cell, expected, VerdictBy(ending))
  {
    SessionShows(before, reducedMotion, rate, actions, out, cell);
    SessionOrderly(reducedMotion, rate, actions);
    ConnectingClears(before, v0);
    LogIsDisplayed(rec, v0, out, cell, expected, ending);
  }

  lemma EndingsText(rec: Recording, cell: Cell)
    ensures CellText(Ending(rec), cell) == []
  {
    if Ending(rec) != [] {
      EndingText(Ending(rec)[0], cell);
      assert Ending(rec) == [Ending(rec)[0]];
    }
  }

  lemma ReplayText(rec: Recording, cell: Cell)
    ensures CellText(ReplayOf(rec), cell) == TurnText(Turns(rec), cell)
  {
    TurnsDistinct(rec);
    CellTextPlayed(Turns(rec), cell);
    CellTextConcat(Played(Turns(rec)), Ending(rec), cell);
    EndingsText(rec, cell);
  }

  lemma TurnsDistinct(rec: Recording)
    ensures DistinctCells(Turns(rec))
  {
    var n := SEATS * LeadingRun(rec.roundComplete, 1);
    forall k | 0 <= k < PanelCount(Turns(rec))
      ensures Turns(rec)[k].cell == SeatCell(k) && SeatCell(k).round in rec.roundComplete
    {
      assert k < n;
      LeadingRounds(rec.roundComplete, 1, SeatCell(k).round);
    }
    OrderedDistinct(Turns(rec), rec.roundComplete);
  }
}
