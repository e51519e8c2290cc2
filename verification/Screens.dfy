/** What the interface shows of any settled feed once nothing is left to play, read off the feed
    itself: the announced rounds, the synthesis that was read out last, and how it ended. */
module Screens {
  import opened Protocol
  import opened Sequences
  import opened Reducer
  import opened Playback
  import opened Wakeup
  import opened Replay
  import opened Sessions
  import opened Faithful
  import opened Display
  import opened Voice
  import opened Endings
  import opened Failures
  import opened EndToEnd
  import opened Faults

  // ----- Reading a feed

  function DeltaFor(cell: Cell): Delivery -> Text {
    (d: Delivery) =>
      if d.Arrival? && d.event.Token? && d.event.persona == cell.persona && d.event.round == cell.round
      then d.event.delta else []
  }

  /** All the text fed for a cell. */
  function FedText(feed: seq<Delivery>, cell: Cell): Text {
    Expand(DeltaFor(cell), feed)
  }

  predicate Announced(feed: seq<Delivery>, round: nat) {
    Arrival(RoundComplete(round)) in feed
  }

  function LastVerdict(feed: seq<Delivery>): Option<Text> {
    if feed == [] then None
    else
      match feed[|feed| - 1]
      case Arrival(Verdict(verdict)) => Some(verdict)
      case _ => LastVerdict(feed[..|feed| - 1])
  }

  /** The last failure that ends a session: nobody's, or the moderator's. */
  function LastAbort(feed: seq<Delivery>): Option<Failure> {
    if feed == [] then None
    else
      match feed[|feed| - 1]
      case Arrival(Error(failure)) =>
        if failure.persona == None || failure.persona == Some(Moderator) then Some(failure)
        else LastAbort(feed[..|feed| - 1])
      case _ => LastAbort(feed[..|feed| - 1])
  }

  /** The round of the moderator's last text. */
  function LastRead(feed: seq<Delivery>): Option<nat> {
    if feed == [] then None
    else
      match feed[|feed| - 1]
      case Arrival(Token(persona, round, _)) =>
        if persona == Moderator then Some(round) else LastRead(feed[..|feed| - 1])
      case _ => LastRead(feed[..|feed| - 1])
  }

  // ----- A recording is its feed

  lemma {:induction false} RecordedSignals(feed: seq<Delivery>)
    ensures Recorded(feed).verdict == LastVerdict(feed) && Recorded(feed).sessionError == LastAbort(feed)
    ensures Recorded(feed).moderatorRound == LastRead(feed) && (Recorded(feed).closed <==> Hangup in feed)
  {
    if feed != [] {
      var init, last := feed[..|feed| - 1], feed[|feed| - 1];
      assert feed == init + [last];
      RecordedSignals(init);
    }
  }

  lemma {:induction false} RecordedRounds(feed: seq<Delivery>, round: nat)
    ensures round in Recorded(feed).roundComplete <==> Announced(feed, round)
  {
    if feed != [] {
      var init, last := feed[..|feed| - 1], feed[|feed| - 1];
      assert feed == init + [last];
      RecordedRounds(init, round);
    }
  }

  lemma DeliveredText(rec: Recording, d: Delivery, cell: Cell)
    requires |TextOf(rec, cell)| <= 200_000
    ensures TextOf(Deliver(rec, d), cell) == Capped(TextOf(rec, cell) + DeltaFor(cell)(d))
  {
    assert TextOf(rec, cell) + [] == TextOf(rec, cell);
  }

  lemma {:induction false} RecordedCell(feed: seq<Delivery>, cell: Cell)
    ensures TextOf(Recorded(feed), cell) == Capped(FedText(feed, cell))
  {
    if feed != [] {
      var init, last := feed[..|feed| - 1], feed[|feed| - 1];
      RecordedCell(init, cell);
      DeliveredText(Recorded(init), last, cell);
      CapAbsorbs(FedText(init, cell), DeltaFor(cell)(last));
    }
  }

  /** Where no moderator text was fed, none is recorded. */
  lemma {:induction false} UnreadIsEmpty(feed: seq<Delivery>, round: nat)
    requires LastRead(feed) == None
    ensures FedText(feed, Cell(Moderator, round)) == []
  {
    if feed != [] {
      UnreadIsEmpty(feed[..|feed| - 1], round);
    }
  }

  // ----- What is shown

  /** Every round up to this one has been announced. */
  ghost predicate Whole(feed: seq<Delivery>, round: nat) {
    forall r: nat :: 1 <= r <= round ==> Announced(feed, r)
  }

  /** A panelist's text once its round and all before it are announced; the moderator's from its last
      round once there is a verdict; each cut at the limit. */
  ghost function ScreenText(feed: seq<Delivery>, cell: Cell): Text {
    if cell.persona in PANELISTS then
      if 1 <= cell.round && Whole(feed, cell.round) then Capped(FedText(feed, cell)) else []
    else if cell.persona == Moderator && LastVerdict(feed).Some? && LastRead(feed) == Some(cell.round) then
      Capped(FedText(feed, cell))
    else []
  }

  lemma LeadingIsWhole(feed: seq<Delivery>, round: nat)
    ensures round <= LeadingRun(Recorded(feed).roundComplete, 1) <==> Whole(feed, round)
  {
    var rounds := Recorded(feed).roundComplete;
    if round <= LeadingRun(rounds, 1) {
      forall r: nat | 1 <= r <= round
        ensures Announced(feed, r)
      {
        LeadingRounds(rounds, 1, r);
        RecordedRounds(feed, r);
      }
    } else {
      NextRoundMissing(rounds, 1);
      RecordedRounds(feed, 1 + LeadingRun(rounds, 1));
    }
  }

  lemma TurnsShow(rec: Recording, cell: Cell)
    ensures TurnText(Turns(rec), cell) ==
            if rec.verdict.Some? && cell == SynthesisCell(rec) then TextOf(rec, cell)
            else if 1 <= cell.round <= LeadingRun(rec.roundComplete, 1) && cell.persona in PANELISTS then TextOf(rec, cell)
            else []
  {
    var panel := PanelTurns(rec, SEATS * LeadingRun(rec.roundComplete, 1));
    PanelShows(LeadingRun(rec.roundComplete, 1), rec, cell);
    var last := Turn(SynthesisCell(rec), TextOf(rec, SynthesisCell(rec)));
    TurnTextSnoc(panel, last, cell);
    assert panel + [] == panel;
  }

  lemma FeedShows(feed: seq<Delivery>, cell: Cell)
    ensures TurnText(Turns(Recorded(feed)), cell) == ScreenText(feed, cell)
  {
    TurnsShow(Recorded(feed), cell);
    RecordedCell(feed, cell);
    RecordedSignals(feed);
    LeadingIsWhole(feed, cell.round);
    if LastRead(feed) == None && cell.persona == Moderator {
      UnreadIsEmpty(feed, cell.round);
    }
  }

  lemma DeferredText(rec: Recording, cell: Cell)
    ensures CellText(Deferred(rec), cell) == []
  {
    if Deferred(rec) != [] {
      CellTextClosing(Turns(rec)[|Turns(rec)| - 1].cell, cell);
    }
  }

  lemma LogShows(atoms: seq<Atom>, rec: Recording, cell: Cell)
    requires atoms + Deferred(rec) == ReplayOf(rec)
    ensures CellText(atoms, cell) == TurnText(Turns(rec), cell)
  {
    CellTextConcat(atoms, Deferred(rec), cell);
    DeferredText(rec, cell);
    ReplayText(rec, cell);
  }

  /** Whatever settled feed a session was given, and however it was timed, once no timer is left each
      cell shows what the feed alone calls for. */
  lemma FeedDecidesText(before: DebateState, reducedMotion: bool, rate: Rate, actions: seq<Action>, cell: Cell)
    requires WithinSession(actions) && Settled(FeedOf(actions)) && AtRest(Fresh(reducedMotion, rate))
    requires Run(Fresh(reducedMotion, rate), actions).player.timer.None?
    ensures Shown(View(before, reducedMotion, rate, actions), cell) == ScreenText(FeedOf(actions), cell)
  {
    QuiescentRunReplaysRecording(reducedMotion, rate, actions);
    LogShows(Atoms(Run(Fresh(reducedMotion, rate), actions).out), Recorded(FeedOf(actions)), cell);
    ShownIsRevealed(before, reducedMotion, rate, actions, cell);
    FeedShows(FeedOf(actions), cell);
  }

  // ----- How it ended

  /** A verdict beats a failure, a failure beats a close, and without any of them nothing has ended. */
  ghost predicate EndsBy(feed: seq<Delivery>, v: DebateState, log: seq<Input>) {
    if LastVerdict(feed).Some? then v.phase == Done && v.verdict == LastVerdict(feed).value
    else if LastAbort(feed).Some? then v.phase == Failed && Wire(Error(LastAbort(feed).value)) in log
    else if Hangup in feed then v.phase == Failed && Status(Closed) in log
    else !v.phase.Terminal()
  }

  /** An ending in the replay is the input it stands for. */
  lemma {:induction false} AtomIsDispatched(log: seq<Input>, atom: Atom)
    requires atom in Atoms(log)
    ensures atom.Aborted? ==> Wire(Error(atom.failure)) in log
    ensures atom.CutOff? ==> Status(Closed) in log
  {
    var init, last := log[..|log| - 1], log[|log| - 1];
    if atom in Atoms(init) {
      AtomIsDispatched(init, atom);
    } else {
      assert atom in AtomsOf(last);
    }
  }

  lemma EndedBy(feed: seq<Delivery>, v: DebateState, log: seq<Input>, ending: Atom)
    requires Ending(Recorded(feed)) == [ending] && Atoms(log) == ReplayOf(Recorded(feed))
    requires EndsAs(v, EndingOf(Atoms(log)))
    ensures EndsBy(feed, v, log)
  {
    RecordedSignals(feed);
    EndOfReplay(Recorded(feed), ending);
    assert ending == Atoms(log)[|Atoms(log)| - 1];
    AtomIsDispatched(log, ending);
  }

  lemma NotEnded(feed: seq<Delivery>, v: DebateState, log: seq<Input>)
    requires !TerminalKnown(Recorded(feed)) && EndsAs(v, None)
    ensures EndsBy(feed, v, log)
  {
    RecordedSignals(feed);
  }

  lemma EndingKnown(rec: Recording) returns (ending: Atom)
    requires TerminalKnown(rec)
    ensures Ending(rec) == [ending]
  {
    ending := Ending(rec)[0];
  }

  lemma LogEnds(s: Player, log: seq<Input>, feed: seq<Delivery>, v0: DebateState)
    requires Atoms(log) + Deferred(Recorded(feed)) == ReplayOf(Recorded(feed))
    requires s.cursor.Finished? <==> TerminalKnown(Recorded(feed))
    requires FloorAfter(Nobody, log) == FloorIn(s) && PlayerInputs(log) && v0.phase == ConnectingPhase
    requires FloorIn(s) != Disorder
    ensures EndsBy(feed, Fold(v0, log), log)
  {
    FoldEnds(v0, log);
    if s.cursor.Finished? {
      var ending := EndingKnown(Recorded(feed));
      NothingDeferred(Recorded(feed), Atoms(log));
      EndedBy(feed, Fold(v0, log), log, ending);
    } else {
      NotEnded(feed, Fold(v0, log), log);
    }
  }

  /** And its phase and verdict are those the feed calls for, the cause of a failure having been
      dispatched for display. */
  lemma FeedDecidesEnd(before: DebateState, reducedMotion: bool, rate: Rate, actions: seq<Action>)
    requires WithinSession(actions) && Settled(FeedOf(actions)) && AtRest(Fresh(reducedMotion, rate))
    requires Run(Fresh(reducedMotion, rate), actions).player.timer.None?
    ensures EndsBy(FeedOf(actions), View(before, reducedMotion, rate, actions),
                   Run(Fresh(reducedMotion, rate), actions).out)
  {
    QuiescentRunReplaysRecording(reducedMotion, rate, actions);
    RunFloor(reducedMotion, rate, actions);
    SessionOrderly(reducedMotion, rate, actions);
    var e := Run(Fresh(reducedMotion, rate), actions);
    LogEnds(e.player, e.out, FeedOf(actions), Reduce(before, Status(Connecting)));
  }

  /** The words for a session that failed are among the errors. */
  ghost predicate Explains(errors: seq<Failure>, feed: seq<Delivery>) {
    if LastAbort(feed).Some? then
      var f := LastAbort(feed).value;
      Failure(f.persona, if f.message == "" then "an error occurred" else f.message) in errors
    else
      Failure(None, "connection closed before a verdict") in errors
  }

  lemma EndExplains(feed: seq<Delivery>, v: DebateState, log: seq<Input>)
    requires EndsBy(feed, v, log) && v.phase == Failed
    ensures Explains(Notices(log), feed)
  {
    if LastAbort(feed).Some? {
      NoticeIn(log, Wire(Error(LastAbort(feed).value)));
    } else {
      NoticeIn(log, Status(Closed));
      assert NoticeOf(Status(Closed))[0] in Notices(log);
    }
  }

  /** A session that has failed says why: in the failure's own words, or that the connection was
      lost. */
  lemma FailureIsExplained(before: DebateState, reducedMotion: bool, rate: Rate, actions: seq<Action>)
    requires WithinSession(actions) && Settled(FeedOf(actions)) && AtRest(Fresh(reducedMotion, rate))
    requires Run(Fresh(reducedMotion, rate), actions).player.timer.None? && FaultsFed(actions) <= 50
    requires View(before, reducedMotion, rate, actions).phase == Failed
    ensures Explains(View(before, reducedMotion, rate, actions).errors, FeedOf(actions))
  {
    FeedDecidesEnd(before, reducedMotion, rate, actions);
    FewFaultsAreAllShown(before, reducedMotion, rate, actions);
    EndExplains(FeedOf(actions), View(before, reducedMotion, rate, actions),
                Run(Fresh(reducedMotion, rate), actions).out);
  }

  // ----- What was announced

  lemma {:induction false} ClosedTurns(turns: seq<Turn>, atom: Atom)
    requires atom.TurnDone? || atom.RoundDone?
    ensures atom in Played(turns) <==> exists t <- turns :: atom in Closing(t.cell)
  {
    if turns != [] {
      var init, last := turns[..|turns| - 1], turns[|turns| - 1];
      assert turns == init + [last];
      ClosedTurns(init, atom);
    }
  }

  /** A signal's atom stands in a log exactly if the signal does. */
  lemma {:induction false} SignalIsDispatched(log: seq<Input>, signal: Event, atom: Atom)
    requires signal.PersonaDone? || signal.RoundComplete?
    requires AtomsOf(Wire(signal)) == [atom]
    ensures Wire(signal) in log <==> atom in Atoms(log)
  {
    if log != [] {
      var init, last := log[..|log| - 1], log[|log| - 1];
      assert log == init + [last];
      SignalIsDispatched(init, signal, atom);
      if last != Wire(signal) {
        OtherSignal(last, signal, atom);
      }
    }
  }

  lemma OtherSignal(input: Input, signal: Event, atom: Atom)
    requires signal.PersonaDone? || signal.RoundComplete?
    requires AtomsOf(Wire(signal)) == [atom] && input != Wire(signal)
    ensures atom !in AtomsOf(input)
  {
  }

  lemma SeatInTurns(rec: Recording, round: nat, seat: nat, k: nat)
    requires seat < SEATS && k < |Turns(rec)| && Turns(rec)[k].cell == Cell(PANELISTS[seat], round)
    ensures 1 <= round <= LeadingRun(rec.roundComplete, 1)
  {
    assert PANELISTS[seat] != Moderator;
    assert k < SEATS * LeadingRun(rec.roundComplete, 1) && SeatCell(k).round == round;
  }

  lemma SeatsInTurns(rec: Recording, round: nat, seat: nat)
    requires seat < SEATS
    ensures (exists t <- Turns(rec) :: t.cell == Cell(PANELISTS[seat], round))
       <==> 1 <= round <= LeadingRun(rec.roundComplete, 1)
  {
    if 1 <= round <= LeadingRun(rec.roundComplete, 1) {
      SeatCellAt(round, seat);
      assert Turns(rec)[SEATS * (round - 1) + seat].cell == Cell(PANELISTS[seat], round);
    }
    if exists t <- Turns(rec) :: t.cell == Cell(PANELISTS[seat], round) {
      var k :| 0 <= k < |Turns(rec)| && Turns(rec)[k].cell == Cell(PANELISTS[seat], round);
      SeatInTurns(rec, round, seat, k);
    }
  }

  lemma DoneCloses(cell: Cell, closed: Cell)
    requires cell.persona != Moderator
    ensures TurnDone(cell) in Closing(closed) <==> closed == cell
  {
  }

  lemma RoundDoneCloses(round: nat, closed: Cell)
    ensures RoundDone(round) in Closing(closed) <==> closed == Cell(PANELISTS[SEATS - 1], round)
  {
  }

  lemma DoneIn(rec: Recording, round: nat, seat: nat)
    requires seat < SEATS
    ensures TurnDone(Cell(PANELISTS[seat], round)) in Played(Turns(rec))
       <==> 1 <= round <= LeadingRun(rec.roundComplete, 1)
  {
    var cell := Cell(PANELISTS[seat], round);
    SeatsInTurns(rec, round, seat);
    ClosedBySeat(Turns(rec), TurnDone(cell), cell);
  }

  lemma RoundDoneIn(rec: Recording, round: nat)
    ensures RoundDone(round) in Played(Turns(rec)) <==> 1 <= round <= LeadingRun(rec.roundComplete, 1)
  {
    SeatsInTurns(rec, round, SEATS - 1);
    ClosedBySeat(Turns(rec), RoundDone(round), Cell(PANELISTS[SEATS - 1], round));
  }

  lemma ClosedBySeat(turns: seq<Turn>, atom: Atom, cell: Cell)
    requires cell.persona != Moderator
    requires atom == TurnDone(cell) || (atom == RoundDone(cell.round) && cell.persona == PANELISTS[SEATS - 1])
    ensures atom in Played(turns) <==> exists t <- turns :: t.cell == cell
  {
    ClosedTurns(turns, atom);
    forall t <- turns
      ensures atom in Closing(t.cell) <==> t.cell == cell
    {
      if atom.TurnDone? {
        DoneCloses(cell, t.cell);
      } else {
        RoundDoneCloses(cell.round, t.cell);
      }
    }
  }

  /** A session that has ended has signalled the end of every round that was announced together with
      all before it, and of each panelist's turn in it, and of no others. */
  lemma FeedDecidesSignals(reducedMotion: bool, rate: Rate, actions: seq<Action>, round: nat, seat: nat)
    requires WithinSession(actions) && Settled(FeedOf(actions)) && seat < SEATS
    requires Run(Fresh(reducedMotion, rate), actions).player.cursor.Finished?
    ensures var out := Run(Fresh(reducedMotion, rate), actions).out;
      && (Wire(RoundComplete(round)) in out <==> 1 <= round && Whole(FeedOf(actions), round))
      && (Wire(PersonaDone(PANELISTS[seat], round)) in out <==> 1 <= round && Whole(FeedOf(actions), round))
  {
    RunExact(reducedMotion, rate, actions);
    var out, rec := Run(Fresh(reducedMotion, rate), actions).out, Recorded(FeedOf(actions));
    LeadingIsWhole(FeedOf(actions), round);
    RoundDoneIn(rec, round);
    DoneIn(rec, round, seat);
    SignalIsDispatched(out, RoundComplete(round), RoundDone(round));
    SignalIsDispatched(out, PersonaDone(PANELISTS[seat], round), TurnDone(Cell(PANELISTS[seat], round)));
  }
}
