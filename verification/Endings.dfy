/** A session ends at most once, last, and the display says how. */
module Endings {
  import opened Protocol
  import opened Reducer
  import opened Playback
  import opened Wakeup
  import opened Replay
  import opened Sessions
  import opened Faithful
  import opened Display
  import opened Voice

  function EndingOf(atoms: seq<Atom>): Option<Atom> {
    if atoms != [] && atoms[|atoms| - 1].Ends() then Some(atoms[|atoms| - 1]) else None
  }

  ghost predicate EndsAs(v: DebateState, ending: Option<Atom>) {
    match ending
    case None => !v.phase.Terminal()
    case Some(Decided(verdict)) => v.phase == Done && v.verdict == verdict
    case Some(_) => v.phase == Failed
  }

  /** On an orderly log the display's phase and verdict are those of the log's ending. */
  lemma {:induction false} FoldEnds(v: DebateState, log: seq<Input>)
    requires v.phase == ConnectingPhase && PlayerInputs(log) && FloorAfter(Nobody, log) != Disorder
    ensures EndsAs(Fold(v, log), EndingOf(Atoms(log)))
    ensures EndingOf(Atoms(log)).Some? <==> FloorAfter(Nobody, log) == Over
  {
    if log != [] {
      var init, last := log[..|log| - 1], log[|log| - 1];
      assert last in log && forall i <- init :: i in log;
      FoldEnds(v, init);
      StepEnds(Fold(v, init), FloorAfter(Nobody, init), Atoms(init), last);
    }
  }

  lemma StepEnds(v: DebateState, f: Floor, atoms: seq<Atom>, input: Input)
    requires EndsAs(v, EndingOf(atoms)) && (EndingOf(atoms).Some? <==> f == Over)
    requires input != Status(Connecting) && input != Cancel && FloorStep(f, input) != Disorder
    ensures EndsAs(Reduce(v, input), EndingOf(atoms + AtomsOf(input)))
    ensures EndingOf(atoms + AtomsOf(input)).Some? <==> FloorStep(f, input) == Over
  {
    if AtomsOf(input) == [] {
      assert atoms + [] == atoms;
    } else {
      var n := |AtomsOf(input)|;
      assert (atoms + AtomsOf(input))[|atoms| + n - 1] == AtomsOf(input)[n - 1];
    }
  }

  lemma SessionOrderly(reducedMotion: bool, rate: Rate, actions: seq<Action>)
    requires WithinSession(actions)
    ensures FloorAfter(Nobody, Run(Fresh(reducedMotion, rate), actions).out) != Disorder
    ensures PlayerInputs(Run(Fresh(reducedMotion, rate), actions).out)
  {
    RunFloor(reducedMotion, rate, actions);
    RunPlayerInputs(Fresh(reducedMotion, rate), actions);
  }

  lemma SessionShows(before: DebateState, reducedMotion: bool, rate: Rate, actions: seq<Action>, out: seq<Input>, cell: Cell)
    requires WithinSession(actions) && out == Run(Fresh(reducedMotion, rate), actions).out
    ensures View(before, reducedMotion, rate, actions) == Fold(Reduce(before, Status(Connecting)), out)
    ensures Shown(Fold(Reduce(before, Status(Connecting)), out), cell) == CellText(Atoms(out), cell)
  {
    ShownIsRevealed(before, reducedMotion, rate, actions, cell);
  }

  lemma {:induction false} PlayedHasNoEnding(turns: seq<Turn>)
    ensures forall a <- Played(turns) :: !a.Ends()
  {
    if turns != [] {
      PlayedHasNoEnding(turns[..|turns| - 1]);
      assert forall a <- TurnAtoms(turns[|turns| - 1]) :: !a.Ends();
    }
  }

  lemma EndingIsLast(script: seq<Atom>, ending: Atom, j: nat)
    requires (forall a <- script :: !a.Ends()) && j <= |script| && (script + [ending])[j].Ends()
    ensures j == |script|
  {
    assert forall i | 0 <= i < |script| :: (script + [ending])[i] == script[i];
  }

  lemma NoEndingSoFar(script: seq<Atom>, atoms: seq<Atom>, owed: seq<Atom>)
    requires (forall a <- script :: !a.Ends()) && atoms + owed == script
    ensures forall j | 0 <= j < |atoms| :: !atoms[j].Ends()
  {
    forall j | 0 <= j < |atoms|
      ensures !atoms[j].Ends()
    {
      assert atoms[j] == script[j];
    }
  }

  /** Whatever is fed, a session has at most one ending, nothing of the replay follows it, and the
      player has then stopped for good: no timer, no turn, nothing ready. */
  lemma EndsOnceAndLast(reducedMotion: bool, rate: Rate, actions: seq<Action>, j: nat)
    requires WithinSession(actions)
    requires j < |Atoms(Run(Fresh(reducedMotion, rate), actions).out)|
    requires Atoms(Run(Fresh(reducedMotion, rate), actions).out)[j].Ends()
    ensures var e := Run(Fresh(reducedMotion, rate), actions);
      j == |Atoms(e.out)| - 1 && e.player.cursor.Finished? && e.player.timer.None? && e.player.active.None?
  {
    RunInv(reducedMotion, rate, actions);
    var e := Run(Fresh(reducedMotion, rate), actions);
    EndsLast(e.player, e.out, j);
  }

  lemma NotEndedYet(s: Player, log: seq<Input>)
    requires Core(s, log)
    ensures !s.cursor.Finished? ==> forall j | 0 <= j < |Atoms(log)| :: !Atoms(log)[j].Ends()
  {
    if !s.cursor.Finished? {
      PlayedHasNoEnding(s.turns);
      NoEndingSoFar(Played(s.turns), Atoms(log), Owed(s));
    }
  }

  lemma EndsLast(s: Player, log: seq<Input>, j: nat)
    requires Inv(s, log) && j < |Atoms(log)| && Atoms(log)[j].Ends()
    ensures j == |Atoms(log)| - 1 && s.cursor.Finished? && s.timer.None? && s.active.None?
  {
    NotEndedYet(s, log);
    PlayedHasNoEnding(s.turns);
    var ending: Atom :| ending.Ends() && Atoms(log) == Played(s.turns) + [ending];
    EndingIsLast(Played(s.turns), ending, j);
  }

  /** After its end a player only passes transport notices on, until the next session. */
  lemma SilentAfterEnd(s: Player, action: Action)
    requires AtRest(s) && s.cursor.Finished? && InSession(action)
    ensures Act(s, action).player.cursor.Finished? && Atoms(Act(s, action).out) == []
  {
    var out := Act(s, action).out;
    if action == SkipToLive {
      assert out == [];
    }
    if out != [] {
      assert out == [out[0]];
      AtomsOne(out[0]);
    }
  }

  /** Where an ending may be dispatched: nothing better is recorded to end on. */
  predicate BestEnd(rec: Recording, input: Input) {
    match input
    case Wire(Verdict(verdict)) => rec.verdict == Some(verdict)
    case Wire(Error(failure)) => failure.Terminal() ==> rec.verdict.None? && rec.sessionError == Some(failure)
    case Status(status) => status == Closed ==> rec.verdict.None? && rec.sessionError.None? && rec.closed
    case _ => true
  }

  ghost predicate BestEnds(rec: Recording, log: seq<Input>) {
    forall input <- log :: BestEnd(rec, input)
  }

  lemma PendingBest(s: Player)
    requires FailuresOk(s)
    ensures BestEnds(s.rec, PendingInputs(s))
  {
    forall input <- ErrorInputs(s.pendingErrors)
      ensures BestEnd(s.rec, input)
    {
      var k :| 0 <= k < |s.pendingErrors| && input == Wire(Error(s.pendingErrors[k]));
      assert s.pendingErrors[k] in s.pendingErrors;
    }
  }

  lemma PrepareBest(s: Player)
    requires Sane(s) && FailuresOk(s) && s.active.None?
    ensures BestEnds(s.rec, PrepareNextTurn(s).out)
  {
    var o := PrepareNextTurn(s);
    PendingBest(s);
    if !o.delay.After? && o.out != [] {
      var last := if s.rec.verdict.Some? then Wire(Verdict(s.rec.verdict.value)) else TerminalInput(s.rec)[0];
      assert o.out == PendingInputs(s) + [last] && BestEnd(s.rec, last);
    }
  }

  lemma StepBest(s: Player)
    requires Sane(s) && FailuresOk(s)
    ensures BestEnds(s.rec, Step(s).out)
  {
    if s.active.None? {
      PrepareSane(s);
      PrepareBest(s);
    }
  }

  lemma {:induction false} DrainBest(s: Player, log: seq<Input>)
    requires Core(s, log)
    ensures BestEnds(s.rec, Drain(s).out)
    decreases CursorRank(s), RoundsLeft(s), SeatsLeft(s), s.active.None?, TextLeft(s)
  {
    StepSane(s);
    StepCore(s, log);
    StepBest(s);
    if Step(s).delay.After? {
      StepProgress(s);
      DrainBest(Step(s).player, log + Step(s).out);
    }
  }

  lemma PumpBest(s: Player)
    requires Sane(s) && FailuresOk(s)
    ensures BestEnds(Pump(s).player.rec, Pump(s).out)
  {
    StepSane(s);
    StepBest(s);
  }

  lemma SkipBest(s: Player, log: seq<Input>)
    requires Inv(s, log)
    ensures BestEnds(Act(s, SkipToLive).player.rec, Act(s, SkipToLive).out)
  {
    var d := s.(timer := None, draining := true);
    ScheduleCore(s, log, d);
    DrainBest(d, log);
    DrainAtLive(d);
  }

  lemma PumpedBest(t: Player, e: Effect)
    requires Sane(t) && FailuresOk(t) && e == Pump(t)
    ensures BestEnds(e.player.rec, e.out)
  {
    PumpBest(t);
  }

  lemma ActBest(s: Player, log: seq<Input>, action: Action)
    requires Inv(s, log) && InSession(action)
    ensures BestEnds(Act(s, action).player.rec, Act(s, action).out)
  {
    if action == SkipToLive {
      SkipBest(s, log);
    } else if action.Feed? {
      FeedSane(s, action.event);
      PumpedBest(Fed(s, action.event), Act(s, action));
    } else if action == FeedStatus(Closed) {
      PumpedBest(s.(rec := s.rec.(closed := true)), Act(s, action));
    } else if action == TimerFires && s.timer.Some? {
      PumpedBest(s.(timer := None), Act(s, action));
    }
  }

  /** On any feed, settled or not, a session ends on the best it has by then: the recorded verdict;
      only without one, the recorded session error; only without either, the close. */
  lemma EndsOnTheBest(reducedMotion: bool, rate: Rate, actions: seq<Action>, action: Action, input: Input)
    requires WithinSession(actions) && InSession(action) && AtRest(Fresh(reducedMotion, rate))
    requires input in Act(Run(Fresh(reducedMotion, rate), actions).player, action).out
    ensures BestEnd(Recorded(FeedOf(actions + [action])), input)
  {
    var s := Fresh(reducedMotion, rate);
    RunInv(reducedMotion, rate, actions);
    ActBest(Run(s, actions).player, Run(s, actions).out, action);
    RunSnoc(s, actions + [action], actions, action);
    RunRecords(reducedMotion, rate, actions + [action], Run(s, actions + [action]));
  }

  /** A close never beats a verdict: whenever a call of a session forwards one, on any feed, neither
      a verdict nor a session error is recorded by then. */
  lemma CloseNeverBeatsVerdict(reducedMotion: bool, rate: Rate, actions: seq<Action>, action: Action)
    requires WithinSession(actions) && InSession(action) && AtRest(Fresh(reducedMotion, rate))
    requires Status(Closed) in Act(Run(Fresh(reducedMotion, rate), actions).player, action).out
    ensures var rec := Recorded(FeedOf(actions + [action]));
      rec.verdict.None? && rec.sessionError.None? && rec.closed
  {
    EndsOnTheBest(reducedMotion, rate, actions, action, Status(Closed));
  }

  /** No text of an incomplete round is ever shown. */
  lemma OnlyCompleteRoundsShown(before: DebateState, reducedMotion: bool, rate: Rate, actions: seq<Action>, cell: Cell)
    requires WithinSession(actions) && cell.persona != Moderator
    requires Shown(View(before, reducedMotion, rate, actions), cell) != []
    ensures cell.round in Run(Fresh(reducedMotion, rate), actions).player.rec.roundComplete
  {
    ShownIsRevealed(before, reducedMotion, rate, actions, cell);
    var s := Run(Fresh(reducedMotion, rate), actions).player;
    if s.active.None? || cell != ActiveCell(s) {
      PlayedIsComplete(s.turns, s.rec.roundComplete, cell);
    }
  }

  lemma PlayedIsComplete(turns: seq<Turn>, rounds: set<nat>, cell: Cell)
    requires Ordered(turns, rounds) && cell.persona != Moderator && TurnText(turns, cell) != []
    ensures cell.round in rounds
  {
    if forall t <- turns :: t.cell != cell {
      TurnTextAbsent(turns, cell);
    } else {
      var k :| 0 <= k < |turns| && turns[k].cell == cell;
      assert k < PanelCount(turns);
    }
  }
}
