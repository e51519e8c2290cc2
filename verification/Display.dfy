/** What the interface shows at any moment of any session, well-formed or not. */
module Display {
  import opened Protocol
  import opened Sequences
  import opened Reducer
  import opened Playback
  import opened Wakeup
  import opened Replay
  import opened Sessions

  function UnitOf(cell: Cell): Atom -> Text {
    (atom: Atom) => if atom.Unit? && atom.cell == cell then [atom.unit] else []
  }

  /** All the text a log carries for one cell. */
  function CellText(atoms: seq<Atom>, cell: Cell): Text {
    Expand(UnitOf(cell), atoms)
  }

  lemma CellTextConcat(a: seq<Atom>, b: seq<Atom>, cell: Cell)
    ensures CellText(a + b, cell) == CellText(a, cell) + CellText(b, cell)
  {
    ExpandConcat(UnitOf(cell), a, b);
  }

  lemma {:induction false} CellTextUnits(of: Cell, text: Text, cell: Cell)
    ensures CellText(Units(of, text), cell) == if of == cell then text else []
  {
    if text != [] {
      var init, last := text[..|text| - 1], text[|text| - 1];
      CellTextUnits(of, init, cell);
      assert text == init + [last];
      UnitsSnoc(of, init, last);
      ExpandSnoc(UnitOf(cell), Units(of, init), Unit(of, last));
    }
  }

  lemma UnitsSnoc(of: Cell, text: Text, unit: CodeUnit)
    ensures Units(of, text + [unit]) == Units(of, text) + [Unit(of, unit)]
  {
  }

  lemma CellTextClosing(of: Cell, cell: Cell)
    ensures CellText(Closing(of), cell) == []
  {
    if of.persona != Moderator {
      var tail := if of.persona == PANELISTS[SEATS - 1] then [RoundDone(of.round)] else [];
      CellTextConcat([TurnDone(of)], tail, cell);
      ExpandOne(UnitOf(cell), TurnDone(of));
      if tail != [] {
        ExpandOne(UnitOf(cell), RoundDone(of.round));
      }
    }
  }

  lemma CellTextTurn(turn: Turn, cell: Cell)
    ensures CellText(TurnAtoms(turn), cell) == if turn.cell == cell then turn.text else []
  {
    CellTextConcat(Units(turn.cell, turn.text), Closing(turn.cell), cell);
    CellTextUnits(turn.cell, turn.text, cell);
    CellTextClosing(turn.cell, cell);
  }

  /** The snapshot of the turn that plays a cell; empty if none does. */
  function TurnText(turns: seq<Turn>, cell: Cell): Text {
    if turns == [] then []
    else if turns[|turns| - 1].cell == cell then turns[|turns| - 1].text
    else TurnText(turns[..|turns| - 1], cell)
  }

  ghost predicate DistinctCells(turns: seq<Turn>) {
    forall i, j | 0 <= i < j < |turns| :: turns[i].cell != turns[j].cell
  }

  lemma {:induction false} TurnTextAbsent(turns: seq<Turn>, cell: Cell)
    requires forall t <- turns :: t.cell != cell
    ensures TurnText(turns, cell) == []
  {
    if turns != [] {
      assert turns[|turns| - 1] in turns;
      TurnTextAbsent(turns[..|turns| - 1], cell);
    }
  }

  lemma {:induction false} TurnTextAt(turns: seq<Turn>, k: nat)
    requires DistinctCells(turns) && k < |turns|
    ensures TurnText(turns, turns[k].cell) == turns[k].text
  {
    if k < |turns| - 1 {
      TurnTextAt(turns[..|turns| - 1], k);
    }
  }

  lemma {:induction false} CellTextPlayed(turns: seq<Turn>, cell: Cell)
    requires DistinctCells(turns)
    ensures CellText(Played(turns), cell) == TurnText(turns, cell)
  {
    if turns != [] {
      var init, last := turns[..|turns| - 1], turns[|turns| - 1];
      CellTextPlayed(init, cell);
      CellTextTurn(last, cell);
      CellTextConcat(Played(init), TurnAtoms(last), cell);
      if last.cell == cell {
        TurnTextAbsent(init, cell);
      }
    }
  }

  lemma OrderedDistinct(turns: seq<Turn>, rounds: set<nat>)
    requires Ordered(turns, rounds)
    ensures DistinctCells(turns)
  {
    forall i, j | 0 <= i < j < |turns|
      ensures turns[i].cell != turns[j].cell
    {
      assert turns[i].cell == SeatCell(i);
      if j < PanelCount(turns) {
        assert turns[j].cell == SeatCell(j);
        assert i == SEATS * (i / SEATS) + i % SEATS;
        assert j == SEATS * (j / SEATS) + j % SEATS;
      }
    }
  }

  // ----- The reducer's cells are the log's

  /** What a player itself dispatches: not the "connecting" that opens a session nor a user's stop,
      and no token without text. */
  predicate PlayerInput(input: Input) {
    && input != Status(Connecting) && input != Cancel
    && (input.Wire? && input.event.Token? ==> input.event.delta != [])
  }

  ghost predicate PlayerInputs(log: seq<Input>) {
    forall i <- log :: PlayerInput(i)
  }

  lemma ReduceShows(v: DebateState, input: Input, cell: Cell)
    requires input != Status(Connecting) && |Shown(v, cell)| <= MAX_CELL_CHARS
    ensures Shown(Reduce(v, input), cell) == Capped(Shown(v, cell) + CellText(AtomsOf(input), cell))
  {
    if input.Wire? && input.event.Token? {
      CellTextUnits(Cell(input.event.persona, input.event.round), input.event.delta, cell);
    } else {
      SilentAtoms(input, cell);
      ReduceKeeps(v, input, cell);
    }
    assert Shown(v, cell) + [] == Shown(v, cell);
  }

  lemma SilentAtoms(input: Input, cell: Cell)
    requires !(input.Wire? && input.event.Token?)
    ensures CellText(AtomsOf(input), cell) == []
  {
    if |AtomsOf(input)| == 1 {
      assert AtomsOf(input) == [AtomsOf(input)[0]];
      ExpandOne(UnitOf(cell), AtomsOf(input)[0]);
    }
  }

  lemma ReduceKeeps(v: DebateState, input: Input, cell: Cell)
    requires !(input.Wire? && input.event.Token?) && input != Status(Connecting)
    ensures Shown(Reduce(v, input), cell) == Shown(v, cell)
  {
  }

  lemma {:induction false} FoldShows(v: DebateState, log: seq<Input>, cell: Cell)
    requires PlayerInputs(log) && |Shown(v, cell)| <= MAX_CELL_CHARS
    ensures Shown(Fold(v, log), cell) == Capped(Shown(v, cell) + CellText(Atoms(log), cell))
  {
    if log == [] {
      assert Shown(v, cell) + [] == Shown(v, cell);
    } else {
      var init, last := log[..|log| - 1], log[|log| - 1];
      assert last in log && forall i <- init :: i in log;
      FoldShows(v, init, cell);
      ReduceShows(Fold(v, init), last, cell);
      var x, a, b := Shown(v, cell), CellText(Atoms(init), cell), CellText(AtomsOf(last), cell);
      CapAbsorbs(x + a, b);
      Assoc(x, a, b);
      CellTextConcat(Atoms(init), AtomsOf(last), cell);
    }
  }

  // ----- The simulation, cell by cell

  /** What a cell should show: nothing before its turn, `text[..pos]` during it, the snapshot after. */
  function Revealed(s: Player, cell: Cell): Text
    requires Sane(s)
  {
    if s.active.Some? && cell == ActiveCell(s) then s.active.value.text[..s.active.value.pos]
    else TurnText(s.turns, cell)
  }

  lemma EndingText(ending: Atom, cell: Cell)
    requires ending.Ends()
    ensures CellText([ending], cell) == []
  {
    ExpandOne(UnitOf(cell), ending);
  }

  lemma OwedText(s: Player, log: seq<Input>, cell: Cell)
    requires Core(s, log) && !s.cursor.Finished?
    ensures CellText(Owed(s), cell) ==
            if s.active.Some? && cell == ActiveCell(s) then s.active.value.text[s.active.value.pos..] else []
  {
    if s.active.Some? {
      var a := s.active.value;
      CellTextConcat(Units(ActiveCell(s), a.text[a.pos..]), Closing(ActiveCell(s)), cell);
      CellTextUnits(ActiveCell(s), a.text[a.pos..], cell);
      CellTextClosing(ActiveCell(s), cell);
    } else if s.turns != [] {
      CellTextClosing(s.turns[|s.turns| - 1].cell, cell);
    }
  }

  lemma LogText(s: Player, log: seq<Input>, cell: Cell)
    requires Core(s, log)
    ensures CellText(Atoms(log), cell) == Revealed(s, cell)
  {
    OrderedDistinct(s.turns, s.rec.roundComplete);
    CellTextPlayed(s.turns, cell);
    if s.cursor.Finished? {
      var ending: Atom :| ending.Ends() && Atoms(log) == Played(s.turns) + [ending];
      CellTextConcat(Played(s.turns), [ending], cell);
      EndingText(ending, cell);
    } else {
      CellTextConcat(Atoms(log), Owed(s), cell);
      OwedText(s, log, cell);
      if s.active.Some? && cell == ActiveCell(s) {
        var a := s.active.value;
        TurnTextAt(s.turns, |s.turns| - 1);
        assert a.text == a.text[..a.pos] + a.text[a.pos..];
      }
    }
  }

  lemma {:induction false} TurnTextRecorded(turns: seq<Turn>, rec: Recording, cell: Cell)
    requires Snapshots(turns, rec)
    ensures TurnText(turns, cell) <= TextOf(rec, cell)
  {
    if turns != [] && turns[|turns| - 1].cell != cell {
      TurnTextRecorded(turns[..|turns| - 1], rec, cell);
    } else if turns != [] {
      assert turns[|turns| - 1] in turns;
    }
  }

  lemma RevealedRecorded(s: Player, log: seq<Input>, cell: Cell)
    requires Core(s, log)
    ensures Revealed(s, cell) <= TextOf(s.rec, cell)
  {
    TurnTextRecorded(s.turns, s.rec, cell);
    if s.active.Some? {
      assert s.turns[|s.turns| - 1] in s.turns;
    }
  }

  lemma ActPlayerInputs(s: Player, action: Action)
    requires AtRest(s) && InSession(action)
    ensures PlayerInputs(Act(s, action).out)
  {
    if action == SkipToLive {
      DrainPlayerInputs(s.(timer := None, draining := true));
    } else if action.Feed? {
      StepPlayerInputs(Fed(s, action.event));
    } else if action == FeedStatus(Closed) {
      StepPlayerInputs(s.(rec := s.rec.(closed := true)));
    } else if action == TimerFires && s.timer.Some? {
      StepPlayerInputs(s.(timer := None));
    }
  }

  lemma PendingPlayerInputs(s: Player)
    ensures PlayerInputs(PendingInputs(s))
  {
  }

  lemma PrepareOut(s: Player, o: Outcome)
    requires Sane(s) && s.active.None? && o == PrepareNextTurn(s)
    ensures o.out == [] || (PendingInputs(s) <= o.out && PlayerInputs(o.out[|PendingInputs(s)|..]))
  {
  }

  lemma PreparePlayerInputs(s: Player)
    requires Sane(s) && s.active.None?
    ensures PlayerInputs(PrepareNextTurn(s).out)
  {
    PendingPlayerInputs(s);
    var pending, out := PendingInputs(s), PrepareNextTurn(s).out;
    PrepareOut(s, PrepareNextTurn(s));
    assert out == [] || out == pending + out[|pending|..];
  }

  lemma StepPlayerInputs(s: Player)
    requires Sane(s)
    ensures PlayerInputs(Step(s).out)
  {
    if s.active.None? {
      PreparePlayerInputs(s);
      PrepareSane(s);
      if PrepareNextTurn(s).delay.After? {
        RevealPlayerInputs(PrepareNextTurn(s).player);
      }
    } else {
      RevealPlayerInputs(s);
    }
  }

  lemma RevealPlayerInputs(s: Player)
    requires Sane(s) && s.active.Some?
    ensures PlayerInputs(RevealStep(s).out)
  {
  }

  lemma {:induction false} DrainPlayerInputs(s: Player)
    requires Sane(s)
    ensures PlayerInputs(Drain(s).out)
    decreases CursorRank(s), RoundsLeft(s), SeatsLeft(s), s.active.None?, TextLeft(s)
  {
    StepSane(s);
    StepPlayerInputs(s);
    if Step(s).delay.After? {
      StepProgress(s);
      DrainPlayerInputs(Step(s).player);
    }
  }

  lemma {:induction false} RunPlayerInputs(s: Player, actions: seq<Action>)
    requires AtRest(s) && WithinSession(actions)
    ensures PlayerInputs(Run(s, actions).out)
    decreases |actions|
  {
    if actions != [] {
      var init := actions[..|actions| - 1];
      RunPlayerInputs(s, init);
      ActPlayerInputs(Run(s, init).player, actions[|actions| - 1]);
    }
  }

  /** The reducer state of a session: whatever came before, "connecting", then the player's log. */
  function View(before: DebateState, reducedMotion: bool, rate: Rate, actions: seq<Action>): DebateState {
    FreshAtRest(reducedMotion, rate);
    Fold(Reduce(before, Status(Connecting)), Run(Fresh(reducedMotion, rate), actions).out)
  }

  lemma RecordedWithinCap(s: Player, log: seq<Input>, cell: Cell)
    requires Core(s, log)
    ensures |TextOf(s.rec, cell)| <= MAX_CELL_CHARS
  {
  }

  lemma CoreShows(s: Player, log: seq<Input>, v0: DebateState, cell: Cell)
    requires Core(s, log) && PlayerInputs(log) && Shown(v0, cell) == []
    ensures Shown(Fold(v0, log), cell) == Revealed(s, cell) == CellText(Atoms(log), cell)
    ensures Revealed(s, cell) <= TextOf(s.rec, cell)
  {
    FoldShows(v0, log, cell);
    LogText(s, log, cell);
    RevealedRecorded(s, log, cell);
    RecordedWithinCap(s, log, cell);
    assert [] + CellText(Atoms(log), cell) == CellText(Atoms(log), cell);
  }

  /** In every reachable state of every session, on any feed: turns before the cursor show exactly
      their snapshot, the active turn shows exactly what was revealed of it, later turns nothing;
      each is a prefix of the recorded text; and the reducer's own cap never cuts anything. */
  lemma ShownIsRevealed(before: DebateState, reducedMotion: bool, rate: Rate, actions: seq<Action>, cell: Cell)
    requires WithinSession(actions)
    ensures var e := Run(Fresh(reducedMotion, rate), actions);
      && Core(e.player, e.out)
      && Shown(View(before, reducedMotion, rate, actions), cell) == Revealed(e.player, cell) == CellText(Atoms(e.out), cell)
      && Revealed(e.player, cell) <= TextOf(e.player.rec, cell)
  {
    RunInv(reducedMotion, rate, actions);
    var e := Run(Fresh(reducedMotion, rate), actions);
    RunPlayerInputs(Fresh(reducedMotion, rate), actions);
    SessionShown(before, e, View(before, reducedMotion, rate, actions), cell);
  }

  lemma SessionShown(before: DebateState, e: Effect, v: DebateState, cell: Cell)
    requires Core(e.player, e.out) && PlayerInputs(e.out) && v == Fold(Reduce(before, Status(Connecting)), e.out)
    ensures Shown(v, cell) == Revealed(e.player, cell) == CellText(Atoms(e.out), cell)
    ensures Revealed(e.player, cell) <= TextOf(e.player.rec, cell)
  {
    CoreShows(e.player, e.out, Reduce(before, Status(Connecting)), cell);
  }

  /** The player never dispatches an empty token, whatever it is fed. */
  lemma NoEmptyTokens(reducedMotion: bool, rate: Rate, actions: seq<Action>, k: nat)
    requires WithinSession(actions) && k < |Run(Fresh(reducedMotion, rate), actions).out|
    requires var input := Run(Fresh(reducedMotion, rate), actions).out[k]; input.Wire? && input.event.Token?
    ensures Run(Fresh(reducedMotion, rate), actions).out[k].event.delta != []
  {
    FreshAtRest(reducedMotion, rate);
    RunPlayerInputs(Fresh(reducedMotion, rate), actions);
    var out := Run(Fresh(reducedMotion, rate), actions).out;
    assert PlayerInput(out[k]);
  }

  /** A cell the reducer holds is a cell that shows text. */
  ghost predicate NoEmptyCells(v: DebateState) {
    forall c <- v.transcript :: v.transcript[c] != []
  }

  lemma ReduceFillsCells(v: DebateState, input: Input)
    requires NoEmptyCells(v) && PlayerInput(input)
    ensures NoEmptyCells(Reduce(v, input))
  {
  }

  lemma {:induction false} FoldFillsCells(v: DebateState, log: seq<Input>)
    requires NoEmptyCells(v) && PlayerInputs(log)
    ensures NoEmptyCells(Fold(v, log))
  {
    if log != [] {
      var init, last := log[..|log| - 1], log[|log| - 1];
      assert last in log && forall i <- init :: i in log;
      FoldFillsCells(v, init);
      ReduceFillsCells(Fold(v, init), last);
    }
  }

  /** So in a session a cell is present in the reducer's transcript exactly if it shows text; the
      views that only look whether a cell is there are not misled. */
  lemma PresentIffShown(before: DebateState, reducedMotion: bool, rate: Rate, actions: seq<Action>, cell: Cell)
    requires WithinSession(actions)
    ensures cell in View(before, reducedMotion, rate, actions).transcript
       <==> Shown(View(before, reducedMotion, rate, actions), cell) != []
  {
    FreshAtRest(reducedMotion, rate);
    RunPlayerInputs(Fresh(reducedMotion, rate), actions);
    FoldFillsCells(Reduce(before, Status(Connecting)), Run(Fresh(reducedMotion, rate), actions).out);
  }
}
