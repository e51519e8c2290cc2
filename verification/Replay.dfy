/** What a session must show, defined from the recording alone, and the proof that every run of
    the player, whatever its timing, plays exactly that. */
module Replay {
  import opened Protocol
  import opened Playback
  import opened Sequences

  /** A dispatch log with the cadence taken out: tokens cut into single code units, per-persona
      failures and pass-through inputs erased. */
  datatype Atom =
    | Unit(cell: Cell, unit: CodeUnit)
    | TurnDone(cell: Cell)
    | RoundDone(round: nat)
    | Decided(verdict: Text)
    | Aborted(failure: Failure)
    | CutOff
  {
    predicate Ends() {
      Decided? || Aborted? || CutOff?
    }
  }

  function Units(cell: Cell, text: Text): (units: seq<Atom>)
    ensures |units| == |text|
    ensures forall i :: 0 <= i < |text| ==> units[i] == Unit(cell, text[i])
  {
    if text == [] then [] else Units(cell, text[..|text| - 1]) + [Unit(cell, text[|text| - 1])]
  }

  function AtomsOf(input: Input): seq<Atom> {
    match input
    case Wire(Token(persona, round, delta)) => Units(Cell(persona, round), delta)
    case Wire(PersonaDone(persona, round)) => [TurnDone(Cell(persona, round))]
    case Wire(RoundComplete(round)) => [RoundDone(round)]
    case Wire(Verdict(verdict)) => [Decided(verdict)]
    case Wire(Error(failure)) => if failure.Terminal() then [Aborted(failure)] else []
    case Status(status) => if status == Closed then [CutOff] else []
    case Transport(_) => []
    case Cancel => []
  }

  function Atoms(log: seq<Input>): seq<Atom> {
    Expand(AtomsOf, log)
  }

  lemma AtomsConcat(a: seq<Input>, b: seq<Input>)
    ensures Atoms(a + b) == Atoms(a) + Atoms(b)
  {
    ExpandConcat(AtomsOf, a, b);
  }

  lemma SnocAtoms(log: seq<Input>, input: Input)
    ensures Atoms(log + [input]) == Atoms(log) + AtomsOf(input)
  {
    ExpandSnoc(AtomsOf, log, input);
  }

  lemma AtomsOne(input: Input)
    ensures Atoms([input]) == AtomsOf(input)
  {
    ExpandOne(AtomsOf, input);
  }

  // ----- The reference: turns in seating order, one round after another

  /** The panelist turn that comes `k`-th. */
  function SeatCell(k: nat): Cell {
    Cell(PANELISTS[k % SEATS], k / SEATS + 1)
  }

  /** What follows a turn's text: its done, and its round's if it was the last seat. The moderator
      has neither. */
  function Closing(cell: Cell): seq<Atom> {
    if cell.persona == Moderator then []
    else [TurnDone(cell)] + if cell.persona == PANELISTS[SEATS - 1] then [RoundDone(cell.round)] else []
  }

  function TurnAtoms(turn: Turn): seq<Atom> {
    Units(turn.cell, turn.text) + Closing(turn.cell)
  }

  function Played(turns: seq<Turn>): seq<Atom> {
    Expand(TurnAtoms, turns)
  }

  lemma PlayedSnoc(turns: seq<Turn>, turn: Turn)
    ensures Played(turns + [turn]) == Played(turns) + TurnAtoms(turn)
  {
    ExpandSnoc(TurnAtoms, turns, turn);
  }

  function RoundsFrom(rounds: set<nat>, from: nat): set<nat> {
    set r | r in rounds && from <= r
  }

  /** How many of rounds `from`, `from` + 1, ... are complete before the first that is not. */
  function LeadingRun(rounds: set<nat>, from: nat): nat
    decreases RoundsFrom(rounds, from)
  {
    if from in rounds then
      assert from in RoundsFrom(rounds, from) && from !in RoundsFrom(rounds, from + 1);
      1 + LeadingRun(rounds, from + 1)
    else 0
  }

  lemma {:induction false} LeadingRunIs(rounds: set<nat>, from: nat, n: nat)
    requires forall r :: from <= r < from + n ==> r in rounds
    requires from + n !in rounds
    ensures LeadingRun(rounds, from) == n
    decreases n
  {
    if n > 0 {
      LeadingRunIs(rounds, from + 1, n - 1);
    }
  }

  function PanelTurns(rec: Recording, n: nat): seq<Turn> {
    seq(n, k requires 0 <= k < n => Turn(SeatCell(k), TextOf(rec, SeatCell(k))))
  }

  /** The turns a recording calls for: every seat of the leading complete rounds, then the
      moderator if there is a verdict and any synthesis to read out. */
  function Turns(rec: Recording): seq<Turn> {
    PanelTurns(rec, SEATS * LeadingRun(rec.roundComplete, 1))
    + var synthesis := TextOf(rec, SynthesisCell(rec));
      if rec.verdict.Some? && synthesis != [] then [Turn(SynthesisCell(rec), synthesis)] else []
  }

  /** How the session ends, if it does: a verdict beats an error beats a bare close. */
  function Ending(rec: Recording): seq<Atom> {
    if rec.verdict.Some? then [Decided(rec.verdict.value)]
    else if rec.sessionError.Some? then [Aborted(rec.sessionError.value)]
    else if rec.closed then [CutOff]
    else []
  }

  /** The whole session a recording calls for. */
  function ReplayOf(rec: Recording): seq<Atom> {
    Played(Turns(rec)) + Ending(rec)
  }

  // ----- What is still owed by a player state

  function PendingAtoms(s: Player): seq<Atom> {
    (if s.pendingDone.Some? then [TurnDone(s.pendingDone.value)] else [])
    + (if s.pendingRoundComplete.Some? then [RoundDone(s.pendingRoundComplete.value)] else [])
  }

  function ActiveCell(s: Player): Cell
    requires s.active.Some?
  {
    Cell(s.active.value.persona, s.active.value.round)
  }

  /** The rest of the turns already opened: deferred signals, or the unrevealed text and closing. */
  function Owed(s: Player): seq<Atom>
    requires Sane(s)
  {
    if s.active.Some? then
      var a := s.active.value;
      Units(ActiveCell(s), a.text[a.pos..]) + Closing(ActiveCell(s))
    else PendingAtoms(s)
  }

  /** Panelist turns opened before the cursor's own. */
  function SeatsBefore(c: Cursor): nat
    requires c.AtPanelist? ==> c.round >= 1
  {
    if c.AtPanelist? then SEATS * (c.round - 1) + c.index else 0
  }

  /** How many of the opened turns are panelists'. */
  function PanelCount(turns: seq<Turn>): nat {
    if turns != [] && turns[|turns| - 1].cell.persona == Moderator then |turns| - 1 else |turns|
  }

  /** Held and deferred failures are per-persona ones. */
  ghost predicate FailuresOk(s: Player) {
    && (forall p <- s.personaErrors :: p != Moderator && s.personaErrors[p].persona == Some(p))
    && (forall f <- s.pendingErrors :: !f.Terminal())
    && (s.rec.sessionError.Some? ==> s.rec.sessionError.value.Terminal())
  }

  /** Opened panelist turns are the schedule's, in order and none twice, of complete rounds only. */
  ghost predicate Ordered(turns: seq<Turn>, rounds: set<nat>) {
    forall k | 0 <= k < PanelCount(turns) :: turns[k].cell == SeatCell(k) && SeatCell(k).round in rounds
  }

  /** Snapshots are prefixes of what is recorded for their cells now, and recorded text is capped. */
  ghost predicate Snapshots(turns: seq<Turn>, rec: Recording) {
    && (forall t <- turns :: t.text <= TextOf(rec, t.cell))
    && (forall c <- rec.text :: |rec.text[c]| <= MAX_CELL_CHARS)
  }

  lemma OrderedSnoc(turns: seq<Turn>, rounds: set<nat>, turn: Turn)
    requires Ordered(turns, rounds) && PanelCount(turns) == |turns|
    requires turn.cell.persona == Moderator || (turn.cell == SeatCell(|turns|) && turn.cell.round in rounds)
    ensures Ordered(turns + [turn], rounds)
    ensures PanelCount(turns + [turn]) == |turns| + if turn.cell.persona == Moderator then 0 else 1
  {
  }

  ghost predicate TurnsOk(s: Player) {
    && Ordered(s.turns, s.rec.roundComplete)
    && Snapshots(s.turns, s.rec)
    && (s.cursor.AtPanelist? && s.cursor.round >= 1 ==>
          && |s.turns| == SeatsBefore(s.cursor) + (if s.active.Some? then 1 else 0)
          && PanelCount(s.turns) == |s.turns|)
    && (s.active.Some? ==>
          && s.turns != []
          && s.turns[|s.turns| - 1] ==
             Turn(ActiveCell(s), s.active.value.text))
    && (s.active.None? && s.cursor.AtPanelist? ==>
          PendingAtoms(s) == if s.turns == [] then [] else Closing(s.turns[|s.turns| - 1].cell))
  }

  /** The opening status apart, what has been dispatched and what is owed make up the opened turns;
      once finished, one ending follows them and nothing comes after. */
  ghost predicate Plays(s: Player, log: seq<Input>)
    requires Sane(s)
  {
    if s.cursor.Finished? then
      exists ending: Atom :: ending.Ends() && Atoms(log) == Played(s.turns) + [ending]
    else
      Atoms(log) + Owed(s) == Played(s.turns)
  }

  ghost predicate Core(s: Player, log: seq<Input>) {
    && Sane(s) && FailuresOk(s) && TurnsOk(s) && Plays(s, log)
    && (s.cursor.Finished? ==> s.active.None? && s.pendingErrors == [])
  }

  // ----- Every step keeps it

  lemma UnitsSplit(cell: Cell, text: Text, i: nat, j: nat)
    requires i <= j <= |text|
    ensures Units(cell, text[i..j]) + Units(cell, text[j..]) == Units(cell, text[i..])
  {
  }

  lemma {:induction false} ErrorAtoms(failures: seq<Failure>)
    requires forall f <- failures :: !f.Terminal()
    ensures Atoms(ErrorInputs(failures)) == []
  {
    if failures != [] {
      var n := |failures| - 1;
      ErrorAtoms(failures[..n]);
      assert ErrorInputs(failures) == ErrorInputs(failures[..n]) + [Wire(Error(failures[n]))];
      SnocAtoms(ErrorInputs(failures[..n]), Wire(Error(failures[n])));
    }
  }

  lemma FlushAtoms(s: Player)
    requires FailuresOk(s)
    ensures Atoms(PendingInputs(s)) == PendingAtoms(s)
  {
    var done := if s.pendingDone.Some? then
        [Wire(PersonaDone(s.pendingDone.value.persona, s.pendingDone.value.round))] else [];
    var round := if s.pendingRoundComplete.Some? then
        [Wire(RoundComplete(s.pendingRoundComplete.value))] else [];
    AtomsConcat(done + round, ErrorInputs(s.pendingErrors));
    AtomsConcat(done, round);
    ErrorAtoms(s.pendingErrors);
    if done != [] { AtomsOne(done[0]); }
    if round != [] { AtomsOne(round[0]); }
  }

  lemma SeatCellAt(round: nat, index: nat)
    requires round >= 1 && index < SEATS
    ensures SeatCell(SEATS * (round - 1) + index) == Cell(PANELISTS[index], round)
  {
  }

  lemma OpenPlays(s: Player, log: seq<Input>, o: Outcome)
    requires Core(s, log) && s.active.None? && s.cursor.AtPanelist? && o == PrepareNextTurn(s) && o.delay.After?
    ensures Sane(o.player) && Plays(o.player, log + o.out)
  {
    PrepareSane(s);
    var a := o.player.active.value;
    var turn := Turn(ActiveCell(o.player), a.text);
    assert a.pos == 0 && a.text[0..] == a.text;
    assert o.player.turns == s.turns + [turn];
    FlushAtoms(s);
    AtomsConcat(log, o.out);
    PlayedSnoc(s.turns, turn);
    assert Owed(o.player) == TurnAtoms(turn);
    assert Atoms(log + o.out) == Played(s.turns);
  }

  lemma OpenShape(s: Player, o: Outcome) returns (turn: Turn)
    requires Sane(s) && s.active.None? && s.cursor.AtPanelist? && o == PrepareNextTurn(s) && o.delay.After?
    ensures Sane(o.player) && o.player.active.Some? && turn == Turn(ActiveCell(o.player), o.player.active.value.text)
    ensures o.player == s.(turns := s.turns + [turn], active := o.player.active, cursor := o.player.cursor,
                           pendingDone := None, pendingRoundComplete := None, pendingErrors := [])
    ensures turn.text == TextOf(s.rec, turn.cell) && o.out == PendingInputs(s)
    ensures if turn.cell.persona == Moderator then o.player.cursor.AtModerator?
            else o.player.cursor == s.cursor && turn.cell == Cell(PANELISTS[s.cursor.index], s.cursor.round)
                 && s.cursor.round in s.rec.roundComplete
  {
    PrepareSane(s);
    turn := Turn(ActiveCell(o.player), o.player.active.value.text);
  }

  lemma OpenTurns(s: Player, o: Outcome)
    requires Sane(s) && TurnsOk(s) && FailuresOk(s)
    requires s.active.None? && s.cursor.AtPanelist? && o == PrepareNextTurn(s) && o.delay.After?
    ensures Sane(o.player) && TurnsOk(o.player) && FailuresOk(o.player)
  {
    var turn := OpenShape(s, o);
    SeatCellAt(s.cursor.round, s.cursor.index);
    OpenedTurnsOk(s, turn, o.player);
  }

  lemma OpenedTurnsOk(s: Player, turn: Turn, t: Player)
    requires Sane(s) && TurnsOk(s) && FailuresOk(s) && s.active.None? && s.cursor.AtPanelist? && t.active.Some?
    requires t == s.(turns := s.turns + [turn], active := t.active, cursor := t.cursor,
                     pendingDone := None, pendingRoundComplete := None, pendingErrors := [])
    requires turn == Turn(ActiveCell(t), t.active.value.text) && turn.text == TextOf(s.rec, turn.cell)
    requires if turn.cell.persona == Moderator then t.cursor.AtModerator?
             else t.cursor == s.cursor && turn.cell == SeatCell(SeatsBefore(s.cursor)) && turn.cell.round in s.rec.roundComplete
    ensures TurnsOk(t) && FailuresOk(t)
  {
    OrderedSnoc(s.turns, s.rec.roundComplete, turn);
  }

  lemma FinishShape(s: Player, o: Outcome) returns (last: Input)
    requires Sane(s) && FailuresOk(s)
    requires s.active.None? && o == PrepareNextTurn(s) && o.delay == Stop && !s.cursor.Finished?
    ensures o.out == PendingInputs(s) + [last] && AtomsOf(last) == Ending(s.rec) && Ending(s.rec) != []
    ensures o.player == Flushed(s).(cursor := Finished)
  {
    last := if s.rec.verdict.Some? then Wire(Verdict(s.rec.verdict.value)) else TerminalInput(s.rec)[0];
  }

  lemma FinishAtoms(s: Player, log: seq<Input>, o: Outcome)
    requires Core(s, log) && s.active.None? && o == PrepareNextTurn(s) && o.delay == Stop && !s.cursor.Finished?
    ensures Atoms(log + o.out) == Played(s.turns) + Ending(s.rec) && Ending(s.rec) != []
    ensures o.player == Flushed(s).(cursor := Finished)
  {
    var last := FinishShape(s, o);
    FlushAtoms(s);
    AtomsConcat(log, o.out);
    SnocAtoms(PendingInputs(s), last);
    Assoc(Atoms(log), PendingAtoms(s), AtomsOf(last));
  }

  lemma FinishCore(s: Player, log: seq<Input>, ending: seq<Atom>)
    requires Sane(s) && FailuresOk(s) && TurnsOk(s) && s.active.None? && s.cursor.Finished? && s.pendingErrors == []
    requires |ending| == 1 && ending[0].Ends() && Atoms(log) == Played(s.turns) + ending
    ensures Core(s, log)
  {
    assert ending == [ending[0]];
  }

  lemma ReadyOrNot(s: Player, o: Outcome)
    requires Sane(s) && s.active.None? && o == PrepareNextTurn(s)
    requires !o.delay.After? && !(o.delay == Stop && !s.cursor.Finished?)
    ensures o.out == [] && o.player == s
  {
  }

  lemma OpenCore(s: Player, log: seq<Input>, o: Outcome)
    requires Core(s, log) && s.active.None? && s.cursor.AtPanelist? && o == PrepareNextTurn(s) && o.delay.After?
    ensures Core(o.player, log + o.out)
  {
    OpenPlays(s, log, o);
    OpenTurns(s, o);
    PrepareSane(s);
  }

  lemma EndCore(s: Player, log: seq<Input>, o: Outcome)
    requires Core(s, log) && s.active.None? && o == PrepareNextTurn(s) && o.delay == Stop && !s.cursor.Finished?
    ensures Core(o.player, log + o.out)
  {
    FinishAtoms(s, log, o);
    FinishCore(o.player, log + o.out, Ending(s.rec));
  }

  /** Opening a turn, finishing, or waiting. */
  lemma PrepareCore(s: Player, log: seq<Input>)
    requires Core(s, log) && s.active.None?
    ensures Core(PrepareNextTurn(s).player, log + PrepareNextTurn(s).out)
  {
    var o := PrepareNextTurn(s);
    if o.delay.After? {
      OpenCore(s, log, o);
    } else if o.delay == Stop && !s.cursor.Finished? {
      EndCore(s, log, o);
    } else {
      ReadyOrNot(s, o);
      assert log + [] == log;
    }
  }

  lemma TokenCore(s: Player, log: seq<Input>)
    requires Core(s, log) && s.active.Some? && s.active.value.pos < |s.active.value.text|
    ensures Core(RevealStep(s).player, log + RevealStep(s).out)
  {
    RevealSane(s);
    var a, o := s.active.value, RevealStep(s);
    var end := RevealEnd(s, a);
    var token := Wire(Token(a.persona, a.round, a.text[a.pos..end]));
    SnocAtoms(log, token);
    UnitsSplit(ActiveCell(s), a.text, a.pos, end);
    var u, v := Units(ActiveCell(s), a.text[a.pos..end]), Units(ActiveCell(s), a.text[end..]);
    assert AtomsOf(token) == u;
    assert Owed(o.player) == v + Closing(ActiveCell(s));
    Assoc(u, v, Closing(ActiveCell(s)));
    Assoc(Atoms(log), u, v + Closing(ActiveCell(s)));
  }

  lemma VerdictCore(s: Player, log: seq<Input>)
    requires Core(s, log) && s.active.Some? && s.active.value.pos == |s.active.value.text|
    requires s.active.value.isModerator
    ensures Core(RevealStep(s).player, log + RevealStep(s).out)
    ensures Atoms(log + RevealStep(s).out) == Played(s.turns) + Ending(s.rec)
  {
    RevealSane(s);
    var o := RevealStep(s);
    assert Owed(s) == [];
    SnocAtoms(log, o.out[0]);
    assert Atoms(log) + [] == Atoms(log);
    FinishCore(o.player, log + o.out, AtomsOf(o.out[0]));
  }

  lemma CloseCore(s: Player, log: seq<Input>)
    requires Core(s, log) && s.active.Some? && s.active.value.pos == |s.active.value.text|
    requires !s.active.value.isModerator
    ensures Core(RevealStep(s).player, log + RevealStep(s).out)
  {
    ClosePlays(s, log, RevealStep(s).player);
    assert log + [] == log;
    ClosedTurnsOk(s, RevealStep(s).player);
  }

  lemma ClosePlays(s: Player, log: seq<Input>, t: Player)
    requires Sane(s) && Plays(s, log) && s.active.Some? && s.active.value.pos == |s.active.value.text|
    requires !s.active.value.isModerator && t == RevealStep(s).player
    ensures Sane(t) && !t.cursor.Finished? && RevealStep(s).out == []
    ensures Plays(t, log) && PendingAtoms(t) == Closing(ActiveCell(s))
  {
    RevealSane(s);
    CloseOwes(s, t);
    assert Owed(s) == Closing(ActiveCell(s));
  }

  lemma CloseOwes(s: Player, t: Player)
    requires Sane(s) && s.active.Some? && s.active.value.pos == |s.active.value.text|
    requires !s.active.value.isModerator && t == RevealStep(s).player
    ensures PendingAtoms(t) == Closing(ActiveCell(s)) && t.active.None?
  {
  }

  lemma ClosedTurnsOk(s: Player, t: Player)
    requires Sane(s) && TurnsOk(s) && FailuresOk(s) && s.active.Some? && !s.active.value.isModerator
    requires s.active.value.pos == |s.active.value.text|
    requires t == RevealStep(s).player && PendingAtoms(t) == Closing(ActiveCell(s))
    ensures TurnsOk(t) && FailuresOk(t)
  {
    assert t.turns == s.turns;
    assert SeatsBefore(t.cursor) == SeatsBefore(s.cursor) + 1;
  }

  lemma StepCore(s: Player, log: seq<Input>)
    requires Core(s, log)
    ensures Core(Step(s).player, log + Step(s).out)
  {
    if s.active.None? {
      PrepareCore(s, log);
      PrepareSane(s);
      var p := PrepareNextTurn(s);
      if p.delay.After? {
        RevealCore(p.player, log + p.out);
        Assoc(log, p.out, RevealStep(p.player).out);
      }
    } else {
      RevealCore(s, log);
    }
  }

  lemma RevealCore(s: Player, log: seq<Input>)
    requires Core(s, log) && s.active.Some?
    ensures Core(RevealStep(s).player, log + RevealStep(s).out)
  {
    if s.active.value.pos < |s.active.value.text| {
      TokenCore(s, log);
    } else if s.active.value.isModerator {
      VerdictCore(s, log);
    } else {
      CloseCore(s, log);
    }
  }

  lemma {:induction false} DrainCore(s: Player, log: seq<Input>)
    requires Core(s, log)
    ensures Core(Drain(s).player, log + Drain(s).out)
    decreases CursorRank(s), RoundsLeft(s), SeatsLeft(s), s.active.None?, TextLeft(s)
  {
    StepSane(s);
    StepCore(s, log);
    var o := Step(s);
    if o.delay.After? {
      StepProgress(s);
      DrainCore(o.player, log + o.out);
      Assoc(log, o.out, Drain(o.player).out);
    }
  }
}
