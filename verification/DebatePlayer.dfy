/** The player as the program has it: a class whose methods update its fields and hand inputs to a
    dispatch sink. Each method is proved to take the corresponding step of `Playback`. */
module DebatePlayers {
  import opened Protocol
  import opened Sequences
  import TextReveal
  import opened Playback
  import opened Wakeup

  /** Draining from `s`, after `out`, is draining from `start`. */
  ghost predicate Drained(start: Player, out: seq<Input>, s: Player)
    requires Sane(start) && Sane(s)
  {
    Drain(start).player == Drain(s).player && Drain(start).out == out + Drain(s).out
  }

  lemma DrainOnce(s: Player, o: Outcome)
    requires Sane(s) && o == Step(s)
    ensures Sane(o.player)
    ensures Drain(s) == if o.delay.After? then Effect(Drain(o.player).player, o.out + Drain(o.player).out)
                        else Effect(o.player, o.out)
  {
    StepSane(s);
    if o.delay.After? {
      StepProgress(s);
    }
  }

  lemma DrainUnfolds(start: Player, out: seq<Input>, s: Player, o: Outcome)
    requires Sane(start) && Sane(s) && (Drained(start, out, s) || (start == s && out == [])) && o == Step(s)
    ensures Sane(o.player) && Drained(start, out, s)
    ensures if o.delay.After? then Drained(start, out + o.out, o.player)
            else Drain(start) == Effect(o.player, out + o.out)
    ensures [] + o.out == o.out
  {
    DrainOnce(s, o);
    EffectSplit(out, o.out, Drain(start), Drain(s), if o.delay.After? then Drain(o.player).out else []);
  }

  lemma EffectSplit(out: seq<Input>, more: seq<Input>, whole: Effect, rest: Effect, tail: seq<Input>)
    requires (whole.out == out + rest.out || (whole == rest && out == [])) && rest.out == more + tail
    ensures whole.out == (out + more) + tail && whole.out == out + rest.out
    ensures [] + more == more && (tail == [] ==> whole.out == out + more)
  {
    Assoc(out, more, tail);
  }

  lemma FeedIsPump(s: Player, event: Event)
    requires AtRest(s)
    ensures var t := s.(rec := Record(s.rec, event), personaErrors := RecordFailure(s.personaErrors, event));
      Sane(t) && Act(s, Action.Feed(event)) == Pump(t)
    ensures AtRest(Act(s, Action.Feed(event)).player)
  {
    ActAtRest(s, Action.Feed(event));
  }

  class DebatePlayer {
    const reducedMotion: bool
    var dispatched: seq<Input>
    var timer: Option<real>
    var rate: Rate
    var draining: bool

    // Recording
    var text: map<Cell, Text>
    var roundComplete: set<nat>
    var personaErrors: map<PersonaId, Failure>
    var verdict: Option<Text>
    var sessionError: Option<Failure>
    var closed: bool
    var moderatorRound: Option<nat>

    // Playback schedule
    var cursor: Cursor
    var active: Option<ActiveTurn>
    var pendingDone: Option<Cell>
    var pendingRoundComplete: Option<nat>
    var pendingErrors: seq<Failure>
    ghost var turns: seq<Turn>

    ghost function Recorded(): Recording
      reads this
    {
      Recording(text, roundComplete, verdict, sessionError, closed, moderatorRound)
    }

    ghost function Model(): Player
      reads this
    {
      Player(reducedMotion, rate, timer, draining, Recorded(), personaErrors, cursor, active,
             pendingDone, pendingRoundComplete, pendingErrors, turns)
    }

    constructor (reducedMotion: bool)
      ensures Model() == Fresh(reducedMotion, 1.0) && dispatched == []
    {
      this.reducedMotion := reducedMotion;
      dispatched, timer, rate, draining := [], None, 1.0, false;
      text, roundComplete, personaErrors, verdict := map[], {}, map[], None;
      sessionError, closed, moderatorRound := None, false, None;
      cursor, active := AtPanelist(1, 0), None;
      pendingDone, pendingRoundComplete, pendingErrors := None, None, [];
      turns := [];
    }

    method Dispatch(input: Input)
      modifies this`dispatched
      ensures dispatched == old(dispatched) + [input]
    {
      dispatched := dispatched + [input];
    }

    // ----- Speed control

    method SetRate(multiplier: real)
      requires AtRest(Model())
      modifies this`rate
      ensures Model() == Act(old(Model()), Action.SetRate(multiplier)).player && AtRest(Model())
    {
      var floor := if multiplier > MIN_RATE then multiplier else MIN_RATE;
      rate := if floor < MAX_RATE then floor else MAX_RATE;
    }

    // ----- Live status

    method IsAtLive() returns (live: bool)
      ensures live <==> !HasReadyWork(Model())
    {
      if active != None {
        return false;
      }
      if cursor == Finished {
        return true;
      }
      var buffered := (cursor.AtPanelist? && cursor.round in roundComplete) || (cursor.AtModerator? && verdict != None);
      var terminal := verdict != None || sessionError != None || closed;
      return !buffered && !terminal;
    }

    method SkipToLive()
      requires AtRest(Model())
      modifies this
      ensures AtRest(Model()) && timer == None && !HasReadyWork(Model())
      ensures Model() == Act(old(Model()), Action.SkipToLive).player
      ensures dispatched == old(dispatched) + Act(old(Model()), Action.SkipToLive).out
    {
      ActAtRest(Model(), Action.SkipToLive);
      timer := None;
      draining := true;
      RunToLive();
      draining := false;
    }

    /** The drain loop: steps until nothing is left to do. */
    method RunToLive()
      requires Sane(Model())
      modifies this
      ensures Model() == Drain(old(Model())).player && dispatched == old(dispatched) + Drain(old(Model())).out
    {
      ghost var start, out := Model(), Playback.Step(Model()).out;
      DrainUnfolds(start, [], start, Playback.Step(start));
      var delay := Step();
      while delay.After?
        invariant Sane(Model()) && dispatched == old(dispatched) + out
        invariant if delay.After? then Drained(start, out, Model()) else Drain(start) == Effect(Model(), out)
        decreases delay.After?, CursorRank(Model()), RoundsLeft(Model()), SeatsLeft(Model()), active.None?, TextLeft(Model())
      {
        ghost var s := Model();
        DrainUnfolds(start, out, s, Playback.Step(s));
        delay := Step();
        Assoc(old(dispatched), out, Playback.Step(s).out);
        out := out + Playback.Step(s).out;
        if delay.After? {
          StepProgress(s);
        }
      }
    }

    // ----- Inbound

    method Feed(event: Event)
      requires AtRest(Model())
      modifies this
      ensures AtRest(Model())
      ensures Model() == Act(old(Model()), Action.Feed(event)).player
      ensures dispatched == old(dispatched) + Act(old(Model()), Action.Feed(event)).out
    {
      FeedIsPump(Model(), event);
      RecordEvent(event);
      Pump();
    }

    method RecordEvent(event: Event)
      modifies this`text, this`moderatorRound, this`roundComplete, this`verdict, this`sessionError, this`personaErrors
      ensures Recorded() == Record(old(Recorded()), event)
      ensures personaErrors == RecordFailure(old(personaErrors), event)
    {
      match event {
        case Token(persona, round, delta) =>
          RecordText(persona, round, delta);
          if persona == Moderator {
            moderatorRound := Some(round);
          }
        case PersonaDone(_, _) =>
        case RoundComplete(round) =>
          roundComplete := roundComplete + {round};
        case Verdict(v) =>
          verdict := Some(v);
        case Error(failure) =>
          if failure.persona == None || failure.persona == Some(Moderator) {
            sessionError := Some(failure);
          } else {
            personaErrors := personaErrors[failure.persona.value := failure];
          }
      }
    }

    method FeedStatus(status: WsStatus)
      requires AtRest(Model())
      modifies this
      ensures AtRest(Model())
      ensures Model() == Act(old(Model()), Action.FeedStatus(status)).player
      ensures dispatched == old(dispatched) + Act(old(Model()), Action.FeedStatus(status)).out
    {
      ActAtRest(Model(), Action.FeedStatus(status));
      if status == Connecting {
        Reset();
        Dispatch(Status(Connecting));
        return;
      }
      if status == Closed {
        closed := true;
        Pump();
        return;
      }
      Dispatch(Status(status));
    }

    method FeedTransport(message: string)
      modifies this`dispatched
      ensures dispatched == old(dispatched) + [Transport(message)]
    {
      Dispatch(Transport(message));
    }

    method Reset()
      modifies this
      ensures Model() == Playback.Reset(old(Model())) && dispatched == old(dispatched)
    {
      ResetRecording();
      ResetSchedule();
      timer, draining := None, false;
    }

    method ResetRecording()
      modifies this`text, this`roundComplete, this`personaErrors, this`verdict
      modifies this`sessionError, this`closed, this`moderatorRound
      ensures Recorded() == BLANK && personaErrors == map[]
    {
      text, roundComplete, personaErrors, verdict := map[], {}, map[], None;
      sessionError, closed, moderatorRound := None, false, None;
    }

    method ResetSchedule()
      modifies this`cursor, this`active, this`pendingDone, this`pendingRoundComplete, this`pendingErrors, this`turns
      ensures cursor == AtPanelist(1, 0) && active == None && turns == []
      ensures pendingDone == None && pendingRoundComplete == None && pendingErrors == []
    {
      cursor, active := AtPanelist(1, 0), None;
      pendingDone, pendingRoundComplete, pendingErrors := None, None, [];
      turns := [];
    }

    // ----- Scheduler

    /** What the armed timer runs when it goes off. */
    method OnTimer()
      requires AtRest(Model()) && timer != None
      modifies this
      ensures AtRest(Model())
      ensures Model() == Act(old(Model()), TimerFires).player
      ensures dispatched == old(dispatched) + Act(old(Model()), TimerFires).out
    {
      ActAtRest(Model(), TimerFires);
      timer := None;
      Pump();
    }

    method Pump()
      requires Sane(Model())
      modifies this
      ensures Model() == Playback.Pump(old(Model())).player
      ensures dispatched == old(dispatched) + Playback.Pump(old(Model())).out
    {
      if timer != None {
        return;
      }
      var delay := Step();
      if delay.Park? || delay.Stop? {
        return;
      }
      timer := Some(delay.ms);
    }

    method Step() returns (delay: Delay)
      requires Sane(Model())
      modifies this
      ensures Model() == Playback.Step(old(Model())).player && delay == Playback.Step(old(Model())).delay
      ensures dispatched == old(dispatched) + Playback.Step(old(Model())).out
    {
      if active == None {
        PrepareSane(Model());
        ghost var p := Playback.PrepareNextTurn(Model());
        var started := PrepareNextTurn();
        if started != None {
          return started.value;
        }
        delay := RevealStep();
        Assoc(old(dispatched), p.out, Playback.RevealStep(p.player).out);
      } else {
        delay := RevealStep();
      }
    }

    /** `None` means a turn was opened; otherwise why none was. */
    method PrepareNextTurn() returns (started: Option<Delay>)
      requires Sane(Model()) && active == None
      modifies this
      ensures Model() == Playback.PrepareNextTurn(old(Model())).player
      ensures dispatched == old(dispatched) + Playback.PrepareNextTurn(old(Model())).out
      ensures var delay := Playback.PrepareNextTurn(old(Model())).delay;
        started == if delay.After? then None else Some(delay)
    {
      if cursor == Finished {
        return Some(Stop);
      }
      if cursor.AtPanelist? {
        if cursor.round !in roundComplete {
          if verdict != None || sessionError != None || closed {
            cursor := AtModerator;
            started := PrepareModeratorTurn(old(Model()));
            return;
          }
          return Some(Park);
        }
        var persona, round, index := PANELISTS[cursor.index], cursor.round, cursor.index;
        FlushPending();
        OpenTurn(persona, round, index);
        return None;
      }
      assert false;
    }

    /** The tail of the method above, from the moderator's cursor on. */
    method PrepareModeratorTurn(ghost from: Player) returns (started: Option<Delay>)
      requires Sane(from) && from.active.None? && TerminalKnown(from.rec) && from.cursor.AtPanelist?
      requires Model() == from.(cursor := AtModerator)
      modifies this
      ensures Model() == PrepareModerator(from).player
      ensures dispatched == old(dispatched) + PrepareModerator(from).out
      ensures started == if PrepareModerator(from).delay.After? then None else Some(PrepareModerator(from).delay)
    {
      if verdict == None {
        if sessionError != None || closed {
          EndWithoutVerdict(from);
          return Some(Stop);
        }
        return Some(Park);
      }
      started := OpenModeratorTurn(from);
    }

    method EndWithoutVerdict(ghost from: Player)
      requires Model() == from.(cursor := AtModerator)
      modifies this`dispatched, this`pendingDone, this`pendingRoundComplete, this`pendingErrors, this`cursor
      ensures Model() == Flushed(from).(cursor := Finished)
      ensures dispatched == old(dispatched) + (PendingInputs(from) + TerminalInput(from.rec))
    {
      FlushPending();
      FinalizeTerminal();
      Assoc(old(dispatched), PendingInputs(from), TerminalInput(from.rec));
      cursor := Finished;
    }

    method OpenModeratorTurn(ghost from: Player) returns (started: Option<Delay>)
      requires Model() == from.(cursor := AtModerator) && verdict != None
      modifies this
      ensures Model() == PrepareModerator(from).player
      ensures dispatched == old(dispatched) + PrepareModerator(from).out
      ensures started == if PrepareModerator(from).delay.After? then None else Some(PrepareModerator(from).delay)
    {
      FlushPending();
      var cell := FindSynthesis();
      if cell !in text || text[cell] == [] {
        Dispatch(Input.Wire(Event.Verdict(verdict.value)));
        Assoc(old(dispatched), PendingInputs(from), [Input.Wire(Event.Verdict(from.rec.verdict.value))]);
        cursor := Finished;
        return Some(Stop);
      }
      OpenTurn(Moderator, cell.round, -1);
      return None;
    }

    method FindSynthesis() returns (cell: Cell)
      ensures cell == SynthesisCell(Recorded())
    {
      var max := MaxPanelRound();
      cell := Cell(Moderator, if moderatorRound != None then moderatorRound.value else max + 1);
    }

    method OpenTurn(persona: PersonaId, round: nat, index: int)
      modifies this`active, this`turns
      ensures active == Some(ActiveTurn(persona, round, index, TextOf(Recorded(), Cell(persona, round)), 0, index == -1))
      ensures turns == old(turns) + [Turn(Cell(persona, round), TextOf(Recorded(), Cell(persona, round)))]
    {
      var snapshot := if Cell(persona, round) in text then text[Cell(persona, round)] else [];
      active := Some(ActiveTurn(persona, round, index, snapshot, 0, index == -1));
      turns := turns + [Turn(Cell(persona, round), snapshot)];
    }

    method RevealStep() returns (delay: Delay)
      requires Sane(Model()) && active != None
      modifies this
      ensures Model() == Playback.RevealStep(old(Model())).player && delay == Playback.RevealStep(old(Model())).delay
      ensures dispatched == old(dispatched) + Playback.RevealStep(old(Model())).out
    {
      var a := active.value;
      if a.pos >= |a.text| {
        if a.isModerator {
          Dispatch(Input.Wire(Event.Verdict(verdict.value)));
          active := None;
          cursor := Finished;
          return Stop;
        }
        DeferClosing(a);
        return After(TURN_GAP_MS / rate);
      }
      RevealChunk(a);
      return After(TICK_MS / rate);
    }

    /** Closes a panelist's turn; its signals wait for the next turn to open. */
    method DeferClosing(a: ActiveTurn)
      requires Sane(Model()) && active == Some(a) && a.pos >= |a.text| && !a.isModerator
      modifies this`pendingDone, this`pendingRoundComplete, this`pendingErrors, this`personaErrors, this`cursor, this`active
      ensures Model() == Playback.RevealStep(old(Model())).player && Playback.RevealStep(old(Model())).out == []
    {
      DeferSignals(a);
      cursor := if a.index < SEATS - 1 then AtPanelist(a.round, a.index + 1) else AtPanelist(a.round + 1, 0);
      active := None;
    }

    method DeferSignals(a: ActiveTurn)
      modifies this`pendingDone, this`pendingRoundComplete, this`pendingErrors, this`personaErrors
      ensures pendingDone == Some(Cell(a.persona, a.round))
      ensures pendingErrors == old(pendingErrors) + if a.persona in old(personaErrors) then [old(personaErrors)[a.persona]] else []
      ensures personaErrors == old(personaErrors) - {a.persona}
      ensures pendingRoundComplete == if a.index == SEATS - 1 then Some(a.round) else old(pendingRoundComplete)
    {
      pendingDone := Some(Cell(a.persona, a.round));
      if a.persona in personaErrors {
        pendingErrors := pendingErrors + [personaErrors[a.persona]];
      }
      personaErrors := personaErrors - {a.persona};
      if a.index == SEATS - 1 {
        pendingRoundComplete := Some(a.round);
      }
    }

    method RevealChunk(a: ActiveTurn)
      requires Sane(Model()) && active == Some(a) && a.pos < |a.text|
      modifies this`dispatched, this`active
      ensures Model() == Playback.RevealStep(old(Model())).player
      ensures dispatched == old(dispatched) + Playback.RevealStep(old(Model())).out
    {
      var end := |a.text|;
      if !reducedMotion && !draining {
        end := TextReveal.NextChunkEnd(a.text, a.pos);
      }
      active := Some(a.(pos := end));
      Dispatch(Input.Wire(Token(a.persona, a.round, a.text[a.pos..end])));
    }

    method FinalizeTerminal()
      modifies this`dispatched
      ensures dispatched == old(dispatched) + TerminalInput(Recorded())
    {
      if sessionError != None {
        Dispatch(Input.Wire(Error(sessionError.value)));
      } else if closed {
        Dispatch(Status(Closed));
      }
    }

    method FlushPending()
      modifies this`dispatched, this`pendingDone, this`pendingRoundComplete, this`pendingErrors
      ensures Model() == Flushed(old(Model()))
      ensures dispatched == old(dispatched) + PendingInputs(old(Model()))
    {
      ghost var signals :=
        (if pendingDone.Some? then [Wire(PersonaDone(pendingDone.value.persona, pendingDone.value.round))] else [])
        + (if pendingRoundComplete.Some? then [Wire(RoundComplete(pendingRoundComplete.value))] else []);
      FlushSignals(signals);
      FlushErrors();
      Assoc(old(dispatched), signals, ErrorInputs(old(pendingErrors)));
    }

    method FlushSignals(ghost signals: seq<Input>)
      requires signals ==
        (if pendingDone.Some? then [Wire(PersonaDone(pendingDone.value.persona, pendingDone.value.round))] else [])
        + (if pendingRoundComplete.Some? then [Wire(RoundComplete(pendingRoundComplete.value))] else [])
      modifies this`dispatched, this`pendingDone, this`pendingRoundComplete
      ensures dispatched == old(dispatched) + signals && pendingDone == None && pendingRoundComplete == None
    {
      if pendingDone != None {
        Dispatch(Input.Wire(PersonaDone(pendingDone.value.persona, pendingDone.value.round)));
        pendingDone := None;
      }
      if pendingRoundComplete != None {
        Dispatch(Input.Wire(RoundComplete(pendingRoundComplete.value)));
        pendingRoundComplete := None;
      }
    }

    method FlushErrors()
      modifies this`dispatched, this`pendingErrors
      ensures dispatched == old(dispatched) + ErrorInputs(old(pendingErrors)) && pendingErrors == []
    {
      for i := 0 to |pendingErrors|
        invariant pendingErrors == old(pendingErrors)
        invariant dispatched == old(dispatched) + ErrorInputs(pendingErrors[..i])
      {
        Dispatch(Input.Wire(Error(pendingErrors[i])));
        assert ErrorInputs(pendingErrors[..i + 1]) == ErrorInputs(pendingErrors[..i]) + [Wire(Error(pendingErrors[i]))];
      }
      assert pendingErrors[..|pendingErrors|] == pendingErrors;
      pendingErrors := [];
    }

    // ----- Recording helpers

    method RecordText(persona: PersonaId, round: nat, delta: Text)
      modifies this`text
      ensures Recorded() == AppendText(old(Recorded()), Cell(persona, round), delta)
    {
      var cell := Cell(persona, round);
      var combined := (if cell in text then text[cell] else []) + delta;
      text := text[cell := if |combined| > MAX_CELL_CHARS then combined[..MAX_CELL_CHARS] else combined];
    }

    method MaxPanelRound() returns (max: nat)
      ensures max == MaxRound(roundComplete)
    {
      max := 0;
      var left := roundComplete;
      while left != {}
        invariant left <= roundComplete
        invariant forall r | r in roundComplete && r !in left :: r <= max
        invariant max in roundComplete || max == 0
        decreases left
      {
        var r :| r in left;
        if r > max {
          max := r;
        }
        left := left - {r};
      }
    }
  }
}
