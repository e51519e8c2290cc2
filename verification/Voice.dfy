/** One voice at a time: who holds the floor at each point of a dispatch log, and what every
    derived view makes of it. */
module Voice {
  import opened Protocol
  import opened Reducer
  import opened Playback
  import opened Wakeup
  import opened Replay
  import opened Sessions

  /** `Disorder` absorbs every log in which two voices overlap or anything follows an ending. */
  datatype Floor = Nobody | Holds(persona: PersonaId) | Over | Disorder

  function FloorStep(f: Floor, input: Input): Floor {
    match input
    case Status(status) =>
      if status == Connecting then Disorder
      else if status == Closed then if f == Nobody then Over else Disorder
      else f
    case Transport(_) => f
    case Cancel => if f == Disorder then Disorder else Over
    case Wire(Token(persona, _, _)) => if f == Nobody || f == Holds(persona) then Holds(persona) else Disorder
    case Wire(PersonaDone(persona, _)) =>
      if persona != Moderator && (f == Nobody || f == Holds(persona)) then Nobody else Disorder
    case Wire(RoundComplete(_)) => if f == Nobody then Nobody else Disorder
    case Wire(Verdict(_)) => if f == Nobody || f == Holds(Moderator) then Over else Disorder
    case Wire(Error(failure)) =>
      if f != Nobody then Disorder else if failure.Terminal() then Over else Nobody
  }

  function FloorAfter(f: Floor, log: seq<Input>): Floor {
    if log == [] then f else FloorStep(FloorAfter(f, log[..|log| - 1]), log[|log| - 1])
  }

  lemma {:induction false} FloorConcat(f: Floor, a: seq<Input>, b: seq<Input>)
    ensures FloorAfter(f, a + b) == FloorAfter(FloorAfter(f, a), b)
  {
    if b == [] {
      assert a + b == a;
    } else {
      var n := |b| - 1;
      FloorConcat(f, a, b[..n]);
      assert (a + b)[..|a + b| - 1] == a + b[..n];
    }
  }

  lemma FloorSnoc(f: Floor, log: seq<Input>, input: Input)
    ensures FloorAfter(f, log + [input]) == FloorStep(FloorAfter(f, log), input)
  {
    assert (log + [input])[..|log|] == log;
  }

  lemma {:induction false} DisorderStays(log: seq<Input>)
    ensures FloorAfter(Disorder, log) == Disorder
  {
    if log != [] {
      DisorderStays(log[..|log| - 1]);
    }
  }

  /** The reducer state a floor stands for. */
  ghost predicate Voices(v: DebateState, f: Floor) {
    match f
    case Nobody => v.activeSpeakers == [] && (v.phase == ConnectingPhase || v.phase == Debating)
    case Holds(p) => v.activeSpeakers == [p] && v.phase == if p == Moderator then Moderating else Debating
    case Over => v.activeSpeakers == [] && v.phase.Terminal()
    case Disorder => true
  }

  lemma ReduceVoices(v: DebateState, f: Floor, input: Input)
    requires Voices(v, f)
    ensures Voices(Reduce(v, input), FloorStep(f, input))
  {
    if f.Holds? {
      assert WithoutActive([f.persona], f.persona) == WithoutActive([], f.persona) == [];
    }
  }

  lemma {:induction false} FoldVoices(v: DebateState, f: Floor, log: seq<Input>)
    requires Voices(v, f)
    ensures Voices(Fold(v, log), FloorAfter(f, log))
  {
    if log != [] {
      FoldVoices(v, f, log[..|log| - 1]);
      ReduceVoices(Fold(v, log[..|log| - 1]), FloorAfter(f, log[..|log| - 1]), log[|log| - 1]);
    }
  }

  // ----- The player keeps order

  /** Who holds the floor, read off the player's own fields. */
  function FloorIn(s: Player): Floor {
    if s.cursor.Finished? then Over
    else if s.active.Some? then
      if s.active.value.pos == 0 then Nobody else Holds(s.active.value.persona)
    else if s.pendingDone.Some? && s.turns != [] && s.turns[|s.turns| - 1].text != []
    then Holds(s.pendingDone.value.persona)
    else Nobody
  }

  lemma {:induction false} ErrorsKeepFloor(failures: seq<Failure>)
    requires forall f <- failures :: !f.Terminal()
    ensures FloorAfter(Nobody, ErrorInputs(failures)) == Nobody
  {
    if failures != [] {
      var n := |failures| - 1;
      ErrorsKeepFloor(failures[..n]);
      assert ErrorInputs(failures) == ErrorInputs(failures[..n]) + [Wire(Error(failures[n]))];
      FloorSnoc(Nobody, ErrorInputs(failures[..n]), Wire(Error(failures[n])));
    }
  }

  /** What is pending at rest: nothing before the first turn, else the last turn's signals. */
  lemma PendingShape(s: Player, log: seq<Input>)
    requires Core(s, log) && s.active.None? && s.cursor.AtPanelist?
    ensures s.pendingDone == if s.turns == [] then None else Some(s.turns[|s.turns| - 1].cell)
    ensures s.pendingDone.Some? ==> s.pendingDone.value.persona != Moderator
    ensures s.pendingDone.None? ==> s.pendingRoundComplete.None?
  {
    if s.turns != [] {
      assert s.turns[|s.turns| - 1].cell == SeatCell(|s.turns| - 1);
      assert PendingAtoms(s)[0] == TurnDone(s.turns[|s.turns| - 1].cell);
    } else {
      assert PendingAtoms(s) == [];
    }
  }

  lemma SignalsFloor(f: Floor, done: seq<Input>, round: seq<Input>)
    requires |done| <= 1 && |round| <= 1
    requires if done == [] then f == Nobody else FloorStep(f, done[0]) == Nobody
    requires round != [] ==> FloorStep(Nobody, round[0]) == Nobody
    ensures FloorAfter(f, done + round) == Nobody
  {
    FloorConcat(f, done, round);
    if done != [] {
      FloorOne(f, done[0]);
      assert done == [done[0]];
    }
    if round != [] {
      FloorOne(Nobody, round[0]);
      assert round == [round[0]];
    }
  }

  lemma FlushFloor(s: Player, log: seq<Input>)
    requires Core(s, log) && s.active.None? && s.cursor.AtPanelist?
    ensures FloorAfter(FloorIn(s), PendingInputs(s)) == Nobody
  {
    PendingShape(s, log);
    var done := if s.pendingDone.Some? then
        [Wire(PersonaDone(s.pendingDone.value.persona, s.pendingDone.value.round))] else [];
    var round := if s.pendingRoundComplete.Some? then
        [Wire(RoundComplete(s.pendingRoundComplete.value))] else [];
    SignalsFloor(FloorIn(s), done, round);
    FloorConcat(FloorIn(s), done + round, ErrorInputs(s.pendingErrors));
    ErrorsKeepFloor(s.pendingErrors);
  }

  lemma PrepareFloor(s: Player, log: seq<Input>)
    requires Core(s, log) && s.active.None?
    ensures FloorAfter(FloorIn(s), PrepareNextTurn(s).out) == FloorIn(PrepareNextTurn(s).player)
  {
    var o := PrepareNextTurn(s);
    PrepareSane(s);
    if o.delay.After? {
      FlushFloor(s, log);
    } else if o.delay == Stop && !s.cursor.Finished? {
      FlushFloor(s, log);
      var last := FinishShape(s, o);
      FloorSnoc(FloorIn(s), PendingInputs(s), last);
      EndingInput(last, s.rec);
    }
  }

  /** Only three inputs end a session, and each does so when nobody holds the floor. */
  lemma EndingInput(last: Input, rec: Recording)
    requires AtomsOf(last) == Ending(rec) && Ending(rec) != []
    ensures FloorStep(Nobody, last) == Over
  {
    assert Ending(rec)[0].Ends();
    assert AtomsOf(last)[0].Ends();
  }

  lemma TokenFloor(s: Player)
    requires Sane(s) && s.active.Some? && s.active.value.pos < |s.active.value.text| && !s.cursor.Finished?
    ensures FloorAfter(FloorIn(s), RevealStep(s).out) == FloorIn(RevealStep(s).player)
  {
    var a := s.active.value;
    var token := Wire(Token(a.persona, a.round, a.text[a.pos..RevealEnd(s, a)]));
    FloorOne(FloorIn(s), token);
    assert RevealStep(s).out == [token];
  }

  lemma FloorOne(f: Floor, input: Input)
    ensures FloorAfter(f, [input]) == FloorStep(f, input)
  {
    FloorSnoc(f, [], input);
    assert [] + [input] == [input];
  }

  lemma VerdictFloor(s: Player)
    requires Sane(s) && s.active.Some? && s.active.value.pos == |s.active.value.text| && s.active.value.isModerator
    ensures FloorAfter(FloorIn(s), RevealStep(s).out) == FloorIn(RevealStep(s).player)
  {
    FloorOne(FloorIn(s), Wire(Verdict(s.rec.verdict.value)));
    assert RevealStep(s).out == [Wire(Verdict(s.rec.verdict.value))];
  }

  lemma CloseFloor(s: Player, t: Player)
    requires Sane(s) && s.active.Some? && s.active.value.pos == |s.active.value.text| && !s.active.value.isModerator
    requires s.turns != [] && s.turns[|s.turns| - 1].text == s.active.value.text && t == RevealStep(s).player
    ensures RevealStep(s).out == [] && FloorIn(t) == FloorIn(s)
  {
  }

  lemma RevealFloor(s: Player, log: seq<Input>)
    requires Core(s, log) && s.active.Some?
    ensures FloorAfter(FloorIn(s), RevealStep(s).out) == FloorIn(RevealStep(s).player)
  {
    var a := s.active.value;
    if a.pos < |a.text| {
      TokenFloor(s);
    } else if a.isModerator {
      VerdictFloor(s);
    } else {
      CloseFloor(s, RevealStep(s).player);
    }
  }

  lemma StepFloor(s: Player, log: seq<Input>)
    requires Core(s, log)
    ensures FloorAfter(FloorIn(s), Step(s).out) == FloorIn(Step(s).player)
  {
    if s.active.None? {
      PrepareFloor(s, log);
      PrepareCore(s, log);
      PrepareSane(s);
      var p := PrepareNextTurn(s);
      if p.delay.After? {
        RevealFloor(p.player, log + p.out);
        FloorConcat(FloorIn(s), p.out, RevealStep(p.player).out);
      }
    } else {
      RevealFloor(s, log);
    }
  }

  lemma {:induction false} DrainFloor(s: Player, log: seq<Input>)
    requires Core(s, log)
    ensures FloorAfter(FloorIn(s), Drain(s).out) == FloorIn(Drain(s).player)
    decreases CursorRank(s), RoundsLeft(s), SeatsLeft(s), s.active.None?, TextLeft(s)
  {
    StepSane(s);
    StepCore(s, log);
    StepFloor(s, log);
    var o := Step(s);
    if o.delay.After? {
      StepProgress(s);
      DrainFloor(o.player, log + o.out);
      FloorConcat(FloorIn(s), o.out, Drain(o.player).out);
    }
  }

  /** The floor depends on neither the recording nor the scheduling fields. */
  lemma FloorElsewhere(s: Player, t: Player)
    requires t == s.(timer := t.timer, rate := t.rate, draining := t.draining, rec := t.rec,
                     personaErrors := t.personaErrors)
    ensures FloorIn(t) == FloorIn(s)
  {
  }

  lemma PumpFloor(s: Player, log: seq<Input>)
    requires Core(s, log)
    ensures FloorAfter(FloorIn(s), Pump(s).out) == FloorIn(Pump(s).player)
  {
    if s.timer.None? {
      StepFloor(s, log);
      if Step(s).delay.After? {
        FloorElsewhere(Step(s).player, Pump(s).player);
      }
    }
  }

  lemma PumpedFloor(s: Player, t: Player, log: seq<Input>)
    requires Core(t, log)
    requires t == s.(timer := t.timer, rec := t.rec, personaErrors := t.personaErrors)
    ensures FloorAfter(FloorIn(s), Pump(t).out) == FloorIn(Pump(t).player)
  {
    FloorElsewhere(s, t);
    PumpFloor(t, log);
  }

  lemma SkipFloor(s: Player, d: Player, t: Player, log: seq<Input>)
    requires Core(s, log) && d == s.(timer := None, draining := true)
    requires t == Drain(d).player.(draining := false)
    ensures FloorAfter(FloorIn(s), Drain(d).out) == FloorIn(t)
  {
    ScheduleCore(s, log, d);
    FloorElsewhere(s, d);
    DrainFloor(d, log);
    FloorElsewhere(Drain(d).player, t);
  }

  lemma ActFloor(s: Player, log: seq<Input>, action: Action)
    requires Inv(s, log) && InSession(action)
    ensures FloorAfter(FloorIn(s), Act(s, action).out) == FloorIn(Act(s, action).player)
  {
    match action
    case Feed(event) =>
      FeedCore(s, log, event);
      PumpedFloor(s, Fed(s, event), log);
    case FeedStatus(status) =>
      if status == Closed {
        CloseFeedCore(s, log);
        PumpedFloor(s, s.(rec := s.rec.(closed := true)), log);
      } else {
        FloorOne(FloorIn(s), Status(status));
      }
    case FeedTransport(message) =>
      FloorOne(FloorIn(s), Transport(message));
    case TimerFires =>
      if s.timer.Some? {
        ScheduleCore(s, log, s.(timer := None));
        PumpedFloor(s, s.(timer := None), log);
      }
    case SkipToLive =>
      SkipFloor(s, s.(timer := None, draining := true), Act(s, action).player, log);
    case SetRate(_) =>
      FloorElsewhere(s, Act(s, action).player);
  }

  lemma {:induction false} RunFloor(reducedMotion: bool, rate: Rate, actions: seq<Action>)
    requires WithinSession(actions)
    ensures var e := Run(Fresh(reducedMotion, rate), actions); FloorAfter(Nobody, e.out) == FloorIn(e.player)
    decreases |actions|
  {
    if actions != [] {
      var init, last := actions[..|actions| - 1], actions[|actions| - 1];
      RunFloor(reducedMotion, rate, init);
      RunInv(reducedMotion, rate, init);
      var before := Run(Fresh(reducedMotion, rate), init);
      ActFloor(before.player, before.out, last);
      FloorConcat(Nobody, before.out, Act(before.player, last).out);
    }
  }

  /** No prefix of an orderly log is disorderly. */
  lemma PrefixOrderly(f: Floor, log: seq<Input>, n: nat)
    requires FloorAfter(f, log) != Disorder && n <= |log|
    ensures FloorAfter(f, log[..n]) != Disorder
  {
    assert log == log[..n] + log[n..];
    FloorConcat(f, log[..n], log[n..]);
    DisorderStays(log[n..]);
  }

  /** At every point of every session, on any feed, at most one voice is active and none once the
      debate is over; "moderating" is exactly the moderator's solo. */
  lemma OneVoice(before: DebateState, reducedMotion: bool, rate: Rate, actions: seq<Action>, n: nat)
    requires WithinSession(actions) && n <= |Run(Fresh(reducedMotion, rate), actions).out|
    ensures var log := Run(Fresh(reducedMotion, rate), actions).out[..n];
      var v := Fold(Reduce(before, Status(Connecting)), log);
      && Voices(v, FloorAfter(Nobody, log)) && FloorAfter(Nobody, log) != Disorder
      && |v.activeSpeakers| <= 1
      && (v.phase.Terminal() ==> v.activeSpeakers == [])
      && (v.phase == Moderating <==> v.activeSpeakers == [Moderator])
  {
    RunFloor(reducedMotion, rate, actions);
    var out := Run(Fresh(reducedMotion, rate), actions).out;
    PrefixOrderly(Nobody, out, n);
    FoldVoices(Reduce(before, Status(Connecting)), Nobody, out[..n]);
  }

  /** A user's stop, at any point of any session, leaves nobody speaking: the debate is stopped,
      unless it was over already. */
  lemma StopSilences(before: DebateState, reducedMotion: bool, rate: Rate, actions: seq<Action>, n: nat)
    requires WithinSession(actions) && n <= |Run(Fresh(reducedMotion, rate), actions).out|
    ensures var log := Run(Fresh(reducedMotion, rate), actions).out[..n];
      var v, w := Fold(Reduce(before, Status(Connecting)), log), Fold(Reduce(before, Status(Connecting)), log + [Cancel]);
      w.activeSpeakers == [] && w.phase == if v.phase.Terminal() then v.phase else Stopped
  {
    OneVoice(before, reducedMotion, rate, actions, n);
    var log := Run(Fresh(reducedMotion, rate), actions).out[..n];
    assert (log + [Cancel])[..|log|] == log;
  }
}
