/** Whole sessions: every interleaving of feeds, timers, skips and rate changes, from the reset
    that opens a session to the moment nothing is left to play. */
module Sessions {
  import opened Protocol
  import opened Playback
  import opened Wakeup
  import opened Replay

  ghost predicate Inv(s: Player, log: seq<Input>) {
    AtRest(s) && Core(s, log)
  }

  /** "connecting" opens the next session; within one it does not occur. */
  predicate InSession(action: Action) {
    action != FeedStatus(Connecting)
  }

  predicate WithinSession(actions: seq<Action>) {
    forall a <- actions :: InSession(a)
  }

  // ----- The simulation invariant, on any feed

  lemma SnapshotsKept(turns: seq<Turn>, rec: Recording, event: Event)
    requires Snapshots(turns, rec)
    ensures Snapshots(turns, Record(rec, event))
  {
    if event.Token? {
      var cell := Cell(event.persona, event.round);
      var r := AppendText(rec, cell, event.delta);
      assert TextOf(rec, cell) <= TextOf(r, cell);
      forall t <- turns
        ensures t.text <= TextOf(r, t.cell)
      {
        assert t.cell != cell ==> TextOf(r, t.cell) == TextOf(rec, t.cell);
      }
    }
  }

  function Fed(s: Player, event: Event): Player {
    s.(rec := Record(s.rec, event), personaErrors := RecordFailure(s.personaErrors, event))
  }

  lemma FeedSane(s: Player, event: Event)
    requires Sane(s) && FailuresOk(s)
    ensures Sane(Fed(s, event)) && FailuresOk(Fed(s, event)) && Owed(Fed(s, event)) == Owed(s)
  {
  }

  lemma FeedCore(s: Player, log: seq<Input>, event: Event)
    requires Core(s, log)
    ensures Core(Fed(s, event), log)
  {
    SnapshotsKept(s.turns, s.rec, event);
    FeedSane(s, event);
    assert Ordered(s.turns, Record(s.rec, event).roundComplete);
  }

  lemma PumpCore(s: Player, log: seq<Input>)
    requires Core(s, log)
    ensures Core(Pump(s).player, log + Pump(s).out)
  {
    if s.timer.Some? {
      assert log + [] == log;
    } else {
      StepCore(s, log);
      StepSane(s);
      var t := Step(s).player;
      if Step(s).delay.After? {
        ScheduleCore(t, log + Step(s).out, Pump(s).player);
      }
    }
  }

  /** The invariant looks at neither the timer, nor the rate, nor the drain flag. */
  lemma ScheduleCore(s: Player, log: seq<Input>, t: Player)
    requires Core(s, log) && t == s.(timer := t.timer, rate := t.rate, draining := t.draining)
    ensures Core(t, log)
  {
    if !s.cursor.Finished? {
      assert Owed(t) == Owed(s);
    }
  }

  lemma PassCore(s: Player, log: seq<Input>, input: Input)
    requires Core(s, log) && AtomsOf(input) == []
    ensures Core(s, log + [input])
  {
    SnocAtoms(log, input);
    assert Atoms(log) + [] == Atoms(log);
  }

  lemma CloseFeedCore(s: Player, log: seq<Input>)
    requires Core(s, log)
    ensures Core(s.(rec := s.rec.(closed := true)), log)
  {
    var t := s.(rec := s.rec.(closed := true));
    assert forall c :: TextOf(t.rec, c) == TextOf(s.rec, c);
    if !s.cursor.Finished? {
      assert Owed(t) == Owed(s);
    }
  }

  lemma ActInv(s: Player, log: seq<Input>, action: Action)
    requires Inv(s, log) && InSession(action)
    ensures Inv(Act(s, action).player, log + Act(s, action).out)
  {
    ActAtRest(s, action);
    match action
    case Feed(event) =>
      FeedCore(s, log, event);
      PumpCore(Fed(s, event), log);
    case FeedStatus(status) =>
      if status == Closed {
        CloseFeedCore(s, log);
        PumpCore(s.(rec := s.rec.(closed := true)), log);
      } else {
        PassCore(s, log, Status(status));
      }
    case FeedTransport(message) =>
      PassCore(s, log, Transport(message));
    case TimerFires =>
      if s.timer.Some? {
        ScheduleCore(s, log, s.(timer := None));
        PumpCore(s.(timer := None), log);
      } else {
        assert log + [] == log;
      }
    case SkipToLive =>
      var d := s.(timer := None, draining := true);
      ScheduleCore(s, log, d);
      DrainCore(d, log);
      ScheduleCore(Drain(d).player, log + Drain(d).out, Act(s, action).player);
    case SetRate(multiplier) =>
      ScheduleCore(s, log, Act(s, action).player);
      assert log + [] == log;
  }

  lemma FreshInv(reducedMotion: bool, rate: Rate)
    ensures Inv(Fresh(reducedMotion, rate), [])
  {
  }

  /** Every state any session can reach satisfies the simulation invariant, even when the feed is
      ill-formed: what was dispatched, plus what is owed, is the turns opened so far. */
  lemma {:induction false} RunInv(reducedMotion: bool, rate: Rate, actions: seq<Action>)
    requires WithinSession(actions)
    ensures var e := Run(Fresh(reducedMotion, rate), actions); Inv(e.player, e.out)
    decreases |actions|
  {
    if actions == [] {
      FreshInv(reducedMotion, rate);
    } else {
      var before := Run(Fresh(reducedMotion, rate), actions[..|actions| - 1]);
      RunInv(reducedMotion, rate, actions[..|actions| - 1]);
      ActInv(before.player, before.out, actions[|actions| - 1]);
    }
  }
}
