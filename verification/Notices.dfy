/** A panelist's failure is shown only after one of that panelist's own turns has closed. */
module Notices {
  import opened Protocol
  import opened Playback
  import opened Wakeup
  import opened Replay
  import opened Sessions
  import opened Faithful

  predicate Notice(input: Input) {
    input.Wire? && input.event.Error? && !input.event.failure.Terminal()
  }

  predicate ClosesTurnOf(input: Input, p: PersonaId) {
    input.Wire? && input.event.PersonaDone? && input.event.persona == p
  }

  ghost predicate ClosedBefore(log: seq<Input>, k: nat, p: PersonaId)
    requires k <= |log|
  {
    exists j :: 0 <= j < k && ClosesTurnOf(log[j], p)
  }

  /** Every failure notice in a log follows the close of a turn of its own panelist. */
  ghost predicate Announced(log: seq<Input>) {
    forall k | 0 <= k < |log| && Notice(log[k]) :: ClosedBefore(log, k, log[k].event.failure.persona.value)
  }

  /** Deferred failures are those of the panelist whose close is deferred. */
  ghost predicate OwnFailures(s: Player) {
    forall f <- s.pendingErrors :: s.pendingDone.Some? && f.persona == Some(s.pendingDone.value.persona)
  }

  lemma AnnouncedConcat(a: seq<Input>, b: seq<Input>)
    requires Announced(a) && Announced(b)
    ensures Announced(a + b)
  {
    forall k | 0 <= k < |a + b| && Notice((a + b)[k])
      ensures ClosedBefore(a + b, k, (a + b)[k].event.failure.persona.value)
    {
      var p := (a + b)[k].event.failure.persona.value;
      if k < |a| {
        var j :| 0 <= j < k && ClosesTurnOf(a[j], p);
        assert ClosesTurnOf((a + b)[j], p);
      } else {
        var j :| 0 <= j < k - |a| && ClosesTurnOf(b[j], p);
        assert ClosesTurnOf((a + b)[|a| + j], p);
      }
    }
  }

  lemma PendingAnnounced(s: Player)
    requires OwnFailures(s)
    ensures Announced(PendingInputs(s))
  {
    var out := PendingInputs(s);
    forall k | 0 <= k < |out| && Notice(out[k])
      ensures ClosedBefore(out, k, out[k].event.failure.persona.value)
    {
      var i := k - (|out| - |s.pendingErrors|);
      assert out[k] == ErrorInputs(s.pendingErrors)[i] == Wire(Error(s.pendingErrors[i]));
      assert s.pendingErrors[i] in s.pendingErrors;
      assert ClosesTurnOf(out[0], s.pendingDone.value.persona);
    }
  }

  lemma QuietAnnounced(log: seq<Input>)
    requires forall i <- log :: !Notice(i)
    ensures Announced(log)
  {
  }

  lemma PrepareAnnounced(s: Player)
    requires Sane(s) && FailuresOk(s) && s.active.None? && OwnFailures(s)
    ensures Announced(PrepareNextTurn(s).out) && OwnFailures(PrepareNextTurn(s).player)
  {
    var o := PrepareNextTurn(s);
    PendingAnnounced(s);
    if o.delay.After? {
      var turn := OpenShape(s, o);
    } else if o.delay == Stop && !s.cursor.Finished? {
      var last := FinishShape(s, o);
      assert AtomsOf(last) != [];
      QuietAnnounced([last]);
      AnnouncedConcat(PendingInputs(s), [last]);
    } else {
      ReadyOrNot(s, o);
    }
  }

  lemma RevealAnnounced(s: Player)
    requires Sane(s) && FailuresOk(s) && s.active.Some?
    ensures Announced(RevealStep(s).out) && OwnFailures(RevealStep(s).player)
  {
    QuietAnnounced(RevealStep(s).out);
  }

  lemma StepAnnounced(s: Player, log: seq<Input>)
    requires Core(s, log) && OwnFailures(s)
    ensures Announced(Step(s).out) && OwnFailures(Step(s).player)
  {
    if s.active.None? {
      PrepareAnnounced(s);
      PrepareCore(s, log);
      PrepareSane(s);
      var p := PrepareNextTurn(s);
      if p.delay.After? {
        RevealAnnounced(p.player);
        AnnouncedConcat(p.out, RevealStep(p.player).out);
      }
    } else {
      RevealAnnounced(s);
    }
  }

  lemma {:induction false} DrainAnnounced(s: Player, log: seq<Input>)
    requires Core(s, log) && OwnFailures(s)
    ensures Announced(Drain(s).out) && OwnFailures(Drain(s).player)
    decreases CursorRank(s), RoundsLeft(s), SeatsLeft(s), s.active.None?, TextLeft(s)
  {
    StepSane(s);
    StepAnnounced(s, log);
    var o := Step(s);
    if o.delay.After? {
      StepProgress(s);
      StepCore(s, log);
      DrainAnnounced(o.player, log + o.out);
      AnnouncedConcat(o.out, Drain(o.player).out);
    }
  }

  lemma PumpAnnounced(s: Player, log: seq<Input>)
    requires Core(s, log) && OwnFailures(s)
    ensures Announced(Pump(s).out) && OwnFailures(Pump(s).player)
  {
    if s.timer.None? {
      StepAnnounced(s, log);
    }
  }

  lemma SkipAnnounced(s: Player, log: seq<Input>, d: Player)
    requires Core(s, log) && OwnFailures(s) && d == s.(timer := None, draining := true)
    ensures Announced(Drain(d).out) && OwnFailures(Drain(d).player)
  {
    ScheduleCore(s, log, d);
    DrainAnnounced(d, log);
  }

  lemma TimerAnnounced(s: Player, log: seq<Input>, t: Player)
    requires Core(s, log) && OwnFailures(s) && t == s.(timer := None)
    ensures Announced(Pump(t).out) && OwnFailures(Pump(t).player)
  {
    ScheduleCore(s, log, t);
    PumpAnnounced(t, log);
  }

  lemma ArrivalAnnounced(s: Player, log: seq<Input>, t: Player)
    requires Core(t, log) && OwnFailures(s) && t == s.(rec := t.rec, personaErrors := t.personaErrors)
    ensures Announced(Pump(t).out) && OwnFailures(Pump(t).player)
  {
    PumpAnnounced(t, log);
  }

  lemma ActAnnounced(s: Player, log: seq<Input>, action: Action)
    requires Inv(s, log) && InSession(action) && OwnFailures(s)
    ensures Announced(Act(s, action).out) && OwnFailures(Act(s, action).player)
  {
    match action
    case Feed(event) =>
      FeedCore(s, log, event);
      ArrivalAnnounced(s, log, Fed(s, event));
    case FeedStatus(status) =>
      if status == Closed {
        CloseFeedCore(s, log);
        ArrivalAnnounced(s, log, s.(rec := s.rec.(closed := true)));
      }
    case TimerFires =>
      if s.timer.Some? {
        TimerAnnounced(s, log, s.(timer := None));
      }
    case SkipToLive =>
      SkipAnnounced(s, log, s.(timer := None, draining := true));
    case _ =>
  }

  lemma {:induction false} RunAnnounced(reducedMotion: bool, rate: Rate, actions: seq<Action>)
    requires WithinSession(actions)
    ensures Announced(Run(Fresh(reducedMotion, rate), actions).out)
    ensures OwnFailures(Run(Fresh(reducedMotion, rate), actions).player)
    decreases |actions|
  {
    if actions != [] {
      var init, last := actions[..|actions| - 1], actions[|actions| - 1];
      var before := Run(Fresh(reducedMotion, rate), init);
      RunAnnounced(reducedMotion, rate, init);
      RunInv(reducedMotion, rate, init);
      ActAnnounced(before.player, before.out, last);
      AnnouncedConcat(before.out, Act(before.player, last).out);
    }
  }

  /** In every session, on any feed, a panelist's failure is replayed only after a turn of that
      panelist has closed. */
  lemma FailureFollowsOwnTurn(reducedMotion: bool, rate: Rate, actions: seq<Action>, k: nat)
    requires WithinSession(actions) && k < |Run(Fresh(reducedMotion, rate), actions).out|
    requires Notice(Run(Fresh(reducedMotion, rate), actions).out[k])
    ensures var log := Run(Fresh(reducedMotion, rate), actions).out;
      exists j :: 0 <= j < k && ClosesTurnOf(log[j], log[k].event.failure.persona.value)
  {
    RunAnnounced(reducedMotion, rate, actions);
    var log := Run(Fresh(reducedMotion, rate), actions).out;
    assert ClosedBefore(log, k, log[k].event.failure.persona.value);
  }
}
