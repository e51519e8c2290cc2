/** Liveness of the schedule: the player never goes to sleep on work it could do. */
module Wakeup {
  import opened Protocol
  import opened Playback

  /** At rest between calls: the schedule is consistent, no drain is under way, and if no timer
      is armed then nothing is ready; after the end nothing is armed. */
  ghost predicate AtRest(s: Player) {
    && Sane(s)
    && !s.draining
    && (s.timer.None? ==> !HasReadyWork(s))
    && (s.cursor.Finished? ==> s.timer.None? && s.active.None?)
  }

  lemma FreshAtRest(reducedMotion: bool, rate: Rate)
    ensures AtRest(Fresh(reducedMotion, rate))
  {
  }

  lemma PrepareReady(s: Player)
    requires Sane(s) && s.active.None?
    ensures HasReadyWork(s) ==> (PrepareNextTurn(s).delay.After? || PrepareNextTurn(s).player.cursor.Finished?)
    ensures HasReadyWork(s) ==> PrepareNextTurn(s).player != s
    ensures !HasReadyWork(s) ==> PrepareNextTurn(s).player == s && PrepareNextTurn(s).out == []
    ensures !HasReadyWork(s) ==> PrepareNextTurn(s).delay == if s.cursor.Finished? then Stop else Park
    ensures !PrepareNextTurn(s).delay.After? ==> !HasReadyWork(PrepareNextTurn(s).player)
    ensures HasReadyWork(s) ==> PrepareNextTurn(s).delay != Park
  {
  }

  lemma RevealReady(s: Player)
    requires Sane(s) && s.active.Some?
    ensures RevealStep(s).delay != Park
    ensures RevealStep(s).delay == Stop ==> !HasReadyWork(RevealStep(s).player)
    ensures RevealStep(s).player.active != s.active
  {
  }

  /** `hasReadyWork` mirrors the scheduler's decision tree: it holds exactly when a step would
      dispatch something or move the schedule; otherwise the step parks or stays stopped. In
      particular the moderator's park branch is never taken. */
  lemma ReadyIffStepWorks(s: Player)
    requires Sane(s)
    ensures HasReadyWork(s) <==> Step(s).out != [] || Step(s).player.(turns := s.turns) != s
    ensures HasReadyWork(s) <==> Step(s).delay != Park && !s.cursor.Finished?
    ensures Step(s).delay.After? ==> !Step(s).player.cursor.Finished?
    ensures s.cursor.Finished? && s.active.None? ==> Step(s).delay == Stop
    ensures !Step(s).delay.After? ==> !HasReadyWork(Step(s).player)
    ensures !(s.cursor.AtModerator? && s.active.None?)
  {
    if s.active.None? {
      PrepareReady(s);
      PrepareSane(s);
      var p := PrepareNextTurn(s).player;
      if PrepareNextTurn(s).delay.After? {
        RevealReady(p);
        assert |p.turns| == |s.turns| + 1;
      }
    } else {
      RevealReady(s);
    }
  }

  lemma PumpAtRest(s: Player)
    requires Sane(s) && !s.draining && (s.cursor.Finished? ==> s.timer.None? && s.active.None?)
    ensures AtRest(Pump(s).player)
  {
    StepSane(s);
    ReadyIffStepWorks(s);
  }

  /** A drain comes to rest with nothing ready. */
  lemma {:induction false} DrainAtLive(s: Player)
    requires Sane(s)
    ensures Sane(Drain(s).player) && !HasReadyWork(Drain(s).player)
    ensures Drain(s).player.active.None?
    ensures SameSettings(s, Drain(s).player)
    decreases CursorRank(s), RoundsLeft(s), SeatsLeft(s), s.active.None?, TextLeft(s)
  {
    StepSane(s);
    ReadyIffStepWorks(s);
    var o := Step(s);
    if o.delay.After? {
      StepProgress(s);
      DrainAtLive(o.player);
    }
  }

  /** No lost wakeup: every public call, and every timer going off, leaves the player at rest. */
  lemma ActAtRest(s: Player, action: Action)
    requires AtRest(s)
    ensures AtRest(Act(s, action).player)
    ensures action == SkipToLive ==> Act(s, action).player.timer.None?
  {
    match action
    case Feed(event) =>
      PumpAtRest(s.(rec := Record(s.rec, event), personaErrors := RecordFailure(s.personaErrors, event)));
    case FeedStatus(status) =>
      if status == Closed {
        PumpAtRest(s.(rec := s.rec.(closed := true)));
      }
    case TimerFires =>
      if s.timer.Some? {
        PumpAtRest(s.(timer := None));
      }
    case SkipToLive =>
      DrainAtLive(s.(timer := None, draining := true));
    case _ =>
  }

  // ----- Runs

  /** A run of calls: the state it ends in and everything it dispatched. */
  function Run(s: Player, actions: seq<Action>): (end: Effect)
    requires AtRest(s)
    ensures AtRest(end.player)
    decreases |actions|
  {
    if actions == [] then Effect(s, [])
    else
      var before := Run(s, actions[..|actions| - 1]);
      var last := Act(before.player, actions[|actions| - 1]);
      ActAtRest(before.player, actions[|actions| - 1]);
      Effect(last.player, before.out + last.out)
  }

  lemma RunSnoc(s: Player, actions: seq<Action>, init: seq<Action>, last: Action)
    requires AtRest(s) && actions == init + [last]
    ensures Run(s, actions) ==
            Effect(Act(Run(s, init).player, last).player, Run(s, init).out + Act(Run(s, init).player, last).out)
  {
    assert actions[..|actions| - 1] == init;
  }
}
