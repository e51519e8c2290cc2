/** Persona failures surface. Fed failures are replayed, still held, or overwritten by a later one
    of the same persona, and nothing else; the last one of each persona is shown before the end. */
module Failures {
  import opened Protocol
  import opened Sequences
  import opened Playback
  import opened Wakeup
  import opened Replay
  import opened Sessions
  import opened Faithful
  import opened Voice

  /** The latest failure of a persona, and the round in progress when it arrived. */
  datatype LastFailure = NoFailure | LastFailure(failure: Failure, round: nat)

  function LatestIn(feed: seq<Delivery>, p: PersonaId): LastFailure {
    if feed == [] then NoFailure
    else
      var init, last := feed[..|feed| - 1], feed[|feed| - 1];
      if last.Arrival? && last.event.Error? && last.event.failure.persona == Some(p)
      then LastFailure(last.event.failure, LeadingRun(Recorded(init).roundComplete, 1) + 1)
      else LatestIn(init, p)
  }

  /** Panelist turns already closed. */
  function ClosedTurns(s: Player): int {
    PanelCount(s.turns) - if s.active.Some? && !s.active.value.isModerator then 1 else 0
  }

  function Replays(log: seq<Input>, f: Failure): nat {
    multiset(log)[Wire(Error(f))]
  }

  /** Held for the next close of a turn of its persona. */
  predicate Held(s: Player, f: Failure) {
    f.persona.Some? && f.persona.value in s.personaErrors && s.personaErrors[f.persona.value] == f
  }

  /** Copies of a failure the player still has. */
  function Load(s: Player, f: Failure): nat {
    multiset(s.pendingErrors)[f] + if Held(s, f) then 1 else 0
  }

  /** A feed that overwrites the held copy of a failure, which is then never shown. */
  function LostTo(s: Player, event: Event, f: Failure): nat {
    if event.Error? && !event.failure.Terminal() && event.failure.persona == f.persona && Held(s, f) then 1 else 0
  }

  ghost predicate Surfaced(s: Player, log: seq<Input>, f: Failure) {
    f in s.pendingErrors || Wire(Error(f)) in log
  }

  /** A held failure is its persona's latest, and a turn of that persona is still to close by the end
      of the round it was fed in; the latest is held, or on its way out, or out. */
  ghost predicate Tracked(s: Player, log: seq<Input>, p: PersonaId, latest: LastFailure) {
    && (p in s.personaErrors ==>
          && latest.LastFailure? && s.personaErrors[p] == latest.failure && latest.round >= 1
          && SeatOf(p) < SEATS && ClosedTurns(s) <= SEATS * (latest.round - 1) + SeatOf(p))
    && (latest.LastFailure? ==> p in s.personaErrors || Surfaced(s, log, latest.failure))
  }

  // ----- No failure is invented or repeated

  lemma {:induction false} ErrorInputsCount(failures: seq<Failure>, f: Failure)
    ensures Replays(ErrorInputs(failures), f) == multiset(failures)[f]
  {
    if failures != [] {
      var n := |failures| - 1;
      ErrorInputsCount(failures[..n], f);
      assert failures == failures[..n] + [failures[n]];
      assert ErrorInputs(failures) == ErrorInputs(failures[..n]) + [Wire(Error(failures[n]))];
    }
  }

  lemma FlushCount(s: Player, f: Failure)
    ensures Replays(PendingInputs(s), f) == multiset(s.pendingErrors)[f]
  {
    ErrorInputsCount(s.pendingErrors, f);
  }

  lemma NoFailureLast(last: Input, rec: Recording, f: Failure)
    requires AtomsOf(last) == Ending(rec) && Ending(rec) != [] && !f.Terminal()
    ensures last != Wire(Error(f))
  {
    assert AtomsOf(Wire(Error(f))) == [];
  }

  lemma ReplaysConcat(a: seq<Input>, b: seq<Input>, f: Failure)
    ensures Replays(a + b, f) == Replays(a, f) + Replays(b, f)
  {
  }

  lemma FinishCount(s: Player, o: Outcome, f: Failure)
    requires Sane(s) && FailuresOk(s) && s.active.None? && !f.Terminal()
    requires o == PrepareNextTurn(s) && o.delay == Stop && !s.cursor.Finished?
    ensures Replays(o.out, f) + Load(o.player, f) == Load(s, f)
  {
    var last := FinishShape(s, o);
    NoFailureLast(last, s.rec, f);
    ReplaysConcat(PendingInputs(s), [last], f);
    FlushCount(s, f);
  }

  lemma PrepareCount(s: Player, f: Failure)
    requires Sane(s) && FailuresOk(s) && s.active.None? && !f.Terminal()
    ensures Replays(PrepareNextTurn(s).out, f) + Load(PrepareNextTurn(s).player, f) == Load(s, f)
  {
    var o := PrepareNextTurn(s);
    if o.delay.After? {
      FlushCount(s, f);
      var turn := OpenShape(s, o);
    } else if o.delay == Stop && !s.cursor.Finished? {
      FinishCount(s, o, f);
    } else {
      ReadyOrNot(s, o);
    }
  }

  lemma CloseCount(s: Player, f: Failure)
    requires Sane(s) && FailuresOk(s) && s.active.Some? && !s.active.value.isModerator && !f.Terminal()
    requires s.active.value.pos == |s.active.value.text|
    ensures Load(RevealStep(s).player, f) == Load(s, f)
  {
    var p, t := s.active.value.persona, RevealStep(s).player;
    assert s.pendingErrors == [];
    if p in s.personaErrors {
      assert t.pendingErrors == [s.personaErrors[p]];
      assert s.personaErrors[p].persona == Some(p);
    } else {
      assert t.pendingErrors == [];
    }
  }

  lemma RevealCount(s: Player, f: Failure)
    requires Sane(s) && FailuresOk(s) && s.active.Some? && !f.Terminal()
    ensures Replays(RevealStep(s).out, f) + Load(RevealStep(s).player, f) == Load(s, f)
  {
    if s.active.value.pos == |s.active.value.text| && !s.active.value.isModerator {
      CloseCount(s, f);
    }
  }

  lemma StepCount(s: Player, log: seq<Input>, f: Failure)
    requires Core(s, log) && !f.Terminal()
    ensures Replays(Step(s).out, f) + Load(Step(s).player, f) == Load(s, f)
  {
    if s.active.None? {
      PrepareCount(s, f);
      PrepareSane(s);
      PrepareCore(s, log);
      var p := PrepareNextTurn(s);
      if p.delay.After? {
        RevealCount(p.player, f);
      }
    } else {
      RevealCount(s, f);
    }
  }

  // ----- The latest one is never lost

  lemma FlushSurfaces(s: Player, f: Failure)
    requires f in s.pendingErrors
    ensures Wire(Error(f)) in PendingInputs(s)
  {
    var i :| 0 <= i < |s.pendingErrors| && s.pendingErrors[i] == f;
    assert ErrorInputs(s.pendingErrors)[i] == Wire(Error(f));
  }

  /** Flushing puts every deferred failure into the log. */
  lemma FlushedTracked(s: Player, log: seq<Input>, t: Player, more: seq<Input>, p: PersonaId, latest: LastFailure)
    requires Tracked(s, log, p, latest) && ClosedTurns(t) <= ClosedTurns(s) && t.personaErrors == s.personaErrors
    requires PendingInputs(s) <= more
    ensures Tracked(t, log + more, p, latest)
  {
    if latest.LastFailure? && latest.failure in s.pendingErrors {
      FlushSurfaces(s, latest.failure);
    }
  }

  lemma FinishTracked(s: Player, log: seq<Input>, o: Outcome, p: PersonaId, latest: LastFailure)
    requires Sane(s) && FailuresOk(s) && s.active.None? && Tracked(s, log, p, latest)
    requires o == PrepareNextTurn(s) && o.delay == Stop && !s.cursor.Finished?
    ensures Tracked(o.player, log + o.out, p, latest)
  {
    var last := FinishShape(s, o);
    FlushedTracked(s, log, o.player, o.out, p, latest);
  }

  lemma OpenTracked(s: Player, log: seq<Input>, o: Outcome, p: PersonaId, latest: LastFailure)
    requires Core(s, log) && s.active.None? && Tracked(s, log, p, latest)
    requires o == PrepareNextTurn(s) && o.delay.After?
    ensures Tracked(o.player, log + o.out, p, latest)
  {
    OpenClosesNothing(s, log);
    var turn := OpenShape(s, o);
    FlushedTracked(s, log, o.player, o.out, p, latest);
  }

  lemma PrepareTracked(s: Player, log: seq<Input>, p: PersonaId, latest: LastFailure)
    requires Core(s, log) && s.active.None? && Tracked(s, log, p, latest)
    ensures Tracked(PrepareNextTurn(s).player, log + PrepareNextTurn(s).out, p, latest)
  {
    var o := PrepareNextTurn(s);
    if o.delay.After? {
      OpenTracked(s, log, o, p, latest);
    } else if o.delay == Stop && !s.cursor.Finished? {
      FinishTracked(s, log, o, p, latest);
    } else {
      ReadyOrNot(s, o);
      assert log + [] == log;
    }
  }

  lemma OpenClosesNothing(s: Player, log: seq<Input>)
    requires Core(s, log) && s.active.None? && PrepareNextTurn(s).delay.After?
    ensures ClosedTurns(PrepareNextTurn(s).player) == ClosedTurns(s)
  {
    var o := PrepareNextTurn(s);
    var turn := OpenShape(s, o);
    OpenedCount(s, turn, o.player);
  }

  lemma OpenedCount(s: Player, turn: Turn, t: Player)
    requires TurnsOk(s) && Sane(s) && s.active.None? && s.cursor.AtPanelist?
    requires t.turns == s.turns + [turn] && t.active.Some? && Sane(t) && turn.cell.persona == t.active.value.persona
    requires turn.cell.persona != Moderator ==> turn.cell.persona in PANELISTS
    ensures ClosedTurns(t) == ClosedTurns(s)
  {
  }

  lemma StayTracked(s: Player, t: Player, log: seq<Input>, more: seq<Input>, p: PersonaId, latest: LastFailure)
    requires Tracked(s, log, p, latest) && ClosedTurns(t) <= ClosedTurns(s)
    requires t.personaErrors == s.personaErrors && t.pendingErrors == s.pendingErrors
    ensures Tracked(t, log + more, p, latest)
  {
  }

  lemma RevealLeaves(s: Player, t: Player)
    requires Sane(s) && s.active.Some? && t == RevealStep(s).player
    requires s.active.value.pos < |s.active.value.text| || s.active.value.isModerator
    ensures ClosedTurns(t) <= ClosedTurns(s) && t.personaErrors == s.personaErrors && t.pendingErrors == s.pendingErrors
  {
  }

  lemma RevealTracked(s: Player, log: seq<Input>, p: PersonaId, latest: LastFailure)
    requires Core(s, log) && s.active.Some? && Tracked(s, log, p, latest)
    ensures Tracked(RevealStep(s).player, log + RevealStep(s).out, p, latest)
  {
    var a, o := s.active.value, RevealStep(s);
    if a.pos < |a.text| || a.isModerator {
      RevealLeaves(s, o.player);
      StayTracked(s, o.player, log, o.out, p, latest);
    } else {
      CloseTracked(s, log, p, latest);
      assert log + o.out == log;
    }
  }

  lemma CloseTracked(s: Player, log: seq<Input>, p: PersonaId, latest: LastFailure)
    requires Core(s, log) && s.active.Some? && !s.active.value.isModerator
    requires s.active.value.pos == |s.active.value.text| && Tracked(s, log, p, latest)
    ensures Tracked(RevealStep(s).player, log, p, latest)
  {
    var t := RevealStep(s).player;
    if p in s.personaErrors {
      CloseCounts(s, log);
      CloseHeld(s, p, latest.failure);
      StillTracked(s, t, log, p, latest);
    } else {
      CloseLeaves(s, p);
      if latest.LastFailure? {
        CloseKeeps(s, latest.failure);
      }
    }
  }

  lemma CloseLeaves(s: Player, p: PersonaId)
    requires Sane(s) && s.active.Some? && !s.active.value.isModerator
    requires s.active.value.pos == |s.active.value.text| && p !in s.personaErrors
    ensures p !in RevealStep(s).player.personaErrors
  {
  }

  lemma StillTracked(s: Player, t: Player, log: seq<Input>, p: PersonaId, latest: LastFailure)
    requires s.active.Some? && p in s.personaErrors && Tracked(s, log, p, latest)
    requires ClosedTurns(s) == SEATS * (s.active.value.round - 1) + SeatOf(s.active.value.persona)
    requires ClosedTurns(t) == ClosedTurns(s) + 1 && SeatOf(s.active.value.persona) < SEATS
    requires if p == s.active.value.persona then latest.failure in t.pendingErrors && p !in t.personaErrors
             else p in t.personaErrors && t.personaErrors[p] == latest.failure && SeatOf(p) != SeatOf(s.active.value.persona)
    ensures Tracked(t, log, p, latest)
  {
  }

  lemma CloseKeeps(s: Player, f: Failure)
    requires Sane(s) && s.active.Some? && !s.active.value.isModerator
    requires s.active.value.pos == |s.active.value.text|
    ensures f in s.pendingErrors ==> f in RevealStep(s).player.pendingErrors
  {
  }

  lemma CloseCounts(s: Player, log: seq<Input>)
    requires Core(s, log) && s.active.Some? && !s.active.value.isModerator
    requires s.active.value.pos == |s.active.value.text|
    ensures ClosedTurns(s) == SEATS * (s.active.value.round - 1) + s.active.value.index
    ensures ClosedTurns(RevealStep(s).player) == ClosedTurns(s) + 1
    ensures SeatOf(s.active.value.persona) == s.active.value.index < SEATS
  {
  }

  /** The closing turn takes its own persona's failure along and leaves the others'. */
  lemma CloseHeld(s: Player, p: PersonaId, f: Failure)
    requires Sane(s) && s.active.Some? && !s.active.value.isModerator
    requires s.active.value.pos == |s.active.value.text| && p in s.personaErrors && s.personaErrors[p] == f
    ensures var t := RevealStep(s).player;
      if p == s.active.value.persona then f in t.pendingErrors && p !in t.personaErrors
      else p in t.personaErrors && t.personaErrors[p] == f && SeatOf(p) != SeatOf(s.active.value.persona)
  {
    var t := RevealStep(s).player;
    if p == s.active.value.persona {
      assert t.pendingErrors[|s.pendingErrors|] == f;
    }
  }

  lemma StepTracked(s: Player, log: seq<Input>, p: PersonaId, latest: LastFailure)
    requires Core(s, log) && Tracked(s, log, p, latest)
    ensures Tracked(Step(s).player, log + Step(s).out, p, latest)
  {
    if s.active.None? {
      PrepareTracked(s, log, p, latest);
      PrepareSane(s);
      PrepareCore(s, log);
      var o := PrepareNextTurn(s);
      if o.delay.After? {
        RevealTracked(o.player, log + o.out, p, latest);
        Assoc(log, o.out, RevealStep(o.player).out);
      }
    } else {
      RevealTracked(s, log, p, latest);
    }
  }

  // ----- Over calls and runs

  /** `due`: how many copies of `f` are replayed or still there; `latest`: the last failure of `p`. */
  ghost predicate FailInv(s: Player, log: seq<Input>, f: Failure, due: int, p: PersonaId, latest: LastFailure) {
    Replays(log, f) + Load(s, f) == due && Tracked(s, log, p, latest)
  }

  lemma StepFail(s: Player, log: seq<Input>, f: Failure, due: int, p: PersonaId, latest: LastFailure)
    requires Core(s, log) && !f.Terminal() && FailInv(s, log, f, due, p, latest)
    ensures FailInv(Step(s).player, log + Step(s).out, f, due, p, latest)
  {
    StepCount(s, log, f);
    StepTracked(s, log, p, latest);
    ReplaysConcat(log, Step(s).out, f);
  }

  lemma {:induction false} DrainFail(s: Player, log: seq<Input>, f: Failure, due: int, p: PersonaId, latest: LastFailure)
    requires Core(s, log) && !f.Terminal() && FailInv(s, log, f, due, p, latest)
    ensures FailInv(Drain(s).player, log + Drain(s).out, f, due, p, latest)
    decreases CursorRank(s), RoundsLeft(s), SeatsLeft(s), s.active.None?, TextLeft(s)
  {
    StepSane(s);
    StepCore(s, log);
    StepFail(s, log, f, due, p, latest);
    var o := Step(s);
    if o.delay.After? {
      StepProgress(s);
      DrainFail(o.player, log + o.out, f, due, p, latest);
      Assoc(log, o.out, Drain(o.player).out);
    }
  }

  /** The scheduling fields play no part. */
  lemma FailElsewhere(s: Player, t: Player, log: seq<Input>, f: Failure, due: int, p: PersonaId, latest: LastFailure)
    requires FailInv(s, log, f, due, p, latest)
    requires t == s.(timer := t.timer, rate := t.rate, draining := t.draining, rec := t.rec)
    ensures FailInv(t, log, f, due, p, latest)
  {
  }

  lemma PumpShape(s: Player, o: Outcome, t: Effect)
    requires Sane(s) && s.timer.None? && o == Step(s) && t == Pump(s)
    ensures t.out == o.out && t.player == o.player.(timer := t.player.timer)
  {
  }

  lemma PumpFail(s: Player, log: seq<Input>, f: Failure, due: int, p: PersonaId, latest: LastFailure)
    requires Core(s, log) && !f.Terminal() && FailInv(s, log, f, due, p, latest)
    ensures FailInv(Pump(s).player, log + Pump(s).out, f, due, p, latest)
  {
    if s.timer.Some? {
      assert log + [] == log;
    } else {
      var o, t := Step(s), Pump(s);
      PumpShape(s, o, t);
      StepFail(s, log, f, due, p, latest);
      FailElsewhere(o.player, t.player, log + o.out, f, due, p, latest);
    }
  }

  lemma PassFail(s: Player, log: seq<Input>, input: Input, f: Failure, due: int, p: PersonaId, latest: LastFailure)
    requires FailInv(s, log, f, due, p, latest) && !input.Wire?
    ensures FailInv(s, log + [input], f, due, p, latest)
  {
    assert Replays(log + [input], f) == Replays(log, f);
  }

  function FedMore(d: Delivery, f: Failure): nat {
    if d == Arrival(Error(f)) then 1 else 0
  }

  function LatestAfter(latest: LastFailure, rec: Recording, d: Delivery, p: PersonaId): LastFailure {
    if d.Arrival? && d.event.Error? && d.event.failure.persona == Some(p)
    then LastFailure(d.event.failure, LeadingRun(rec.roundComplete, 1) + 1)
    else latest
  }

  lemma {:induction false} NextRoundMissing(rounds: set<nat>, from: nat)
    ensures from + LeadingRun(rounds, from) !in rounds
    decreases RoundsFrom(rounds, from)
  {
    if from in rounds {
      assert from in RoundsFrom(rounds, from) && from !in RoundsFrom(rounds, from + 1);
      NextRoundMissing(rounds, from + 1);
    }
  }

  /** A turn of the round in progress is still to come. */
  lemma NewFailureTracked(s: Player, log: seq<Input>, p: PersonaId, f: Failure)
    requires Ordered(s.turns, s.rec.roundComplete) && f.persona == Some(p) && SeatOf(p) < SEATS
    ensures Tracked(Fed(s, Error(f)), log, p, LastFailure(f, LeadingRun(s.rec.roundComplete, 1) + 1))
  {
    NextRoundMissing(s.rec.roundComplete, 1);
    OpenedBefore(s.turns, s.rec.roundComplete, LeadingRun(s.rec.roundComplete, 1) + 1);
  }

  /** The exact law of one feed: a fed failure is held, and what it overwrites is lost. */
  lemma FeedCount(s: Player, event: Event, f: Failure)
    requires !f.Terminal()
    ensures Load(Fed(s, event), f) + LostTo(s, event, f) == Load(s, f) + FedMore(Arrival(event), f)
  {
  }

  lemma FeedTracked(s: Player, log: seq<Input>, event: Event, p: PersonaId, latest: LastFailure)
    requires Ordered(s.turns, s.rec.roundComplete) && SeatOf(p) < SEATS && Tracked(s, log, p, latest)
    ensures Tracked(Fed(s, event), log, p, LatestAfter(latest, s.rec, Arrival(event), p))
  {
    if event.Error? && event.failure.persona == Some(p) {
      NewFailureTracked(s, log, p, event.failure);
    }
  }

  lemma FeedFail(s: Player, log: seq<Input>, event: Event, f: Failure, due: int, p: PersonaId, latest: LastFailure)
    requires Core(s, log) && !f.Terminal() && SeatOf(p) < SEATS && FailInv(s, log, f, due, p, latest)
    ensures FailInv(Fed(s, event), log, f, due + FedMore(Arrival(event), f) - LostTo(s, event, f), p,
                    LatestAfter(latest, s.rec, Arrival(event), p))
  {
    FeedCount(s, event, f);
    FeedTracked(s, log, event, p, latest);
  }

  function FedNow(action: Action, f: Failure): nat {
    if action.Feed? then FedMore(Arrival(action.event), f) else 0
  }

  function LostNow(s: Player, action: Action, f: Failure): nat {
    if action.Feed? then LostTo(s, action.event, f) else 0
  }

  function LatestNow(latest: LastFailure, rec: Recording, action: Action, p: PersonaId): LastFailure {
    if action.Feed? then LatestAfter(latest, rec, Arrival(action.event), p) else latest
  }

  lemma ActFeedFail(s: Player, log: seq<Input>, event: Event, f: Failure, due: int, p: PersonaId, latest: LastFailure)
    requires Inv(s, log) && !f.Terminal() && SeatOf(p) < SEATS && FailInv(s, log, f, due, p, latest)
    ensures FailInv(Act(s, Feed(event)).player, log + Act(s, Feed(event)).out, f,
                    due + FedMore(Arrival(event), f) - LostTo(s, event, f), p, LatestAfter(latest, s.rec, Arrival(event), p))
  {
    FeedCore(s, log, event);
    FeedFail(s, log, event, f, due, p, latest);
    PumpFail(Fed(s, event), log, f, due + FedMore(Arrival(event), f) - LostTo(s, event, f), p, LatestAfter(latest, s.rec, Arrival(event), p));
  }

  lemma PumpedFail(
    s: Player, t: Player, e: Effect, log: seq<Input>, f: Failure, due: int, p: PersonaId, latest: LastFailure)
    requires Core(t, log) && !f.Terminal() && FailInv(s, log, f, due, p, latest)
    requires t == s.(timer := t.timer, rec := t.rec) && e == Pump(t)
    ensures FailInv(e.player, log + e.out, f, due, p, latest)
  {
    FailElsewhere(s, t, log, f, due, p, latest);
    PumpFail(t, log, f, due, p, latest);
  }

  lemma ActCloseFail(s: Player, log: seq<Input>, f: Failure, due: int, p: PersonaId, latest: LastFailure)
    requires Inv(s, log) && !f.Terminal() && FailInv(s, log, f, due, p, latest)
    ensures FailInv(Act(s, FeedStatus(Closed)).player, log + Act(s, FeedStatus(Closed)).out, f, due, p, latest)
  {
    CloseFeedCore(s, log);
    PumpedFail(s, s.(rec := s.rec.(closed := true)), Act(s, FeedStatus(Closed)), log, f, due, p, latest);
  }

  lemma ActTimerFail(s: Player, log: seq<Input>, f: Failure, due: int, p: PersonaId, latest: LastFailure)
    requires Inv(s, log) && !f.Terminal() && FailInv(s, log, f, due, p, latest)
    ensures FailInv(Act(s, TimerFires).player, log + Act(s, TimerFires).out, f, due, p, latest)
  {
    if s.timer.Some? {
      ScheduleCore(s, log, s.(timer := None));
      PumpedFail(s, s.(timer := None), Act(s, TimerFires), log, f, due, p, latest);
    } else {
      assert log + [] == log;
    }
  }

  lemma ActSkipFail(s: Player, log: seq<Input>, f: Failure, due: int, p: PersonaId, latest: LastFailure)
    requires Inv(s, log) && !f.Terminal() && FailInv(s, log, f, due, p, latest)
    ensures FailInv(Act(s, SkipToLive).player, log + Act(s, SkipToLive).out, f, due, p, latest)
  {
    var d := s.(timer := None, draining := true);
    ScheduleCore(s, log, d);
    DrainedFail(s, d, Drain(d), Act(s, SkipToLive), log, f, due, p, latest);
  }

  lemma DrainedFail(
    s: Player, d: Player, o: Effect, e: Effect, log: seq<Input>, f: Failure, due: int, p: PersonaId, latest: LastFailure)
    requires Core(d, log) && !f.Terminal() && FailInv(s, log, f, due, p, latest)
    requires d == s.(timer := d.timer, draining := d.draining) && o == Drain(d)
    requires e.player == o.player.(timer := e.player.timer, draining := e.player.draining) && e.out == o.out
    ensures FailInv(e.player, log + e.out, f, due, p, latest)
  {
    FailElsewhere(s, d, log, f, due, p, latest);
    DrainFail(d, log, f, due, p, latest);
    FailElsewhere(o.player, e.player, log + o.out, f, due, p, latest);
  }

  lemma ActRateFail(s: Player, log: seq<Input>, rate: real, f: Failure, due: int, p: PersonaId, latest: LastFailure)
    requires Inv(s, log) && FailInv(s, log, f, due, p, latest)
    ensures FailInv(Act(s, SetRate(rate)).player, log + Act(s, SetRate(rate)).out, f, due, p, latest)
  {
    assert log + [] == log;
    FailElsewhere(s, Act(s, SetRate(rate)).player, log, f, due, p, latest);
  }

  /** Any call but a feed: nothing fed, nothing lost. */
  lemma ActElseFail(s: Player, log: seq<Input>, action: Action, f: Failure, due: int, p: PersonaId, latest: LastFailure)
    requires Inv(s, log) && InSession(action) && !action.Feed? && !f.Terminal() && FailInv(s, log, f, due, p, latest)
    ensures FailInv(Act(s, action).player, log + Act(s, action).out, f, due, p, latest)
  {
    match action
    case FeedStatus(status) =>
      if status == Closed {
        ActCloseFail(s, log, f, due, p, latest);
      } else {
        PassFail(s, log, Status(status), f, due, p, latest);
      }
    case FeedTransport(message) =>
      PassFail(s, log, Transport(message), f, due, p, latest);
    case TimerFires =>
      ActTimerFail(s, log, f, due, p, latest);
    case SkipToLive =>
      ActSkipFail(s, log, f, due, p, latest);
    case SetRate(rate) =>
      ActRateFail(s, log, rate, f, due, p, latest);
  }

  lemma ActFail(s: Player, log: seq<Input>, action: Action, f: Failure, due: int, p: PersonaId, latest: LastFailure)
    requires Inv(s, log) && InSession(action) && !f.Terminal() && SeatOf(p) < SEATS
    requires FailInv(s, log, f, due, p, latest)
    ensures FailInv(Act(s, action).player, log + Act(s, action).out, f, due + FedNow(action, f) - LostNow(s, action, f), p,
                    LatestNow(latest, s.rec, action, p))
  {
    if action.Feed? {
      ActFeedFail(s, log, action.event, f, due, p, latest);
    } else {
      ActElseFail(s, log, action, f, due, p, latest);
    }
  }

  function TimesFed(feed: seq<Delivery>, f: Failure): nat {
    multiset(feed)[Arrival(Error(f))]
  }

  lemma DeliveryGrows(feed: seq<Delivery>, d: Delivery, f: Failure, p: PersonaId)
    ensures TimesFed(feed + [d], f) == TimesFed(feed, f) + FedMore(d, f)
    ensures LatestIn(feed + [d], p) == LatestAfter(LatestIn(feed, p), Recorded(feed), d, p)
  {
    assert (feed + [d])[..|feed|] == feed;
    assert multiset(feed + [d]) == multiset(feed) + multiset{d};
  }

  lemma FeedGrows(init: seq<Action>, last: Action, f: Failure, p: PersonaId)
    ensures TimesFed(FeedOf(init + [last]), f) == TimesFed(FeedOf(init), f) + FedNow(last, f)
    ensures LatestIn(FeedOf(init + [last]), p) == LatestNow(LatestIn(FeedOf(init), p), Recorded(FeedOf(init)), last, p)
  {
    ExpandSnoc(DeliveryOf, init, last);
    if DeliveryOf(last) == [] {
      assert FeedOf(init + [last]) == FeedOf(init);
    } else {
      var d := DeliveryOf(last)[0];
      assert DeliveryOf(last) == [d];
      DeliveryGrows(FeedOf(init), d, f, p);
    }
  }

  /** How often a run overwrites a held copy of `f` with a later failure of its persona. */
  function Lost(s: Player, actions: seq<Action>, f: Failure): nat
    requires AtRest(s)
    decreases |actions|
  {
    if actions == [] then 0
    else
      var init := actions[..|actions| - 1];
      Lost(s, init, f) + LostNow(Run(s, init).player, actions[|actions| - 1], f)
  }

  lemma LostSnoc(s: Player, actions: seq<Action>, init: seq<Action>, last: Action, f: Failure)
    requires AtRest(s) && actions == init + [last]
    ensures Lost(s, actions, f) == Lost(s, init, f) + LostNow(Run(s, init).player, last, f)
  {
    assert actions[..|actions| - 1] == init;
  }

  /** The count and the latest failure are those of the feed so far, less what was overwritten. */
  ghost predicate Tallied(e: Effect, feed: seq<Delivery>, lost: nat, f: Failure, p: PersonaId) {
    FailInv(e.player, e.out, f, TimesFed(feed, f) - lost, p, LatestIn(feed, p))
  }

  lemma RunStep(
    before: Effect, init: seq<Action>, last: Action, actions: seq<Action>, end: Effect, lost: nat, f: Failure, p: PersonaId)
    requires Inv(before.player, before.out) && before.player.rec == Recorded(FeedOf(init))
    requires Tallied(before, FeedOf(init), lost, f, p)
    requires InSession(last) && !f.Terminal() && SeatOf(p) < SEATS && actions == init + [last]
    requires end == Effect(Act(before.player, last).player, before.out + Act(before.player, last).out)
    ensures Tallied(end, FeedOf(actions), lost + LostNow(before.player, last, f), f, p)
  {
    FeedGrows(init, last, f, p);
    ActFail(before.player, before.out, last, f, TimesFed(FeedOf(init), f) - lost, p, LatestIn(FeedOf(init), p));
  }

  lemma SessionBefore(actions: seq<Action>, init: seq<Action>, last: Action)
    requires actions == init + [last] && WithinSession(actions)
    ensures WithinSession(init) && InSession(last)
  {
  }

  ghost predicate RunTallied(s: Player, actions: seq<Action>, f: Failure, p: PersonaId)
    requires AtRest(s)
  {
    Tallied(Run(s, actions), FeedOf(actions), Lost(s, actions, f), f, p)
  }

  lemma NothingTallied(s: Player, f: Failure, p: PersonaId)
    requires AtRest(s) && s.personaErrors == map[] && s.pendingErrors == []
    ensures RunTallied(s, [], f, p)
  {
    assert FeedOf([]) == [];
  }

  lemma {:induction false} RunFail(
    reducedMotion: bool, rate: Rate, actions: seq<Action>, s: Player, f: Failure, p: PersonaId)
    requires WithinSession(actions) && !f.Terminal() && SeatOf(p) < SEATS
    requires s == Fresh(reducedMotion, rate) && AtRest(s)
    ensures RunTallied(s, actions, f, p)
    decreases |actions|
  {
    if actions == [] {
      NothingTallied(s, f, p);
    } else {
      var init, last := actions[..|actions| - 1], actions[|actions| - 1];
      SessionBefore(actions, init, last);
      RunFail(reducedMotion, rate, init, s, f, p);
      RunFailSnoc(reducedMotion, rate, init, last, actions, s, Run(s, init), f, p);
    }
  }

  lemma RunFailSnoc(
    reducedMotion: bool, rate: Rate, init: seq<Action>, last: Action, actions: seq<Action>,
    s: Player, before: Effect, f: Failure, p: PersonaId)
    requires WithinSession(init) && InSession(last) && actions == init + [last] && !f.Terminal() && SeatOf(p) < SEATS
    requires s == Fresh(reducedMotion, rate) && AtRest(s) && before == Run(s, init)
    requires RunTallied(s, init, f, p)
    ensures RunTallied(s, actions, f, p)
  {
    RunInv(reducedMotion, rate, init);
    RunRecords(reducedMotion, rate, init, before);
    RunSnoc(s, actions, init, last);
    LostSnoc(s, actions, init, last, f);
    RunStep(before, init, last, actions, Run(s, actions), Lost(s, init, f), f, p);
  }

  /** The conservation law, in every session and on any feed: each copy of a per-persona failure
      that was fed is replayed, still there, or overwritten, and never two of these. */
  lemma FailuresAreConserved(reducedMotion: bool, rate: Rate, actions: seq<Action>, f: Failure)
    requires WithinSession(actions) && !f.Terminal() && AtRest(Fresh(reducedMotion, rate))
    ensures var e := Run(Fresh(reducedMotion, rate), actions);
      Replays(e.out, f) + Load(e.player, f) + Lost(Fresh(reducedMotion, rate), actions, f) == TimesFed(FeedOf(actions), f)
  {
    RunFail(reducedMotion, rate, actions, Fresh(reducedMotion, rate), f, Skeptic);
  }

  /** A per-persona failure is never replayed more often than it was fed. */
  lemma NoFailureInvented(reducedMotion: bool, rate: Rate, actions: seq<Action>, f: Failure)
    requires WithinSession(actions) && !f.Terminal()
    ensures Replays(Run(Fresh(reducedMotion, rate), actions).out, f) <= TimesFed(FeedOf(actions), f)
  {
    FreshAtRest(reducedMotion, rate);
    FailuresAreConserved(reducedMotion, rate, actions, f);
  }

  // ----- At the end of a session

  lemma PanelHasNoModerator(rec: Recording, n: nat)
    ensures PanelCount(PanelTurns(rec, n)) == n
  {
  }

  lemma PanelTurnsPlayed(rec: Recording)
    ensures PanelCount(Turns(rec)) == SEATS * LeadingRun(rec.roundComplete, 1)
  {
    PanelHasNoModerator(rec, SEATS * LeadingRun(rec.roundComplete, 1));
    var panel := PanelTurns(rec, SEATS * LeadingRun(rec.roundComplete, 1));
    assert Turns(rec) == panel || Turns(rec)[..|panel|] == panel;
  }

  /** Every failure of `p` was fed in a round that got complete; the latest one tells. */
  ghost predicate InCompleteRounds(feed: seq<Delivery>, p: PersonaId) {
    var latest := LatestIn(feed, p);
    latest.LastFailure? ==> latest.round <= LeadingRun(Recorded(feed).roundComplete, 1)
  }

  /** Once all is played, nothing is held for such a panelist any more. */
  lemma FinishedHoldsNothing(s: Player, log: seq<Input>, feed: seq<Delivery>, p: PersonaId)
    requires InStep(s, log, Recorded(feed)) && s.cursor.Finished? && Tracked(s, log, p, LatestIn(feed, p))
    requires InCompleteRounds(feed, p)
    ensures p !in s.personaErrors && s.pendingErrors == []
  {
    PanelTurnsPlayed(s.rec);
    assert ClosedTurns(s) == SEATS * LeadingRun(s.rec.roundComplete, 1);
  }

  lemma SessionFinishes(reducedMotion: bool, rate: Rate, actions: seq<Action>, s: Player, e: Effect, f: Failure, p: PersonaId)
    requires WithinSession(actions) && Settled(FeedOf(actions)) && p in PANELISTS && f.persona == Some(p)
    requires s == Fresh(reducedMotion, rate) && AtRest(s) && e == Run(s, actions)
    requires e.player.cursor.Finished? && InCompleteRounds(FeedOf(actions), p)
    ensures Load(e.player, f) == 0 && Tallied(e, FeedOf(actions), Lost(s, actions, f), f, p)
  {
    RunFail(reducedMotion, rate, actions, s, f, p);
    RunExact(reducedMotion, rate, actions);
    FinishedHoldsNothing(e.player, e.out, FeedOf(actions), p);
  }

  /** When replay is one for one: in a settled session that reached its end, and for a panelist whose
      failures all fall in completed rounds, a failure is replayed as often as it was fed if and only
      if none was fed while it was still held. */
  lemma OneForOneIff(reducedMotion: bool, rate: Rate, actions: seq<Action>, f: Failure, p: PersonaId)
    requires WithinSession(actions) && Settled(FeedOf(actions)) && p in PANELISTS && f.persona == Some(p)
    requires AtRest(Fresh(reducedMotion, rate)) && Run(Fresh(reducedMotion, rate), actions).player.cursor.Finished?
    requires InCompleteRounds(FeedOf(actions), p)
    ensures Replays(Run(Fresh(reducedMotion, rate), actions).out, f) == TimesFed(FeedOf(actions), f)
       <==> Lost(Fresh(reducedMotion, rate), actions, f) == 0
  {
    var s := Fresh(reducedMotion, rate);
    SessionFinishes(reducedMotion, rate, actions, s, Run(s, actions), f, p);
  }

  // ----- A condition on the feed alone

  /** How many failures of a persona a feed carries. */
  function FailuresFed(feed: seq<Delivery>, p: PersonaId): nat {
    if feed == [] then 0
    else FailuresFed(feed[..|feed| - 1], p) + if FailureOf(feed[|feed| - 1], p) then 1 else 0
  }

  predicate FailureOf(d: Delivery, p: PersonaId) {
    d.Arrival? && d.event.Error? && d.event.failure.persona == Some(p)
  }

  lemma {:induction false} LatestIsFed(feed: seq<Delivery>, p: PersonaId)
    ensures LatestIn(feed, p).LastFailure? ==> FailuresFed(feed, p) >= 1
  {
    if feed != [] {
      LatestIsFed(feed[..|feed| - 1], p);
    }
  }

  lemma FailuresFedSnoc(init: seq<Action>, last: Action, actions: seq<Action>, p: PersonaId)
    requires actions == init + [last]
    ensures FailuresFed(FeedOf(actions), p) ==
            FailuresFed(FeedOf(init), p) + if last.Feed? && FailureOf(Arrival(last.event), p) then 1 else 0
  {
    var feed := FeedOf(init);
    ExpandSnoc(DeliveryOf, init, last);
    if DeliveryOf(last) == [] {
      assert FeedOf(actions) == feed;
    } else {
      assert FeedOf(actions)[..|feed|] == feed;
    }
  }

  lemma LosingTakesTwo(s: Player, log: seq<Input>, feed: seq<Delivery>, last: Action, f: Failure, p: PersonaId)
    requires Tracked(s, log, p, LatestIn(feed, p)) && f.persona == Some(p) && LostNow(s, last, f) > 0
    ensures FailuresFed(feed, p) >= 1 && last.Feed? && FailureOf(Arrival(last.event), p)
  {
    LatestIsFed(feed, p);
  }

  /** A panelist that fails at most once loses nothing, in any session. */
  lemma {:induction false} FewFailuresLoseNone(
    reducedMotion: bool, rate: Rate, actions: seq<Action>, s: Player, f: Failure, p: PersonaId)
    requires WithinSession(actions) && p in PANELISTS && f.persona == Some(p)
    requires s == Fresh(reducedMotion, rate) && AtRest(s) && FailuresFed(FeedOf(actions), p) <= 1
    ensures Lost(s, actions, f) == 0
    decreases |actions|
  {
    if actions != [] {
      var init, last := actions[..|actions| - 1], actions[|actions| - 1];
      assert actions == init + [last];
      SessionBefore(actions, init, last);
      FailuresFedSnoc(init, last, actions, p);
      FewFailuresLoseNone(reducedMotion, rate, init, s, f, p);
      var before := Run(s, init);
      RunFail(reducedMotion, rate, init, s, f, p);
      LostSnoc(s, actions, init, last, f);
      if LostNow(before.player, last, f) > 0 {
        LosingTakesTwo(before.player, before.out, FeedOf(init), last, f, p);
      }
    }
  }

  /** So a caller who feeds at most one failure of a panelist sees it replayed one for one. */
  lemma OneFailureIsOneForOne(reducedMotion: bool, rate: Rate, actions: seq<Action>, f: Failure, p: PersonaId)
    requires WithinSession(actions) && Settled(FeedOf(actions)) && p in PANELISTS && f.persona == Some(p)
    requires Run(Fresh(reducedMotion, rate), actions).player.cursor.Finished?
    requires InCompleteRounds(FeedOf(actions), p) && FailuresFed(FeedOf(actions), p) <= 1
    ensures Replays(Run(Fresh(reducedMotion, rate), actions).out, f) == TimesFed(FeedOf(actions), f)
  {
    FreshAtRest(reducedMotion, rate);
    FewFailuresLoseNone(reducedMotion, rate, actions, Fresh(reducedMotion, rate), f, p);
    OneForOneIff(reducedMotion, rate, actions, f, p);
  }

  // ----- Where replay is not one for one

  function OptimistFails(message: string): Failure {
    Failure(Some(Optimist), message)
  }

  /** The optimist fails in round 1, and again in round 2 before its first turn was played. */
  function Twice(a: string, b: string): seq<Action> {
    [Action.Feed(Error(OptimistFails(a))), Action.Feed(RoundComplete(1)), Action.Feed(Error(OptimistFails(b)))]
  }

  lemma FirstFailureHeld(s: Player, a: string, t: Player)
    requires AtRest(s) && s.rec == BLANK && s.cursor == AtPanelist(1, 0) && s.active.None? && s.timer.None?
    requires t == Act(s, Action.Feed(Error(OptimistFails(a)))).player
    ensures t == s.(personaErrors := s.personaErrors[Optimist := OptimistFails(a)])
  {
  }

  lemma RoundOpensSkeptic(s: Player, f: Failure, t: Player)
    requires AtRest(s) && s.rec == BLANK && s.cursor == AtPanelist(1, 0) && s.active.None? && s.timer.None?
    requires f.persona == Some(Optimist) && Held(s, f) && t == Act(s, Action.Feed(RoundComplete(1))).player
    ensures Held(t, f)
  {
    var fed := s.(rec := Record(s.rec, RoundComplete(1)));
    assert fed.rec.roundComplete == {1};
    var p := PrepareNextTurn(fed).player;
    assert p.active.value.persona == Skeptic && p.personaErrors == s.personaErrors;
  }

  /** Of two such failures the first is lost: neither shown nor kept. The feed is settled, and the
      backend can send it. */
  lemma SecondFailureOverwrites(reducedMotion: bool, rate: Rate, a: string, b: string)
    requires AtRest(Fresh(reducedMotion, rate))
    ensures Lost(Fresh(reducedMotion, rate), Twice(a, b), OptimistFails(a)) == 1
    ensures WithinSession(Twice(a, b)) && Settled(FeedOf(Twice(a, b)))
  {
    var s, f := Fresh(reducedMotion, rate), OptimistFails(a);
    var all := Twice(a, b);
    var one, two := all[..1], all[..2];
    RunSnoc(s, one, [], all[0]);
    RunSnoc(s, two, one, all[1]);
    FirstFailureHeld(s, a, Run(s, one).player);
    RoundOpensSkeptic(Run(s, one).player, f, Run(s, two).player);
    LostSnoc(s, all, two, all[2], f);
    LostSnoc(s, two, one, all[1], f);
    LostSnoc(s, one, [], all[0], f);
    TwiceIsSettled(a, b);
  }

  lemma TwiceIsSettled(a: string, b: string)
    ensures FeedOf(Twice(a, b)) == [Arrival(Error(OptimistFails(a))), Arrival(RoundComplete(1)), Arrival(Error(OptimistFails(b)))]
    ensures Settled(FeedOf(Twice(a, b)))
  {
    var first, round, second := Error(OptimistFails(a)), RoundComplete(1), Error(OptimistFails(b));
    ExpandSnoc(DeliveryOf, [], Action.Feed(first));
    ExpandSnoc(DeliveryOf, [] + [Action.Feed(first)], Action.Feed(round));
    ExpandSnoc(DeliveryOf, [] + [Action.Feed(first)] + [Action.Feed(round)], Action.Feed(second));
    assert Twice(a, b) == [] + [Action.Feed(first)] + [Action.Feed(round)] + [Action.Feed(second)];
    SettledSnoc([], Arrival(first));
    SettledSnoc([] + [Arrival(first)], Arrival(round));
    SettledSnoc([] + [Arrival(first)] + [Arrival(round)], Arrival(second));
    assert FeedOf(Twice(a, b)) == [] + [Arrival(first)] + [Arrival(round)] + [Arrival(second)];
  }

  ghost predicate LosesAtLeast(s: Player, actions: seq<Action>, f: Failure, n: nat)
    requires AtRest(s)
  {
    Lost(s, actions, f) >= n
  }

  /** What is lost stays lost. */
  lemma {:induction false} LossIsForGood(s: Player, actions: seq<Action>, all: seq<Action>, f: Failure, n: nat)
    requires AtRest(s) && actions <= all && LosesAtLeast(s, actions, f, n)
    ensures LosesAtLeast(s, all, f, n)
    decreases |all|
  {
    if |all| > |actions| {
      LossIsForGood(s, actions, all[..|all| - 1], f, n);
      LostGrows(s, all, all[..|all| - 1], all[|all| - 1], f, n);
    } else {
      assert actions == all;
    }
  }

  lemma LostGrows(s: Player, actions: seq<Action>, init: seq<Action>, last: Action, f: Failure, n: nat)
    requires AtRest(s) && actions == init + [last] && LosesAtLeast(s, init, f, n)
    ensures LosesAtLeast(s, actions, f, n)
  {
    LostSnoc(s, actions, init, last, f);
  }

  /** Errors are not replayed one for one: however the session goes on, short of feeding it again,
      the optimist's first failure is never shown. */
  lemma FirstFailureNeverShown(reducedMotion: bool, rate: Rate, a: string, b: string, more: seq<Action>)
    requires WithinSession(more) && TimesFed(FeedOf(Twice(a, b) + more), OptimistFails(a)) == 1
    ensures Wire(Error(OptimistFails(a))) !in Run(Fresh(reducedMotion, rate), Twice(a, b) + more).out
  {
    FreshAtRest(reducedMotion, rate);
    var f, actions := OptimistFails(a), Twice(a, b) + more;
    SecondFailureOverwrites(reducedMotion, rate, a, b);
    LossIsForGood(Fresh(reducedMotion, rate), Twice(a, b), actions, f, 1);
    assert WithinSession(actions);
    FailuresAreConserved(reducedMotion, rate, actions, f);
  }

  // ----- The last one is shown

  lemma LatestIsOut(s: Player, log: seq<Input>, p: PersonaId, latest: LastFailure)
    requires Tracked(s, log, p, latest) && latest.LastFailure? && p !in s.personaErrors && s.pendingErrors == []
    ensures Wire(Error(latest.failure)) in log
  {
  }

  /** In a session that reached its end, the last failure fed for each panelist whose round got
      complete has been shown, and shown before the end: the log stays orderly to its last input. */
  lemma LastFailureSurfaces(reducedMotion: bool, rate: Rate, actions: seq<Action>, p: PersonaId)
    requires WithinSession(actions) && Settled(FeedOf(actions)) && p in PANELISTS
    requires Run(Fresh(reducedMotion, rate), actions).player.cursor.Finished?
    requires LatestIn(FeedOf(actions), p).LastFailure? && InCompleteRounds(FeedOf(actions), p)
    ensures Wire(Error(LatestIn(FeedOf(actions), p).failure)) in Run(Fresh(reducedMotion, rate), actions).out
    ensures FloorAfter(Nobody, Run(Fresh(reducedMotion, rate), actions).out) == Over
  {
    FreshAtRest(reducedMotion, rate);
    var s := Fresh(reducedMotion, rate);
    var e := Run(s, actions);
    var f := Failure(Some(p), "");
    SessionFinishes(reducedMotion, rate, actions, s, e, f, p);
    RunExact(reducedMotion, rate, actions);
    FinishedHoldsNothing(e.player, e.out, FeedOf(actions), p);
    LatestIsOut(e.player, e.out, p, LatestIn(FeedOf(actions), p));
    RunFloor(reducedMotion, rate, actions);
  }
}
