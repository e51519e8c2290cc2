/** Every fault of a session is told: the errors on display are its notices in order, notices arise
    from faults that were fed and from nothing else. */
module Faults {
  import opened Protocol
  import opened Sequences
  import opened Reducer
  import opened Playback
  import opened Wakeup
  import opened Replay
  import opened Sessions
  import opened Display
  import opened Voice
  import opened Endings

  /** What an input says to the user, if anything: a failure in its own words or in a default's, a
      transport fault, a connection lost too early. */
  function NoticeOf(input: Input): seq<Failure> {
    match input
    case Wire(Error(failure)) =>
      if failure.message == "" then [Failure(failure.persona, "an error occurred")] else [failure]
    case Transport(message) => [Failure(None, message)]
    case Status(status) => if status == Closed then [Failure(None, "connection closed before a verdict")] else []
    case _ => []
  }

  function Notices(log: seq<Input>): seq<Failure> {
    Expand(NoticeOf, log)
  }

  function LastFifty(notices: seq<Failure>): seq<Failure> {
    if |notices| <= 50 then notices else notices[|notices| - 50..]
  }

  lemma LastFiftyAbsorbs(a: seq<Failure>, b: seq<Failure>)
    ensures LastFifty(LastFifty(a) + b) == LastFifty(a + b)
  {
  }

  lemma WithErrorTells(errors: seq<Failure>, notice: Failure)
    ensures WithError(errors, notice) == LastFifty(errors + [notice])
  {
  }

  lemma FailureTells(v: DebateState, failure: Failure)
    ensures Reduce(v, Wire(Error(failure))).errors == LastFifty(v.errors + NoticeOf(Wire(Error(failure))))
  {
    WithErrorTells(v.errors, NoticeOf(Wire(Error(failure)))[0]);
  }

  lemma CloseTells(v: DebateState)
    requires !v.phase.Terminal()
    ensures Reduce(v, Status(Closed)).errors == LastFifty(v.errors + NoticeOf(Status(Closed)))
  {
    WithErrorTells(v.errors, NoticeOf(Status(Closed))[0]);
  }

  lemma OthersAreQuiet(v: DebateState, input: Input)
    requires !(input.Wire? && input.event.Error?) && !input.Transport? && !input.Status?
    ensures Reduce(v, input).errors == v.errors && NoticeOf(input) == []
  {
  }

  /** One input adds its notice, and drops the oldest one on display if that makes too many. */
  lemma ReduceTells(v: DebateState, input: Input)
    requires |v.errors| <= 50 && input != Status(Connecting) && (input == Status(Closed) ==> !v.phase.Terminal())
    ensures Reduce(v, input).errors == LastFifty(v.errors + NoticeOf(input))
  {
    assert v.errors + [] == v.errors;
    if input.Wire? && input.event.Error? {
      FailureTells(v, input.event.failure);
    } else if input.Transport? {
      WithErrorTells(v.errors, Failure(None, input.message));
    } else if input == Status(Closed) {
      CloseTells(v);
    } else if !input.Status? {
      OthersAreQuiet(v, input);
    }
  }

  /** A log in which nothing overlaps and nothing follows an ending tells every notice it holds. */
  lemma {:induction false} FoldTells(v: DebateState, log: seq<Input>)
    requires Voices(v, Nobody) && |v.errors| <= 50 && FloorAfter(Nobody, log) != Disorder
    ensures Fold(v, log).errors == LastFifty(v.errors + Notices(log))
  {
    if log == [] {
      assert v.errors + [] == v.errors;
    } else {
      var init, last := log[..|log| - 1], log[|log| - 1];
      FoldTells(v, init);
      FoldVoices(v, Nobody, init);
      ReduceTells(Fold(v, init), last);
      LastFiftyAbsorbs(v.errors + Notices(init), NoticeOf(last));
      Assoc(v.errors, Notices(init), NoticeOf(last));
    }
  }

  /** At every point of every session, whatever is fed and whatever was on display before: the
      errors shown are the last fifty notices of the log, in order. */
  lemma SessionTells(before: DebateState, reducedMotion: bool, rate: Rate, actions: seq<Action>)
    requires WithinSession(actions) && AtRest(Fresh(reducedMotion, rate))
    ensures View(before, reducedMotion, rate, actions).errors
         == LastFifty(Notices(Run(Fresh(reducedMotion, rate), actions).out))
  {
    SessionOrderly(reducedMotion, rate, actions);
    var out := Run(Fresh(reducedMotion, rate), actions).out;
    FoldTells(Reduce(before, Status(Connecting)), out);
    assert [] + Notices(out) == Notices(out);
  }

  // ----- Notices come from faults

  /** Whether a call brings a fault with it. */
  function Fault(action: Action): nat {
    match action
    case Feed(event) => if event.Error? then 1 else 0
    case FeedStatus(status) => if status == Closed then 1 else 0
    case FeedTransport(_) => 1
    case _ => 0
  }

  function FaultsFed(actions: seq<Action>): nat {
    if actions == [] then 0 else FaultsFed(actions[..|actions| - 1]) + Fault(actions[|actions| - 1])
  }

  /** The notices a player may still have to give. */
  function Untold(s: Player): nat {
    |s.pendingErrors| + |s.personaErrors|
    + if !s.cursor.Finished? && (s.rec.sessionError.Some? || s.rec.closed) then 1 else 0
  }

  lemma NoticesConcat(a: seq<Input>, b: seq<Input>)
    ensures Notices(a + b) == Notices(a) + Notices(b)
  {
    ExpandConcat(NoticeOf, a, b);
  }

  lemma NoticeOne(input: Input)
    ensures Notices([input]) == NoticeOf(input)
  {
    ExpandOne(NoticeOf, input);
  }

  lemma OneNotice(failure: Failure)
    ensures |NoticeOf(Wire(Error(failure)))| == 1
  {
  }

  lemma {:induction false} ErrorNotices(failures: seq<Failure>)
    ensures |Notices(ErrorInputs(failures))| == |failures|
  {
    if failures != [] {
      var n := |failures| - 1;
      ErrorNotices(failures[..n]);
      OneNotice(failures[n]);
      assert ErrorInputs(failures) == ErrorInputs(failures[..n]) + [Wire(Error(failures[n]))];
      ExpandSnoc(NoticeOf, ErrorInputs(failures[..n]), Wire(Error(failures[n])));
    }
  }

  lemma PendingNotices(s: Player)
    ensures |Notices(PendingInputs(s))| == |s.pendingErrors|
  {
    var done := if s.pendingDone.Some? then
        [Wire(PersonaDone(s.pendingDone.value.persona, s.pendingDone.value.round))] else [];
    var round := if s.pendingRoundComplete.Some? then [Wire(RoundComplete(s.pendingRoundComplete.value))] else [];
    NoticesConcat(done + round, ErrorInputs(s.pendingErrors));
    NoticesConcat(done, round);
    if done != [] {
      NoticeOne(done[0]);
    }
    if round != [] {
      NoticeOne(round[0]);
    }
    ErrorNotices(s.pendingErrors);
  }

  lemma FinishUntold(s: Player, o: Outcome)
    requires Sane(s) && s.active.None? && o == PrepareNextTurn(s) && o.delay == Stop && !s.cursor.Finished?
    ensures |Notices(o.out)| + Untold(o.player) <= Untold(s)
  {
    var last := if s.rec.verdict.Some? then Wire(Verdict(s.rec.verdict.value)) else TerminalInput(s.rec)[0];
    assert o.out == PendingInputs(s) + [last] && o.player == Flushed(s).(cursor := Finished);
    ToldLast(s, o.out, last);
  }

  /** One notice at most for how the session ended, and none for a verdict. */
  lemma ToldLast(s: Player, out: seq<Input>, last: Input)
    requires out == PendingInputs(s) + [last]
    ensures |Notices(out)| <= |s.pendingErrors| + if last.Wire? && last.event.Verdict? then 0 else 1
  {
    PendingNotices(s);
    NoticesConcat(PendingInputs(s), [last]);
    NoticeOne(last);
  }

  lemma OpenUntold(s: Player, o: Outcome)
    requires Sane(s) && s.active.None? && o == PrepareNextTurn(s) && o.delay.After?
    ensures |Notices(o.out)| + Untold(o.player) <= Untold(s)
  {
    assert o.out == PendingInputs(s) && o.player.pendingErrors == [];
    assert o.player.personaErrors == s.personaErrors && o.player.rec == s.rec && !s.cursor.Finished?;
    PendingNotices(s);
  }

  lemma PrepareUntold(s: Player, o: Outcome)
    requires Sane(s) && s.active.None? && o == PrepareNextTurn(s)
    ensures |Notices(o.out)| + Untold(o.player) <= Untold(s)
  {
    if o.delay.After? {
      OpenUntold(s, o);
    } else if o.delay == Stop && !s.cursor.Finished? {
      FinishUntold(s, o);
    } else {
      ReadyOrNot(s, o);
    }
  }

  /** Closing a turn moves what is held for its persona to what is pending. */
  lemma CloseUntold(s: Player, t: Player, p: PersonaId)
    requires t.personaErrors == s.personaErrors - {p} && t.rec == s.rec && !s.cursor.Finished?
    requires t.pendingErrors == s.pendingErrors + if p in s.personaErrors then [s.personaErrors[p]] else []
    ensures Untold(t) <= Untold(s)
  {
    if p in s.personaErrors {
      assert s.personaErrors.Keys == (s.personaErrors - {p}).Keys + {p};
    } else {
      assert s.personaErrors - {p} == s.personaErrors;
    }
  }

  lemma RevealUntold(s: Player, o: Outcome)
    requires Sane(s) && s.active.Some? && o == RevealStep(s)
    ensures |Notices(o.out)| + Untold(o.player) <= Untold(s)
  {
    var a := s.active.value;
    if a.pos == |a.text| && !a.isModerator {
      CloseUntold(s, o.player, a.persona);
    } else {
      NoticeOne(o.out[0]);
      assert o.player == s.(active := o.player.active, cursor := o.player.cursor);
    }
  }

  lemma StepUntold(s: Player)
    requires Sane(s)
    ensures |Notices(Step(s).out)| + Untold(Step(s).player) <= Untold(s)
  {
    if s.active.None? {
      PrepareSane(s);
      PrepareUntold(s, PrepareNextTurn(s));
      var o := PrepareNextTurn(s);
      if o.delay.After? {
        RevealUntold(o.player, RevealStep(o.player));
        NoticesConcat(o.out, RevealStep(o.player).out);
      }
    } else {
      RevealUntold(s, RevealStep(s));
    }
  }

  lemma {:induction false} DrainUntold(s: Player)
    requires Sane(s)
    ensures |Notices(Drain(s).out)| + Untold(Drain(s).player) <= Untold(s)
    decreases CursorRank(s), RoundsLeft(s), SeatsLeft(s), s.active.None?, TextLeft(s)
  {
    StepSane(s);
    StepUntold(s);
    var o := Step(s);
    if o.delay.After? {
      StepProgress(s);
      DrainUntold(o.player);
      NoticesConcat(o.out, Drain(o.player).out);
    }
  }

  lemma PumpUntold(s: Player)
    requires Sane(s)
    ensures |Notices(Pump(s).out)| + Untold(Pump(s).player) <= Untold(s)
  {
    StepUntold(s);
  }

  lemma FedUntold(s: Player, event: Event)
    ensures Untold(Fed(s, event)) <= Untold(s) + Fault(Feed(event))
  {
    if event.Error? && !event.failure.Terminal() {
      var p := event.failure.persona.value;
      assert Fed(s, event).personaErrors.Keys == s.personaErrors.Keys + {p};
    }
  }

  lemma ActUntold(s: Player, action: Action)
    requires AtRest(s) && InSession(action)
    ensures |Notices(Act(s, action).out)| + Untold(Act(s, action).player) <= Untold(s) + Fault(action)
  {
    match action
    case Feed(event) =>
      FedUntold(s, event);
      PumpUntold(Fed(s, event));
    case FeedStatus(status) =>
      if status == Closed {
        PumpUntold(s.(rec := s.rec.(closed := true)));
      } else {
        NoticeOne(Status(status));
      }
    case FeedTransport(message) => NoticeOne(Transport(message));
    case TimerFires =>
      if s.timer.Some? {
        PumpUntold(s.(timer := None));
      }
    case SkipToLive => DrainUntold(s.(timer := None, draining := true));
    case SetRate(_) =>
  }

  /** All told and still to tell is within a number of faults. */
  predicate Within(e: Effect, faults: nat) {
    |Notices(e.out)| + Untold(e.player) <= faults
  }

  lemma CallWithin(e: Effect, action: Action, last: Effect, faults: nat)
    requires AtRest(e.player) && InSession(action) && last == Act(e.player, action) && Within(e, faults)
    ensures Within(Effect(last.player, e.out + last.out), faults + Fault(action))
  {
    ActUntold(e.player, action);
    NoticesConcat(e.out, last.out);
  }

  lemma {:induction false} RunWithin(s: Player, actions: seq<Action>)
    requires AtRest(s) && Untold(s) == 0 && WithinSession(actions)
    ensures Within(Run(s, actions), FaultsFed(actions))
    decreases |actions|
  {
    if actions != [] {
      var init, last := actions[..|actions| - 1], actions[|actions| - 1];
      RunWithin(s, init);
      RunSnoc(s, actions, init, last);
      CallWithin(Run(s, init), last, Act(Run(s, init).player, last), FaultsFed(init));
    }
  }

  /** No notice without a fault: in every session at most one for each fault fed. */
  lemma NoNoticeInvented(reducedMotion: bool, rate: Rate, actions: seq<Action>)
    requires WithinSession(actions) && AtRest(Fresh(reducedMotion, rate))
    ensures |Notices(Run(Fresh(reducedMotion, rate), actions).out)| <= FaultsFed(actions)
  {
    RunWithin(Fresh(reducedMotion, rate), actions);
  }

  /** So with at most fifty faults fed, no notice is ever dropped from the display. */
  lemma FewFaultsAreAllShown(before: DebateState, reducedMotion: bool, rate: Rate, actions: seq<Action>)
    requires WithinSession(actions) && AtRest(Fresh(reducedMotion, rate)) && FaultsFed(actions) <= 50
    ensures View(before, reducedMotion, rate, actions).errors == Notices(Run(Fresh(reducedMotion, rate), actions).out)
  {
    SessionTells(before, reducedMotion, rate, actions);
    NoNoticeInvented(reducedMotion, rate, actions);
  }

  // ----- Asides: what the player passes through

  /** Transport faults and advisory statuses, which playback neither delays nor reorders. */
  function AsideOf(input: Input): seq<Input> {
    if input.Transport? || (input.Status? && input.status != Closed) then [input] else []
  }

  function Asides(log: seq<Input>): seq<Input> {
    Expand(AsideOf, log)
  }

  /** The same, as they are fed. */
  function AsideFed(action: Action): seq<Input> {
    match action
    case FeedTransport(message) => [Transport(message)]
    case FeedStatus(status) => if status == Closed then [] else [Status(status)]
    case _ => []
  }

  ghost predicate Replayed(log: seq<Input>) {
    forall input <- log :: AsideOf(input) == []
  }

  lemma {:induction false} ReplayedHasNone(log: seq<Input>)
    requires Replayed(log)
    ensures Asides(log) == []
  {
    if log != [] {
      var init, last := log[..|log| - 1], log[|log| - 1];
      assert last in log && forall input <- init :: input in log;
      ReplayedHasNone(init);
    }
  }

  lemma StepReplays(s: Player)
    requires Sane(s)
    ensures Replayed(Step(s).out)
  {
    if s.active.None? {
      PrepareSane(s);
      PrepareReplays(s);
    }
  }

  lemma PrepareReplays(s: Player)
    requires Sane(s) && s.active.None?
    ensures Replayed(PrepareNextTurn(s).out)
  {
    var pending, out := PendingInputs(s), PrepareNextTurn(s).out;
    PendingReplays(s);
    PrepareOut(s, PrepareNextTurn(s));
    if out != [] {
      var last := out[|pending|..];
      assert out == pending + last && (last == [] || (last == [last[0]] && AsideOf(last[0]) == []));
    }
  }

  lemma PendingReplays(s: Player)
    ensures Replayed(PendingInputs(s))
  {
  }

  lemma {:induction false} DrainReplays(s: Player)
    requires Sane(s)
    ensures Replayed(Drain(s).out)
    decreases CursorRank(s), RoundsLeft(s), SeatsLeft(s), s.active.None?, TextLeft(s)
  {
    StepSane(s);
    StepReplays(s);
    if Step(s).delay.After? {
      StepProgress(s);
      DrainReplays(Step(s).player);
    }
  }

  lemma ActAsides(s: Player, action: Action)
    requires AtRest(s) && InSession(action)
    ensures Asides(Act(s, action).out) == AsideFed(action)
  {
    match action
    case Feed(event) =>
      StepReplays(Fed(s, event));
      ReplayedHasNone(Act(s, action).out);
    case FeedStatus(status) =>
      if status == Closed {
        StepReplays(s.(rec := s.rec.(closed := true)));
        ReplayedHasNone(Act(s, action).out);
      } else {
        ExpandOne(AsideOf, Status(status));
      }
    case FeedTransport(message) => ExpandOne(AsideOf, Transport(message));
    case TimerFires =>
      if s.timer.Some? {
        StepReplays(s.(timer := None));
      }
      ReplayedHasNone(Act(s, action).out);
    case SkipToLive =>
      DrainReplays(s.(timer := None, draining := true));
      ReplayedHasNone(Act(s, action).out);
    case SetRate(_) =>
  }

  /** A log's asides are those fed, in order. */
  ghost predicate PassedOn(log: seq<Input>, actions: seq<Action>) {
    Asides(log) == Expand(AsideFed, actions)
  }

  lemma CallPassesOn(log: seq<Input>, init: seq<Action>, out: seq<Input>, last: Action)
    requires PassedOn(log, init) && Asides(out) == AsideFed(last)
    ensures PassedOn(log + out, init + [last])
  {
    ExpandConcat(AsideOf, log, out);
    ExpandSnoc(AsideFed, init, last);
  }

  lemma {:induction false} RunPassesOn(s: Player, actions: seq<Action>)
    requires AtRest(s) && WithinSession(actions)
    ensures PassedOn(Run(s, actions).out, actions)
    decreases |actions|
  {
    if actions != [] {
      var init, last := actions[..|actions| - 1], actions[|actions| - 1];
      assert actions == init + [last];
      RunPassesOn(s, init);
      RunSnoc(s, actions, init, last);
      ActAsides(Run(s, init).player, last);
      CallPassesOn(Run(s, init).out, init, Act(Run(s, init).player, last).out, last);
    }
  }

  /** Transport faults and advisory statuses reach the display at once and in order, none lost,
      repeated or made up, whatever the replay is doing. */
  lemma AsidesPassThrough(reducedMotion: bool, rate: Rate, actions: seq<Action>)
    requires WithinSession(actions) && AtRest(Fresh(reducedMotion, rate))
    ensures Asides(Run(Fresh(reducedMotion, rate), actions).out) == Expand(AsideFed, actions)
  {
    RunPassesOn(Fresh(reducedMotion, rate), actions);
  }

  // ----- Who reads what

  lemma {:induction false} NoticeIn(log: seq<Input>, input: Input)
    requires input in log
    ensures forall notice <- NoticeOf(input) :: notice in Notices(log)
  {
    var init, last := log[..|log| - 1], log[|log| - 1];
    if input != last {
      assert log == init + [last];
      NoticeIn(init, input);
    }
  }

  /** A transport fault is on display from the moment it was fed, unless fifty followed. */
  lemma TransportFaultIsShown(
    before: DebateState, reducedMotion: bool, rate: Rate, actions: seq<Action>, message: string)
    requires WithinSession(actions) && AtRest(Fresh(reducedMotion, rate)) && FaultsFed(actions) <= 50
    requires FeedTransport(message) in actions
    ensures Failure(None, message) in View(before, reducedMotion, rate, actions).errors
  {
    AsidesPassThrough(reducedMotion, rate, actions);
    TransportIsTold(Run(Fresh(reducedMotion, rate), actions).out, actions, message);
    FewFaultsAreAllShown(before, reducedMotion, rate, actions);
  }

  lemma TransportIsTold(log: seq<Input>, actions: seq<Action>, message: string)
    requires Asides(log) == Expand(AsideFed, actions) && FeedTransport(message) in actions
    ensures Failure(None, message) in Notices(log)
  {
    InExpand(actions, FeedTransport(message), Transport(message));
    InAsides(log, Transport(message));
    NoticeIn(log, Transport(message));
    assert Failure(None, message) in NoticeOf(Transport(message));
  }

  lemma {:induction false} InExpand(actions: seq<Action>, action: Action, input: Input)
    requires action in actions && input in AsideFed(action)
    ensures input in Expand(AsideFed, actions)
  {
    var init, last := actions[..|actions| - 1], actions[|actions| - 1];
    if action != last {
      assert actions == init + [last];
      InExpand(init, action, input);
    }
  }

  lemma {:induction false} InAsides(log: seq<Input>, input: Input)
    requires input in Asides(log)
    ensures input in log
  {
    var init, last := log[..|log| - 1], log[|log| - 1];
    if input in Asides(init) {
      InAsides(init, input);
    }
  }
}
