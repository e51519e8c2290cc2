/** "This changes cadence and order, never data": on a settled feed, every run that has nothing
    left to play has dispatched exactly the session its recording calls for. */
module Faithful {
  import opened Protocol
  import opened Sequences
  import opened Playback
  import opened Wakeup
  import opened Replay
  import opened Sessions

  /** A feed is settled if it respects the backend's promises: no panelist text for a round
      already complete, no synthesis after the verdict, and nothing that would change the course
      of the session once its end is known. */
  predicate Admits(rec: Recording, event: Event) {
    match event
    case Token(persona, round, _) =>
      if persona == Moderator then rec.verdict.None? else round !in rec.roundComplete
    case PersonaDone(_, _) => true
    case RoundComplete(_) => !TerminalKnown(rec)
    case Verdict(_) => !TerminalKnown(rec)
    case Error(failure) => failure.Terminal() ==> !TerminalKnown(rec)
  }

  /** What the wire delivers: the events, and the close. */
  datatype Delivery = Arrival(event: Event) | Hangup

  function Deliver(rec: Recording, d: Delivery): Recording {
    match d
    case Arrival(event) => Record(rec, event)
    case Hangup => rec.(closed := true)
  }

  function Recorded(feed: seq<Delivery>): Recording {
    if feed == [] then BLANK else Deliver(Recorded(feed[..|feed| - 1]), feed[|feed| - 1])
  }

  ghost predicate AdmitsDelivery(rec: Recording, d: Delivery) {
    d.Arrival? ==> Admits(rec, d.event)
  }

  ghost predicate Settled(feed: seq<Delivery>) {
    if feed == [] then true
    else Settled(feed[..|feed| - 1]) && AdmitsDelivery(Recorded(feed[..|feed| - 1]), feed[|feed| - 1])
  }

  lemma SettledSnoc(feed: seq<Delivery>, d: Delivery)
    requires Settled(feed) && AdmitsDelivery(Recorded(feed), d)
    ensures Settled(feed + [d]) && Recorded(feed + [d]) == Deliver(Recorded(feed), d)
  {
    assert (feed + [d])[..|feed|] == feed;
  }

  function DeliveryOf(action: Action): seq<Delivery> {
    match action
    case Feed(event) => [Arrival(event)]
    case FeedStatus(status) => if status == Closed then [Hangup] else []
    case _ => []
  }

  /** The part of a run that came off the wire, in order. */
  function FeedOf(actions: seq<Action>): seq<Delivery> {
    Expand(DeliveryOf, actions)
  }

  // ----- Recordings that are settled

  /** Once the end is known, an admitted delivery changes neither the turns nor the ending. */
  lemma TurnsStable(rec: Recording, d: Delivery)
    requires AdmitsDelivery(rec, d) && TerminalKnown(rec)
    ensures Turns(Deliver(rec, d)) == Turns(rec) && Ending(Deliver(rec, d)) == Ending(rec)
    ensures TerminalKnown(Deliver(rec, d))
  {
    var after := Deliver(rec, d);
    var n := SEATS * LeadingRun(rec.roundComplete, 1);
    assert after.roundComplete == rec.roundComplete && after.verdict == rec.verdict;
    PanelStable(rec, d, n);
  }

  /** An admitted delivery never touches the text of a complete round. */
  lemma TextStable(rec: Recording, d: Delivery, cell: Cell)
    requires AdmitsDelivery(rec, d) && cell.persona != Moderator && cell.round in rec.roundComplete
    ensures TextOf(Deliver(rec, d), cell) == TextOf(rec, cell)
  {
  }

  lemma SynthesisStable(rec: Recording, d: Delivery, cell: Cell)
    requires AdmitsDelivery(rec, d) && cell.persona == Moderator && rec.verdict.Some?
    ensures TextOf(Deliver(rec, d), cell) == TextOf(rec, cell)
  {
  }

  lemma {:induction false} LeadingRounds(rounds: set<nat>, from: nat, r: nat)
    requires from <= r < from + LeadingRun(rounds, from)
    ensures r in rounds
    decreases r - from
  {
    if from < r {
      LeadingRounds(rounds, from + 1, r);
    }
  }

  lemma PanelStable(rec: Recording, d: Delivery, n: nat)
    requires AdmitsDelivery(rec, d) && n == SEATS * LeadingRun(rec.roundComplete, 1)
    ensures PanelTurns(Deliver(rec, d), n) == PanelTurns(rec, n)
  {
    forall k | 0 <= k < n
      ensures TextOf(Deliver(rec, d), SeatCell(k)) == TextOf(rec, SeatCell(k))
    {
      LeadingRounds(rec.roundComplete, 1, SeatCell(k).round);
      TextStable(rec, d, SeatCell(k));
    }
  }

  // ----- The exact invariant

  /** Snapshots are exactly the recorded text, and once panelists are done so is everything. */
  ghost predicate Exact(s: Player, log: seq<Input>) {
    && (forall t <- s.turns :: t.text == TextOf(s.rec, t.cell))
    && (s.cursor.AtModerator? ==> s.turns == Turns(s.rec) && s.rec.verdict.Some?)
    && (s.cursor.Finished? ==>
          TerminalKnown(s.rec) && s.turns == Turns(s.rec) && Atoms(log) == ReplayOf(s.rec))
  }

  /** Before a round that is missing, only the turns of earlier rounds were opened. */
  lemma OpenedBefore(turns: seq<Turn>, rounds: set<nat>, round: nat)
    requires Ordered(turns, rounds) && round >= 1 && round !in rounds
    ensures PanelCount(turns) <= SEATS * (round - 1)
  {
    if PanelCount(turns) > SEATS * (round - 1) {
      SeatCellAt(round, 0);
      assert false;
    }
  }

  /** And every earlier round was complete. */
  lemma OpenedAfter(turns: seq<Turn>, rounds: set<nat>, r: nat)
    requires Ordered(turns, rounds) && 1 <= r && SEATS * (r - 1) < PanelCount(turns)
    ensures r in rounds
  {
    SeatCellAt(r, 0);
    assert turns[SEATS * (r - 1)].cell == SeatCell(SEATS * (r - 1));
  }

  lemma EarlierComplete(turns: seq<Turn>, rounds: set<nat>, n: nat)
    requires Ordered(turns, rounds) && PanelCount(turns) == SEATS * n
    ensures forall r | 1 <= r < 1 + n :: r in rounds
  {
    forall r | 1 <= r < 1 + n
      ensures r in rounds
    {
      OpenedAfter(turns, rounds, r);
    }
  }

  lemma CaughtUpCount(s: Player)
    requires TurnsOk(s) && Sane(s) && s.active.None? && s.cursor.AtPanelist?
    requires s.cursor.round !in s.rec.roundComplete
    ensures PanelCount(s.turns) == |s.turns| == SEATS * (s.cursor.round - 1)
  {
    OpenedBefore(s.turns, s.rec.roundComplete, s.cursor.round);
  }

  /** A player whose next round is missing has opened every turn of the leading complete rounds. */
  lemma CaughtUp(s: Player, log: seq<Input>)
    requires Core(s, log) && Exact(s, log) && s.active.None? && s.cursor.AtPanelist?
    requires s.cursor.round !in s.rec.roundComplete
    ensures s.turns == PanelTurns(s.rec, SEATS * LeadingRun(s.rec.roundComplete, 1))
  {
    var n := s.cursor.round - 1;
    CaughtUpCount(s);
    EarlierComplete(s.turns, s.rec.roundComplete, n);
    LeadingRunIs(s.rec.roundComplete, 1, n);
    OpenedAreRecorded(s.turns, s.rec);
  }

  lemma OpenedAreRecorded(turns: seq<Turn>, rec: Recording)
    requires Ordered(turns, rec.roundComplete) && PanelCount(turns) == |turns|
    requires forall t <- turns :: t.text == TextOf(rec, t.cell)
    ensures turns == PanelTurns(rec, |turns|)
  {
    forall k | 0 <= k < |turns|
      ensures turns[k] == PanelTurns(rec, |turns|)[k]
    {
      assert turns[k] in turns;
    }
  }

  lemma OpenExact(s: Player, log: seq<Input>, o: Outcome)
    requires Core(s, log) && Exact(s, log) && s.active.None? && s.cursor.AtPanelist?
    requires o == PrepareNextTurn(s) && o.delay.After?
    ensures Exact(o.player, log + o.out)
  {
    var turn := OpenShape(s, o);
    if turn.cell.persona == Moderator {
      assert s.cursor.round !in s.rec.roundComplete && s.rec.verdict.Some? && turn.cell == SynthesisCell(s.rec);
      CaughtUp(s, log);
    }
  }

  lemma FinishExact(s: Player, log: seq<Input>, o: Outcome)
    requires Core(s, log) && Exact(s, log) && s.active.None? && s.cursor.AtPanelist?
    requires o == PrepareNextTurn(s) && o.delay == Stop
    ensures Exact(o.player, log + o.out)
  {
    assert s.cursor.round !in s.rec.roundComplete;
    CaughtUp(s, log);
    FinishAtoms(s, log, o);
    assert s.turns + [] == s.turns;
  }

  lemma PrepareExact(s: Player, log: seq<Input>)
    requires Core(s, log) && Exact(s, log) && s.active.None?
    ensures Exact(PrepareNextTurn(s).player, log + PrepareNextTurn(s).out)
  {
    var o := PrepareNextTurn(s);
    if o.delay.After? {
      OpenExact(s, log, o);
    } else if o.delay == Stop && !s.cursor.Finished? {
      FinishExact(s, log, o);
    } else {
      ReadyOrNot(s, o);
      assert log + [] == log;
    }
  }

  lemma RevealExact(s: Player, log: seq<Input>)
    requires Core(s, log) && Exact(s, log) && s.active.Some?
    ensures Exact(RevealStep(s).player, log + RevealStep(s).out)
  {
    var o := RevealStep(s);
    if s.active.value.pos == |s.active.value.text| && s.active.value.isModerator {
      VerdictCore(s, log);
      VerdictKeeps(s, o.player);
      ExactAtEnd(s, log, o.player, log + o.out);
    } else {
      RevealKeeps(s, o.player);
      ExactKept(s, log, o.player, log + o.out);
    }
  }

  lemma ExactAtEnd(s: Player, log: seq<Input>, t: Player, out: seq<Input>)
    requires Exact(s, log) && s.cursor.AtModerator? && t.cursor.Finished?
    requires t.turns == s.turns && t.rec == s.rec && Atoms(out) == Played(s.turns) + Ending(s.rec)
    ensures Exact(t, out)
  {
  }

  lemma ExactKept(s: Player, log: seq<Input>, t: Player, out: seq<Input>)
    requires Exact(s, log) && !t.cursor.Finished? && (t.cursor.AtModerator? ==> s.cursor.AtModerator?)
    requires t.turns == s.turns && t.rec == s.rec
    ensures Exact(t, out)
  {
  }

  lemma VerdictKeeps(s: Player, t: Player)
    requires Sane(s) && s.active.Some? && t == RevealStep(s).player
    requires s.active.value.pos == |s.active.value.text| && s.active.value.isModerator
    ensures t.turns == s.turns && t.rec == s.rec && t.cursor.Finished? && s.cursor.AtModerator?
  {
  }

  /** Short of the verdict, a reveal touches neither turns nor recording. */
  lemma RevealKeeps(s: Player, t: Player)
    requires Sane(s) && s.active.Some? && t == RevealStep(s).player
    requires s.active.value.pos < |s.active.value.text| || !s.active.value.isModerator
    ensures t.turns == s.turns && t.rec == s.rec && !t.cursor.Finished? && (t.cursor.AtModerator? ==> s.cursor.AtModerator?)
  {
  }

  lemma StepExact(s: Player, log: seq<Input>)
    requires Core(s, log) && Exact(s, log)
    ensures Exact(Step(s).player, log + Step(s).out)
  {
    if s.active.None? {
      PrepareCore(s, log);
      PrepareExact(s, log);
      PrepareSane(s);
      var p := PrepareNextTurn(s);
      if p.delay.After? {
        RevealExact(p.player, log + p.out);
        Assoc(log, p.out, RevealStep(p.player).out);
      }
    } else {
      RevealExact(s, log);
    }
  }

  lemma {:induction false} DrainExact(s: Player, log: seq<Input>)
    requires Core(s, log) && Exact(s, log)
    ensures Exact(Drain(s).player, log + Drain(s).out)
    decreases CursorRank(s), RoundsLeft(s), SeatsLeft(s), s.active.None?, TextLeft(s)
  {
    StepSane(s);
    StepCore(s, log);
    StepExact(s, log);
    var o := Step(s);
    if o.delay.After? {
      StepProgress(s);
      DrainExact(o.player, log + o.out);
      Assoc(log, o.out, Drain(o.player).out);
    }
  }

  lemma PumpExact(s: Player, log: seq<Input>)
    requires Core(s, log) && Exact(s, log)
    ensures Exact(Pump(s).player, log + Pump(s).out)
  {
    if s.timer.Some? {
      assert log + [] == log;
    } else {
      StepExact(s, log);
    }
  }

  lemma TurnKept(turns: seq<Turn>, rec: Recording, d: Delivery, k: nat)
    requires Ordered(turns, rec.roundComplete) && AdmitsDelivery(rec, d) && k < |turns|
    requires PanelCount(turns) < |turns| ==> rec.verdict.Some?
    ensures TextOf(Deliver(rec, d), turns[k].cell) == TextOf(rec, turns[k].cell)
  {
    if k < PanelCount(turns) {
      assert turns[k].cell == SeatCell(k);
      TextStable(rec, d, SeatCell(k));
    } else {
      SynthesisStable(rec, d, turns[k].cell);
    }
  }

  /** Recording an admitted delivery. */
  lemma DeliverExact(s: Player, log: seq<Input>, d: Delivery, t: Player)
    requires Core(s, log) && Exact(s, log) && AdmitsDelivery(s.rec, d)
    requires t == s.(rec := Deliver(s.rec, d), personaErrors := t.personaErrors)
    ensures Exact(t, log)
  {
    if TerminalKnown(s.rec) {
      TurnsStable(s.rec, d);
    }
    if PanelCount(s.turns) < |s.turns| {
      ModeratorIsLast(s, log);
    }
    forall k | 0 <= k < |s.turns|
      ensures s.turns[k].text == TextOf(t.rec, s.turns[k].cell)
    {
      assert s.turns[k] in s.turns;
      TurnKept(s.turns, s.rec, d, k);
    }
  }

  lemma PanelOnly(rec: Recording)
    requires rec.verdict.None?
    ensures PanelCount(Turns(rec)) == |Turns(rec)|
  {
  }

  /** A moderator turn is only ever opened on a verdict. */
  lemma ModeratorIsLast(s: Player, log: seq<Input>)
    requires Core(s, log) && Exact(s, log) && PanelCount(s.turns) < |s.turns|
    ensures s.rec.verdict.Some?
  {
    if s.rec.verdict.None? {
      PanelOnly(s.rec);
    }
  }

  lemma ActFeedExact(s: Player, log: seq<Input>, event: Event)
    requires Inv(s, log) && Exact(s, log) && AdmitsDelivery(s.rec, Arrival(event))
    ensures Exact(Act(s, Feed(event)).player, log + Act(s, Feed(event)).out)
  {
    DeliverExact(s, log, Arrival(event), Fed(s, event));
    FeedCore(s, log, event);
    PumpExact(Fed(s, event), log);
  }

  lemma ActCloseExact(s: Player, log: seq<Input>)
    requires Inv(s, log) && Exact(s, log)
    ensures Exact(Act(s, FeedStatus(Closed)).player, log + Act(s, FeedStatus(Closed)).out)
  {
    var t := s.(rec := s.rec.(closed := true));
    DeliverExact(s, log, Hangup, t);
    CloseFeedCore(s, log);
    PumpExact(t, log);
  }

  lemma SkipExact(s: Player, log: seq<Input>, d: Player)
    requires Core(s, log) && Exact(s, log) && d == s.(timer := None, draining := true)
    ensures Exact(Drain(d).player.(draining := false), log + Drain(d).out)
  {
    ScheduleCore(s, log, d);
    DrainExact(d, log);
  }

  lemma TimerExact(s: Player, log: seq<Input>, t: Player)
    requires Core(s, log) && Exact(s, log) && t == s.(timer := None)
    ensures Exact(Pump(t).player, log + Pump(t).out)
  {
    ScheduleCore(s, log, t);
    PumpExact(t, log);
  }

  /** What timing touches plays no part. */
  lemma ExactElsewhere(s: Player, log: seq<Input>, t: Player, out: seq<Input>)
    requires Exact(s, log) && t == s.(timer := t.timer, rate := t.rate, draining := t.draining) && out == log
    ensures Exact(t, out)
  {
  }

  lemma ActTimingExact(s: Player, log: seq<Input>, action: Action)
    requires Inv(s, log) && Exact(s, log) && (action.TimerFires? || action.SkipToLive? || action.SetRate?)
    ensures Exact(Act(s, action).player, log + Act(s, action).out)
  {
    if action.SkipToLive? {
      SkipExact(s, log, s.(timer := None, draining := true));
    } else if action.TimerFires? && s.timer.Some? {
      TimerExact(s, log, s.(timer := None));
    } else {
      assert log + [] == log;
      ExactElsewhere(s, log, Act(s, action).player, log + Act(s, action).out);
    }
  }

  lemma ActExact(s: Player, log: seq<Input>, action: Action)
    requires Inv(s, log) && Exact(s, log) && InSession(action)
    requires forall d <- DeliveryOf(action) :: AdmitsDelivery(s.rec, d)
    ensures Exact(Act(s, action).player, log + Act(s, action).out)
  {
    match action
    case Feed(event) =>
      assert Arrival(event) in DeliveryOf(action);
      ActFeedExact(s, log, event);
    case FeedStatus(status) =>
      if status == Closed {
        ActCloseExact(s, log);
      } else {
        PassCore(s, log, Status(status));
        SnocAtoms(log, Status(status));
      }
    case FeedTransport(message) =>
      SnocAtoms(log, Transport(message));
    case _ =>
      ActTimingExact(s, log, action);
  }

  // ----- Whole runs

  lemma ActRecords(s: Player, action: Action)
    requires AtRest(s) && InSession(action)
    ensures Act(s, action).player.rec ==
            if DeliveryOf(action) == [] then s.rec else Deliver(s.rec, DeliveryOf(action)[0])
  {
    match action
    case Feed(event) =>
      StepSane(Fed(s, event));
    case FeedStatus(status) =>
      StepSane(s.(rec := s.rec.(closed := true)));
    case TimerFires =>
      StepSane(s.(timer := None));
    case SkipToLive =>
      DrainAtLive(s.(timer := None, draining := true));
    case _ =>
  }

  lemma FeedSnoc(init: seq<Action>, last: Action)
    requires Settled(FeedOf(init + [last]))
    ensures Settled(FeedOf(init))
    ensures forall d <- DeliveryOf(last) :: AdmitsDelivery(Recorded(FeedOf(init)), d)
  {
    var feed := FeedOf(init);
    ExpandSnoc(DeliveryOf, init, last);
    if DeliveryOf(last) == [] {
      assert FeedOf(init + [last]) == feed;
    } else {
      assert FeedOf(init + [last])[..|feed|] == feed;
    }
  }

  lemma FeedRecords(init: seq<Action>, last: Action)
    ensures Recorded(FeedOf(init + [last])) ==
            if DeliveryOf(last) == [] then Recorded(FeedOf(init))
            else Deliver(Recorded(FeedOf(init)), DeliveryOf(last)[0])
  {
    var feed := FeedOf(init);
    ExpandSnoc(DeliveryOf, init, last);
    if DeliveryOf(last) == [] {
      assert FeedOf(init + [last]) == feed;
    } else {
      assert FeedOf(init + [last])[..|feed|] == feed;
    }
  }

  ghost predicate Recorder(s: Player, feed: seq<Delivery>) {
    s.rec == Recorded(feed)
  }

  lemma ActRecorder(s: Player, init: seq<Action>, last: Action)
    requires AtRest(s) && InSession(last) && Recorder(s, FeedOf(init))
    ensures Recorder(Act(s, last).player, FeedOf(init + [last]))
  {
    FeedRecords(init, last);
    ActRecords(s, last);
  }

  lemma {:induction false} RunRecorder(s: Player, actions: seq<Action>)
    requires AtRest(s) && s.rec == BLANK && WithinSession(actions)
    ensures Recorder(Run(s, actions).player, FeedOf(actions))
    decreases |actions|
  {
    if actions == [] {
      assert FeedOf(actions) == [];
    } else {
      var init, last := actions[..|actions| - 1], actions[|actions| - 1];
      assert actions == init + [last];
      RunRecorder(s, init);
      RunSnoc(s, actions, init, last);
      ActRecorder(Run(s, init).player, init, last);
    }
  }

  /** On any feed, settled or not, a run records what it was fed. */
  lemma RunRecords(reducedMotion: bool, rate: Rate, actions: seq<Action>, e: Effect)
    requires WithinSession(actions) && AtRest(Fresh(reducedMotion, rate))
    requires e == Run(Fresh(reducedMotion, rate), actions)
    ensures e.player.rec == Recorded(FeedOf(actions))
  {
    RunRecorder(Fresh(reducedMotion, rate), actions);
  }

  /** A player in step with its feed. */
  ghost predicate InStep(s: Player, log: seq<Input>, rec: Recording) {
    Inv(s, log) && Exact(s, log) && s.rec == rec
  }

  lemma ActInStep(s: Player, log: seq<Input>, rec: Recording, action: Action)
    requires InStep(s, log, rec) && InSession(action)
    requires forall d <- DeliveryOf(action) :: AdmitsDelivery(rec, d)
    ensures InStep(Act(s, action).player, log + Act(s, action).out,
                   if DeliveryOf(action) == [] then rec else Deliver(rec, DeliveryOf(action)[0]))
  {
    ActRecords(s, action);
    ActInv(s, log, action);
    ActExact(s, log, action);
  }

  lemma InStepSnoc(s: Player, log: seq<Input>, init: seq<Action>, last: Action, actions: seq<Action>)
    requires InStep(s, log, Recorded(FeedOf(init))) && InSession(last)
    requires actions == init + [last] && Settled(FeedOf(actions))
    ensures InStep(Act(s, last).player, log + Act(s, last).out, Recorded(FeedOf(actions)))
  {
    FeedSnoc(init, last);
    FeedRecords(init, last);
    ActInStep(s, log, Recorded(FeedOf(init)), last);
  }

  lemma {:induction false} RunInStep(s: Player, actions: seq<Action>)
    requires InStep(s, [], BLANK) && WithinSession(actions) && Settled(FeedOf(actions))
    ensures InStep(Run(s, actions).player, Run(s, actions).out, Recorded(FeedOf(actions)))
    decreases |actions|
  {
    if actions != [] {
      var init, last := actions[..|actions| - 1], actions[|actions| - 1];
      assert actions == init + [last];
      FeedSnoc(init, last);
      RunInStep(s, init);
      InStepSnoc(Run(s, init).player, Run(s, init).out, init, last, actions);
      RunSnoc(s, actions, init, last);
    }
  }

  lemma RunExact(reducedMotion: bool, rate: Rate, actions: seq<Action>)
    requires WithinSession(actions) && Settled(FeedOf(actions))
    ensures InStep(Run(Fresh(reducedMotion, rate), actions).player, Run(Fresh(reducedMotion, rate), actions).out,
                   Recorded(FeedOf(actions)))
  {
    FreshInv(reducedMotion, rate);
    RunInStep(Fresh(reducedMotion, rate), actions);
  }

  /** What a parked player is still holding back: the last speaker's done, and its round's. */
  function Deferred(rec: Recording): seq<Atom> {
    var turns := Turns(rec);
    if TerminalKnown(rec) || turns == [] then [] else Closing(turns[|turns| - 1].cell)
  }

  lemma AtLiveReplays(s: Player, log: seq<Input>, rec: Recording)
    requires InStep(s, log, rec) && s.timer.None?
    ensures Atoms(log) + Deferred(rec) == ReplayOf(rec)
    ensures s.cursor.Finished? <==> TerminalKnown(rec)
  {
    if s.cursor.Finished? {
      assert Atoms(log) + [] == Atoms(log);
    } else {
      CaughtUp(s, log);
      assert Turns(s.rec) == s.turns + [] == s.turns;
      assert ReplayOf(s.rec) == Played(s.turns) + [] == Played(s.turns);
    }
  }

  /** The refinement theorem. However feeds, timers, skips and rate changes interleave, a session
      with no timer left has dispatched exactly what its recording calls for; while the end is
      not known yet, all but the last speaker's deferred signals. */
  lemma QuiescentRunReplaysRecording(reducedMotion: bool, rate: Rate, actions: seq<Action>)
    requires WithinSession(actions) && Settled(FeedOf(actions))
    requires Run(Fresh(reducedMotion, rate), actions).player.timer.None?
    ensures Atoms(Run(Fresh(reducedMotion, rate), actions).out) + Deferred(Recorded(FeedOf(actions)))
         == ReplayOf(Recorded(FeedOf(actions)))
    ensures Run(Fresh(reducedMotion, rate), actions).player.cursor.Finished?
        <==> TerminalKnown(Recorded(FeedOf(actions)))
  {
    RunExact(reducedMotion, rate, actions);
    var e := Run(Fresh(reducedMotion, rate), actions);
    AtLiveReplays(e.player, e.out, Recorded(FeedOf(actions)));
  }

  lemma SameHead<T>(a: seq<T>, b: seq<T>, tail: seq<T>)
    requires a + tail == b + tail
    ensures a == b
  {
    assert |a| == |b|;
    assert a == (a + tail)[..|a|] && b == (b + tail)[..|a|];
  }

  /** Confluence: the same feed replays the same, whatever the timing, the rate, the skips and the
      motion preference. */
  lemma ReplayIsConfluent(motion1: bool, rate1: Rate, run1: seq<Action>, motion2: bool, rate2: Rate, run2: seq<Action>)
    requires WithinSession(run1) && WithinSession(run2)
    requires FeedOf(run1) == FeedOf(run2) && Settled(FeedOf(run1))
    requires Run(Fresh(motion1, rate1), run1).player.timer.None?
    requires Run(Fresh(motion2, rate2), run2).player.timer.None?
    ensures Atoms(Run(Fresh(motion1, rate1), run1).out) == Atoms(Run(Fresh(motion2, rate2), run2).out)
  {
    var rec := Recorded(FeedOf(run1));
    RestingReplays(motion1, rate1, run1, rec);
    RestingReplays(motion2, rate2, run2, rec);
    SameHead(Atoms(Run(Fresh(motion1, rate1), run1).out), Atoms(Run(Fresh(motion2, rate2), run2).out), Deferred(rec));
  }

  lemma RestingReplays(motion: bool, rate: Rate, run: seq<Action>, rec: Recording)
    requires WithinSession(run) && Settled(FeedOf(run)) && rec == Recorded(FeedOf(run))
    requires Run(Fresh(motion, rate), run).player.timer.None?
    ensures Atoms(Run(Fresh(motion, rate), run).out) + Deferred(rec) == ReplayOf(rec)
  {
    QuiescentRunReplaysRecording(motion, rate, run);
  }

}
