/** A panelist whose stream failed is reported to the user, however the debate was scheduled and
    replayed. */
module Reports {
  import opened Protocol
  import opened Sequences
  import opened Playback
  import opened Wakeup
  import opened Sessions
  import opened Faithful
  import opened Streams
  import opened Orchestrator
  import opened Grammar
  import opened Independence
  import opened Feeding
  import opened EndToEnd
  import opened Failures
  import opened Display
  import opened Reducer
  import opened Faults

  function FailedStream(p: PersonaId): Failure {
    Failure(Some(p), STREAM_FAILED)
  }

  /** What a feed of `n` rounds, perhaps with some of the next, says last about a panelist. */
  ghost predicate Reported(events: seq<Event>, n: nat, p: PersonaId) {
    var latest := LatestIn(Arrivals(events), p);
    && (latest.LastFailure? ==> latest.failure == FailedStream(p) && latest.round <= n)
    && (Error(FailedStream(p)) in events ==> latest.LastFailure?)
  }

  /** Every error in a block is some stream's failure. */
  ghost predicate OnlyApologies(block: seq<Event>, p: PersonaId) {
    forall e <- block :: e.Error? && e.failure.persona == Some(p) ==> e.failure == FailedStream(p)
  }

  lemma LatestSnoc(events: seq<Event>, e: Event, p: PersonaId)
    ensures LatestIn(Arrivals(events + [e]), p)
         == LatestAfter(LatestIn(Arrivals(events), p), Recorded(Arrivals(events)), Arrival(e), p)
  {
    ArrivalsSnoc(events, e);
    DeliveryGrows(Arrivals(events), Arrival(e), FailedStream(p), p);
  }

  lemma EventReported(events: seq<Event>, n: nat, e: Event, p: PersonaId)
    requires AfterRounds(events, n) && Reported(events, n + 1, p)
    requires e.Error? && e.failure.persona == Some(p) ==> e.failure == FailedStream(p)
    requires !e.RoundComplete?
    ensures Reported(events + [e], n + 1, p)
  {
    AllRoundsLead(n);
    LatestSnoc(events, e, p);
  }

  lemma {:induction false} BlockReported(c: Council, events: seq<Event>, n: nat, block: seq<Event>, p: PersonaId)
    requires Proper(c) && AfterRounds(events, n) && Reported(events, n + 1, p) && OnlyApologies(block, p)
    requires forall e <- block :: InRound(e, n + 1) && BySomePanelist(c, e)
    ensures Reported(events + block, n + 1, p)
  {
    if block == [] {
      assert events + block == events;
    } else {
      var init, last := block[..|block| - 1], block[|block| - 1];
      assert last in block && forall e <- init :: e in block;
      BlockReported(c, events, n, init, p);
      FeedBlock(c, events, n, init);
      EventReported(events + init, n, last, p);
      Assoc(events, init, [last]);
      assert block == init + [last];
    }
  }

  lemma {:induction false} InSpeech(events: seq<Event>, e: Event, id: PersonaId)
    ensures e in SpeechOf(events, id) <==> e in events && SpeakerOf(e) == Some(id)
  {
    if events != [] {
      var init, last := events[..|events| - 1], events[|events| - 1];
      InSpeech(init, e, id);
      assert events == init + [last];
    }
  }

  lemma SpeechApologies(p: Part, script: Script, e: Event)
    requires e in FullSpeech(p, script) && e.Error?
    ensures e == Apology(p)
  {
    var end := SpeechShape(p, script);
  }

  lemma SpeakerApologies(block: seq<Event>, p: Part, script: Script)
    requires SpeechOf(block, p.id) == FullSpeech(p, script)
    ensures OnlyApologies(block, p.id)
  {
    forall e <- block | e.Error? && e.failure.persona == Some(p.id)
      ensures e.failure == FailedStream(p.id)
    {
      InSpeech(block, e, p.id);
      SpeechApologies(p, script, e);
    }
  }

  lemma BlockApologies(c: Council, block: seq<Event>, r: nat, i: nat, p: PersonaId)
    requires r >= 1 && FullBlock(c, block, r) && i < |c.panel| && r <= c.rounds && p == c.panel[i].id
    ensures OnlyApologies(block, p)
  {
    SpeechInBlock(c, block, r, i, IdealScript(c, r, i));
    SpeakerApologies(block, PartAt(c, r, i), IdealScript(c, r, i));
  }

  lemma AnnouncementReported(events: seq<Event>, n: nat, p: PersonaId)
    requires Reported(events, n, p)
    ensures Reported(events + [RoundComplete(n)], n, p)
  {
    LatestSnoc(events, RoundComplete(n), p);
  }

  lemma {:induction false} PastReported(c: Council, blocks: seq<seq<Event>>, i: nat)
    requires Proper(c) && BlocksFull(c, blocks) && i < |c.panel| && |blocks| <= c.rounds
    requires forall k | 0 <= k < |blocks| :: RoundBlock(c, blocks[k], k + 1)
    ensures Reported(Past(blocks), |blocks|, c.panel[i].id)
  {
    if blocks != [] {
      var n := |blocks| - 1;
      var p := c.panel[i].id;
      PastReported(c, blocks[..n], i);
      FeedPast(c, blocks[..n]);
      assert FullBlock(c, blocks[n], n + 1);
      BlockApologies(c, blocks[n], n + 1, i, p);
      BlockReported(c, Past(blocks[..n]), n, blocks[n], p);
      AnnouncementReported(Past(blocks[..n]) + blocks[n], n + 1, p);
    }
  }

  /** The moderator's events, and a close, say nothing about a panelist. */
  lemma {:induction false} SilentTail(events: seq<Event>, tail: seq<Event>, n: nat, p: PersonaId)
    requires Reported(events, n, p) && p != Moderator && forall e <- tail :: SpeakerOf(e) == Some(Moderator)
    ensures Reported(events + tail, n, p)
  {
    if tail == [] {
      assert events + tail == events;
    } else {
      var init, last := tail[..|tail| - 1], tail[|tail| - 1];
      assert last in tail && forall e <- init :: e in tail;
      SilentTail(events, init, n, p);
      LatestSnoc(events + init, last, p);
      assert events + tail == events + init + [last];
    }
  }

  lemma {:induction false} InPast(blocks: seq<seq<Event>>, k: nat, e: Event)
    requires k < |blocks| && e in blocks[k]
    ensures e in Past(blocks)
  {
    if k < |blocks| - 1 {
      InPast(blocks[..|blocks| - 1], k, e);
    }
  }

  lemma ModeratorSpeaks(c: Council, script: Script)
    requires Proper(c)
    ensures forall e <- FullSpeech(PartAt(c, c.rounds + 1, 0), script) :: SpeakerOf(e) == Some(Moderator)
  {
    var end := SpeechShape(PartAt(c, c.rounds + 1, 0), script);
  }

  lemma BlocksReport(c: Council, blocks: seq<seq<Event>>, block: seq<Event>, k: nat, i: nat)
    requires Seated(c) && BlocksFull(c, blocks) && |blocks| == c.rounds && k < c.rounds && i < SEATS
    requires forall j | 0 <= j < |blocks| :: RoundBlock(c, blocks[j], j + 1)
    requires forall e <- block :: SpeakerOf(e) == Some(Moderator)
    requires Error(FailedStream(PANELISTS[i])) in blocks[k]
    ensures Reported(Past(blocks) + block, c.rounds, PANELISTS[i])
    ensures Error(FailedStream(PANELISTS[i])) in Past(blocks) + block
  {
    assert c.panel[i].id == PANELISTS[i];
    PastReported(c, blocks, i);
    SilentTail(Past(blocks), block, c.rounds, PANELISTS[i]);
    InPast(blocks, k, Error(FailedStream(PANELISTS[i])));
  }

  /** The feed of a finished debate tells last of a panelist's failure, in a round that completed. */
  lemma DebateReports(c: Council, acts: seq<Act>, feed: seq<Delivery>, r: nat, i: nat)
    requires Seated(c) && Possible(c, acts) && FeedOfDebate(c, acts, feed)
    requires !Reached(c, acts).cancelled && Reached(c, acts).stage.Shut?
    requires 1 <= r <= c.rounds && i < SEATS
    requires var script := IdealScript(c, r, i); script.Refused? || script.fails
    ensures LatestIn(feed, PANELISTS[i]).LastFailure?
    ensures LatestIn(feed, PANELISTS[i]).failure == FailedStream(PANELISTS[i])
    ensures LatestIn(feed, PANELISTS[i]).round <= c.rounds
  {
    DebateShape(c, acts);
    StreamReports(c, Reached(c, acts).blocks, Reached(c, acts).block, feed, r, i, IdealScript(c, r, i));
  }

  lemma DebateShape(c: Council, acts: seq<Act>)
    requires Proper(c) && Possible(c, acts) && !Reached(c, acts).cancelled && Reached(c, acts).stage.Shut?
    ensures |Reached(c, acts).blocks| == c.rounds && BlocksFull(c, Reached(c, acts).blocks)
    ensures WellFormed(c, Reached(c, acts).blocks, Reached(c, acts).block)
    ensures forall e <- Reached(c, acts).block :: SpeakerOf(e) == Some(Moderator)
  {
    UncancelledRunIsComplete(c, acts);
    StreamFollowsGrammar(c, acts);
    ModeratorSpeaks(c, IdealScript(c, c.rounds + 1, 0));
  }

  lemma StreamReports(
    c: Council, blocks: seq<seq<Event>>, block: seq<Event>, feed: seq<Delivery>, r: nat, i: nat, script: Script)
    requires Seated(c) && BlocksFull(c, blocks) && |blocks| == c.rounds
    requires forall j | 0 <= j < |blocks| :: RoundBlock(c, blocks[j], j + 1)
    requires forall e <- block :: SpeakerOf(e) == Some(Moderator)
    requires feed == Arrivals(Past(blocks) + block) || feed == Arrivals(Past(blocks) + block) + [Hangup]
    requires 1 <= r <= c.rounds && i < SEATS && script == IdealScript(c, r, i) && (script.Refused? || script.fails)
    ensures LatestIn(feed, PANELISTS[i]).LastFailure?
    ensures LatestIn(feed, PANELISTS[i]).failure == FailedStream(PANELISTS[i])
    ensures LatestIn(feed, PANELISTS[i]).round <= c.rounds
  {
    FailureFed(c, blocks, r, i, script);
    FailureReports(c, blocks, block, feed, r - 1, i);
  }

  lemma FailureFed(c: Council, blocks: seq<seq<Event>>, r: nat, i: nat, script: Script)
    requires Seated(c) && BlocksFull(c, blocks) && |blocks| == c.rounds
    requires 1 <= r <= c.rounds && i < SEATS && script == IdealScript(c, r, i) && (script.Refused? || script.fails)
    ensures Error(FailedStream(PANELISTS[i])) in blocks[r - 1]
  {
    assert FullBlock(c, blocks[r - 1], r - 1 + 1);
    FailureInBlock(c, blocks[r - 1], r, i, script);
  }

  lemma FailureReports(c: Council, blocks: seq<seq<Event>>, block: seq<Event>, feed: seq<Delivery>, k: nat, i: nat)
    requires Seated(c) && BlocksFull(c, blocks) && |blocks| == c.rounds && k < c.rounds && i < SEATS
    requires forall j | 0 <= j < |blocks| :: RoundBlock(c, blocks[j], j + 1)
    requires forall e <- block :: SpeakerOf(e) == Some(Moderator)
    requires feed == Arrivals(Past(blocks) + block) || feed == Arrivals(Past(blocks) + block) + [Hangup]
    requires Error(FailedStream(PANELISTS[i])) in blocks[k]
    ensures LatestIn(feed, PANELISTS[i]).LastFailure?
    ensures LatestIn(feed, PANELISTS[i]).failure == FailedStream(PANELISTS[i])
    ensures LatestIn(feed, PANELISTS[i]).round <= c.rounds
  {
    BlocksReport(c, blocks, block, k, i);
    HangupSaysNothing(Arrivals(Past(blocks) + block), feed, PANELISTS[i]);
  }

  lemma HangupSaysNothing(events: seq<Delivery>, feed: seq<Delivery>, p: PersonaId)
    requires feed == events || feed == events + [Hangup]
    ensures LatestIn(feed, p) == LatestIn(events, p)
  {
    if feed != events {
      assert feed[..|feed| - 1] == events;
    }
  }

  lemma FailureInSpeech(block: seq<Event>, p: Part, script: Script)
    requires SpeechOf(block, p.id) == FullSpeech(p, script) && (script.Refused? || script.fails)
    ensures Apology(p) in block
  {
    var end := SpeechShape(p, script);
    assert end in FullSpeech(p, script);
    InSpeech(block, end, p.id);
  }

  lemma FailureInBlock(c: Council, block: seq<Event>, r: nat, i: nat, script: Script)
    requires Seated(c) && 1 <= r <= c.rounds && i < SEATS && FullBlock(c, block, r)
    requires script == IdealScript(c, r, i) && (script.Refused? || script.fails)
    ensures Error(FailedStream(PANELISTS[i])) in block
  {
    SpeechInBlock(c, block, r, i, script);
    FailureInSpeech(block, PartAt(c, r, i), script);
  }

  /** If a panelist's stream fails in any round of an uncancelled debate, the user is told, before
      the debate's end, in every run of the player that leaves no timer armed. */
  lemma FailedPanelistIsReported(
    c: Council, acts: seq<Act>, reducedMotion: bool, rate: Rate, actions: seq<Action>, r: nat, i: nat)
    requires Seated(c) && Possible(c, acts) && !Reached(c, acts).cancelled && Reached(c, acts).stage.Shut?
    requires WithinSession(actions) && FeedOfDebate(c, acts, FeedOf(actions))
    requires Run(Fresh(reducedMotion, rate), actions).player.timer.None?
    requires 1 <= r <= c.rounds && i < SEATS
    requires var script := IdealScript(c, r, i); script.Refused? || script.fails
    ensures Wire(Error(FailedStream(PANELISTS[i]))) in Run(Fresh(reducedMotion, rate), actions).out
  {
    var feed := FeedOf(actions);
    DebateReports(c, acts, feed, r, i);
    DebateIsRecorded(c, acts, feed, Cell(PANELISTS[i], r));
    AllRoundsLead(c.rounds);
    QuiescentRunReplaysRecording(reducedMotion, rate, actions);
    LastFailureSurfaces(reducedMotion, rate, actions, PANELISTS[i]);
  }

  /** If a panelist's stream fails in any round of an uncancelled debate, its name and "stream
      failed" stand on the user's screen at the end, whoever else failed and however the debate was
      scheduled and replayed. */
  lemma FailedPanelistIsShown(
    c: Council, acts: seq<Act>, before: DebateState, reducedMotion: bool, rate: Rate, actions: seq<Action>, r: nat, i: nat)
    requires Seated(c) && Possible(c, acts) && !Reached(c, acts).cancelled && Reached(c, acts).stage.Shut?
    requires WithinSession(actions) && FeedOfDebate(c, acts, FeedOf(actions)) && AtRest(Fresh(reducedMotion, rate))
    requires Run(Fresh(reducedMotion, rate), actions).player.timer.None?
    requires 1 <= r <= c.rounds && i < SEATS && FaultsFed(actions) <= 50
    requires var script := IdealScript(c, r, i); script.Refused? || script.fails
    ensures Failure(Some(PANELISTS[i]), "stream failed") in View(before, reducedMotion, rate, actions).errors
  {
    var out, told := Run(Fresh(reducedMotion, rate), actions).out, FailedStream(PANELISTS[i]);
    FailedPanelistIsReported(c, acts, reducedMotion, rate, actions, r, i);
    NoticeIn(out, Wire(Error(told)));
    assert NoticeOf(Wire(Error(told))) == [told];
    FewFaultsAreAllShown(before, reducedMotion, rate, actions);
  }
}
