/** What every speaker is asked, written out: the question, and of the debate so far exactly what the
    rules of the round give it to read. */
module Requests {
  import opened Protocol
  import opened Transcripts
  import opened Streams
  import opened Orchestrator
  import opened Grammar
  import opened Independence

  lemma {:induction false} TranscriptLength(c: Council, r: nat)
    ensures |IdealTranscript(c, r)| == r
  {
    if r > 0 {
      TranscriptLength(c, r - 1);
    }
  }

  /** What the panel said in a round of the ideal run, in seat order. */
  function Said(c: Council, r: nat): seq<Answer>
    requires r >= 1
  {
    TranscriptLength(c, r);
    IdealTranscript(c, r)[r - 1].answers
  }

  /** Each panelist once, under its own id and name, in seat order. */
  ghost predicate BySeat(c: Council, said: seq<Answer>) {
    |said| == |c.panel| &&
    forall k | 0 <= k < |said| :: said[k].personaId == c.panel[k].id && said[k].name == c.panel[k].name
  }

  /** With the whole text the provider answered. */
  lemma SaidByProvider(c: Council, r: nat, k: nat)
    requires r >= 1 && k < |c.panel|
    ensures |Said(c, r)| == |c.panel|
    ensures Said(c, r)[k] == Answer(c.panel[k].id, c.panel[k].name, Concat(DeltasOf(IdealScript(c, r, k))))
  {
    TranscriptLength(c, r - 1);
    assert Said(c, r) == IdealAnswers(c, IdealTranscript(c, r - 1), r);
  }

  lemma SaidBySeat(c: Council, r: nat)
    requires r >= 1
    ensures BySeat(c, Said(c, r))
  {
    TranscriptLength(c, r - 1);
    assert Said(c, r) == IdealAnswers(c, IdealTranscript(c, r - 1), r);
  }

  lemma SaidIsTranscribed(c: Council, r: nat, prior: Transcript)
    requires r >= 1 && prior == IdealTranscript(c, r)
    ensures |prior| == r && prior == prior[..r - 1] + [Transcripts.Round(r, Said(c, r))]
    ensures prior[..r - 1] == IdealTranscript(c, r - 1)
  {
    TranscriptLength(c, r);
    TranscriptLength(c, r - 1);
  }

  /** In the first round everybody is asked the question and nothing else. */
  lemma FirstRoundAsks(c: Council, i: nat)
    requires c.rounds >= 1 && i < |c.panel|
    ensures IdealRequest(c, 1, i) == Request(c.panel[i].systemPrompt, [Message(User, c.question)], c.model)
  {
    assert [Message(User, c.question)] + [] == [Message(User, c.question)];
  }

  /** An empty line, in code units. */
  const BLANK_LINE: Text := [10, 10]

  lemma BlankLine()
    ensures Ascii("\n\n") == BLANK_LINE
  {
  }

  /** What a panelist is asked who answered `own` in the latest round, and the others `others`. */
  function Followup(c: Council, member: Member, r: nat, own: Text, others: seq<Answer>): Request {
    Request(member.systemPrompt,
            [Message(User, c.question), Message(Assistant, own),
             Message(User, (if r % 2 == 1 then c.sharpen else c.rebut) + BLANK_LINE + RenderAnswers(others))],
            c.model)
  }

  lemma Builds(c: Council, member: Member, prior: Transcript, r: nat, own: Answer, others: seq<Answer>)
    requires r >= 2 && OwnLatest(prior, member.id) == Some(own) && OthersFor(prior, member.id) == others
    ensures BuildRequest(c, member, prior, r) == Followup(c, member, r, own.text, others)
  {
    BlankLine();
    var told := Message(User, Instruction(c, r) + BLANK_LINE + RenderAnswers(others));
    assert [Message(User, c.question)] + ([Message(Assistant, own.text)] + [told])
        == [Message(User, c.question), Message(Assistant, own.text), told];
  }

  lemma SeatsAreDistinct(c: Council, said: seq<Answer>)
    requires Proper(c) && BySeat(c, said)
    ensures DistinctIds(said)
  {
  }

  lemma ReadsLatest(c: Council, r: nat, i: nat, t: Transcript, said: seq<Answer>, prior: Transcript)
    requires Proper(c) && i < |c.panel| && BySeat(c, said) && prior == t + [Transcripts.Round(r, said)]
    ensures OwnLatest(prior, c.panel[i].id) == Some(said[i])
    ensures OthersFor(prior, c.panel[i].id) == said[..i] + said[i + 1..]
  {
    SeatsAreDistinct(c, said);
    LatestRoundIsRead(t, r, said, i);
  }

  lemma BuiltOnLatest(c: Council, last: nat, i: nat, t: Transcript, said: seq<Answer>, prior: Transcript)
    requires Proper(c) && last >= 1 && i < |c.panel| && BySeat(c, said) && prior == t + [Transcripts.Round(last, said)]
    ensures BuildRequest(c, c.panel[i], prior, last + 1)
         == Followup(c, c.panel[i], last + 1, said[i].text, said[..i] + said[i + 1..])
  {
    ReadsLatest(c, last, i, t, said, prior);
    Builds(c, c.panel[i], prior, last + 1, said[i], said[..i] + said[i + 1..]);
  }

  lemma RequestOfSeat(c: Council, last: nat, i: nat, prior: Transcript)
    requires last < c.rounds && i < |c.panel| && prior == IdealTranscript(c, last)
    ensures IdealRequest(c, last + 1, i) == BuildRequest(c, c.panel[i], prior, last + 1)
  {
  }

  /** The request of a panelist in the round after `last`. */
  function AskedAfter(c: Council, last: nat, i: nat): Request
    requires last >= 1 && i < |c.panel|
  {
    SaidBySeat(c, last);
    var said := Said(c, last);
    Followup(c, c.panel[i], last + 1, said[i].text, said[..i] + said[i + 1..])
  }

  /** In every later round a panelist is asked the question, shown its own answer of the round
      before, and then told to sharpen (odd rounds) or rebut (even ones), with the answers of all the
      others in that round in seat order. */
  lemma LaterRoundAsks(c: Council, last: nat, i: nat, said: seq<Answer>)
    requires Proper(c) && 1 <= last < c.rounds && i < |c.panel| && said == Said(c, last)
    ensures |said| == |c.panel|
    ensures IdealRequest(c, last + 1, i) == AskedAfter(c, last, i)
    ensures IdealRequest(c, last + 1, i) ==
      Request(c.panel[i].systemPrompt,
              [Message(User, c.question), Message(Assistant, said[i].text),
               Message(User, (if (last + 1) % 2 == 1 then c.sharpen else c.rebut) + [10, 10]
                             + RenderAnswers(said[..i] + said[i + 1..]))],
              c.model)
  {
    var prior := IdealTranscript(c, last);
    RequestOfSeat(c, last, i, prior);
    SaidBySeat(c, last);
    SaidIsTranscribed(c, last, prior);
    BuiltOnLatest(c, last, i, prior[..last - 1], said, prior);
  }

  /** Everything said in the first `n` rounds, in order. */
  function AllSaid(c: Council, n: nat): Text {
    if n == 0 then [] else AllSaid(c, n - 1) + RenderAnswers(Said(c, n))
  }

  lemma ReadsOn(t: Transcript, grown: Transcript, n: nat, answers: seq<Answer>, text: Text)
    requires grown == t + [Transcripts.Round(n, answers)] && Render(t) == text
    ensures Render(grown) == text + RenderAnswers(answers)
  {
    RoundsReadInOrder(t, n, answers);
  }

  lemma {:induction false} TranscriptReads(c: Council, n: nat, t: Transcript)
    requires t == IdealTranscript(c, n)
    ensures Render(t) == AllSaid(c, n)
  {
    if n == 0 {
      RoundsReadInOrder([], 0, []);
    } else {
      SaidIsTranscribed(c, n, t);
      TranscriptReads(c, n - 1, t[..n - 1]);
      ReadsOn(t[..n - 1], t, n, Said(c, n), AllSaid(c, n - 1));
    }
  }

  lemma ModeratorBuilds(c: Council, t: Transcript, text: Text)
    requires Render(t) == text
    ensures RequestAt(c, t, c.rounds + 1, 0)
         == Request(c.moderator.systemPrompt, [Message(User, c.question + BLANK_LINE + text)], c.model)
  {
    BlankLine();
  }

  /** The moderator is asked once, with the question and all that was said in all rounds. */
  lemma ModeratorAsks(c: Council, text: Text)
    requires text == AllSaid(c, c.rounds)
    ensures IdealRequest(c, c.rounds + 1, 0)
         == Request(c.moderator.systemPrompt, [Message(User, c.question + BLANK_LINE + text)], c.model)
  {
    var t := IdealTranscript(c, c.rounds);
    TranscriptReads(c, c.rounds, t);
    ModeratorBuilds(c, t, text);
  }

  /** And the answer is the provider's, to that request in that round. */
  lemma ProviderAnswers(c: Council, r: nat, i: nat)
    requires 1 <= r <= c.rounds && i < |c.panel|
    ensures IdealScript(c, r, i) == c.provider(r, c.panel[i].id, IdealRequest(c, r, i))
    ensures IdealScript(c, c.rounds + 1, 0)
         == c.provider(c.rounds + 1, c.moderator.id, IdealRequest(c, c.rounds + 1, 0))
  {
  }

  // ----- In every run

  lemma AskedAs(c: Council, acts: seq<Act>, i: nat, r: nat, request: Request)
    requires Proper(c) && Possible(c, acts) && !Reached(c, acts).cancelled && Reached(c, acts).round == r
    requires i < |Reached(c, acts).tasks| && i in Reached(c, acts).requests
    requires r >= 1 && request == IdealRequest(c, r, i)
    ensures Reached(c, acts).requests[i] == request
  {
    RequestsAreScheduleIndependent(c, acts, i);
  }

  /** In every state of every uncancelled schedule, under any limit, whoever has been asked in the
      first round was asked the question alone. */
  lemma FirstRequests(c: Council, acts: seq<Act>, i: nat)
    requires Proper(c) && Possible(c, acts) && !Reached(c, acts).cancelled && Reached(c, acts).round == 1 <= c.rounds
    requires i < |Reached(c, acts).tasks| && i < |c.panel| && i in Reached(c, acts).requests
    ensures Reached(c, acts).requests[i] == Request(c.panel[i].systemPrompt, [Message(User, c.question)], c.model)
  {
    FirstRoundAsks(c, i);
    AskedAs(c, acts, i, 1, Request(c.panel[i].systemPrompt, [Message(User, c.question)], c.model));
  }

  /** Whoever has been asked in the round after `last` was asked what follows from what was said in
      `last`, and nothing else. */
  lemma LaterRequests(c: Council, acts: seq<Act>, last: nat, i: nat)
    requires Proper(c) && Possible(c, acts) && !Reached(c, acts).cancelled
    requires 1 <= last < c.rounds && Reached(c, acts).round == last + 1
    requires i < |Reached(c, acts).tasks| && i < |c.panel| && i in Reached(c, acts).requests
    ensures Reached(c, acts).requests[i] == AskedAfter(c, last, i)
  {
    LaterRoundAsks(c, last, i, Said(c, last));
    AskedAs(c, acts, i, last + 1, AskedAfter(c, last, i));
  }

  /** The moderator, once asked, was asked the question with all that was said in all rounds. */
  lemma ModeratorRequests(c: Council, acts: seq<Act>)
    requires Proper(c) && Possible(c, acts) && !Reached(c, acts).cancelled && Reached(c, acts).round == c.rounds + 1
    requires 0 < |Reached(c, acts).tasks| && 0 in Reached(c, acts).requests
    ensures Reached(c, acts).requests[0]
         == Request(c.moderator.systemPrompt, [Message(User, c.question + BLANK_LINE + AllSaid(c, c.rounds))], c.model)
  {
    ModeratorAsks(c, AllSaid(c, c.rounds));
    AskedAs(c, acts, 0, c.rounds + 1, IdealRequest(c, c.rounds + 1, 0));
  }
}
