/** One speaker's stream: a provider's producer hands deltas to the goroutine that forwards them,
    every hand-over and every send a rendezvous that cancellation may break off. */
module Streams {
  import opened Protocol

  /** How a provider answers one request: not at all, or a finite run of deltas, perhaps failing. */
  datatype Script = Refused | Stream(deltas: seq<Text>, fails: bool)

  /** Who speaks, in which round; the moderator ends on a verdict, the others on a done. */
  datatype Part = Part(id: PersonaId, round: nat, moderator: bool)

  datatype Worker = Unborn | Spawned | Pulling | Sending | Terminating | Failing | Exited

  datatype Producer = Absent | Live(sent: nat) | Gone

  /** `text` is the string builder; `said` is a history of the events its goroutine got delivered. */
  datatype Task = Task(worker: Worker, script: Script, taken: nat, text: Text, producer: Producer, said: seq<Event>)

  const UNBORN := Task(Unborn, Refused, 0, [], Absent, [])

  const STREAM_FAILED := "stream failed"

  datatype TaskAct = Take | TakeError | ProducerExit | Drained | Send | Finish | Report | GiveUp

  /** The provider's answer arrives: an error to report, or a channel to read. */
  function Started(t: Task, script: Script): Task {
    match script
    case Refused => t.(worker := Failing, script := script)
    case Stream(_, _) => t.(worker := Pulling, script := script, producer := Live(0))
  }

  /** `reading`: the consumer still drains `out`. `cancelled`: the context is done. */
  predicate TaskEnabled(t: Task, a: TaskAct, cancelled: bool, reading: bool) {
    match a
    case Take =>
      t.worker.Pulling? && t.producer.Live? && t.script.Stream? && t.producer.sent < |t.script.deltas|
    case TakeError =>
      t.worker.Pulling? && t.producer.Live? && t.script.Stream?
      && (cancelled || (t.producer.sent == |t.script.deltas| && t.script.fails))
    case ProducerExit =>
      t.producer.Live? && t.script.Stream?
      && (cancelled || (t.producer.sent == |t.script.deltas| && !t.script.fails))
    case Drained => t.worker.Pulling? && t.producer.Gone?
    case Send => t.worker.Sending? && t.script.Stream? && 0 < t.taken <= |t.script.deltas| && reading
    case Finish => t.worker.Terminating? && reading
    case Report => t.worker.Failing? && reading
    case GiveUp => (t.worker.Sending? || t.worker.Terminating? || t.worker.Failing?) && cancelled
  }

  function Terminator(p: Part, text: Text): Event {
    if p.moderator then Verdict(text) else PersonaDone(p.id, p.round)
  }

  function Apology(p: Part): Event {
    Error(Failure(Some(p.id), STREAM_FAILED))
  }

  /** What a step delivers to the consumer. */
  function Says(p: Part, t: Task, a: TaskAct, cancelled: bool, reading: bool): seq<Event>
    requires TaskEnabled(t, a, cancelled, reading)
  {
    match a
    case Send => [Token(p.id, p.round, t.script.deltas[t.taken - 1])]
    case Finish => [Terminator(p, t.text)]
    case Report => [Apology(p)]
    case _ => []
  }

  function TaskNext(p: Part, t: Task, a: TaskAct, cancelled: bool, reading: bool): Task
    requires TaskEnabled(t, a, cancelled, reading)
  {
    var u := t.(said := t.said + Says(p, t, a, cancelled, reading));
    match a
    case Take =>
      u.(worker := Sending, taken := t.producer.sent + 1, text := t.text + t.script.deltas[t.producer.sent],
         producer := Live(t.producer.sent + 1))
    case TakeError => u.(worker := Failing, producer := Gone)
    case ProducerExit => u.(producer := Gone)
    case Drained => u.(worker := Terminating)
    case Send => u.(worker := Pulling)
    case Finish | Report | GiveUp => u.(worker := Exited)
  }

  // ----- What a task says

  function Tokens(p: Part, deltas: seq<Text>): seq<Event> {
    seq(|deltas|, i requires 0 <= i < |deltas| => Token(p.id, p.round, deltas[i]))
  }

  /** Everything an uncancelled task says. */
  function FullSpeech(p: Part, script: Script): seq<Event> {
    match script
    case Refused => [Apology(p)]
    case Stream(deltas, fails) => Tokens(p, deltas) + [if fails then Apology(p) else Terminator(p, Concat(deltas))]
  }

  function DeltasOf(script: Script): seq<Text> {
    if script.Stream? then script.deltas else []
  }

  /** Tokens of the first deltas, then at most one terminator; a verdict is exactly their text. */
  ghost predicate Speech(p: Part, deltas: seq<Text>, said: seq<Event>) {
    exists m: nat :: m <= |deltas| &&
      (|| said == Tokens(p, deltas[..m])
       || said == Tokens(p, deltas[..m]) + [Apology(p)]
       || said == Tokens(p, deltas[..m]) + [Terminator(p, Concat(deltas[..m]))])
  }

  /** The task invariant. */
  ghost predicate TaskOk(p: Part, t: Task, cancelled: bool) {
    var deltas := DeltasOf(t.script);
    && t.taken <= |deltas| && t.text == Concat(deltas[..t.taken])
    && (t.producer.Live? ==> t.producer.sent == t.taken && t.script.Stream?)
    && (t.producer.Gone? ==> t.script.Stream?)
    && match t.worker
       case Unborn | Spawned => t == UNBORN.(worker := t.worker)
       case Pulling => t.said == Tokens(p, deltas[..t.taken]) && !t.producer.Absent?
                       && (t.producer.Gone? && !cancelled ==> t.taken == |deltas| && !t.script.fails)
       case Sending => t.taken > 0 && t.said == Tokens(p, deltas[..t.taken - 1]) && !t.producer.Absent?
                       && (t.producer.Gone? && !cancelled ==> t.taken == |deltas| && !t.script.fails)
       case Terminating => t.said == Tokens(p, deltas[..t.taken]) && t.producer.Gone?
                      && (!cancelled ==> t.taken == |deltas| && !t.script.fails)
       case Failing => t.said == Tokens(p, deltas[..t.taken]) && !t.producer.Live?
                       && (!cancelled && t.script.Stream? ==> t.taken == |deltas| && t.script.fails && t.producer.Gone?)
       case Exited => Speech(p, deltas, t.said)
                      && (!cancelled ==> t.said == FullSpeech(p, t.script) && t.text == Concat(deltas)
                                         && !t.producer.Live?)
  }

  lemma TokensSnoc(p: Part, deltas: seq<Text>, n: nat)
    requires n < |deltas|
    ensures Tokens(p, deltas[..n + 1]) == Tokens(p, deltas[..n]) + [Token(p.id, p.round, deltas[n])]
    ensures Concat(deltas[..n + 1]) == Concat(deltas[..n]) + deltas[n]
  {
    assert deltas[..n + 1] == deltas[..n] + [deltas[n]];
    ConcatSnoc(deltas[..n], deltas[n]);
  }

  lemma UnbornOk(p: Part, cancelled: bool)
    ensures TaskOk(p, UNBORN, cancelled) && TaskOk(p, UNBORN.(worker := Spawned), cancelled)
  {
  }

  lemma StartedOk(p: Part, t: Task, script: Script, cancelled: bool)
    requires TaskOk(p, t, cancelled) && t.worker.Spawned?
    ensures TaskOk(p, Started(t, script), cancelled)
  {
    assert Tokens(p, DeltasOf(script)[..0]) == [];
    assert DeltasOf(script)[..0] == [];
  }

  lemma CancelOk(p: Part, t: Task)
    requires TaskOk(p, t, false)
    ensures TaskOk(p, t, true)
  {
  }

  lemma ExitOk(p: Part, t: Task, a: TaskAct, cancelled: bool, reading: bool)
    requires TaskOk(p, t, cancelled) && TaskEnabled(t, a, cancelled, reading)
    requires a.Finish? || a.Report? || a.GiveUp?
    ensures TaskOk(p, TaskNext(p, t, a, cancelled, reading), cancelled)
  {
    var deltas := DeltasOf(t.script);
    var m := if t.worker.Sending? then t.taken - 1 else t.taken;
    assert t.said == Tokens(p, deltas[..m]);
    var u := TaskNext(p, t, a, cancelled, reading);
    assert Speech(p, deltas, u.said);
    if !cancelled {
      assert t.script.Stream? ==> deltas[..m] == deltas;
      assert t.script.Refused? ==> Tokens(p, deltas[..m]) == [];
    }
  }

  lemma TaskNextOk(p: Part, t: Task, a: TaskAct, cancelled: bool, reading: bool)
    requires TaskOk(p, t, cancelled) && TaskEnabled(t, a, cancelled, reading)
    ensures TaskOk(p, TaskNext(p, t, a, cancelled, reading), cancelled)
  {
    if a.Finish? || a.Report? || a.GiveUp? {
      ExitOk(p, t, a, cancelled, reading);
    } else if a.Take? {
      TokensSnoc(p, t.script.deltas, t.taken);
    } else if a.Send? {
      TokensSnoc(p, t.script.deltas, t.taken - 1);
    } else {
      assert t.said + [] == t.said;
    }
  }

  // ----- Work left

  function Rank(w: Worker): nat {
    match w
    case Unborn | Spawned | Exited => 0
    case Terminating | Failing => 1
    case Pulling => 2
    case Sending => 3
  }

  /** Steps a started task can still take: a delta costs two, the producer's exit one. */
  function Work(t: Task): nat {
    (if t.taken <= |DeltasOf(t.script)| then 2 * (|DeltasOf(t.script)| - t.taken) else 0)
    + Rank(t.worker) + if t.producer.Live? then 1 else 0
  }

  function Idle(t: Task): nat {
    if t.worker.Unborn? || t.worker.Spawned? then 1 else 0
  }

  lemma WorkShrinks(p: Part, t: Task, a: TaskAct, cancelled: bool, reading: bool)
    requires TaskOk(p, t, cancelled) && TaskEnabled(t, a, cancelled, reading)
    ensures Work(TaskNext(p, t, a, cancelled, reading)) < Work(t)
    ensures Idle(TaskNext(p, t, a, cancelled, reading)) == Idle(t)
  {
  }

  /** A running task can always move while somebody reads or the context is done. */
  lemma TaskMoves(p: Part, t: Task, cancelled: bool, reading: bool) returns (a: TaskAct)
    requires TaskOk(p, t, cancelled) && (reading || cancelled)
    requires !t.worker.Unborn? && !t.worker.Spawned? && !t.worker.Exited?
    ensures TaskEnabled(t, a, cancelled, reading)
  {
    match t.worker {
      case Pulling =>
        if t.producer.Gone? {
          a := Drained;
        } else if t.producer.sent < |t.script.deltas| {
          a := Take;
        } else {
          a := if t.script.fails then TakeError else ProducerExit;
        }
      case Sending => a := if reading then Send else GiveUp;
      case Terminating => a := if reading then Finish else GiveUp;
      case Failing => a := if reading then Report else GiveUp;
    }
  }
}
