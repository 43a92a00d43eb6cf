/** Several goroutines write frames to one stream; each takes the stream's write mutex around its
    Write call (client/client.go, server/reverse.go). Below the mutex a Write reaches the wire piece
    by piece, and the stream may break at any point. */
module Writers {
  import opened Streams
  import opened Frames

  datatype Holder = Free | Held(packet: Packet, done: nat)

  /** `log` lists the packets in the order in which their writers got the lock, `finished` those
      whose last byte is on the wire. */
  datatype State = State(wire: seq<Byte>, mutex: Holder, broken: bool, log: seq<Packet>, finished: seq<Packet>)

  datatype Step = Lock(packet: Packet) | Push(n: nat) | Unlock | Break

  const INITIAL := State([], Free, false, [], [])

  predicate Enabled(s: State, step: Step) {
    match step
    case Lock(p) => s.mutex.Free? && Sendable(p)
    case Push(n) => s.mutex.Held? && Sendable(s.mutex.packet) && !s.broken
        && 0 < n <= |EncodeUdp(s.mutex.packet)| - s.mutex.done
    case Unlock => s.mutex.Held? && Sendable(s.mutex.packet)
        && (s.broken || s.mutex.done == |EncodeUdp(s.mutex.packet)|)
    case Break => true
  }

  function Next(s: State, step: Step): State
    requires Enabled(s, step)
  {
    match step
    case Lock(p) => s.(mutex := Held(p, 0), log := s.log + [p])
    case Push(n) =>
      var Held(p, done) := s.mutex;
      s.(wire := s.wire + EncodeUdp(p)[done..done + n], mutex := Held(p, done + n),
         finished := if done + n == |EncodeUdp(p)| then s.finished + [p] else s.finished)
    case Unlock => s.(mutex := Free)
    case Break => s.(broken := true)
  }

  ghost predicate Run(s: State, steps: seq<Step>)
    decreases |steps|
  {
    steps == [] || (Enabled(s, steps[0]) && Run(Next(s, steps[0]), steps[1..]))
  }

  ghost function After(s: State, steps: seq<Step>): State
    requires Run(s, steps)
    decreases |steps|
  {
    if steps == [] then s else After(Next(s, steps[0]), steps[1..])
  }

  /** The wire is the finished frames in lock order and a piece of at most one more. */
  ghost predicate Inv(s: State) {
    && AllSendable(s.log) && s.finished <= s.log && AllSendable(s.finished)
    && EncodeAll(s.finished) <= s.wire
    && var piece := s.wire[|EncodeAll(s.finished)|..];
    && ParseUdp(piece).None?
    && (s.mutex.Free? && !s.broken ==> piece == [] && s.finished == s.log)
    && (s.mutex.Held? && !s.broken ==>
          && Sendable(s.mutex.packet) && s.mutex.done <= |EncodeUdp(s.mutex.packet)|
          && (if s.mutex.done < |EncodeUdp(s.mutex.packet)|
              then s.log == s.finished + [s.mutex.packet] && piece == EncodeUdp(s.mutex.packet)[..s.mutex.done]
              else s.log == s.finished && piece == []))
  }

  lemma TakeMore(frame: seq<Byte>, front: seq<Byte>, done: nat, n: nat)
    requires done + n <= |frame|
    ensures front + frame[..done] + frame[done..done + n] == front + frame[..done + n]
    ensures (front + frame[..done + n])[|front|..] == frame[..done + n]
  {
    assert frame[..done] + frame[done..done + n] == frame[..done + n];
  }

  lemma PushKeepsInv(s: State, n: nat)
    requires Inv(s) && Enabled(s, Push(n))
    ensures Inv(Next(s, Push(n)))
  {
    var Held(p, done) := s.mutex;
    var frame, front := EncodeUdp(p), EncodeAll(s.finished);
    assert s.wire == front + frame[..done];
    TakeMore(frame, front, done, n);
    if done + n < |frame| {
      ProperPrefixIsIncomplete(p, done + n);
    } else {
      assert frame[..done + n] == frame;
      EncodeAllAppend(s.finished, p);
    }
  }

  lemma LockKeepsInv(s: State, p: Packet)
    requires Inv(s) && Enabled(s, Lock(p))
    ensures Inv(Next(s, Lock(p)))
  {
    assert s.log <= s.log + [p];
    assert EncodeUdp(p)[..0] == [];
  }

  lemma StepKeepsInv(s: State, step: Step)
    requires Inv(s) && Enabled(s, step)
    ensures Inv(Next(s, step))
  {
    match step
    case Lock(p) => LockKeepsInv(s, p);
    case Push(n) => PushKeepsInv(s, n);
    case Unlock =>
    case Break =>
  }

  lemma {:induction false} RunKeepsInv(s: State, steps: seq<Step>)
    requires Inv(s) && Run(s, steps)
    ensures Inv(After(s, steps))
    decreases |steps|
  {
    if steps != [] {
      StepKeepsInv(s, steps[0]);
      RunKeepsInv(Next(s, steps[0]), steps[1..]);
    }
  }

  lemma WireParses(s: State)
    requires Inv(s)
    ensures ParseAll(s.wire) == (s.finished, s.wire[|EncodeAll(s.finished)|..])
  {
    var piece := s.wire[|EncodeAll(s.finished)|..];
    assert s.wire == EncodeAll(s.finished) + piece;
    ParseAllInvertsEncodeAll(s.finished, piece);
  }

  /** In every interleaving of any number of writers, whoever parses the wire at any moment gets
      whole frames in lock order; when no writer holds the lock, it gets all of them. */
  lemma WireIsFramesInLockOrder(steps: seq<Step>)
    requires Run(INITIAL, steps)
    ensures var s := After(INITIAL, steps);
            && ParseAll(s.wire).0 == s.finished <= s.log
            && (!s.broken && s.mutex.Free? ==> ParseAll(s.wire) == (s.log, []))
  {
    RunKeepsInv(INITIAL, steps);
    WireParses(After(INITIAL, steps));
  }
}
