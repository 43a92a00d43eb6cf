/** The control stream of one client (server/reverse.go setupControl, pushRulesTo, broadcastRules;
    client/client.go handleStream, client/reverse.go handleControl). Every change of the rules is
    followed by a push, whose snapshot is taken under one mutex and written under another; pushes may
    be refused, cut off the client or come before the stream's header. The wire holds real frames, and
    the client is a function of the bytes it reads. */
module ControlLink {
  import opened Streams
  import opened Reverse
  import Broadcast
  import ReverseOverlap
  import Frames
  import Rules
  import ServerState

  type Push = seq<ReverseRule>

  /** JSON text as the library writes and reads it: the control header, and pushes. */
  datatype Json = Json(header: seq<Byte>, encode: Push -> seq<Byte>, decode: seq<Byte> -> Option<Push>)

  /** Texts are not empty, pushes read back, and none is the control header, which fits a frame. */
  ghost predicate Sound(j: Json) {
    && 1 <= |j.header| <= 0xFFFF
    && forall p :: j.encode(p) != [] && j.encode(p) != j.header && j.decode(j.encode(p)) == Some(p)
  }

  // ---- the client's side ----

  /** No header yet; the stream dropped and every reverse rule stopped; or the last push applied. */
  datatype Held = NoHeader | Gone | Running(push: Option<Push>)

  /** A frame whose length field is zero has arrived. */
  predicate ZeroLength(b: seq<Byte>) {
    |b| >= 2 && FromBe16(b[..2]) == 0
  }

  /** handleControl's loop: push after push until a frame cannot be read. */
  function ControlLoop(j: Json, b: seq<Byte>, held: Option<Push>): Held {
    match Frames.ParseJson(b)
    case None => if ZeroLength(b) then Gone else Running(held)
    case Some((body, rest)) =>
      match j.decode(body)
      case None => Gone
      case Some(push) => ControlLoop(j, rest, Some(push))
  }

  /** handleStream: the first frame must be the control header, or the stream is closed. */
  function Client(j: Json, wire: seq<Byte>): Held {
    match Frames.ParseJson(wire)
    case None => if ZeroLength(wire) then Gone else NoHeader
    case Some((first, rest)) => if first == j.header then ControlLoop(j, rest, None) else Gone
  }

  // ---- the server's side ----

  /** setupControl: the stream is not yet published; other callers may push on it; its header is out. */
  datatype Setup = Opening | Published | Ready

  /** The rules; the callers that have yet to take a snapshot; those that have yet to write theirs; all
      snapshots taken; the bytes written. For the theorems it also remembers which snapshots were
      written, in order, and whether one was written before the header. */
  datatype Link = Link(rules: seq<Rules.Rule>, owed: set<nat>, inFlight: map<nat, nat>, snaps: seq<Push>, setup: Setup,
                       wire: seq<Byte>, broken: bool, written: seq<nat>, early: bool)

  datatype Move =
    | Change(caller: nat, rules: seq<Rules.Rule>)  // an operation: new rules, a broadcast to come
    | Publish                                      // setupControl makes the stream known
    | WriteHeader(ok: bool)                        // and writes the header; its own push is to come
    | Take(caller: nat)                            // pushRulesTo: snapshot and stream, under one lock
    | Deliver(caller: nat, ok: bool)               // pushRulesTo: write the snapshot
    | Break                                        // the session fails

  const SETUP := 0

  function Opened(rules: seq<Rules.Rule>): Link {
    Link(rules, {}, map[], [], Opening, [], false, [], false)
  }

  predicate Possible(l: Link, m: Move) {
    match m
    case Change(c, _) => c != SETUP && c !in l.owed && c !in l.inFlight
    case Publish => l.setup.Opening?
    case WriteHeader(_) => l.setup.Published?
    case Take(c) => c in l.owed
    case Deliver(c, _) => c in l.inFlight && l.inFlight[c] < |l.snaps|
    case Break => true
  }

  function Moved(j: Json, client: string, l: Link, m: Move): Link
    requires Possible(l, m)
  {
    match m
    case Change(c, rules) => l.(rules := rules, owed := l.owed + {c})
    case Publish => l.(setup := Published)
    case WriteHeader(ok) => Headed(j, l, ok)
    case Take(c) =>
      if l.setup.Opening? then l.(owed := l.owed - {c})
      else l.(owed := l.owed - {c}, inFlight := l.inFlight[c := |l.snaps|],
        snaps := l.snaps + [Broadcast.PushFor(l.rules, client)])
    case Deliver(c, ok) => Delivered(j, l.(inFlight := l.inFlight - {c}), l.inFlight[c], ok)
    case Break => l.(broken := true)
  }

  function Headed(j: Json, l: Link, ok: bool): Link {
    match Frames.EncodeJson(j.header)
    case None => l.(broken := true)
    case Some(frame) =>
      if l.broken || !ok then l.(broken := true)
      else l.(setup := Ready, owed := l.owed + {SETUP}, wire := l.wire + frame)
  }

  /** A snapshot that is too long is logged and forgotten; one that fails to be written means that the
      session is over. */
  function Delivered(j: Json, l: Link, i: nat, ok: bool): Link
    requires i < |l.snaps|
  {
    match Frames.EncodeJson(j.encode(l.snaps[i]))
    case None => l
    case Some(frame) =>
      if l.broken || !ok then l.(broken := true)
      else l.(wire := l.wire + frame, written := l.written + [i], early := l.early || !l.setup.Ready?)
  }

  ghost predicate Moves(j: Json, client: string, l: Link, moves: seq<Move>)
    decreases |moves|
  {
    moves == [] || (Possible(l, moves[0]) && Moves(j, client, Moved(j, client, l, moves[0]), moves[1..]))
  }

  ghost function Later(j: Json, client: string, l: Link, moves: seq<Move>): Link
    requires Moves(j, client, l, moves)
    decreases |moves|
  {
    if moves == [] then l else Later(j, client, Moved(j, client, l, moves[0]), moves[1..])
  }

  /** No snapshot is taken while another waits to be written. */
  ghost predicate Apart(j: Json, client: string, l: Link, moves: seq<Move>)
    requires Moves(j, client, l, moves)
    decreases |moves|
  {
    moves == [] ||
    ((moves[0].Take? ==> l.inFlight == map[]) && Apart(j, client, Moved(j, client, l, moves[0]), moves[1..]))
  }

  /** The stream is set up and works, and every change has been broadcast. */
  predicate Quiescent(l: Link) {
    l.owed == {} && l.inFlight == map[] && l.setup.Ready? && !l.broken
  }

  // ---- what the client makes of the wire ----

  predicate Sendable(j: Json, p: Push) {
    |j.encode(p)| <= Frames.MAX_FRAME
  }

  /** The one length that the writer accepts and the reader takes for zero. */
  predicate Fatal(j: Json, p: Push) {
    |j.encode(p)| == Frames.MAX_FRAME
  }

  function Frame(j: Json, p: Push): seq<Byte>
    requires Sendable(j, p)
  {
    Frames.EncodeJson(j.encode(p)).value
  }

  function EncodePushes(j: Json, ps: seq<Push>): seq<Byte>
    requires forall p :: p in ps ==> Sendable(j, p)
  {
    if ps == [] then [] else Frame(j, ps[0]) + EncodePushes(j, ps[1..])
  }

  lemma {:induction false} EncodePushesAppend(j: Json, ps: seq<Push>, p: Push)
    requires Sendable(j, p) && forall q :: q in ps ==> Sendable(j, q)
    ensures forall q :: q in ps + [p] ==> Sendable(j, q)
    ensures EncodePushes(j, ps + [p]) == EncodePushes(j, ps) + Frame(j, p)
  {
    if ps == [] {
      assert EncodePushes(j, [p]) == Frame(j, p) + [];
    } else {
      EncodePushesAppend(j, ps[1..], p);
      assert (ps + [p])[1..] == ps[1..] + [p];
    }
  }

  function Last(ps: seq<Push>, held: Option<Push>): Option<Push> {
    if ps == [] then held else Some(ps[|ps| - 1])
  }

  /** One frame at the front of what is unread. */
  lemma FirstFrame(j: Json, p: Push, rest: seq<Byte>)
    requires Sound(j) && Sendable(j, p)
    ensures Fatal(j, p) ==> Frames.ParseJson(Frame(j, p) + rest).None? && ZeroLength(Frame(j, p) + rest)
    ensures !Fatal(j, p) ==> Frames.ParseJson(Frame(j, p) + rest) == Some((j.encode(p), rest))
  {
    Frames.JsonRoundTripIff(j.encode(p), rest);
    if Fatal(j, p) {
      assert (Frame(j, p) + rest)[..2] == Be16(0);
    }
  }

  lemma {:induction false} LoopFollows(j: Json, ps: seq<Push>, held: Option<Push>)
    requires Sound(j) && forall p :: p in ps ==> Sendable(j, p)
    ensures ControlLoop(j, EncodePushes(j, ps), held)
         == if AnyFatal(j, ps) then Gone else Running(Last(ps, held))
  {
    if ps != [] {
      FirstFrame(j, ps[0], EncodePushes(j, ps[1..]));
      LoopFollows(j, ps[1..], Some(ps[0]));
      assert forall p :: p in ps <==> p == ps[0] || p in ps[1..];
    }
  }

  predicate Indexed(snaps: seq<Push>, written: seq<nat>) {
    forall k :: 0 <= k < |written| ==> written[k] < |snaps|
  }

  /** The pushes on the wire, in order. */
  function Pushes(snaps: seq<Push>, written: seq<nat>): (ps: seq<Push>)
    requires Indexed(snaps, written)
    ensures |ps| == |written| && forall k :: 0 <= k < |ps| ==> ps[k] == snaps[written[k]]
  {
    seq(|written|, k requires 0 <= k < |written| => snaps[written[k]])
  }

  ghost predicate WrittenOk(j: Json, snaps: seq<Push>, written: seq<nat>) {
    Indexed(snaps, written) && forall p :: p in Pushes(snaps, written) ==> Sendable(j, p)
  }

  ghost predicate AnyFatal(j: Json, ps: seq<Push>) {
    exists p :: p in ps && Fatal(j, p)
  }

  /** What is on the wire: the header and then the pushes written, nothing, or a push at the front. */
  ghost predicate WireOk(j: Json, l: Link) {
    && WrittenOk(j, l.snaps, l.written)
    && (forall c :: c in l.inFlight ==> l.inFlight[c] < |l.snaps|)
    && (if l.early then l.written != [] && Frame(j, Pushes(l.snaps, l.written)[0]) <= l.wire
        else if l.setup.Ready? then
          Frames.EncodeJson(j.header).Some?
          && l.wire == Frames.EncodeJson(j.header).value + EncodePushes(j, Pushes(l.snaps, l.written))
        else l.wire == [] && l.written == [])
  }

  lemma PushesAppend(snaps: seq<Push>, written: seq<nat>, i: nat)
    requires i < |snaps| && Indexed(snaps, written)
    ensures Indexed(snaps, written + [i])
    ensures Pushes(snaps, written + [i]) == Pushes(snaps, written) + [snaps[i]]
  {
  }

  lemma DeliverKeepsWire(j: Json, l: Link, i: nat, ok: bool)
    requires Sound(j) && WireOk(j, l) && i < |l.snaps|
    ensures WireOk(j, Delivered(j, l, i, ok))
  {
    if Sendable(j, l.snaps[i]) && !l.broken && ok {
      var l' := Delivered(j, l, i, ok);
      var ps, ps' := Pushes(l.snaps, l.written), Pushes(l.snaps, l.written + [i]);
      PushesAppend(l.snaps, l.written, i);
      if l.early {
        assert ps'[0] == ps[0];
      } else if l.setup.Ready? {
        EncodePushesAppend(j, ps, l.snaps[i]);
      } else {
        assert l'.wire == Frame(j, ps'[0]);
      }
    }
  }

  lemma TakeKeepsWire(j: Json, client: string, l: Link, c: nat)
    requires Sound(j) && WireOk(j, l) && Possible(l, Take(c))
    ensures WireOk(j, Moved(j, client, l, Take(c)))
  {
    var l' := Moved(j, client, l, Take(c));
    if !l.setup.Opening? {
      assert Pushes(l'.snaps, l.written) == Pushes(l.snaps, l.written);
    }
  }

  lemma HeaderKeepsWire(j: Json, l: Link, ok: bool)
    requires Sound(j) && WireOk(j, l) && Possible(l, WriteHeader(ok))
    ensures WireOk(j, Headed(j, l, ok))
  {
    if !l.early && !l.broken && ok {
      assert Pushes(l.snaps, []) == [];
    }
  }

  lemma MoveKeepsWire(j: Json, client: string, l: Link, m: Move)
    requires Sound(j) && WireOk(j, l) && Possible(l, m)
    ensures WireOk(j, Moved(j, client, l, m))
  {
    match m
    case Take(c) => TakeKeepsWire(j, client, l, c);
    case Deliver(c, ok) => DeliverKeepsWire(j, l.(inFlight := l.inFlight - {c}), l.inFlight[c], ok);
    case WriteHeader(ok) => HeaderKeepsWire(j, l, ok);
    case _ =>
  }

  lemma {:induction false} MovesKeepWire(j: Json, client: string, l: Link, moves: seq<Move>)
    requires Sound(j) && WireOk(j, l) && Moves(j, client, l, moves)
    ensures WireOk(j, Later(j, client, l, moves))
    decreases |moves|
  {
    if moves != [] {
      MoveKeepsWire(j, client, l, moves[0]);
      MovesKeepWire(j, client, Moved(j, client, l, moves[0]), moves[1..]);
    }
  }

  lemma EarlyClientIsGone(j: Json, p: Push, wire: seq<Byte>)
    requires Sound(j) && Sendable(j, p) && Frame(j, p) <= wire
    ensures Client(j, wire) == Gone
  {
    assert wire == Frame(j, p) + wire[|Frame(j, p)|..];
    FirstFrame(j, p, wire[|Frame(j, p)|..]);
  }

  /** What the client has made of everything written so far, in every interleaving. */
  lemma ClientHolds(j: Json, client: string, rules: seq<Rules.Rule>, moves: seq<Move>)
    requires Sound(j) && Moves(j, client, Opened(rules), moves)
    ensures var l := Later(j, client, Opened(rules), moves);
            && WireOk(j, l)
            && Client(j, l.wire) == (if l.early || AnyFatal(j, Pushes(l.snaps, l.written)) then Gone
                                     else if l.setup.Ready? then Running(Last(Pushes(l.snaps, l.written), None))
                                     else NoHeader)
  {
    MovesKeepWire(j, client, Opened(rules), moves);
    WireMeans(j, Later(j, client, Opened(rules), moves));
  }

  lemma WireMeans(j: Json, l: Link)
    requires Sound(j) && WireOk(j, l)
    ensures Client(j, l.wire) == (if l.early || AnyFatal(j, Pushes(l.snaps, l.written)) then Gone
                                  else if l.setup.Ready? then Running(Last(Pushes(l.snaps, l.written), None))
                                  else NoHeader)
  {
    if l.early {
      EarlyClientIsGone(j, Pushes(l.snaps, l.written)[0], l.wire);
    } else if l.setup.Ready? {
      var ps := Pushes(l.snaps, l.written);
      Frames.JsonRoundTripIff(j.header, EncodePushes(j, ps));
      LoopFollows(j, ps, None);
    }
  }

  // ---- which push is the current one ----

  /** Once everything owed has been taken, the last snapshot is of the current rules. */
  ghost predicate Fresh(client: string, l: Link) {
    l.setup.Ready? && l.owed == {} ==> l.snaps != [] && l.snaps[|l.snaps| - 1] == Broadcast.PushFor(l.rules, client)
  }

  lemma {:induction false} MovesKeepFresh(j: Json, client: string, l: Link, moves: seq<Move>)
    requires Fresh(client, l) && Moves(j, client, l, moves)
    ensures Fresh(client, Later(j, client, l, moves))
    decreases |moves|
  {
    if moves != [] {
      MoveKeepsFresh(j, client, l, moves[0]);
      MovesKeepFresh(j, client, Moved(j, client, l, moves[0]), moves[1..]);
    }
  }

  lemma MoveKeepsFresh(j: Json, client: string, l: Link, m: Move)
    requires Fresh(client, l) && Possible(l, m)
    ensures Fresh(client, Moved(j, client, l, m))
  {
    if m.WriteHeader? && Moved(j, client, l, m).setup.Ready? {
      assert SETUP in Moved(j, client, l, m).owed;
    } else if m.Change? {
      assert m.caller in Moved(j, client, l, m).owed;
    }
  }

  /** In every interleaving of changes, pushes and the stream's set-up: once every change has been
      broadcast on a working stream, the client runs the current rules if and only if no push was
      written before the header, none of those written had exactly 65536 bytes, and the last one
      written says the same as the last snapshot taken. */
  lemma LastPushIsCurrentIff(j: Json, client: string, rules: seq<Rules.Rule>, moves: seq<Move>)
    requires Sound(j) && Moves(j, client, Opened(rules), moves)
    requires Quiescent(Later(j, client, Opened(rules), moves))
    ensures var l := Later(j, client, Opened(rules), moves);
            && WireOk(j, l) && l.snaps != []
            && (Client(j, l.wire) == Running(Some(Broadcast.PushFor(l.rules, client)))
                <==> && !l.early && !AnyFatal(j, Pushes(l.snaps, l.written))
                     && l.written != [] && l.snaps[l.written[|l.written| - 1]] == l.snaps[|l.snaps| - 1])
  {
    ClientHolds(j, client, rules, moves);
    MovesKeepFresh(j, client, Opened(rules), moves);
  }

  // ---- pushes that do not overlap ----

  /** Every snapshot is written, refused or the one in hand, and they were written in order. */
  ghost predicate InOrder(j: Json, l: Link) {
    && (forall c :: c in l.inFlight ==> l.inFlight[c] == |l.snaps| - 1)
    && (forall i :: 0 <= i < |l.snaps| ==>
          i in l.written || !Sendable(j, l.snaps[i]) || (i == |l.snaps| - 1 && l.inFlight != map[]))
    && (forall a, b :: 0 <= a < b < |l.written| ==> l.written[a] < l.written[b])
    && (forall k :: 0 <= k < |l.written| ==>
          l.written[k] < |l.snaps| && (l.inFlight != map[] ==> l.written[k] < |l.snaps| - 1))
    && (forall c, d :: c in l.inFlight && d in l.inFlight ==> c == d)
  }

  lemma TakeKeepsOrder(j: Json, client: string, l: Link, c: nat)
    requires InOrder(j, l) && Possible(l, Take(c)) && l.inFlight == map[]
    ensures InOrder(j, Moved(j, client, l, Take(c)))
  {
    if !l.setup.Opening? {
      var l' := Moved(j, client, l, Take(c));
      assert c in l'.inFlight && l'.inFlight.Keys == {c};
      assert forall i :: 0 <= i < |l.snaps| ==> l'.snaps[i] == l.snaps[i];
    }
  }

  lemma DeliverKeepsOrder(j: Json, client: string, l: Link, c: nat, ok: bool)
    requires InOrder(j, l) && Possible(l, Deliver(c, ok)) && !Moved(j, client, l, Deliver(c, ok)).broken
    ensures InOrder(j, Moved(j, client, l, Deliver(c, ok)))
  {
    var l' := Moved(j, client, l, Deliver(c, ok));
    assert c in l.inFlight;
    assert l'.inFlight.Keys <= {} && l'.inFlight == map[];
    assert forall i :: i in l.written ==> i in l'.written;
    if Sendable(j, l.snaps[l.inFlight[c]]) {
      assert l'.written == l.written + [l.inFlight[c]];
    }
  }

  lemma MoveKeepsOrder(j: Json, client: string, l: Link, m: Move)
    requires InOrder(j, l) && Possible(l, m) && (m.Take? ==> l.inFlight == map[]) && !Moved(j, client, l, m).broken
    ensures InOrder(j, Moved(j, client, l, m))
  {
    match m
    case Take(c) => TakeKeepsOrder(j, client, l, c);
    case Deliver(c, ok) => DeliverKeepsOrder(j, client, l, c, ok);
    case _ =>
  }

  lemma {:induction false} BrokenStaysBroken(j: Json, client: string, l: Link, moves: seq<Move>)
    requires l.broken && Moves(j, client, l, moves)
    ensures Later(j, client, l, moves).broken
    decreases |moves|
  {
    if moves != [] {
      BrokenStaysBroken(j, client, Moved(j, client, l, moves[0]), moves[1..]);
    }
  }

  lemma {:induction false} MovesKeepOrder(j: Json, client: string, l: Link, moves: seq<Move>)
    requires InOrder(j, l) && Moves(j, client, l, moves) && Apart(j, client, l, moves)
    requires !Later(j, client, l, moves).broken
    ensures InOrder(j, Later(j, client, l, moves))
    decreases |moves|
  {
    if moves != [] {
      var l' := Moved(j, client, l, moves[0]);
      if l'.broken {
        BrokenStaysBroken(j, client, l', moves[1..]);
      } else {
        MoveKeepsOrder(j, client, l, moves[0]);
        MovesKeepOrder(j, client, l', moves[1..]);
      }
    }
  }

  lemma LastWritten(j: Json, l: Link)
    requires InOrder(j, l) && l.inFlight == map[] && l.snaps != [] && Sendable(j, l.snaps[|l.snaps| - 1])
    ensures l.written != [] && l.written[|l.written| - 1] == |l.snaps| - 1
  {
    var k :| 0 <= k < |l.written| && l.written[k] == |l.snaps| - 1;
  }

  /** Of the snapshots, one of exactly 65536 bytes has been written if there is any. */
  lemma FatalIsWritten(j: Json, l: Link)
    requires InOrder(j, l) && WrittenOk(j, l.snaps, l.written) && l.inFlight == map[]
    ensures AnyFatal(j, Pushes(l.snaps, l.written)) <==> AnyFatal(j, l.snaps)
  {
    var ps := Pushes(l.snaps, l.written);
    if AnyFatal(j, l.snaps) {
      var i :| 0 <= i < |l.snaps| && Fatal(j, l.snaps[i]);
      var k :| 0 <= k < |l.written| && l.written[k] == i;
      assert ps[k] in ps;
    }
    if AnyFatal(j, ps) {
      var k :| 0 <= k < |ps| && Fatal(j, ps[k]);
      assert l.snaps[l.written[k]] in l.snaps;
    }
  }

  /** The last push on the wire says what the last snapshot says exactly when that one fits a frame. */
  lemma LastSaysCurrentIff(j: Json, l: Link)
    requires InOrder(j, l) && WrittenOk(j, l.snaps, l.written) && l.inFlight == map[] && l.snaps != []
    ensures Sendable(j, l.snaps[|l.snaps| - 1])
       <==> l.written != [] && l.snaps[l.written[|l.written| - 1]] == l.snaps[|l.snaps| - 1]
  {
    if Sendable(j, l.snaps[|l.snaps| - 1]) {
      LastWritten(j, l);
    } else if l.written != [] {
      var ps := Pushes(l.snaps, l.written);
      assert Sendable(j, ps[|ps| - 1]);
    }
  }

  /** What it takes for the current push to arrive. */
  ghost predicate Arrives(j: Json, client: string, l: Link) {
    !l.early && !AnyFatal(j, l.snaps) && |j.encode(Broadcast.PushFor(l.rules, client))| <= 0xFFFF
  }

  /** With pushes that do not overlap, the client ends up with the current rules if and only if no push
      was written before the header, no push ever taken had exactly 65536 bytes, and the current one
      has at most 65535. */
  lemma CurrentRulesArriveIff(j: Json, client: string, rules: seq<Rules.Rule>, moves: seq<Move>)
    requires Sound(j) && Moves(j, client, Opened(rules), moves) && Apart(j, client, Opened(rules), moves)
    requires Quiescent(Later(j, client, Opened(rules), moves))
    ensures var l := Later(j, client, Opened(rules), moves);
            Client(j, l.wire) == Running(Some(Broadcast.PushFor(l.rules, client))) <==> Arrives(j, client, l)
  {
    LastPushIsCurrentIff(j, client, rules, moves);
    MovesKeepOrder(j, client, Opened(rules), moves);
    MovesKeepFresh(j, client, Opened(rules), moves);
    var l := Later(j, client, Opened(rules), moves);
    FatalIsWritten(j, l);
    LastSaysCurrentIff(j, l);
    assert l.snaps[|l.snaps| - 1] in l.snaps;
  }

  // ---- and the client follows ----

  /** End to end: when every change has been broadcast, pushes did not overlap, and the lengths and the
      header are as they must be, the last push the client reads is the current one; and once all starts
      have settled, the client runs exactly the server's enabled client-side rules for it, except those
      for which a start has failed. `s` is the client's state when it reads that push, with any number of
      earlier starts pending. */
  lemma ClientFollowsServer(j: Json, client: string, rules: seq<Rules.Rule>, moves: seq<Move>, s: State,
                            steps: seq<Step>, r: Rules.Rule)
    requires Sound(j) && Moves(j, client, Opened(rules), moves) && Apart(j, client, Opened(rules), moves)
    requires var l := Later(j, client, Opened(rules), moves);
             && Quiescent(l) && Arrives(j, client, l) && ServerState.IdsGood(l.rules) && r in l.rules
    requires ReverseOverlap.Served(s)
    ensures var l := Later(j, client, Opened(rules), moves);
            && Client(j, l.wire).Running? && Client(j, l.wire).push.Some?
            && var s1 := Reverse.Apply(s, Client(j, l.wire).push.value);
               Round(s1, steps) && Settled(Reverse.After(s1, steps)) ==>
                 Broadcast.Matches(l.rules, client, s1, steps, r)
  {
    CurrentRulesArriveIff(j, client, rules, moves);
    var l := Later(j, client, Opened(rules), moves);
    var s1 := Reverse.Apply(s, Broadcast.PushFor(l.rules, client));
    if Round(s1, steps) && Settled(Reverse.After(s1, steps)) {
      Broadcast.PushMatches(l.rules, client, s, steps, r);
    }
  }

  // ---- runs in which it does not ----

  /** One move leads from l to l'. */
  ghost predicate Leads(j: Json, client: string, l: Link, m: Move, l': Link) {
    Possible(l, m) && Moved(j, client, l, m) == l'
  }

  /** `moves` lead from l to an end. */
  ghost predicate Ends(j: Json, client: string, l: Link, moves: seq<Move>, end: Link) {
    Moves(j, client, l, moves) && Later(j, client, l, moves) == end
  }

  lemma Prepend(j: Json, client: string, l: Link, m: Move, l': Link, moves: seq<Move>, end: Link)
    requires Leads(j, client, l, m, l') && Ends(j, client, l', moves, end)
    ensures Ends(j, client, l, [m] + moves, end)
  {
    assert ([m] + moves)[1..] == moves;
  }

  lemma PrependThree(j: Json, client: string, l: Link, a: Move, l1: Link, b: Move, l2: Link, c: Move, l3: Link,
                     moves: seq<Move>, end: Link)
    requires Leads(j, client, l, a, l1) && Leads(j, client, l1, b, l2) && Leads(j, client, l2, c, l3)
    requires Ends(j, client, l3, moves, end)
    ensures Ends(j, client, l, [a] + ([b] + ([c] + moves)), end)
  {
    Prepend(j, client, l2, c, l3, moves, end);
    Prepend(j, client, l1, b, l2, [c] + moves, end);
    Prepend(j, client, l, a, l1, [b] + ([c] + moves), end);
  }

  lemma NoMoves(j: Json, client: string, l: Link)
    ensures Ends(j, client, l, [], l)
  {
  }

  /** The set-up with nothing in between: the header is out, and its push is to come. */
  function AfterSetUp(j: Json, rules: seq<Rules.Rule>): Link {
    Opened(rules).(setup := Ready, owed := {SETUP}, wire := HeaderFrame(j))
  }

  function HeaderFrame(j: Json): seq<Byte> {
    match Frames.EncodeJson(j.header)
    case None => []
    case Some(frame) => frame
  }

  lemma SetUpEnds(j: Json, client: string, rules: seq<Rules.Rule>, moves: seq<Move>, end: Link)
    requires Sound(j) && Ends(j, client, AfterSetUp(j, rules), moves, end)
    ensures Ends(j, client, Opened(rules), [Publish] + ([WriteHeader(true)] + moves), end)
  {
    var published := Opened(rules).(setup := Published);
    assert {} + {SETUP} == {SETUP} && [] + HeaderFrame(j) == HeaderFrame(j);
    Prepend(j, client, published, WriteHeader(true), AfterSetUp(j, rules), moves, end);
    Prepend(j, client, Opened(rules), Publish, published, [WriteHeader(true)] + moves, end);
  }

  /** After the set-up, a push that fits and then one that does not. */
  lemma OversizedRun(j: Json, client: string, before: seq<Rules.Rule>, rules: seq<Rules.Rule>)
    returns (moves: seq<Move>, end: Link)
    requires Sound(j) && |j.encode(Broadcast.PushFor(before, client))| <= 0xFFFF
    requires |j.encode(Broadcast.PushFor(rules, client))| > Frames.MAX_FRAME
    ensures Ends(j, client, AfterSetUp(j, before), moves, end)
    ensures Quiescent(end) && end.rules == rules && !end.early && end.written == [0]
    ensures end.snaps == [Broadcast.PushFor(before, client), Broadcast.PushFor(rules, client)]
  {
    var l := AfterFirstPush(j, client, before);
    var l1 := l.(rules := rules, owed := {1});
    var l2 := l1.(owed := {}, inFlight := map[1 := 1], snaps := l.snaps + [Broadcast.PushFor(rules, client)]);
    end := l2.(inFlight := map[]);
    assert {} + {1} == {1};
    NoMoves(j, client, end);
    PrependThree(j, client, l, Change(1, rules), l1, Take(1), l2, Deliver(1, true), end, [], end);
    var rest := [Change(1, rules)] + ([Take(1)] + ([Deliver(1, true)] + []));
    FirstPush(j, client, before, rest, end);
    moves := [Take(SETUP)] + ([Deliver(SETUP, true)] + rest);
  }

  /** The push of the set-up itself has gone out. */
  function AfterFirstPush(j: Json, client: string, rules: seq<Rules.Rule>): Link
    requires Sendable(j, Broadcast.PushFor(rules, client))
  {
    var p := Broadcast.PushFor(rules, client);
    Link(rules, {}, map[], [p], Ready, HeaderFrame(j) + Frame(j, p), false, [0], false)
  }

  lemma FirstPush(j: Json, client: string, rules: seq<Rules.Rule>, moves: seq<Move>, end: Link)
    requires Sendable(j, Broadcast.PushFor(rules, client))
        && Ends(j, client, AfterFirstPush(j, client, rules), moves, end)
    ensures Ends(j, client, AfterSetUp(j, rules), [Take(SETUP)] + ([Deliver(SETUP, true)] + moves), end)
  {
    var l := AfterSetUp(j, rules);
    var l1 := l.(owed := {}, inFlight := map[SETUP := 0], snaps := [Broadcast.PushFor(rules, client)]);
    Prepend(j, client, l1, Deliver(SETUP, true), AfterFirstPush(j, client, rules), moves, end);
    Prepend(j, client, l, Take(SETUP), l1, [Deliver(SETUP, true)] + moves, end);
  }

  /** The push of the set-up is all there is. */
  lemma OnlySetUpPushes(j: Json, client: string, rules: seq<Rules.Rule>)
    requires Sound(j) && |j.encode(Broadcast.PushFor(rules, client))| <= 0xFFFF
    ensures Ends(j, client, Opened(rules),
                 [Publish] + ([WriteHeader(true)] + ([Take(SETUP)] + ([Deliver(SETUP, true)] + []))),
                 AfterFirstPush(j, client, rules))
  {
    NoMoves(j, client, AfterFirstPush(j, client, rules));
    FirstPush(j, client, rules, [], AfterFirstPush(j, client, rules));
    SetUpEnds(j, client, rules, [Take(SETUP)] + ([Deliver(SETUP, true)] + []), AfterFirstPush(j, client, rules));
  }

  lemma EarlyChangeEnds(j: Json, client: string, before: seq<Rules.Rule>, rules: seq<Rules.Rule>)
    returns (moves: seq<Move>)
    requires Sound(j) && |j.encode(Broadcast.PushFor(rules, client))| <= 0xFFFF
    ensures moves == [Change(1, rules), Take(1), Publish, WriteHeader(true), Take(SETUP), Deliver(SETUP, true)]
    ensures Ends(j, client, Opened(before), moves, AfterFirstPush(j, client, rules))
  {
    var l1, end := Opened(before).(rules := rules, owed := {1}), AfterFirstPush(j, client, rules);
    assert {} + {1} == {1};
    OnlySetUpPushes(j, client, rules);
    var setUp := [Publish] + ([WriteHeader(true)] + ([Take(SETUP)] + ([Deliver(SETUP, true)] + [])));
    Prepend(j, client, l1, Take(1), Opened(rules), setUp, end);
    Prepend(j, client, Opened(before), Change(1, rules), l1, [Take(1)] + setUp, end);
    moves := [Change(1, rules)] + ([Take(1)] + setUp);
  }

  /** A change before the stream is known: its own push finds no stream and is over, and the push of the
      set-up brings the client the new rules. */
  lemma EarlyChangeArrives(j: Json, client: string, before: seq<Rules.Rule>, rules: seq<Rules.Rule>)
    returns (moves: seq<Move>)
    requires Sound(j) && |j.encode(Broadcast.PushFor(rules, client))| <= 0xFFFF
    ensures moves == [Change(1, rules), Take(1), Publish, WriteHeader(true), Take(SETUP), Deliver(SETUP, true)]
    ensures Moves(j, client, Opened(before), moves)
    ensures var l := Later(j, client, Opened(before), moves);
            Quiescent(l) && l.rules == rules && Client(j, l.wire) == Running(Some(Broadcast.PushFor(rules, client)))
  {
    var end := AfterFirstPush(j, client, rules);
    moves := EarlyChangeEnds(j, client, before, rules);
    ClientHolds(j, client, before, moves);
    assert Pushes(end.snaps, end.written) == [Broadcast.PushFor(rules, client)];
  }

  /** A push of more than 65536 bytes is refused: the client stays on the old rules, although every
      change has been broadcast and the stream works. */
  lemma OversizedPushIsLost(j: Json, client: string, before: seq<Rules.Rule>, rules: seq<Rules.Rule>)
    returns (moves: seq<Move>)
    requires Sound(j) && |j.encode(Broadcast.PushFor(before, client))| <= 0xFFFF
    requires |j.encode(Broadcast.PushFor(rules, client))| > Frames.MAX_FRAME
    ensures Moves(j, client, Opened(before), moves)
    ensures var l := Later(j, client, Opened(before), moves);
            Quiescent(l) && l.rules == rules && Client(j, l.wire) == Running(Some(Broadcast.PushFor(before, client)))
  {
    var end;
    moves, end := OversizedRun(j, client, before, rules);
    SetUpEnds(j, client, before, moves, end);
    moves := [Publish] + ([WriteHeader(true)] + moves);
    ClientHolds(j, client, before, moves);
    assert Pushes(end.snaps, end.written) == [Broadcast.PushFor(before, client)];
  }

  /** A push written before the header costs the client its control stream and every reverse rule. */
  lemma EarlyPushDropsTheClient(j: Json, client: string, before: seq<Rules.Rule>, rules: seq<Rules.Rule>)
    returns (moves: seq<Move>)
    requires Sound(j) && |j.encode(Broadcast.PushFor(rules, client))| <= 0xFFFF
    ensures Moves(j, client, Opened(before), moves)
    ensures var l := Later(j, client, Opened(before), moves);
            Quiescent(l) && l.rules == rules && Client(j, l.wire) == Gone
  {
    var l0 := Opened(before);
    var l1 := l0.(setup := Published);
    var l2 := l1.(rules := rules, owed := {1});
    var l3 := l2.(owed := {}, inFlight := map[1 := 0], snaps := [Broadcast.PushFor(rules, client)]);
    assert {} + {1} == {1};
    var tail, end := EarlyPushGoesOn(j, client, rules);
    PrependThree(j, client, l0, Publish, l1, Change(1, rules), l2, Take(1), l3, tail, end);
    moves := [Publish] + ([Change(1, rules)] + ([Take(1)] + tail));
    ClientHolds(j, client, before, moves);
  }

  /** From the moment the early snapshot is taken. */
  lemma EarlyPushGoesOn(j: Json, client: string, rules: seq<Rules.Rule>) returns (moves: seq<Move>, end: Link)
    requires Sound(j) && |j.encode(Broadcast.PushFor(rules, client))| <= 0xFFFF
    ensures var snaps := [Broadcast.PushFor(rules, client)];
            Ends(j, client, Link(rules, {}, map[1 := 0], snaps, Published, [], false, [], false), moves, end)
    ensures Quiescent(end) && end.rules == rules && end.early
  {
    var p := Broadcast.PushFor(rules, client);
    var l := Link(rules, {}, map[1 := 0], [p], Published, [], false, [], false);
    var l' := Link(rules, {}, map[], [p], Published, Frame(j, p), false, [0], true);
    assert [] + Frame(j, p) == Frame(j, p);
    assert Leads(j, client, l, Deliver(1, true), l');
    moves, end := LateHeader(j, client, rules);
    Prepend(j, client, l, Deliver(1, true), l', moves, end);
    moves := [Deliver(1, true)] + moves;
  }

  /** The header comes after the early push. */
  lemma LateHeader(j: Json, client: string, rules: seq<Rules.Rule>) returns (moves: seq<Move>, end: Link)
    requires Sound(j) && |j.encode(Broadcast.PushFor(rules, client))| <= 0xFFFF
    ensures var p := Broadcast.PushFor(rules, client);
            Ends(j, client, Link(rules, {}, map[], [p], Published, Frame(j, p), false, [0], true), moves, end)
    ensures Quiescent(end) && end.rules == rules && end.early
  {
    var p := Broadcast.PushFor(rules, client);
    var l := Link(rules, {}, map[], [p], Published, Frame(j, p), false, [0], true);
    var l1 := l.(setup := Ready, owed := {SETUP}, wire := Frame(j, p) + HeaderFrame(j));
    var l2 := l1.(owed := {}, inFlight := map[SETUP := 1], snaps := [p, p]);
    end := l2.(inFlight := map[], wire := l1.wire + Frame(j, p), written := [0, 1]);
    assert {} + {SETUP} == {SETUP};
    NoMoves(j, client, end);
    PrependThree(j, client, l, WriteHeader(true), l1, Take(SETUP), l2, Deliver(SETUP, true), end, [], end);
    moves := [WriteHeader(true)] + ([Take(SETUP)] + ([Deliver(SETUP, true)] + []));
  }

  /** After the set-up, two snapshots that are written in the other order. */
  lemma OverlapRun(j: Json, client: string, before: seq<Rules.Rule>, rules: seq<Rules.Rule>)
    returns (moves: seq<Move>, end: Link)
    requires Sendable(j, Broadcast.PushFor(before, client)) && Sendable(j, Broadcast.PushFor(rules, client))
    ensures Ends(j, client, AfterSetUp(j, before), moves, end)
    ensures Quiescent(end) && end.rules == rules && !end.early && end.written == [1, 0]
    ensures end.snaps == [Broadcast.PushFor(before, client), Broadcast.PushFor(rules, client)]
  {
    var l := AfterSetUp(j, before);
    var l1 := l.(owed := {}, inFlight := map[SETUP := 0], snaps := [Broadcast.PushFor(before, client)]);
    var l2 := l1.(rules := rules, owed := {1});
    var l3 := BothTaken(j, client, before, rules);
    assert {} + {1} == {1};
    moves, end := WrittenInReverse(j, client, before, rules);
    PrependThree(j, client, l, Take(SETUP), l1, Change(1, rules), l2, Take(1), l3, moves, end);
    moves := [Take(SETUP)] + ([Change(1, rules)] + ([Take(1)] + moves));
  }

  function BothTaken(j: Json, client: string, before: seq<Rules.Rule>, rules: seq<Rules.Rule>): Link {
    Link(rules, {}, map[SETUP := 0, 1 := 1], [Broadcast.PushFor(before, client), Broadcast.PushFor(rules, client)],
      Ready,
         HeaderFrame(j), false, [], false)
  }

  lemma WrittenInReverse(j: Json, client: string, before: seq<Rules.Rule>, rules: seq<Rules.Rule>)
    returns (moves: seq<Move>, end: Link)
    requires Sendable(j, Broadcast.PushFor(before, client)) && Sendable(j, Broadcast.PushFor(rules, client))
    ensures Ends(j, client, BothTaken(j, client, before, rules), moves, end)
    ensures Quiescent(end) && end.rules == rules && !end.early && end.written == [1, 0]
    ensures end.snaps == BothTaken(j, client, before, rules).snaps
  {
    var l, p, q := BothTaken(j, client, before, rules), Broadcast.PushFor(before, client),
        Broadcast.PushFor(rules, client);
    var l1 := l.(inFlight := map[SETUP := 0], wire := l.wire + Frame(j, q), written := [1]);
    end := l1.(inFlight := map[], wire := l1.wire + Frame(j, p), written := [1, 0]);
    NoMoves(j, client, end);
    Prepend(j, client, l1, Deliver(SETUP, true), end, [], end);
    Prepend(j, client, l, Deliver(1, true), l1, [Deliver(SETUP, true)] + [], end);
    moves := [Deliver(1, true)] + ([Deliver(SETUP, true)] + []);
  }

  /** Pushes that overlap may be written in the other order: the client ends up with rules that the
      server has already replaced. */
  lemma OverlapMayDeliverOldRules(j: Json, client: string, before: seq<Rules.Rule>, rules: seq<Rules.Rule>)
    returns (moves: seq<Move>)
    requires Sound(j) && |j.encode(Broadcast.PushFor(before, client))| <= 0xFFFF
    requires |j.encode(Broadcast.PushFor(rules, client))| <= 0xFFFF
    ensures Moves(j, client, Opened(before), moves)
    ensures var l := Later(j, client, Opened(before), moves);
            Quiescent(l) && l.rules == rules && Client(j, l.wire) == Running(Some(Broadcast.PushFor(before, client)))
  {
    var end;
    moves, end := OverlapRun(j, client, before, rules);
    SetUpEnds(j, client, before, moves, end);
    moves := [Publish] + ([WriteHeader(true)] + moves);
    ClientHolds(j, client, before, moves);
    assert Pushes(end.snaps, end.written) == [Broadcast.PushFor(rules, client), Broadcast.PushFor(before, client)];
  }
}
