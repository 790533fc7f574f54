// Bounded queues, and the four-stage retiming pipe between the crossbar and a memory controller.

module KarstQueue {
  import opened KarstLink

  // A full queue refuses the element.
  function Push<T>(q: seq<T>, capacity: nat, x: T): seq<T> {
    if |q| < capacity then q + [x] else q
  }

  function Pop<T>(q: seq<T>): seq<T> {
    if q == [] then q else q[1..]
  }

  // Retire the head that was presented last cycle, if its receiver was ready.
  function Retire<T>(q: seq<T>, presented: bool, ready: bool): seq<T> {
    if presented && ready then Pop(q) else q
  }

  function RetireAll<T>(qs: seq<seq<T>>, presented: seq<bool>, ready: seq<bool>): seq<seq<T>>
    requires |qs| == |presented| == |ready|
  {
    seq(|qs|, i requires 0 <= i < |qs| => Retire(qs[i], presented[i], ready[i]))
  }

  // Sample every input whose word was valid while this end was ready.
  function CaptureAll<T>(qs: seq<seq<T>>, capacity: nat, valid: seq<bool>, ready: seq<bool>, data: seq<T>): seq<seq<T>>
    requires |qs| == |valid| == |ready| == |data|
  {
    seq(|qs|, i requires 0 <= i < |qs| => if valid[i] && ready[i] then Push(qs[i], capacity, data[i]) else qs[i])
  }

  function NonEmpty<T>(qs: seq<seq<T>>): seq<bool> {
    seq(|qs|, i requires 0 <= i < |qs| => qs[i] != [])
  }

  function NotFull<T>(qs: seq<seq<T>>, capacity: nat): seq<bool> {
    seq(|qs|, i requires 0 <= i < |qs| => |qs[i]| != capacity)
  }

  function HeadOr(q: seq<Flit>): Flit {
    if q == [] then NULL_FLIT else q[0]
  }

  function Heads(qs: seq<seq<Flit>>): seq<Flit> {
    seq(|qs|, i requires 0 <= i < |qs| => HeadOr(qs[i]))
  }

  // One more position of an element-wise update.
  lemma Splice<T>(after: seq<T>, before: seq<T>, i: nat)
    requires i < |after| == |before|
    ensures (after[..i] + before[i..])[i := after[i]] == after[..i + 1] + before[i + 1..]
  {
  }

  lemma TakeOneMore<T>(s: seq<T>, i: nat)
    requires i < |s|
    ensures s[..i] + [s[i]] == s[..i + 1]
  {
  }

  // The part of a queue that a handshake moved: the presented head, when the receiver was ready.
  function Moved<T>(q: seq<T>, ready: bool): seq<T> {
    if q != [] && ready then [q[0]] else []
  }

  // A handshake decided independently at both ends neither drops nor repeats a word.
  lemma HandshakeMovesOnce<T>(from: seq<T>, to: seq<T>, capacity: nat, x: T)
    requires |to| <= capacity && (from != [] ==> x == from[0])
    ensures var ready := |to| != capacity; var moved := Moved(from, ready);
            && moved + Retire(from, from != [], ready) == from
            && (if from != [] && ready then Push(to, capacity, x) else to) == to + moved
  {
  }
}

module KarstPipes {
  import opened KarstLink
  import opened KarstQueue

  const LINK_DEPTH: nat := 4

  datatype Pipe = Pipe(fifo: seq<Flit>, wasPresented: bool, upReady: bool, outValid: bool, outData: Flit)

  const NEW_PIPE := Pipe([], false, true, false, NULL_FLIT)

  function PipeStep(p: Pipe, inValid: bool, inData: Flit, downReady: bool): Pipe {
    var popped := Retire(p.fifo, p.wasPresented, downReady);
    var fifo := if inValid && p.upReady then Push(popped, LINK_DEPTH, inData) else popped;
    Pipe(fifo, fifo != [], |fifo| != LINK_DEPTH, fifo != [], HeadOr(fifo))
  }

  // Between cycles the registers describe the queue.
  predicate PipeOk(p: Pipe) {
    && |p.fifo| <= LINK_DEPTH
    && p == Pipe(p.fifo, p.fifo != [], |p.fifo| != LINK_DEPTH, p.fifo != [], HeadOr(p.fifo))
  }

  // A retiming stage is a FIFO: what leaves followed by what stays is what was there followed by what entered.
  lemma PipeIsFifo(p: Pipe, inValid: bool, inData: Flit, downReady: bool)
    requires PipeOk(p)
    ensures var next := PipeStep(p, inValid, inData, downReady);
            && PipeOk(next)
            && Moved(p.fifo, downReady) + next.fifo
               == p.fifo + (if inValid && p.upReady then [inData] else [])
  {
    var popped := Retire(p.fifo, p.wasPresented, downReady);
    assert Moved(p.fifo, downReady) + popped == p.fifo;
    if inValid && p.upReady {
      assert Moved(p.fifo, downReady) + (popped + [inData]) == p.fifo + [inData];
    }
  }

  class KarstPipe {
    var fifo: seq<Flit>
    var wasPresented: bool
    var upReady: bool
    var outValid: bool
    var outData: Flit

    function State(): Pipe
      reads this
    {
      Pipe(fifo, wasPresented, upReady, outValid, outData)
    }

    constructor ()
      ensures State() == NEW_PIPE
    {
      fifo, wasPresented, upReady, outValid, outData := [], false, true, false, NULL_FLIT;
    }

    method Step(inValid: bool, inData: Flit, downReady: bool)
      modifies this
      ensures State() == PipeStep(old(State()), inValid, inData, downReady)
    {
      var inAccepted := inValid && upReady;
      if wasPresented && downReady && fifo != [] {
        fifo := fifo[1..];
      }
      if inAccepted {
        fifo := Push(fifo, LINK_DEPTH, inData);
      }
      if fifo != [] {
        outValid := true;
        outData := fifo[0];
      } else {
        outValid := false;
        outData := NULL_FLIT;
      }
      wasPresented := outValid;
      upReady := |fifo| != LINK_DEPTH;
    }
  }
}
