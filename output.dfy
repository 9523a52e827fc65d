/** The streaming response sink of the create handler: written to
    incrementally, flushed, and asked whether anything was flushed yet. */
module Output {

  /** One thing a writer does to the sink. */
  datatype SinkEvent = WriteEvent(bytes: string) | FlushEvent

  /** What the sink holds: whether it was ever flushed and the bytes
      written to it so far. */
  datatype SinkState = SinkState(flushed: bool, written: string)

  /** A freshly wrapped response writer. */
  const Unstarted := SinkState(false, "")

  function Step(state: SinkState, event: SinkEvent): SinkState {
    match event
    case WriteEvent(bytes) => state.(written := state.written + bytes)
    case FlushEvent => state.(flushed := true)
  }

  /** The state after the events, in order. */
  function Apply(state: SinkState, events: seq<SinkEvent>): SinkState
    decreases |events|
  {
    if events == [] then state else Apply(Step(state, events[0]), events[1..])
  }

  /** Writers only append, and a flushed sink stays flushed: it is flushed
      afterwards exactly when it was before or some event flushed it. */
  lemma {:induction false} ApplyExtends(state: SinkState, events: seq<SinkEvent>)
    ensures state.written <= Apply(state, events).written
    ensures Apply(state, events).flushed <==> state.flushed || FlushEvent in events
    decreases |events|
  {
    if events != [] {
      ApplyExtends(Step(state, events[0]), events[1..]);
      assert events == [events[0]] + events[1..];
    }
  }

  /** The sink wrapping the response writer. */
  class Sink {
    var flushed: bool
    var written: string

    constructor ()
      ensures flushed == false && written == ""
    {
      flushed := false;
      written := "";
    }

    function State(): SinkState
      reads this
    {
      SinkState(flushed, written)
    }

    /** Whether anything reached the client yet. */
    predicate Flushed(): (b: bool)
      reads this
      ensures b == State().flushed
    {
      flushed
    }

    method Write(bytes: string)
      modifies this
      ensures written == old(written) + bytes
      ensures flushed == old(flushed)
    {
      written := written + bytes;
    }

    method Flush()
      modifies this
      ensures flushed
      ensures written == old(written)
    {
      flushed := true;
    }

    /** Carries out the events a backend call performs on the sink. */
    method Replay(events: seq<SinkEvent>)
      modifies this
      ensures State() == Apply(old(State()), events)
    {
      var i := 0;
      while i < |events|
        invariant 0 <= i <= |events|
        invariant Apply(State(), events[i..]) == Apply(old(State()), events)
      {
        assert events[i..][1..] == events[i + 1..];
        match events[i] {
          case WriteEvent(bytes) => Write(bytes);
          case FlushEvent => Flush();
        }
        i := i + 1;
      }
      assert events[i..] == [];
    }
  }
}
