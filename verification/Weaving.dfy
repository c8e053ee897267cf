/** The worker's code inside the protocol: whatever the others do between its statements, as long as they too
  keep to the protocol, what it sends makes a protocol run, and leaves it where its automaton says. */
module Weaving {
  import opened WorkerProgram
  import opened JobStore
  import opened Protocol

  /** Actions of anyone but this worker. */
  predicate Foreign(acts: seq<Action>, w: nat) {
    forall i :: 0 <= i < |acts| ==>
      match acts[i] case Start(v, _) => v != w case Crash(v) => v != w case Act(v, _) => v != w case _ => true
  }

  /** The worker's statements with the others' actions in the gaps before each. */
  function Woven(w: nat, log: seq<Sent>, gaps: seq<seq<Action>>): seq<Action>
    requires |gaps| == |log|
  {
    if log == [] then []
    else Woven(w, log[..|log| - 1], gaps[..|gaps| - 1]) + gaps[|gaps| - 1] + [Act(w, log[|log| - 1].ev)]
  }

  /** The tables each statement met are what the others left. */
  ghost predicate Environment(s: State, w: nat, log: seq<Sent>, gaps: seq<seq<Action>>)
    requires |gaps| == |log|
  {
    log == [] ||
    var front, frontGaps := log[..|log| - 1], gaps[..|gaps| - 1];
    && Environment(s, w, front, frontGaps) && Foreign(gaps[|gaps| - 1], w)
    && var before := Perform(s, Woven(w, front, frontGaps) + gaps[|gaps| - 1]);
       before.Some? && before.value.db == log[|log| - 1].before
  }

  lemma {:induction false} ForeignKeepsWorker(s: State, acts: seq<Action>, w: nat)
    requires Foreign(acts, w) && w in s.workers && Perform(s, acts).Some?
    ensures w in Perform(s, acts).value.workers && Perform(s, acts).value.workers[w] == s.workers[w]
  {
    if acts != [] {
      ForeignKeepsWorker(s, acts[..|acts| - 1], w);
    }
  }

  lemma {:induction false} EventsLength(log: seq<Sent>)
    ensures |Events(log)| == |log|
  {
    if log != [] {
      EventsLength(log[..|log| - 1]);
    }
  }

  lemma ActPossible(s: State, w: nat, ev: Event)
    requires w in s.workers && Genuine(s.db, ev) && WorkerProgram.Step(s.workers[w], ev).Some?
    ensures Do(s, Act(w, ev)).Some?
    ensures var t := Do(s, Act(w, ev)).value;
      w in t.workers && t.workers[w] == WorkerProgram.Step(s.workers[w], ev).value
  {
  }

  lemma {:induction false} WovenRun(s: State, w: nat, log: seq<Sent>, gaps: seq<seq<Action>>, ws: Worker)
    requires |gaps| == |log| && Environment(s, w, log, gaps)
    requires w in s.workers && Conforms(Origin([], s.workers[w]), log, ws)
    ensures Perform(s, Woven(w, log, gaps)).Some?
    ensures var t := Perform(s, Woven(w, log, gaps)).value; w in t.workers && t.workers[w] == ws
    decreases |log|
  {
    hide Do, Genuine, WorkerProgram.Step;
    assert log[0..] == log;
    if log != [] {
      var front, frontGaps, last := log[..|log| - 1], gaps[..|gaps| - 1], log[|log| - 1];
      EventsLength(front);
      assert Events(log)[..|log| - 1] == Events(front);
      assert front[0..] == front;
      var mid := WorkerProgram.Run(s.workers[w], Events(front)).value;
      WovenRun(s, w, front, frontGaps, mid);
      var before, gap := Woven(w, front, frontGaps), gaps[|gaps| - 1];
      PerformConcat(s, before, gap);
      ForeignKeepsWorker(Perform(s, before).value, gap, w);
      ActPossible(Perform(s, before + gap).value, w, last.ev);
      assert (before + gap + [Act(w, last.ev)])[..|before + gap|] == before + gap;
    }
  }

  /** Code that conforms to the automaton is a participant of the protocol.  Whatever the other participants do
      between its statements, the statements it sent since it was in state o.ws make a run of the protocol, at the
      end of which the protocol has it in the state ws its objects show; so all that holds of reachable states
      holds of it. */
  lemma ConformingCodeIsInProtocol(s: State, w: nat, o: Origin, log: seq<Sent>, gaps: seq<seq<Action>>, ws: Worker)
    requires Reachable(s) && w in s.workers && s.workers[w] == o.ws
    requires Conforms(o, log, ws)
    requires |gaps| == |log| - |o.log| && Environment(s, w, log[|o.log|..], gaps)
    ensures Perform(s, Woven(w, log[|o.log|..], gaps)).Some?
    ensures var t := Perform(s, Woven(w, log[|o.log|..], gaps)).value;
      Reachable(t) && w in t.workers && t.workers[w] == ws
  {
    var since := log[|o.log|..];
    assert since[0..] == since;
    assert forall i :: 0 <= i < |since| ==> since[i] == log[|o.log| + i];
    WovenRun(s, w, since, gaps, ws);
    StaysReachable(s, Woven(w, since, gaps));
  }
}
