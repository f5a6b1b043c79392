/**
  The health-check debouncer: a two-field state machine, and what it computes of
  the history of checks.
 */
module Debounce {
  import opened Wrappers

  /** One check of a group: whether the group has assertions, its failure threshold at that time, and whether the check failed. */
  datatype Check = Check(asserts: bool, threshold: int, failed: bool)

  datatype Event = Silent | Report | Fail | Recover

  datatype CheckState = CheckState(fails: int, alerting: bool)

  const FRESH_STATE := CheckState(0, false)

  function InForce(threshold: int): int { if threshold < 1 then 1 else threshold }

  // ---- the history ----

  /** The checks that count: those made with assertions. */
  function Counted(checks: seq<Check>): (d: seq<Check>)
    ensures forall i :: 0 <= i < |d| ==> d[i].asserts
  {
    if checks == [] then []
    else
      var front, c := Counted(checks[..|checks| - 1]), checks[|checks| - 1];
      if c.asserts then front + [c] else front
  }

  /** The number of failures in a row at the end. */
  function RunLength(d: seq<Check>): (n: nat)
    ensures n <= |d|
    ensures forall i :: |d| - n <= i < |d| ==> d[i].failed
    ensures n < |d| ==> !d[|d| - n - 1].failed
  {
    if d == [] || !d[|d| - 1].failed then 0 else RunLength(d[..|d| - 1]) + 1
  }

  /** The last check is a failure and its run is as long as the threshold then in force. */
  predicate Reached(d: seq<Check>) {
    d != [] && d[|d| - 1].failed && RunLength(d) >= InForce(d[|d| - 1].threshold)
  }

  /** Some check of the current run reached its threshold. */
  ghost predicate Alerted(d: seq<Check>) {
    exists k :: |d| - RunLength(d) < k <= |d| && Reached(d[..k])
  }

  /** What the last check of the history should give. */
  ghost function Expected(d: seq<Check>): Event
    requires d != []
  {
    var front := d[..|d| - 1];
    if d[|d| - 1].failed then (if Reached(d) && !Alerted(front) then Fail else Silent)
    else if Alerted(front) then Recover else Silent
  }

  // ---- the machine ----

  function Advance(st: CheckState, c: Check): (CheckState, Event) {
    if c.failed then
      var fails := st.fails + 1;
      if fails >= InForce(c.threshold) && !st.alerting then (CheckState(fails, true), Fail) else (CheckState(fails, st.alerting), Silent)
    else (FRESH_STATE, if st.alerting then Recover else Silent)
  }

  function StateAfter(d: seq<Check>): CheckState {
    if d == [] then FRESH_STATE else Advance(StateAfter(d[..|d| - 1]), d[|d| - 1]).0
  }

  /** The event the machine gives for the last check. */
  function EventOf(d: seq<Check>): Event
    requires d != []
  {
    Advance(StateAfter(d[..|d| - 1]), d[|d| - 1]).1
  }

  lemma {:induction false} AlertedStep(d: seq<Check>, c: Check)
    ensures Alerted(d + [c]) <==> c.failed && (Alerted(d) || Reached(d + [c]))
  {
    var d' := d + [c];
    assert d'[..|d|] == d && d'[..|d'|] == d';
    if c.failed {
      assert RunLength(d') == RunLength(d) + 1;
      if Alerted(d) {
        var k :| |d| - RunLength(d) < k <= |d| && Reached(d[..k]);
        assert d'[..k] == d[..k];
      }
      if Alerted(d') {
        var k :| |d'| - RunLength(d') < k <= |d'| && Reached(d'[..k]);
        if k <= |d| { assert d'[..k] == d[..k]; }
      }
    }
  }

  /** The machine's two fields are the length of the current run and whether it alerted; its event is the expected one. */
  lemma {:induction false} MachineIsHistory(d: seq<Check>)
    ensures StateAfter(d) == CheckState(RunLength(d), Alerted(d))
    ensures d != [] ==> EventOf(d) == Expected(d)
  {
    if d != [] {
      var front := d[..|d| - 1];
      MachineIsHistory(front);
      assert d == front + [d[|d| - 1]];
      AlertedStep(front, d[|d| - 1]);
    }
  }

  lemma {:induction false} RunLengthInRun(d: seq<Check>, s: nat, k: nat)
    requires s < k <= |d| && (s == 0 || !d[s - 1].failed) && forall i :: s <= i < k ==> d[i].failed
    ensures RunLength(d[..k]) == k - s
  {
    assert d[..k][..k - 1] == d[..k - 1];
    if s < k - 1 { RunLengthInRun(d, s, k - 1); }
  }

  /** Check `s` begins a run of failures that lasts to the end of the history. */
  predicate RunFrom(d: seq<Check>, s: nat) {
    s < |d| && (s == 0 || !d[s - 1].failed) && forall i :: s <= i < |d| ==> d[i].failed
  }

  lemma {:induction false} RunBeforeLast(d: seq<Check>, s: nat)
    requires RunFrom(d, s)
    ensures RunLength(d) == |d| - s && RunLength(d[..|d| - 1]) == |d| - 1 - s
  {
    assert d[..|d|] == d;
    RunLengthInRun(d, s, |d|);
    var front := d[..|d| - 1];
    if s < |front| { RunLengthInRun(d, s, |front|); }
    else if s > 0 { assert front[|front| - 1] == d[s - 1]; }
  }

  lemma {:induction false} ReachedInRun(d: seq<Check>, s: nat, k: nat)
    requires RunFrom(d, s) && s < k <= |d|
    ensures Reached(d[..k]) <==> k - s >= InForce(d[k - 1].threshold)
  {
    RunLengthInRun(d, s, k);
    assert d[..k][k - 1] == d[k - 1];
  }

  lemma {:induction false} AlertedInRun(d: seq<Check>, s: nat)
    requires RunFrom(d, s)
    ensures Alerted(d[..|d| - 1]) <==> exists i :: s <= i < |d| - 1 && i - s + 1 >= InForce(d[i].threshold)
  {
    var front := d[..|d| - 1];
    RunBeforeLast(d, s);
    forall k | s < k <= |front| ensures Reached(front[..k]) <==> k - s >= InForce(d[k - 1].threshold) {
      assert front[..k] == d[..k];
      ReachedInRun(d, s, k);
    }
    if Alerted(front) {
      var k :| |front| - RunLength(front) < k <= |front| && Reached(front[..k]);
      assert s <= k - 1 < |d| - 1 && (k - 1) - s + 1 >= InForce(d[k - 1].threshold);
    }
    if i :| s <= i < |d| - 1 && i - s + 1 >= InForce(d[i].threshold) { assert Reached(front[..i + 1]); }
  }

  /** In a run of failures from check `s` on, the alert fires at the first check whose place in the run reaches its threshold, and at its first check when that is not positive. */
  lemma {:induction false} FailExactly(d: seq<Check>, s: nat)
    requires RunFrom(d, s)
    ensures EventOf(d) == Fail <==>
      |d| - s >= d[|d| - 1].threshold && forall i :: s <= i < |d| - 1 ==> i - s + 1 < d[i].threshold
  {
    MachineIsHistory(d);
    assert d[..|d|] == d;
    ReachedInRun(d, s, |d|);
    AlertedInRun(d, s);
  }

  /** The alert fired at some check of the current run. */
  ghost predicate FiredInRun(d: seq<Check>) {
    exists k :: |d| - RunLength(d) < k <= |d| && EventOf(d[..k]) == Fail
  }

  lemma {:induction false} FiredStep(d: seq<Check>, c: Check)
    ensures FiredInRun(d + [c]) <==> c.failed && (FiredInRun(d) || EventOf(d + [c]) == Fail)
  {
    var d' := d + [c];
    assert d'[..|d|] == d && d'[..|d'|] == d';
    if c.failed {
      assert RunLength(d') == RunLength(d) + 1;
      StillFired(d, c);
      if FiredInRun(d') {
        var k :| |d'| - RunLength(d') < k <= |d'| && EventOf(d'[..k]) == Fail;
        if k <= |d| { assert d'[..k] == d[..k]; }
      }
    }
  }

  lemma {:induction false} StillFired(d: seq<Check>, c: Check)
    requires c.failed
    ensures FiredInRun(d) ==> FiredInRun(d + [c])
  {
    var d' := d + [c];
    assert d'[..|d|] == d;
    assert RunLength(d') == RunLength(d) + 1;
    if FiredInRun(d) {
      var k :| |d| - RunLength(d) < k <= |d| && EventOf(d[..k]) == Fail;
      assert d'[..k] == d[..k];
    }
  }

  lemma {:induction false} AlertedMeansFired(d: seq<Check>)
    ensures Alerted(d) <==> FiredInRun(d)
  {
    if d != [] {
      var front, c := d[..|d| - 1], d[|d| - 1];
      assert d == front + [c];
      AlertedMeansFired(front);
      AlertedStep(front, c);
      FiredStep(front, c);
      MachineIsHistory(d);
    }
  }

  /** Recovery fires at the first success after a run in which the alert fired, and nowhere else. */
  lemma {:induction false} RecoverExactly(d: seq<Check>)
    requires d != []
    ensures EventOf(d) == Recover <==> !d[|d| - 1].failed && FiredInRun(d[..|d| - 1])
  {
    MachineIsHistory(d);
    AlertedMeansFired(d[..|d| - 1]);
  }

  /** The alerts and recoveries of a history, in order. */
  function Signals(d: seq<Check>): seq<Event> {
    if d == [] then []
    else
      var front := Signals(d[..|d| - 1]);
      if EventOf(d) == Silent then front else front + [EventOf(d)]
  }

  /** They alternate strictly, alert first. */
  lemma {:induction false} Alternate(d: seq<Check>)
    ensures forall i :: 0 <= i < |Signals(d)| ==> Signals(d)[i] == if i % 2 == 0 then Fail else Recover
    ensures StateAfter(d).alerting <==> |Signals(d)| % 2 == 1
  {
    if d != [] { Alternate(d[..|d| - 1]); }
  }

  /** Exactly the checks with assertions count, in their order. */
  lemma {:induction false} CountedExactly(earlier: seq<Check>, c: Check, later: seq<Check>)
    ensures Counted(earlier + [c] + later) == Counted(earlier) + (if c.asserts then [c] else []) + Counted(later)
  {
    if later == [] {
      assert earlier + [c] + later == earlier + [c];
      CountedStep(earlier, c);
    } else {
      var front, last := later[..|later| - 1], later[|later| - 1];
      CountedExactly(earlier, c, front);
      assert earlier + [c] + later == (earlier + [c] + front) + [last];
      CountedStep(earlier + [c] + front, last);
    }
  }

  lemma {:induction false} CountedStep(checks: seq<Check>, c: Check)
    ensures Counted(checks + [c]) == if c.asserts then Counted(checks) + [c] else Counted(checks)
  {
    assert (checks + [c])[..|checks|] == checks;
  }

  lemma {:induction false} MachineStep(d: seq<Check>, c: Check)
    ensures Advance(StateAfter(d), c) == (StateAfter(d + [c]), Expected(d + [c]))
  {
    assert (d + [c])[..|d|] == d;
    MachineIsHistory(d + [c]);
  }

  lemma {:induction false} CheckStep(checks: seq<Check>, c: Check)
    ensures c.asserts ==>
      Advance(StateAfter(Counted(checks)), c) == (StateAfter(Counted(checks + [c])), Expected(Counted(checks + [c])))
    ensures !c.asserts ==> Counted(checks + [c]) == Counted(checks)
  {
    CountedStep(checks, c);
    MachineStep(Counted(checks), c);
  }

  // ---- the scheduler's states ----

  /** Debounce states by group name, and the checks each group has had since it was last reset. */
  class Scheduler {
    var states: map<string, CheckState>
    ghost var checks: map<string, seq<Check>>

    ghost function ChecksOf(name: string): seq<Check>
      reads this
    {
      if name in checks then checks[name] else []
    }

    /** Each group's state is what its own counted checks make it. */
    ghost predicate Valid()
      reads this
    {
      forall name :: Agrees(name)
    }

    ghost predicate Agrees(name: string)
      reads this
    {
      StateOf(name) == StateAfter(Counted(ChecksOf(name)))
    }

    function StateOf(name: string): CheckState
      reads this
    {
      if name in states then states[name] else FRESH_STATE
    }

    constructor ()
      ensures Valid() && forall name :: ChecksOf(name) == []
    {
      states, checks := map[], map[];
    }

    /** Start-up and reload. */
    method Init()
      modifies this
      ensures Valid() && forall name :: ChecksOf(name) == []
    {
      states, checks := map[], map[];
    }

    method Delete(name: string)
      requires Valid()
      modifies this
      ensures Valid() && ChecksOf(name) == [] && forall other :: other != name ==> ChecksOf(other) == old(ChecksOf(other))
    {
      states := states - {name};
      checks := checks - {name};
      forall other ensures Agrees(other) {
        if other != name {
          assert old(Agrees(other));
          assert ChecksOf(other) == old(ChecksOf(other)) && StateOf(other) == old(StateOf(other));
        }
      }
      assert forall other :: other != name ==> ChecksOf(other) == old(ChecksOf(other));
    }

    /** The event for one more check, by the history of that group alone; checks without assertions are reported and leave no trace. */
    method Classify(name: string, c: Check) returns (e: Event)
      requires Valid()
      modifies this
      ensures Valid() && ChecksOf(name) == old(ChecksOf(name)) + [c]
      ensures forall other :: other != name ==> ChecksOf(other) == old(ChecksOf(other))
      ensures e == if c.asserts then Expected(Counted(ChecksOf(name))) else Report
      ensures !c.asserts ==> states == old(states)
    {
      ghost var after := ChecksOf(name) + [c];
      assert Agrees(name);
      CheckStep(ChecksOf(name), c);
      var st;
      if c.asserts {
        st, e := Observe(StateOf(name), c);
        states := states[name := st];
      } else {
        e := Report;
      }
      assert StateOf(name) == StateAfter(Counted(after));
      checks := checks[name := after];
      assert ChecksOf(name) == after;
      forall other ensures Agrees(other) {
        if other != name {
          assert old(Agrees(other));
          assert ChecksOf(other) == old(ChecksOf(other)) && StateOf(other) == old(StateOf(other));
        }
      }
      assert forall other :: other != name ==> ChecksOf(other) == old(ChecksOf(other));
    }

    /** Advance one group's state in place. */
    static method Observe(before: CheckState, c: Check) returns (st: CheckState, e: Event)
      ensures (st, e) == Advance(before, c)
    {
      var threshold := c.threshold;
      if threshold < 1 { threshold := 1; }
      st, e := before, Silent;
      if c.failed {
        st := st.(fails := st.fails + 1);
        if st.fails >= threshold && !st.alerting {
          st := st.(alerting := true);
          e := Fail;
        }
        return;
      }
      st := st.(fails := 0);
      if st.alerting {
        st := st.(alerting := false);
        e := Recover;
      }
    }
  }
}
