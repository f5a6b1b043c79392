/**
  The playground's variable table and the file behind it: what a variable's value
  is after any sequence of changes, failed saves and restarts.
 */
module VarTable {
  import opened Wrappers

  datatype Vars = Vars(table: map<string, string>, file: Option<map<string, string>>)

  /** A variable set or deleted, with the outcome of its save; or a start-up, which loads the file. */
  datatype Change = Set(key: string, val: string, ok: bool) | Del(key: string, ok: bool) | Restart

  function Saved(table: map<string, string>, file: Option<map<string, string>>, ok: bool): Vars {
    Vars(table, if ok then Some(table) else file)
  }

  function Apply(s: Vars, c: Change): Vars {
    match c
    case Set(key, val, ok) => Saved(s.table[key := val], s.file, ok)
    case Del(key, ok) => Saved(s.table - {key}, s.file, ok)
    case Restart => Vars(if s.file.Some? then s.file.value else map[], s.file)
  }

  function After(start: Vars, changes: seq<Change>): Vars {
    if changes == [] then start else Apply(After(start, changes[..|changes| - 1]), changes[|changes| - 1])
  }

  function InTable(s: Vars, key: string): Option<string> { if key in s.table then Some(s.table[key]) else None }

  function OnFile(s: Vars, key: string): Option<string> {
    if s.file.Some? && key in s.file.value then Some(s.file.value[key]) else None
  }

  predicate Writes(c: Change, key: string) { !c.Restart? && c.key == key }

  predicate Saves(c: Change) { !c.Restart? && c.ok }

  /** What a change writes: a value, or none for a deletion. */
  function Value(c: Change): Option<string>
    requires !c.Restart?
  {
    if c.Set? then Some(c.val) else None
  }

  /** `i` is the last change that writes `key`. */
  predicate LastWrite(changes: seq<Change>, key: string, i: nat) {
    && i < |changes| && Writes(changes[i], key)
    && forall j :: i < j < |changes| ==> !Writes(changes[j], key)
  }

  predicate NoRestart(changes: seq<Change>, i: nat, j: nat) {
    forall r :: i <= r < j && r < |changes| ==> !changes[r].Restart?
  }

  /** Change `i`, or one of any variable after it in the same process, was saved. */
  predicate ReachesFile(changes: seq<Change>, i: nat) {
    exists j :: i <= j < |changes| && Saves(changes[j]) && NoRestart(changes, i, j)
  }

  lemma ReachesFileNext(changes: seq<Change>, c: Change, i: nat)
    requires i < |changes|
    ensures NoRestart(changes + [c], i, |changes| + 1) <==> NoRestart(changes, i, |changes|) && !c.Restart?
    ensures ReachesFile(changes + [c], i) <==> ReachesFile(changes, i) || (NoRestart(changes, i, |changes|) && Saves(c))
  {
    var whole := changes + [c];
    assert forall r :: 0 <= r < |changes| ==> whole[r] == changes[r];
    assert whole[|changes|] == c;
    if ReachesFile(changes, i) {
      var j :| i <= j < |changes| && Saves(changes[j]) && NoRestart(changes, i, j);
      assert Saves(whole[j]) && NoRestart(whole, i, j);
    }
    if ReachesFile(whole, i) {
      var j :| i <= j < |whole| && Saves(whole[j]) && NoRestart(whole, i, j);
      if j < |changes| { assert Saves(changes[j]) && NoRestart(changes, i, j); }
      else { assert NoRestart(changes, i, |changes|); }
    }
    if NoRestart(changes, i, |changes|) && Saves(c) { assert Saves(whole[|changes|]) && NoRestart(whole, i, |changes|); }
  }

  /** What one change does to one variable. */
  lemma StepOf(s: Vars, c: Change, key: string)
    ensures Writes(c, key) ==> InTable(Apply(s, c), key) == Value(c)
    ensures Writes(c, key) ==> OnFile(Apply(s, c), key) == if Saves(c) then Value(c) else OnFile(s, key)
    ensures !Writes(c, key) ==> InTable(Apply(s, c), key) == if c.Restart? then OnFile(s, key) else InTable(s, key)
    ensures !Writes(c, key) ==> OnFile(Apply(s, c), key) == if Saves(c) then InTable(s, key) else OnFile(s, key)
  {
  }

  lemma {:induction false} AfterSnoc(start: Vars, front: seq<Change>, c: Change)
    ensures After(start, front + [c]) == Apply(After(start, front), c)
  {
    assert (front + [c])[..|front|] == front;
  }

  lemma {:induction false} LastIsWrite(start: Vars, front: seq<Change>, c: Change, key: string)
    requires Writes(c, key)
    ensures var changes := front + [c];
      && InTable(After(start, changes), key) == Value(c)
      && OnFile(After(start, changes), key) == (if ReachesFile(changes, |front|) then Value(c) else OnFile(After(start, front), key))
  {
    var changes := front + [c];
    AfterSnoc(start, front, c);
    StepOf(After(start, front), c, key);
    assert NoRestart(changes, |front|, |front|) && changes[|front|] == c;
    assert ReachesFile(changes, |front|) <==> Saves(c);
  }

  /**
    After any changes the file holds a variable's last written value exactly when that
    write, or a later one in the same process, was saved; until a restart the table
    holds that value, from then on what the file held.
   */
  lemma {:induction false} LastWriteDecides(start: Vars, changes: seq<Change>, key: string, i: nat)
    requires LastWrite(changes, key, i)
    ensures var s, before := After(start, changes), OnFile(After(start, changes[..i]), key);
      var val := Value(changes[i]);
      && OnFile(s, key) == (if ReachesFile(changes, i) then val else before)
      && InTable(s, key) == (if ReachesFile(changes, i) || NoRestart(changes, i, |changes|) then val else before)
  {
    var front, c := changes[..|changes| - 1], changes[|changes| - 1];
    assert changes == front + [c];
    if i == |front| {
      LastIsWrite(start, front, c, key);
      assert changes[..i] == front;
      assert NoRestart(changes, i, |changes|);
    } else {
      LastWriteDecides(start, front, key, i);
      AfterSnoc(start, front, c);
      StepOf(After(start, front), c, key);
      ReachesFileNext(front, c, i);
      assert changes[..i] == front[..i];
    }
  }

  /** A variable nothing writes keeps the value table and file agreed on. */
  lemma {:induction false} UnwrittenStays(start: Vars, changes: seq<Change>, key: string)
    requires forall j :: 0 <= j < |changes| ==> !Writes(changes[j], key)
    requires InTable(start, key) == OnFile(start, key)
    ensures InTable(After(start, changes), key) == InTable(start, key) == OnFile(After(start, changes), key)
  {
    if changes != [] { UnwrittenStays(start, changes[..|changes| - 1], key); }
  }

  /** A value whose save succeeded is the value after the next start-up. */
  lemma {:induction false} SetSurvivesRestart(start: Vars, key: string, val: string, others: seq<Change>)
    requires forall j :: 0 <= j < |others| ==> !Writes(others[j], key)
    ensures InTable(After(start, [Set(key, val, true)] + others + [Restart]), key) == Some(val)
  {
    var changes := [Set(key, val, true)] + others + [Restart];
    forall j | 0 < j < |changes| ensures !Writes(changes[j], key) {
      if j <= |others| { assert changes[j] == others[j - 1]; }
    }
    assert LastWrite(changes, key, 0);
    assert Saves(changes[0]) && NoRestart(changes, 0, 0);
    LastWriteDecides(start, changes, key, 0);
  }
}
