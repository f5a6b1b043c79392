/**
  What every run of overlapping record book commands keeps, and when that makes the
  book agree with Cloudflare.
 */
module BookOverlap {
  import opened Wrappers
  import opened BookSpec
  import opened BookRuns

  lemma {:induction false} RunsKeep(x: Syntax, remote: map<string, string>, run: seq<Label>)
    requires ValidSyntax(x)
    ensures Inv(BookRuns.After(x, remote, run))
  {
    if run != [] {
      RunsKeep(x, remote, run[..|run| - 1]);
      StepKeeps(x, BookRuns.After(x, remote, run[..|run| - 1]), run[|run| - 1]);
    }
  }

  // ---- what every run keeps ----

  /**
    Whatever commands overlap, and whichever of their calls and saves fail: unused
    records name no worker, every worker's credential exists, and the record of every
    hostname that no two commands with different aims have been on at once agrees with
    Cloudflare, as soon as every change made there has been recorded.
   */
  lemma {:induction false} OverlappingAgrees(x: Syntax, remote: map<string, string>, run: seq<Label>, d: string)
    requires ValidSyntax(x)
    ensures var s := BookRuns.After(x, remote, run);
      && BookInv(s.world.book)
      && (d in s.world.book.domains && d !in s.clashed && Settled(s, d) ==> RecordAgrees(s.world, d))
  {
    RunsKeep(x, remote, run);
    assert d !in BookRuns.After(x, remote, run).clashed ==> DomainInv(BookRuns.After(x, remote, run), d);
  }

  /** Whether a command can come to be on the hostname: binding to any when it picks one itself, and importing any the worker serves. */
  predicate MayBeOn(task: Task, d: string) {
    match task
    case Bind(_, domain, _, _) => domain == d || domain == ""
    case Unbind(domain) => domain == d
    case Import(_) => true
  }

  /** The commands under way that can come to be on the hostname all have one aim; one command alone always does. */
  ghost predicate OneAim(s: Sys, d: string) {
    forall t, u :: t in s.threads && u in s.threads && MayBeOn(s.threads[t].task, d) && MayBeOn(s.threads[u].task, d)
      ==> Aim(s.threads[t].task) == Aim(s.threads[u].task)
  }

  lemma {:induction false} OneAimNoClash(s: Sys, d: string)
    requires (forall t :: t in s.threads ==> Fits(s.threads[t])) && OneAim(s, d)
    ensures d !in Clashing(s.threads)
  {
    forall t | t in s.threads && d in On(s.threads[t].pc) ensures MayBeOn(s.threads[t].task, d) { assert Fits(s.threads[t]); }
  }

  lemma {:induction false} OneAimStays(x: Syntax, s: Sys, l: Label, d: string)
    requires ValidSyntax(x) && Inv(s) && d !in s.clashed && OneAim(BookRuns.Step(x, s, l), d)
    ensures d !in BookRuns.Step(x, s, l).clashed
  {
    StepKeeps(x, s, l);
    OneAimNoClash(BookRuns.Step(x, s, l), d);
  }

  lemma {:induction false} NeverClashed(x: Syntax, remote: map<string, string>, run: seq<Label>, d: string)
    requires ValidSyntax(x) && forall i :: 0 <= i <= |run| ==> OneAim(BookRuns.After(x, remote, run[..i]), d)
    ensures d !in BookRuns.After(x, remote, run).clashed
  {
    if run != [] {
      var front := run[..|run| - 1];
      forall i | 0 <= i <= |front| ensures OneAim(BookRuns.After(x, remote, front[..i]), d) {
        assert front[..i] == run[..i];
        assert OneAim(BookRuns.After(x, remote, run[..i]), d);
      }
      NeverClashed(x, remote, front, d);
      RunsKeep(x, remote, front);
      assert run[..|run|] == run;
      assert OneAim(BookRuns.After(x, remote, run[..|run|]), d);
      OneAimStays(x, BookRuns.After(x, remote, front), run[|run| - 1], d);
    }
  }

  /**
    What a caller can see to beforehand: as long as no two commands that can come to
    be on a hostname, with different aims, are under way at once, its record agrees
    whenever none is.
   */
  lemma {:induction false} ApartAgrees(x: Syntax, remote: map<string, string>, run: seq<Label>, d: string)
    requires ValidSyntax(x) && forall i :: 0 <= i <= |run| ==> OneAim(BookRuns.After(x, remote, run[..i]), d)
    ensures var s := BookRuns.After(x, remote, run);
      d in s.world.book.domains && (forall t :: t in s.threads ==> !MayBeOn(s.threads[t].task, d)) ==> RecordAgrees(s.world, d)
  {
    var s := BookRuns.After(x, remote, run);
    RunsKeep(x, remote, run);
    NeverClashed(x, remote, run, d);
    OverlappingAgrees(x, remote, run, d);
    if forall t :: t in s.threads ==> !MayBeOn(s.threads[t].task, d) {
      forall t | t in s.threads ensures !Unrecorded(s.threads[t].pc, d) { assert Fits(s.threads[t]); }
      assert Settled(s, d);
    }
  }
}
