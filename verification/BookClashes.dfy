/**
  Overlapping commands that leave the book wrong, as runs from an empty book: for
  every pair of commands that can have different aims for a hostname, one in which
  both finish, all their calls succeed, and the hostname's record disagrees with
  Cloudflare.
 */
module BookClashes {
  import opened Wrappers
  import opened Sorting
  import opened Text
  import opened BookSpec
  import opened BookOverlap
  import opened BookRuns
  import opened BookSolo

  /** The worker can be bound to the hostname: both names and its credential are fine. */
  ghost predicate Ready(x: Syntax, w: World, worker: string, d: string) {
    && x.host(d) && d != ""
    && worker in w.book.workers && w.book.workers[worker].cred in w.book.creds
    && x.name(CategoryOf(w.book.workers[worker]))
  }

  function Yes(host: string): Oracle { Oracle(true, true, true, host) }

  function Forced(worker: string, d: string): Task { Task.Bind(worker, d, true, "") }

  /** Only hostnames' records differ. */
  predicate SameWorkers(b: Book, b': Book) { b'.workers == b.workers && b'.creds == b.creds }

  lemma {:induction false} BoundRecord(x: Syntax, w: World, worker: string, d: string)
    requires Ready(x, w, worker, d)
    ensures var b := RecordBound(x, w.book, worker, w.book.workers[worker], d, "");
      SameWorkers(w.book, b) && d in b.domains && b.domains[d].worker == worker && b.domains[d].status == Used
  {
  }

  /** A forced binding up to its attachment. */
  lemma {:induction false} Attaches(x: Syntax, s: Sys, tid: nat, worker: string, d: string)
    requires tid !in s.threads && Ready(x, s.world, worker, d)
    ensures var s' := Steps(x, s, Alone(tid, Forced(worker, d), Yes(d), 4));
      && s'.world == s.world.(remote := s.world.remote[d := worker])
      && s'.threads == s.threads[tid := Thread(Forced(worker, d), Looking(s.world.book.workers[worker], d))]
  {
    var task, o, v := Forced(worker, d), Yes(d), s.world.book.workers[worker];
    SpawnedIsSolo(x, s, tid, task, o, 4);
    SoloNext(x, s.world, task, Starting, o, 4);
    SoloNext(x, s.world, task, Crediting(v, d), o, 3);
    SoloNext(x, s.world, task, Checking(v, d), o, 2);
    SoloNext(x, s.world, task, Attaching(v, d), o, 1);
  }

  /** The rest of it. */
  lemma {:induction false} Finishes(x: Syntax, s: Sys, tid: nat, worker: string, v: Worker, d: string)
    requires tid in s.threads && s.threads[tid] == Thread(Forced(worker, d), Looking(v, d))
    ensures var s' := Steps(x, s, Acts(tid, Yes(d), 3));
      && s'.world == s.world.(book := RecordBound(x, s.world.book, worker, v, d, ""))
      && s'.threads == s.threads - {tid}
  {
    ActsAreSolo(x, s, tid, Forced(worker, d), Some(Looking(v, d)), Yes(d), 3);
    SoloRecords(x, s.world, Forced(worker, d), v, d, Yes(d), 3);
  }

  /** A forced binding from beginning to end. */
  lemma {:induction false} Binds(x: Syntax, s: Sys, tid: nat, worker: string, d: string)
    requires tid !in s.threads && Ready(x, s.world, worker, d)
    ensures var s' := Steps(x, s, Alone(tid, Forced(worker, d), Yes(d), 8));
      && s'.world == World(RecordBound(x, s.world.book, worker, s.world.book.workers[worker], d, ""), s.world.remote[d := worker])
      && s'.threads == s.threads
  {
    SpawnedIsSolo(x, s, tid, Forced(worker, d), Yes(d), 8);
    BindAlone(x, s.world, Forced(worker, d), Api(true, true, true), Yes(d));
  }

  /** An unbinding from beginning to end. */
  lemma {:induction false} Unbinds(x: Syntax, s: Sys, tid: nat, worker: string, d: string)
    requires tid !in s.threads && Ready(x, s.world, worker, d) && worker != "" && d in s.world.remote
    requires d in s.world.book.domains && s.world.book.domains[d].worker == worker
    ensures var s' := Steps(x, s, Alone(tid, Task.Unbind(d), Yes(d), 6));
      && s'.world == World(Release(s.world.book, d), s.world.remote - {d})
      && s'.threads == s.threads
  {
    SpawnedIsSolo(x, s, tid, Task.Unbind(d), Yes(d), 6);
    UnbindAlone(x, s.world, d, Api(true, true, true), Yes(d));
  }

  /** An import up to its list. */
  lemma {:induction false} Lists(x: Syntax, s: Sys, tid: nat, worker: string, d: string)
    requires tid !in s.threads && Ready(x, s.world, worker, d)
    ensures var s' := Steps(x, s, Alone(tid, Task.Import(worker), Yes(d), 4));
      && s'.world == s.world
      && s'.threads == s.threads[tid := Thread(Task.Import(worker), Taking(s.world.book.workers[worker], BoundTo(s.world.remote, worker)))]
  {
    SpawnedIsSolo(x, s, tid, Task.Import(worker), Yes(d), 4);
    SoloLists(x, s.world, worker, Yes(d));
  }

  /** The rest of it, when that lists one recorded hostname. */
  lemma {:induction false} Points(x: Syntax, s: Sys, tid: nat, worker: string, v: Worker, d: string)
    requires tid in s.threads && s.threads[tid] == Thread(Task.Import(worker), Taking(v, {d})) && d in s.world.book.domains
    ensures var s' := Steps(x, s, Acts(tid, Yes(d), 3));
      && s'.world == s.world.(book := MarkUsed(s.world.book, d, worker, None))
      && s'.threads == s.threads - {tid}
  {
    var task, o, w := Task.Import(worker), Yes(d), s.world;
    ActsAreSolo(x, s, tid, task, Some(Taking(v, {d})), o, 3);
    assert {d} - {d} == {};
    SoloNext(x, w, task, Taking(v, {d}), o, 3);
    SoloNext(x, w, task, Pointing(v, d, {}), o, 2);
    SoloNext(x, w.(book := MarkUsed(w.book, d, worker, None)), task, Taking(v, {}), o, 1);
  }

  // ---- the four overlaps ----

  datatype Overlap = TwoBinds | UnbindInBind | UnbindInImport | BindInImport

  /** Two workers under one credential; in all but the first overlap, the first of them bound to the hostname. */
  function Setup(cred: Cred, a: string, b: string): seq<Label> {
    [Edit(Command.AddCred(a, cred), true), Edit(Command.AddWorker(a, a, ""), true), Edit(Command.AddWorker(b, a, ""), true)]
  }

  function Bound(cred: Cred, a: string, b: string, d: string): seq<Label> { Setup(cred, a, b) + Alone(0, Forced(a, d), Yes(d), 8) }

  function RunOf(k: Overlap, cred: Cred, a: string, b: string, d: string): seq<Label> {
    match k
    case TwoBinds =>
      Setup(cred, a, b) + Alone(0, Forced(a, d), Yes(d), 4) + Alone(1, Forced(b, d), Yes(d), 4) + Acts(1, Yes(d), 3) + Acts(0, Yes(d), 3)
    case UnbindInBind =>
      Bound(cred, a, b, d) + Alone(0, Forced(b, d), Yes(d), 4) + Alone(1, Task.Unbind(d), Yes(d), 6) + Acts(0, Yes(d), 3)
    case UnbindInImport =>
      Bound(cred, a, b, d) + Alone(0, Task.Import(a), Yes(d), 4) + Alone(1, Task.Unbind(d), Yes(d), 6) + Acts(0, Yes(d), 3)
    case BindInImport =>
      Bound(cred, a, b, d) + Alone(0, Task.Import(a), Yes(d), 4) + Alone(1, Forced(b, d), Yes(d), 8) + Acts(0, Yes(d), 3)
  }

  /** Two workers, the hostname free. */
  ghost predicate Prepared(x: Syntax, s: Sys, a: string, b: string, d: string) {
    s.threads == map[] && s.world.remote == map[] && Ready(x, s.world, a, d) && Ready(x, s.world, b, d)
  }

  /** Two workers, the hostname bound to the first. */
  ghost predicate BoundToFirst(x: Syntax, s: Sys, a: string, b: string, d: string) {
    && s.threads == map[] && s.world.remote == map[d := a] && Ready(x, s.world, a, d) && Ready(x, s.world, b, d)
    && d in s.world.book.domains && s.world.book.domains[d].worker == a
  }

  /** Nothing is under way, and the hostname's record names a worker it is not attached to. */
  ghost predicate Wrong(s: Sys, d: string) { s.threads == map[] && d in s.world.book.domains && !RecordAgrees(s.world, d) }

  ghost predicate Usable(x: Syntax, cred: Cred, a: string, b: string, d: string) {
    && ValidSyntax(x) && x.name(a) && x.name(b) && a != b && x.name("default") && x.host(d) && d != ""
    && TrimSpace(cred.accountId) != "" && TrimSpace(cred.token) != ""
  }

  lemma {:induction false} StepsOne(x: Syntax, s: Sys, run: seq<Label>, l: Label)
    ensures Steps(x, s, run + [l]) == BookRuns.Step(x, Steps(x, s, run), l)
  {
    assert (run + [l])[..|run|] == run;
  }

  lemma {:induction false} WorkersAdded(x: Syntax, cred: Cred, a: string, b: string)
    requires x.name(a) && x.name(b) && a != b
    ensures var none := Book(map[a := cred], map[], map[]);
      var one := Book(map[a := cred], map[a := Worker(a, "")], map[]);
      && AddWorkerSpec(x, none, a, a, "", true).0 == one
      && AddWorkerSpec(x, one, b, a, "", true).0 == Book(map[a := cred], map[a := Worker(a, ""), b := Worker(a, "")], map[])
  {
  }

  lemma {:induction false} SetupPrepares(x: Syntax, cred: Cred, a: string, b: string, d: string)
    requires Usable(x, cred, a, b, d)
    ensures Prepared(x, BookRuns.After(x, map[], Setup(cred, a, b)), a, b, d)
  {
    var one, two, three := Edit(Command.AddCred(a, cred), true), Edit(Command.AddWorker(a, a, ""), true), Edit(Command.AddWorker(b, a, ""), true);
    StepsOne(x, Initial(map[]), [], one);
    assert [] + [one] == [one];
    assert Steps(x, Initial(map[]), [one]) == Sys(World(Book(map[a := cred], map[], map[]), map[]), map[], {});
    WorkersAdded(x, cred, a, b);
    StepsOne(x, Initial(map[]), [one], two);
    StepsOne(x, Initial(map[]), [one, two], three);
    assert [one] + [two] == [one, two] && [one, two] + [three] == Setup(cred, a, b);
  }

  lemma {:induction false} BoundPrepares(x: Syntax, cred: Cred, a: string, b: string, d: string)
    requires Usable(x, cred, a, b, d)
    ensures BoundToFirst(x, BookRuns.After(x, map[], Bound(cred, a, b, d)), a, b, d)
  {
    SetupPrepares(x, cred, a, b, d);
    var s := BookRuns.After(x, map[], Setup(cred, a, b));
    Binds(x, s, 0, a, d);
    BoundRecord(x, s.world, a, d);
    StepsTwo(x, Initial(map[]), Setup(cred, a, b), Alone(0, Forced(a, d), Yes(d), 8));
  }

  /** Both attach, the second records first: the book keeps the first, Cloudflare the second. */
  lemma {:induction false} TwoBindsWrong(x: Syntax, s: Sys, a: string, b: string, d: string)
    requires Prepared(x, s, a, b, d) && a != b && a != ""
    ensures Wrong(Steps(x, Steps(x, Steps(x, Steps(x, s, Alone(0, Forced(a, d), Yes(d), 4)), Alone(1, Forced(b, d), Yes(d), 4)),
                                 Acts(1, Yes(d), 3)), Acts(0, Yes(d), 3)), d)
  {
    Attaches(x, s, 0, a, d);
    var s1 := Steps(x, s, Alone(0, Forced(a, d), Yes(d), 4));
    Attaches(x, s1, 1, b, d);
    var s2 := Steps(x, s1, Alone(1, Forced(b, d), Yes(d), 4));
    Finishes(x, s2, 1, b, s.world.book.workers[b], d);
    BoundRecord(x, s2.world, b, d);
    var s3 := Steps(x, s2, Acts(1, Yes(d), 3));
    Finishes(x, s3, 0, a, s.world.book.workers[a], d);
    BoundRecord(x, s3.world, a, d);
  }

  /** Detached after the attachment, recorded as bound after being released. */
  lemma {:induction false} UnbindInBindWrong(x: Syntax, s: Sys, a: string, b: string, d: string)
    requires BoundToFirst(x, s, a, b, d) && a != "" && b != ""
    ensures Wrong(Steps(x, Steps(x, Steps(x, s, Alone(0, Forced(b, d), Yes(d), 4)), Alone(1, Task.Unbind(d), Yes(d), 6)), Acts(0, Yes(d), 3)), d)
  {
    Attaches(x, s, 0, b, d);
    var s1 := Steps(x, s, Alone(0, Forced(b, d), Yes(d), 4));
    Unbinds(x, s1, 1, a, d);
    var s2 := Steps(x, s1, Alone(1, Task.Unbind(d), Yes(d), 6));
    Finishes(x, s2, 0, b, s.world.book.workers[b], d);
    BoundRecord(x, s2.world, b, d);
  }

  /** Listed, unbound, and then recorded as listed. */
  lemma {:induction false} UnbindInImportWrong(x: Syntax, s: Sys, a: string, b: string, d: string)
    requires BoundToFirst(x, s, a, b, d) && a != ""
    ensures Wrong(Steps(x, Steps(x, Steps(x, s, Alone(0, Task.Import(a), Yes(d), 4)), Alone(1, Task.Unbind(d), Yes(d), 6)), Acts(0, Yes(d), 3)), d)
  {
    assert BoundTo(s.world.remote, a) == {d};
    Lists(x, s, 0, a, d);
    var s1 := Steps(x, s, Alone(0, Task.Import(a), Yes(d), 4));
    Unbinds(x, s1, 1, a, d);
    var s2 := Steps(x, s1, Alone(1, Task.Unbind(d), Yes(d), 6));
    Points(x, s2, 0, a, s.world.book.workers[a], d);
  }

  /** Listed, bound to another worker, and then recorded as listed. */
  lemma {:induction false} BindInImportWrong(x: Syntax, s: Sys, a: string, b: string, d: string)
    requires BoundToFirst(x, s, a, b, d) && a != b && a != ""
    ensures Wrong(Steps(x, Steps(x, Steps(x, s, Alone(0, Task.Import(a), Yes(d), 4)), Alone(1, Forced(b, d), Yes(d), 8)), Acts(0, Yes(d), 3)), d)
  {
    assert BoundTo(s.world.remote, a) == {d};
    Lists(x, s, 0, a, d);
    var s1 := Steps(x, s, Alone(0, Task.Import(a), Yes(d), 4));
    Binds(x, s1, 1, b, d);
    BoundRecord(x, s1.world, b, d);
    var s2 := Steps(x, s1, Alone(1, Forced(b, d), Yes(d), 8));
    Points(x, s2, 0, a, s.world.book.workers[a], d);
  }

  lemma {:induction false} StepsFour(x: Syntax, s: Sys, p: seq<Label>, q: seq<Label>, r: seq<Label>, t: seq<Label>)
    ensures Steps(x, s, p + q + r + t) == Steps(x, Steps(x, Steps(x, Steps(x, s, p), q), r), t)
  {
    StepsTwo(x, s, p + q + r, t);
    StepsTwo(x, s, p + q, r);
    StepsTwo(x, s, p, q);
  }

  /** By `OverlappingAgrees` a record can only be wrong where commands with different aims met. */
  lemma {:induction false} WrongHasClashed(x: Syntax, run: seq<Label>, d: string)
    requires ValidSyntax(x) && Wrong(BookRuns.After(x, map[], run), d)
    ensures d in BookRuns.After(x, map[], run).clashed
  {
    OverlappingAgrees(x, map[], run, d);
    assert Settled(BookRuns.After(x, map[], run), d);
  }

  lemma {:induction false} TwoBindsRun(x: Syntax, cred: Cred, a: string, b: string, d: string)
    requires Usable(x, cred, a, b, d)
    ensures Wrong(BookRuns.After(x, map[], RunOf(TwoBinds, cred, a, b, d)), d)
  {
    SetupPrepares(x, cred, a, b, d);
    TwoBindsWrong(x, BookRuns.After(x, map[], Setup(cred, a, b)), a, b, d);
    var most := Setup(cred, a, b) + Alone(0, Forced(a, d), Yes(d), 4) + Alone(1, Forced(b, d), Yes(d), 4) + Acts(1, Yes(d), 3);
    StepsFour(x, Initial(map[]), Setup(cred, a, b), Alone(0, Forced(a, d), Yes(d), 4), Alone(1, Forced(b, d), Yes(d), 4), Acts(1, Yes(d), 3));
    StepsTwo(x, Initial(map[]), most, Acts(0, Yes(d), 3));
  }

  lemma {:induction false} UnbindInBindRun(x: Syntax, cred: Cred, a: string, b: string, d: string)
    requires Usable(x, cred, a, b, d)
    ensures Wrong(BookRuns.After(x, map[], RunOf(UnbindInBind, cred, a, b, d)), d)
  {
    BoundPrepares(x, cred, a, b, d);
    UnbindInBindWrong(x, BookRuns.After(x, map[], Bound(cred, a, b, d)), a, b, d);
    StepsFour(x, Initial(map[]), Bound(cred, a, b, d), Alone(0, Forced(b, d), Yes(d), 4), Alone(1, Task.Unbind(d), Yes(d), 6), Acts(0, Yes(d), 3));
  }

  lemma {:induction false} UnbindInImportRun(x: Syntax, cred: Cred, a: string, b: string, d: string)
    requires Usable(x, cred, a, b, d)
    ensures Wrong(BookRuns.After(x, map[], RunOf(UnbindInImport, cred, a, b, d)), d)
  {
    BoundPrepares(x, cred, a, b, d);
    UnbindInImportWrong(x, BookRuns.After(x, map[], Bound(cred, a, b, d)), a, b, d);
    StepsFour(x, Initial(map[]), Bound(cred, a, b, d), Alone(0, Task.Import(a), Yes(d), 4), Alone(1, Task.Unbind(d), Yes(d), 6), Acts(0, Yes(d), 3));
  }

  lemma {:induction false} BindInImportRun(x: Syntax, cred: Cred, a: string, b: string, d: string)
    requires Usable(x, cred, a, b, d)
    ensures Wrong(BookRuns.After(x, map[], RunOf(BindInImport, cred, a, b, d)), d)
  {
    BoundPrepares(x, cred, a, b, d);
    BindInImportWrong(x, BookRuns.After(x, map[], Bound(cred, a, b, d)), a, b, d);
    StepsFour(x, Initial(map[]), Bound(cred, a, b, d), Alone(0, Task.Import(a), Yes(d), 4), Alone(1, Forced(b, d), Yes(d), 8), Acts(0, Yes(d), 3));
  }

  /**
    The condition of `OverlappingAgrees` cannot be done without: each of the four
    overlaps has a run from an empty book after which nothing is under way and the
    record is wrong. The hostname had clashed.
   */
  lemma {:induction false} ClashesDisagree(x: Syntax, k: Overlap, cred: Cred, a: string, b: string, d: string)
    requires Usable(x, cred, a, b, d)
    ensures var s := BookRuns.After(x, map[], RunOf(k, cred, a, b, d)); Wrong(s, d) && d in s.clashed
  {
    match k {
      case TwoBinds => TwoBindsRun(x, cred, a, b, d);
      case UnbindInBind => UnbindInBindRun(x, cred, a, b, d);
      case UnbindInImport => UnbindInImportRun(x, cred, a, b, d);
      case BindInImport => BindInImportRun(x, cred, a, b, d);
    }
    WrongHasClashed(x, RunOf(k, cred, a, b, d), d);
  }
}
