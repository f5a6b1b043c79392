/**
  A record book command that meets no other: its steps add up to what `BookSpec` says
  of the command in one piece.
 */
module BookSolo {
  import opened Wrappers
  import opened Sorting
  import opened BookSpec
  import opened BookRuns

  /** A command's next `n` steps with nobody else's in between, all under the same answers. */
  ghost function Solo(x: Syntax, w: World, task: Task, pc: Option<Pc>, o: Oracle, n: nat): (World, Option<Pc>)
    decreases n
  {
    if n == 0 || pc.None? then (w, pc) else
      var next := Next(x, w, Thread(task, pc.value), o);
      Solo(x, next.0, task, next.1, o, n - 1)
  }

  lemma {:induction false} SoloNext(x: Syntax, w: World, task: Task, pc: Pc, o: Oracle, n: nat)
    requires n > 0
    ensures var next := Next(x, w, Thread(task, pc), o);
      Solo(x, w, task, Some(pc), o, n) == if next.1.None? then next else Solo(x, next.0, task, next.1, o, n - 1)
  {
  }

  /** From the attachment to the record. */
  lemma {:induction false} SoloRecords(x: Syntax, w: World, task: Task, v: Worker, host: string, o: Oracle, n: nat)
    requires task.Bind? && n >= 3
    ensures Solo(x, w, task, Some(Looking(v, host)), o, n)
         == (w.(book := RecordBound(x, w.book, task.worker, v, host, task.stamp)), None)
  {
    SoloNext(x, w, task, Looking(v, host), o, n);
    if host in w.book.domains {
      SoloNext(x, w, task, Marking(host), o, n - 1);
    } else {
      var added := w.(book := AddDomainSpec(x, w.book, CategoryOf(v), host, "", o.save).0);
      SoloNext(x, w, task, Adding(v, host), o, n - 1);
      SoloNext(x, added, task, Marking(host), o, n - 2);
    }
  }

  /** From the hostname on. */
  lemma {:induction false} SoloAttaches(x: Syntax, w: World, task: Task, host: string, api: Api, o: Oracle, n: nat)
    requires task.Bind? && n >= 6 && task.worker in w.book.workers && o.list == api.list && o.change == (api.zone && api.change)
    ensures var v := w.book.workers[task.worker];
      Solo(x, w, task, Some(Crediting(v, host)), o, n)
        == (if Refusal(x, w, task.worker, host, task.force, api).Some? then w
            else World(RecordBound(x, w.book, task.worker, v, host, task.stamp), w.remote[host := task.worker]), None)
  {
    var v := w.book.workers[task.worker];
    SoloNext(x, w, task, Crediting(v, host), o, n);
    if x.host(host) && v.cred in w.book.creds {
      SoloNext(x, w, task, Checking(v, host), o, n - 1);
      if o.list && !(host in w.remote && w.remote[host] != task.worker && !task.force) {
        SoloNext(x, w, task, Attaching(v, host), o, n - 2);
        if o.change { SoloRecords(x, w.(remote := w.remote[host := task.worker]), task, v, host, o, n - 3); }
      }
    }
  }

  /** A binding that meets no other command does what binding does in one piece. */
  lemma {:induction false} BindAlone(x: Syntax, w: World, task: Task, api: Api, o: Oracle)
    requires task.Bind? && o.list == api.list && o.change == (api.zone && api.change)
    ensures Solo(x, w, task, Some(Starting), o, 8)
         == (BindSpec(x, w, task.worker, task.domain, task.force, api, task.stamp).0, None)
  {
    SoloNext(x, w, task, Starting, o, 8);
    if task.worker in w.book.workers {
      var v := w.book.workers[task.worker];
      if task.domain != "" {
        SoloAttaches(x, w, task, task.domain, api, o, 7);
      } else if v.category != "" {
        SoloNext(x, w, task, Picking(v), o, 7);
        var free := NextUnusedSpec(w.book.domains, v.category);
        if free.Some? { SoloAttaches(x, w, task, free.value, api, o, 6); }
      }
    }
  }

  lemma {:induction false} SoloDetaches(x: Syntax, w: World, domain: string, cred: string, o: Oracle)
    ensures Solo(x, w, Task.Unbind(domain), Some(Opening(cred)), o, 4)
         == (if cred in w.book.creds && o.list && domain in w.remote && o.change
             then World(Release(w.book, domain), w.remote - {domain}) else w, None)
  {
    var task := Task.Unbind(domain);
    SoloNext(x, w, task, Opening(cred), o, 4);
    SoloNext(x, w, task, Finding, o, 3);
    SoloNext(x, w, task, Detaching, o, 2);
    SoloNext(x, w.(remote := w.remote - {domain}), task, Releasing(domain), o, 1);
  }

  /** So does unbinding. */
  lemma {:induction false} UnbindAlone(x: Syntax, w: World, domain: string, api: Api, o: Oracle)
    requires o.list == api.list && o.change == api.change
    ensures Solo(x, w, Task.Unbind(domain), Some(Starting), o, 6) == (UnbindSpec(w, domain, api).0, None)
  {
    var task := Task.Unbind(domain);
    SoloNext(x, w, task, Starting, o, 6);
    if domain in w.book.domains {
      var name := w.book.domains[domain].worker;
      SoloNext(x, w, task, Naming(name), o, 5);
      if name in w.book.workers { SoloDetaches(x, w, domain, w.book.workers[name].cred, o); }
    }
  }

  /** Up to the list. */
  lemma {:induction false} SoloLists(x: Syntax, w: World, worker: string, o: Oracle)
    ensures Solo(x, w, Task.Import(worker), Some(Starting), o, 4) == (w,
      if worker in w.book.workers && w.book.workers[worker].cred in w.book.creds && o.list
      then Some(Taking(w.book.workers[worker], BoundTo(w.remote, worker))) else None)
  {
    var task := Task.Import(worker);
    SoloNext(x, w, task, Starting, o, 4);
    if worker in w.book.workers {
      var v := w.book.workers[worker];
      SoloNext(x, w, task, Rereading(v), o, 3);
      SoloNext(x, w, task, Keying(v, v.cred), o, 2);
      SoloNext(x, w, task, Listing(v), o, 1);
    }
  }

  /** One listed hostname: three steps record it, and none is left when it was the last. */
  lemma {:induction false} SoloTakesOne(x: Syntax, w: World, task: Task, v: Worker, host: string, left: set<string>, o: Oracle)
    requires task.Import? && host in left && o.host == host
    ensures var end := Solo(x, w, task, Some(Taking(v, left)), o, 3);
      && end.0 == w.(book := w.book.(domains := ImportOne(x, w.book.domains, task.worker, CategoryOf(v), host, o.save)))
      && (end.1 == Some(Taking(v, left - {host})) || (end.1.None? && left == {host}))
  {
    var rest := left - {host};
    SoloNext(x, w, task, Taking(v, left), o, 3);
    if host in w.book.domains {
      SoloNext(x, w, task, Pointing(v, host, rest), o, 2);
      SoloNext(x, w.(book := MarkUsed(w.book, host, task.worker, None)), task, Taking(v, rest), o, 1);
    } else {
      var added := AddDomainSpec(x, w.book, CategoryOf(v), host, "", o.save);
      SoloNext(x, w, task, Filing(v, host, rest), o, 2);
      if added.1.Ok? {
        SoloNext(x, w.(book := added.0), task, Pointing(v, host, rest), o, 1);
      } else {
        SoloNext(x, w.(book := added.0), task, Taking(v, rest), o, 1);
      }
    }
  }

  // ---- as runs ----

  function Acts(tid: nat, o: Oracle, n: nat): seq<Label> {
    if n == 0 then [] else [Act(tid, o)] + Acts(tid, o, n - 1)
  }

  function With(threads: map<nat, Thread>, tid: nat, task: Task, pc: Option<Pc>): map<nat, Thread> {
    if pc.None? then threads - {tid} else threads[tid := Thread(task, pc.value)]
  }

  function Alone(tid: nat, task: Task, o: Oracle, n: nat): seq<Label> { [Spawn(tid, task)] + Acts(tid, o, n) }

  lemma {:induction false} StepsTwo(x: Syntax, s: Sys, a: seq<Label>, b: seq<Label>)
    ensures Steps(x, s, a + b) == Steps(x, Steps(x, s, a), b)
  {
    if b == [] {
      assert a + b == a;
    } else {
      StepsTwo(x, s, a, b[..|b| - 1]);
      assert (a + b)[..|a + b| - 1] == a + b[..|b| - 1];
    }
  }

  lemma {:induction false} WithTwice(threads: map<nat, Thread>, tid: nat, task: Task, pc: Option<Pc>, last: Option<Pc>)
    ensures With(With(threads, tid, task, pc), tid, task, last) == With(threads, tid, task, last)
  {
  }

  /** Run among other commands that do not move, it does the same. */
  lemma {:induction false} ActsAreSolo(x: Syntax, s: Sys, tid: nat, task: Task, pc: Option<Pc>, o: Oracle, n: nat)
    requires s.threads == With(s.threads, tid, task, pc)
    ensures var s' := Steps(x, s, Acts(tid, o, n)); var end := Solo(x, s.world, task, pc, o, n);
      s'.world == end.0 && s'.threads == With(s.threads, tid, task, end.1)
    decreases n
  {
    if n > 0 {
      var next := if pc.None? then (s.world, pc) else Next(x, s.world, Thread(task, pc.value), o);
      var s1 := BookRuns.Step(x, s, Act(tid, o));
      StepsTwo(x, s, [Act(tid, o)], Acts(tid, o, n - 1));
      assert Steps(x, s, [Act(tid, o)]) == s1;
      if pc.Some? { assert s.threads[tid] == Thread(task, pc.value); }
      assert s1.world == next.0 && s1.threads == With(s.threads, tid, task, next.1);
      WithTwice(s.threads, tid, task, next.1, next.1);
      ActsAreSolo(x, s1, tid, task, next.1, o, n - 1);
      WithTwice(s.threads, tid, task, next.1, Solo(x, s1.world, task, next.1, o, n - 1).1);
    }
  }

  /** A command spawned and run for `n` steps does what it does alone. */
  lemma {:induction false} SpawnedIsSolo(x: Syntax, s: Sys, tid: nat, task: Task, o: Oracle, n: nat)
    requires tid !in s.threads
    ensures var s' := Steps(x, s, Alone(tid, task, o, n)); var end := Solo(x, s.world, task, Some(Starting), o, n);
      s'.world == end.0 && s'.threads == With(s.threads, tid, task, end.1)
  {
    var s1 := BookRuns.Step(x, s, Spawn(tid, task));
    StepsTwo(x, s, [Spawn(tid, task)], Acts(tid, o, n));
    assert Steps(x, s, [Spawn(tid, task)]) == s1;
    ActsAreSolo(x, s1, tid, task, Some(Starting), o, n);
    var pc := Solo(x, s1.world, task, Some(Starting), o, n).1;
    WithTwice(s.threads, tid, task, Some(Starting), pc);
  }

  function TakeAll(tid: nat, hosts: seq<string>, saves: string -> bool): seq<Label> {
    if hosts == [] then [] else
      var h := hosts[|hosts| - 1];
      TakeAll(tid, hosts[..|hosts| - 1], saves) + Acts(tid, Oracle(true, true, saves(h), h), 3)
  }

  /** The import has come as far as these hostnames. */
  ghost predicate TakenFrom(threads: map<nat, Thread>, tid: nat, task: Task, v: Worker, left: set<string>) {
    threads == With(threads, tid, task, Some(Taking(v, left))) || (left == {} && threads == With(threads, tid, task, None))
  }

  lemma {:induction false} TakesNext(x: Syntax, s: Sys, tid: nat, task: Task, v: Worker, left: set<string>, host: string, save: bool)
    requires task.Import? && host in left && TakenFrom(s.threads, tid, task, v, left)
    ensures var s' := Steps(x, s, Acts(tid, Oracle(true, true, save, host), 3));
      && s'.world == s.world.(book := s.world.book.(domains := ImportOne(x, s.world.book.domains, task.worker, CategoryOf(v), host, save)))
      && TakenFrom(s'.threads, tid, task, v, left - {host})
  {
    var o := Oracle(true, true, save, host);
    SoloTakesOne(x, s.world, task, v, host, left, o);
    ActsAreSolo(x, s, tid, task, Some(Taking(v, left)), o, 3);
    var pc := Solo(x, s.world, task, Some(Taking(v, left)), o, 3).1;
    WithTwice(s.threads, tid, task, pc, pc);
  }

  lemma {:induction false} TakesAll(x: Syntax, s: Sys, tid: nat, task: Task, v: Worker, left: set<string>, hosts: seq<string>, saves: string -> bool)
    requires task.Import? && TakenFrom(s.threads, tid, task, v, left) && NoDuplicates(hosts) && Elements(hosts) <= left
    ensures var s' := Steps(x, s, TakeAll(tid, hosts, saves));
      && s'.world == s.world.(book := s.world.book.(domains :=
           Imported(x, s.world.book.domains, task.worker, CategoryOf(v), Elements(hosts), saves)))
      && TakenFrom(s'.threads, tid, task, v, left - Elements(hosts))
  {
    if hosts == [] {
      assert Imported(x, s.world.book.domains, task.worker, CategoryOf(v), {}, saves) == s.world.book.domains;
      assert left - Elements(hosts) == left;
    } else {
      var front, h := hosts[..|hosts| - 1], hosts[|hosts| - 1];
      assert hosts == front + [h];
      AppendFresh(front, h);
      TakesAll(x, s, tid, task, v, left, front, saves);
      var s1 := Steps(x, s, TakeAll(tid, front, saves));
      ImportedNext(x, s.world.book.domains, task.worker, CategoryOf(v), Elements(front), h, saves);
      TakesNext(x, s1, tid, task, v, left - Elements(front), h, saves(h));
      StepsTwo(x, s, TakeAll(tid, front, saves), Acts(tid, Oracle(true, true, saves(h), h), 3));
      assert left - Elements(front) - {h} == left - Elements(hosts);
    }
  }

  /** An import that meets no other command does what importing does in one piece, in whatever order the hostnames are listed. */
  lemma {:induction false} ImportAlone(x: Syntax, s: Sys, tid: nat, worker: string, api: Api, hosts: seq<string>, saves: string -> bool, o: Oracle)
    requires tid !in s.threads && o.list == api.list
    requires NoDuplicates(hosts) && Elements(hosts) == BoundTo(s.world.remote, worker)
    ensures ImportSpec(x, s.world, worker, api, saves).1.Ok? ==>
      Steps(x, s, Alone(tid, Task.Import(worker), o, 4) + TakeAll(tid, hosts, saves)).world == ImportSpec(x, s.world, worker, api, saves).0
    ensures ImportSpec(x, s.world, worker, api, saves).1.Err? ==>
      Steps(x, s, Alone(tid, Task.Import(worker), o, 4)).world == s.world && tid !in Steps(x, s, Alone(tid, Task.Import(worker), o, 4)).threads
  {
    var task := Task.Import(worker);
    var s1 := Steps(x, s, Alone(tid, task, o, 4));
    SpawnedIsSolo(x, s, tid, task, o, 4);
    SoloLists(x, s.world, worker, o);
    if ImportSpec(x, s.world, worker, api, saves).1.Ok? {
      TakesAll(x, s1, tid, task, s.world.book.workers[worker], BoundTo(s.world.remote, worker), hosts, saves);
      StepsTwo(x, s, Alone(tid, task, o, 4), TakeAll(tid, hosts, saves));
    }
  }
}
