/**
  The record book under commands that overlap. Handlers run in parallel: the book's
  lock covers one read or one update at a time, and no lock covers a command from its
  question to Cloudflare to its record. Each such read, update and API call is one
  step here, and the steps of any number of commands interleave freely.

  One account; attachments change only through these commands; a failed API call has
  no effect.
 */
module BookRuns {
  import opened Wrappers
  import opened BookSpec

  /** The commands that talk to Cloudflare. */
  datatype Task =
    | Bind(worker: string, domain: string, force: bool, stamp: string)
    | Unbind(domain: string)
    | Import(worker: string)

  /** What a command does next; `v` is its copy of the worker's record, `left` the hostnames still to import. */
  datatype Pc =
    | Starting
    | Picking(v: Worker)
    | Crediting(v: Worker, host: string)
    | Checking(v: Worker, host: string)
    | Attaching(v: Worker, host: string)
    | Looking(v: Worker, host: string)
    | Adding(v: Worker, host: string)
    | Marking(host: string)
    | Naming(name: string)
    | Opening(cred: string)
    | Finding
    | Detaching
    | Releasing(host: string)
    | Rereading(v: Worker)
    | Keying(v: Worker, cred: string)
    | Listing(v: Worker)
    | Taking(v: Worker, left: set<string>)
    | Filing(v: Worker, host: string, left: set<string>)
    | Pointing(v: Worker, host: string, left: set<string>)

  datatype Thread = Thread(task: Task, pc: Pc)

  /** Whether a list and a change at Cloudflare succeed, whether the record file can be written, and which listed hostname comes next. */
  datatype Oracle = Oracle(list: bool, change: bool, save: bool, host: string)

  /** `clashed`: the hostnames two commands with different aims have been on at once. */
  datatype Sys = Sys(world: World, threads: map<nat, Thread>, clashed: set<string>)

  function WorkerOf(task: Task): string { if task.Unbind? then "" else task.worker }

  function Release(b: Book, host: string): Book {
    if host !in b.domains then b else b.(domains := b.domains[host := Released(b.domains[host])])
  }

  ghost function First(b: Book, task: Task): Option<Pc> {
    match task
    case Bind(worker, domain, _, _) =>
      if worker !in b.workers then None
      else if domain != "" then Some(Crediting(b.workers[worker], domain))
      else if b.workers[worker].category == "" then None
      else Some(Picking(b.workers[worker]))
    case Unbind(domain) =>
      if domain !in b.domains || b.domains[domain].worker == "" then None else Some(Naming(b.domains[domain].worker))
    case Import(worker) => if worker !in b.workers then None else Some(Rereading(b.workers[worker]))
  }

  /** One step of binding: find the hostname, check, attach, and record. */
  ghost function BindNext(x: Syntax, w: World, task: Task, pc: Pc, o: Oracle): (World, Option<Pc>)
    requires task.Bind?
  {
    var b := w.book;
    match pc
    case Picking(v) =>
      (match NextUnusedSpec(b.domains, v.category)
       case None => (w, None)
       case Some(host) => (w, Some(Crediting(v, host))))
    case Crediting(v, host) => (w, if !x.host(host) || v.cred !in b.creds then None else Some(Checking(v, host)))
    case Checking(v, host) =>
      (w, if !o.list || (host in w.remote && w.remote[host] != task.worker && !task.force) then None else Some(Attaching(v, host)))
    case Attaching(v, host) => if !o.change then (w, None) else (w.(remote := w.remote[host := task.worker]), Some(Looking(v, host)))
    case Looking(v, host) => (w, Some(if host in b.domains then Marking(host) else Adding(v, host)))
    case Adding(v, host) => (w.(book := AddDomainSpec(x, b, CategoryOf(v), host, "", o.save).0), Some(Marking(host)))
    case Marking(host) => (w.(book := MarkUsed(b, host, task.worker, Some(task.stamp))), None)
    case _ => (w, None)
  }

  /** One step of unbinding: find the worker and its credential, find the attachment, remove it, and record. */
  ghost function UnbindNext(w: World, task: Task, pc: Pc, o: Oracle): (World, Option<Pc>)
    requires task.Unbind?
  {
    var b := w.book;
    match pc
    case Naming(name) => (w, if name !in b.workers then None else Some(Opening(b.workers[name].cred)))
    case Opening(cred) => (w, if cred !in b.creds then None else Some(Finding))
    case Finding => (w, if !o.list || task.domain !in w.remote then None else Some(Detaching))
    case Detaching => if !o.change then (w, None) else (w.(remote := w.remote - {task.domain}), Some(Releasing(task.domain)))
    case Releasing(host) => (w.(book := Release(b, host)), None)
    case _ => (w, None)
  }

  /** One step of importing: list what the worker serves, and record it hostname by hostname. */
  ghost function ImportNext(x: Syntax, w: World, task: Task, pc: Pc, o: Oracle): (World, Option<Pc>)
    requires task.Import?
  {
    var b := w.book;
    match pc
    case Rereading(v) => (w, if task.worker !in b.workers then None else Some(Keying(v, b.workers[task.worker].cred)))
    case Keying(v, cred) => (w, if cred !in b.creds then None else Some(Listing(v)))
    case Listing(v) => (w, if !o.list then None else Some(Taking(v, BoundTo(w.remote, task.worker))))
    case Taking(v, left) =>
      if o.host !in left then (w, if left == {} then None else Some(pc))
      else (w, Some(if o.host in b.domains then Pointing(v, o.host, left - {o.host}) else Filing(v, o.host, left - {o.host})))
    case Filing(v, host, left) =>
      var added := AddDomainSpec(x, b, CategoryOf(v), host, "", o.save);
      (w.(book := added.0), Some(if added.1.Ok? then Pointing(v, host, left) else Taking(v, left)))
    case Pointing(v, host, left) => (w.(book := MarkUsed(b, host, task.worker, None)), Some(Taking(v, left)))
    case _ => (w, None)
  }

  ghost function Next(x: Syntax, w: World, th: Thread, o: Oracle): (World, Option<Pc>) {
    if th.pc.Starting? then (w, First(w.book, th.task))
    else
      match th.task
      case Bind(_, _, _, _) => BindNext(x, w, th.task, th.pc, o)
      case Unbind(_) => UnbindNext(w, th.task, th.pc, o)
      case Import(_) => ImportNext(x, w, th.task, th.pc, o)
  }

  // ---- overlapping commands ----

  /** The hostnames a command is on: between the change or the list at Cloudflare and its record. */
  function On(pc: Pc): set<string> {
    match pc
    case Looking(_, host) => {host}
    case Adding(_, host) => {host}
    case Marking(host) => {host}
    case Releasing(host) => {host}
    case Taking(_, left) => left
    case Filing(_, host, left) => left + {host}
    case Pointing(_, host, left) => left + {host}
    case _ => {}
  }

  /** The worker a command wants its hostnames attached to; none for unbinding. */
  function Aim(task: Task): Option<string> { if task.Unbind? then None else Some(task.worker) }

  predicate Clash(a: Thread, b: Thread, d: string) { d in On(a.pc) && d in On(b.pc) && Aim(a.task) != Aim(b.task) }

  function Clashing(threads: map<nat, Thread>): set<string> {
    set t, u, d | t in threads && u in threads && d in On(threads[t].pc) && Clash(threads[t], threads[u], d) :: d
  }

  datatype Label = Edit(c: Command, save: bool) | Spawn(tid: nat, task: Task) | Act(tid: nat, o: Oracle)

  /** A command that only changes the book is one update under its lock. */
  predicate IsEdit(c: Command) { !c.Bind? && !c.Unbind? && !c.Import? }

  /** A step that cannot be taken changes nothing. */
  ghost function Step(x: Syntax, s: Sys, l: Label): Sys {
    match l
    case Edit(c, save) => if IsEdit(c) then s.(world := BookSpec.Step(x, s.world, c, save)) else s
    case Spawn(tid, task) => if tid in s.threads then s else s.(threads := s.threads[tid := Thread(task, Starting)])
    case Act(tid, o) =>
      if tid !in s.threads then s else
        var (w, pc) := Next(x, s.world, s.threads[tid], o);
        var threads := if pc.None? then s.threads - {tid} else s.threads[tid := Thread(s.threads[tid].task, pc.value)];
        Sys(w, threads, s.clashed + Clashing(threads))
  }

  ghost function Steps(x: Syntax, s: Sys, run: seq<Label>): Sys {
    if run == [] then s else Step(x, Steps(x, s, run[..|run| - 1]), run[|run| - 1])
  }

  function Initial(remote: map<string, string>): Sys { Sys(World(Book(map[], map[], map[]), remote), map[], {}) }

  /** From an empty book, whatever is attached at Cloudflare to begin with. */
  ghost function After(x: Syntax, remote: map<string, string>, run: seq<Label>): Sys { Steps(x, Initial(remote), run) }

  // ---- the invariant ----

  function Remote(w: World, d: string): Option<string> { if d in w.remote then Some(w.remote[d]) else None }

  /** Changed at Cloudflare and not recorded yet. */
  predicate Unrecorded(pc: Pc, d: string) { (pc.Looking? || pc.Adding? || pc.Marking? || pc.Releasing?) && d in On(pc) }

  ghost predicate Settled(s: Sys, d: string) { forall t :: t in s.threads ==> !Unrecorded(s.threads[t].pc, d) }

  /** What each command on the hostname relies on: it is attached as the command aims it. */
  ghost predicate AsAimed(s: Sys, d: string) {
    forall t :: t in s.threads && d in On(s.threads[t].pc) ==> Remote(s.world, d) == Aim(s.threads[t].task)
  }

  /** Commands are on hostnames they may be on. */
  ghost predicate Fits(th: Thread) {
    && (th.pc.Releasing? ==> th.task.Unbind?)
    && (th.pc.Looking? || th.pc.Adding? || th.pc.Marking? ==> th.task.Bind?)
    && (th.pc.Taking? || th.pc.Filing? || th.pc.Pointing? ==> th.task.Import?)
    && (th.task.Unbind? ==> On(th.pc) <= {th.task.domain})
    && (th.task.Bind? && th.task.domain != "" ==> !th.pc.Picking? && HostOf(th.pc) <= {th.task.domain})
  }

  function HostOf(pc: Pc): set<string> {
    match pc
    case Crediting(_, host) => {host}
    case Checking(_, host) => {host}
    case Attaching(_, host) => {host}
    case _ => On(pc)
  }

  ghost predicate DomainInv(s: Sys, d: string) {
    && AsAimed(s, d)
    && (d in s.world.book.domains && Settled(s, d) ==> RecordAgrees(s.world, d))
  }

  predicate UnusedIsFree(b: Book, d: string)
    requires d in b.domains
  {
    b.domains[d].status == Unused ==> b.domains[d].worker == ""
  }

  predicate CredExists(b: Book, n: string)
    requires n in b.workers
  {
    n != "" && b.workers[n].cred in b.creds
  }

  ghost predicate BookInv(b: Book) {
    && (forall d :: d in b.domains ==> UnusedIsFree(b, d))
    && (forall n :: n in b.workers ==> CredExists(b, n))
  }

  ghost predicate Inv(s: Sys) {
    && BookInv(s.world.book)
    && (forall t :: t in s.threads ==> Fits(s.threads[t]))
    && (forall d :: d !in s.clashed ==> DomainInv(s, d))
  }

  // ---- one step ----

  lemma {:induction false} EditKeepsBook(x: Syntax, w: World, c: Command, save: bool)
    requires ValidSyntax(x) && IsEdit(c) && BookInv(w.book)
    ensures BookInv(BookSpec.Step(x, w, c, save).book) && BookSpec.Step(x, w, c, save).remote == w.remote
  {
    var b := BookSpec.Step(x, w, c, save).book;
    forall d | d in b.domains ensures UnusedIsFree(b, d) { assert d in w.book.domains ==> UnusedIsFree(w.book, d); }
    forall n | n in b.workers ensures CredExists(b, n) { assert n in w.book.workers ==> CredExists(w.book, n); }
  }

  lemma {:induction false} EditKeepsRecord(x: Syntax, w: World, c: Command, save: bool, d: string)
    requires IsEdit(c) && d in BookSpec.Step(x, w, c, save).book.domains
    requires d in w.book.domains ==> RecordAgrees(w, d)
    ensures RecordAgrees(BookSpec.Step(x, w, c, save), d)
  {
  }

  lemma {:induction false} EditKeeps(x: Syntax, s: Sys, c: Command, save: bool)
    requires ValidSyntax(x) && Inv(s) && IsEdit(c)
    ensures Inv(Step(x, s, Edit(c, save)))
  {
    var s' := Step(x, s, Edit(c, save));
    EditKeepsBook(x, s.world, c, save);
    forall d | d !in s'.clashed ensures DomainInv(s', d) {
      assert DomainInv(s, d);
      if d in s'.world.book.domains && Settled(s', d) {
        assert Settled(s, d);
        EditKeepsRecord(x, s.world, c, save, d);
      }
    }
  }

  lemma {:induction false} SpawnKeeps(x: Syntax, s: Sys, tid: nat, task: Task)
    requires Inv(s) && tid !in s.threads
    ensures Inv(Step(x, s, Spawn(tid, task)))
  {
    var s' := Step(x, s, Spawn(tid, task));
    forall d | d !in s'.clashed ensures DomainInv(s', d) {
      assert DomainInv(s, d);
      if Settled(s', d) {
        forall t | t in s.threads ensures !Unrecorded(s.threads[t].pc, d) { assert s'.threads[t] == s.threads[t]; }
      }
    }
  }

  /** The updates of the book that commands make. */
  lemma {:induction false} UpdatesKeepBook(x: Syntax, b: Book, host: string, worker: string, stamp: Option<string>, category: string, save: bool)
    requires BookInv(b)
    ensures BookInv(MarkUsed(b, host, worker, stamp)) && BookInv(Release(b, host))
    ensures BookInv(AddDomainSpec(x, b, category, host, "", save).0)
  {
    var marked, released, added := MarkUsed(b, host, worker, stamp), Release(b, host), AddDomainSpec(x, b, category, host, "", save).0;
    forall d | d in marked.domains ensures UnusedIsFree(marked, d) { assert UnusedIsFree(b, d); }
    forall d | d in released.domains ensures UnusedIsFree(released, d) { assert UnusedIsFree(b, d); }
    forall d | d in added.domains ensures UnusedIsFree(added, d) { assert d in b.domains ==> UnusedIsFree(b, d); }
  }

  lemma {:induction false} NextKeepsBook(x: Syntax, w: World, th: Thread, o: Oracle)
    requires BookInv(w.book)
    ensures BookInv(Next(x, w, th, o).0.book)
  {
    var b, task := w.book, th.task;
    match th.pc
    case Adding(v, host) => UpdatesKeepBook(x, b, host, "", None, CategoryOf(v), o.save);
    case Filing(v, host, _) => UpdatesKeepBook(x, b, host, "", None, CategoryOf(v), o.save);
    case Marking(host) => UpdatesKeepBook(x, b, host, WorkerOf(task), if task.Bind? then Some(task.stamp) else None, "", o.save);
    case Pointing(_, host, _) => UpdatesKeepBook(x, b, host, WorkerOf(task), None, "", o.save);
    case Releasing(host) => UpdatesKeepBook(x, b, host, "", None, "", o.save);
    case _ =>
  }

  lemma {:induction false} NextFits(x: Syntax, w: World, th: Thread, o: Oracle)
    requires Fits(th)
    ensures var pc := Next(x, w, th, o).1; pc.Some? ==> Fits(Thread(th.task, pc.value))
  {
  }

  /** A command is only ever on a hostname attached as it aims, and any it changes at Cloudflare it is on, unrecorded. */
  lemma {:induction false} NextAims(x: Syntax, w: World, th: Thread, o: Oracle, d: string)
    requires Fits(th) && (d in On(th.pc) ==> Remote(w, d) == Aim(th.task))
    ensures var (w', pc) := Next(x, w, th, o);
      && (pc.Some? && d in On(pc.value) ==> Remote(w', d) == Aim(th.task))
      && (Remote(w', d) != Remote(w, d) ==> pc.Some? && Unrecorded(pc.value, d))
  {
  }

  /** Once it has recorded what it changed, the record agrees. */
  lemma {:induction false} NextRecords(x: Syntax, w: World, th: Thread, o: Oracle, d: string)
    requires Fits(th) && (d in On(th.pc) ==> Remote(w, d) == Aim(th.task))
    requires !Unrecorded(th.pc, d) && d in w.book.domains ==> RecordAgrees(w, d)
    requires var (w', pc) := Next(x, w, th, o); d in w'.book.domains && (pc.Some? ==> !Unrecorded(pc.value, d))
    ensures RecordAgrees(Next(x, w, th, o).0, d)
  {
    NextAims(x, w, th, o, d);
  }

  lemma {:induction false} SameAims(threads: map<nat, Thread>, d: string, t: nat)
    requires d !in Clashing(threads) && t in threads && d in On(threads[t].pc)
    ensures forall u :: u in threads && d in On(threads[u].pc) ==> Aim(threads[u].task) == Aim(threads[t].task)
  {
    forall u | u in threads && d in On(threads[u].pc) ensures !Clash(threads[t], threads[u], d) {}
  }

  lemma {:induction false} ActKeepsAims(x: Syntax, s: Sys, tid: nat, o: Oracle, d: string)
    requires tid in s.threads && Fits(s.threads[tid]) && AsAimed(s, d) && d !in Step(x, s, Act(tid, o)).clashed
    ensures AsAimed(Step(x, s, Act(tid, o)), d)
  {
    var s' := Step(x, s, Act(tid, o));
    NextAims(x, s.world, s.threads[tid], o, d);
    if tid in s'.threads && d in On(s'.threads[tid].pc) { SameAims(s'.threads, d, tid); }
    forall t | t in s'.threads && d in On(s'.threads[t].pc) ensures Remote(s'.world, d) == Aim(s'.threads[t].task) {
      if t != tid { assert s'.threads[t] == s.threads[t]; }
    }
  }

  lemma {:induction false} ActKeepsRecord(x: Syntax, s: Sys, tid: nat, o: Oracle, d: string)
    requires tid in s.threads && Fits(s.threads[tid]) && DomainInv(s, d)
    ensures var s' := Step(x, s, Act(tid, o)); d in s'.world.book.domains && Settled(s', d) ==> RecordAgrees(s'.world, d)
  {
    var s' := Step(x, s, Act(tid, o));
    if d in s'.world.book.domains && Settled(s', d) {
      if !Unrecorded(s.threads[tid].pc, d) {
        forall t | t in s.threads ensures !Unrecorded(s.threads[t].pc, d) {
          if t != tid { assert s'.threads[t] == s.threads[t]; }
        }
        assert Settled(s, d);
      }
      var pc := Next(x, s.world, s.threads[tid], o).1;
      if pc.Some? { assert s'.threads[tid].pc == pc.value; }
      NextRecords(x, s.world, s.threads[tid], o, d);
    }
  }

  lemma {:induction false} ActKeeps(x: Syntax, s: Sys, tid: nat, o: Oracle)
    requires Inv(s) && tid in s.threads
    ensures Inv(Step(x, s, Act(tid, o)))
  {
    var s' := Step(x, s, Act(tid, o));
    NextKeepsBook(x, s.world, s.threads[tid], o);
    NextFits(x, s.world, s.threads[tid], o);
    forall d | d !in s'.clashed ensures DomainInv(s', d) {
      assert DomainInv(s, d);
      ActKeepsAims(x, s, tid, o, d);
      ActKeepsRecord(x, s, tid, o, d);
    }
  }

  lemma {:induction false} StepKeeps(x: Syntax, s: Sys, l: Label)
    requires ValidSyntax(x) && Inv(s)
    ensures Inv(Step(x, s, l))
  {
    match l
    case Edit(c, save) => if IsEdit(c) { EditKeeps(x, s, c, save); }
    case Spawn(tid, task) => if tid !in s.threads { SpawnKeeps(x, s, tid, task); }
    case Act(tid, o) => if tid in s.threads { ActKeeps(x, s, tid, o); }
  }
}
