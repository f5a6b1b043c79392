/**
  The record book of hostnames beside Cloudflare's own attachments. One account;
  attachments change only through these commands; a failed API call has no effect.
  Here a command runs to its end before the next; `BookRuns` lets them overlap.
 */
module BookSpec {
  import opened Wrappers
  import opened Text
  import opened Sorting

  // ---- names ----

  predicate IsAlnum(c: char) { 'a' <= c <= 'z' || 'A' <= c <= 'Z' || '0' <= c <= '9' }

  /** `^[a-zA-Z0-9_.-]{1,64}$` */
  predicate NameValid(s: string) {
    1 <= |s| <= 64 && forall i :: 0 <= i < |s| ==> IsAlnum(s[i]) || s[i] == '_' || s[i] == '.' || s[i] == '-'
  }

  /** One label of a hostname, without its dot. */
  predicate LabelValid(s: string) {
    && 1 <= |s| <= 63 && (IsAlnum(s[0]) || s[0] == '_')
    && (|s| > 1 ==> IsAlnum(s[|s| - 1]))
    && forall i :: 1 <= i < |s| - 1 ==> IsAlnum(s[i]) || s[i] == '-'
  }

  predicate TopValid(s: string) { 2 <= |s| <= 63 && forall i :: 0 <= i < |s| ==> 'a' <= s[i] <= 'z' || 'A' <= s[i] <= 'Z' }

  function UpToDot(s: string): (n: nat)
    ensures n <= |s| && (n < |s| ==> s[n] == '.')
  {
    if s == "" || s[0] == '.' then 0 else 1 + UpToDot(s[1..])
  }

  /** One or more labels, each followed by a dot, and a top-level name. */
  predicate HostValid(s: string) {
    var n := UpToDot(s);
    n < |s| && LabelValid(s[..n]) && (TopValid(s[n + 1..]) || HostValid(s[n + 1..]))
  }

  /** The labels, each with its dot. */
  function Dotted(labels: seq<string>): string { if labels == [] then "" else labels[0] + "." + Dotted(labels[1..]) }

  lemma {:induction false} LabelEndsAtDot(part: string, rest: string)
    requires forall c :: c in part ==> c != '.'
    ensures UpToDot(part + "." + rest) == |part|
  {
    var s := part + "." + rest;
    if part == "" {
      assert s == "." + rest;
    } else {
      assert s[0] == part[0] && part[0] in part;
      assert s[1..] == part[1..] + "." + rest;
      assert forall c :: c in part[1..] ==> c in part;
      LabelEndsAtDot(part[1..], rest);
    }
  }

  lemma LabelHasNoDot(part: string)
    requires LabelValid(part)
    ensures forall c :: c in part ==> c != '.'
  {
    forall c | c in part ensures c != '.' {
      var i :| 0 <= i < |part| && part[i] == c;
      assert i == 0 || i == |part| - 1 || 1 <= i < |part| - 1;
    }
  }

  lemma {:induction false} HostHasLabels(s: string) returns (labels: seq<string>, top: string)
    requires HostValid(s)
    ensures labels != [] && (forall l :: l in labels ==> LabelValid(l)) && TopValid(top) && s == Dotted(labels) + top
  {
    var n := UpToDot(s);
    var rest := s[n + 1..];
    assert s == s[..n] + "." + rest;
    if TopValid(rest) {
      labels, top := [s[..n]], rest;
      assert Dotted(labels) == s[..n] + ".";
    } else {
      var more;
      more, top := HostHasLabels(rest);
      labels := [s[..n]] + more;
      assert labels[1..] == more;
    }
  }

  lemma {:induction false} LabelsMakeHost(labels: seq<string>, top: string)
    requires labels != [] && (forall l :: l in labels ==> LabelValid(l)) && TopValid(top)
    ensures HostValid(Dotted(labels) + top)
  {
    var rest := Dotted(labels[1..]) + top;
    var s := Dotted(labels) + top;
    assert s == labels[0] + "." + rest;
    LabelHasNoDot(labels[0]);
    LabelEndsAtDot(labels[0], rest);
    assert s[..|labels[0]|] == labels[0] && s[|labels[0]| + 1..] == rest;
    if labels[1..] == [] { assert rest == top; } else { LabelsMakeHost(labels[1..], top); }
  }

  ghost predicate IsHostOf(s: string, labels: seq<string>, top: string) {
    labels != [] && (forall l :: l in labels ==> LabelValid(l)) && TopValid(top) && s == Dotted(labels) + top
  }

  /** A hostname is accepted exactly when it is made of labels, one or more, and a top-level name. */
  lemma {:induction false} HostExactly(s: string)
    ensures HostValid(s) <==> exists labels, top :: IsHostOf(s, labels, top)
  {
    if HostValid(s) {
      var labels, top := HostHasLabels(s);
      assert IsHostOf(s, labels, top);
    }
    if labels, top :| IsHostOf(s, labels, top) { LabelsMakeHost(labels, top); }
  }

  /** How names are checked. */
  datatype Syntax = Syntax(name: string -> bool, host: string -> bool)

  const SYNTAX := Syntax(NameValid, HostValid)

  // ---- records ----

  datatype Status = Unused | Used | Banned

  datatype Cred = Cred(accountId: string, token: string)

  datatype Worker = Worker(cred: string, category: string)

  datatype Domain = Domain(category: string, sub: string, status: Status, worker: string,
                           purchasedAt: string, usage: string, dns: string, ready: bool, changedAt: string)

  datatype Book = Book(creds: map<string, Cred>, workers: map<string, Worker>, domains: map<string, Domain>)

  /** The book, and for each attached hostname the worker Cloudflare has it attached to. */
  datatype World = World(book: Book, remote: map<string, string>)

  datatype BookError =
    | BadName | BadHost | BadValue | Exists | Missing | InUse | SaveFailed
    | NoCategory | NoneFree | ApiFailed | Conflict(current: string) | NotBound

  type Answer = Result<(), BookError>

  function Saved(save: bool): Answer { if save then Ok(()) else Err(SaveFailed) }

  function NewDomain(category: string, sub: string): Domain { Domain(category, sub, Unused, "", "", "", "", false, "") }

  function Attached(d: Domain, worker: string): Domain { d.(status := Used, worker := worker) }

  function Released(d: Domain): Domain { d.(status := Unused, worker := "") }

  // ---- credentials and workers ----

  function AddCredSpec(x: Syntax, b: Book, name: string, cred: Cred, save: bool): (Book, Answer) {
    if !x.name(name) then (b, Err(BadName))
    else if TrimSpace(cred.accountId) == "" || TrimSpace(cred.token) == "" then (b, Err(BadValue))
    else if name in b.creds then (b, Err(Exists))
    else (b.(creds := b.creds[name := cred]), Saved(save))
  }

  ghost predicate CredUsed(b: Book, name: string) { exists w :: w in b.workers && b.workers[w].cred == name }

  ghost function DelCredSpec(b: Book, name: string, save: bool): (Book, Answer) {
    if name !in b.creds then (b, Err(Missing))
    else if CredUsed(b, name) then (b, Err(InUse))
    else (b.(creds := b.creds - {name}), Saved(save))
  }

  function AddWorkerSpec(x: Syntax, b: Book, name: string, cred: string, category: string, save: bool): (Book, Answer) {
    if !x.name(name) then (b, Err(BadName))
    else if cred !in b.creds then (b, Err(Missing))
    else if name in b.workers then (b, Err(Exists))
    else if category != "" && !x.name(category) then (b, Err(BadName))
    else (b.(workers := b.workers[name := Worker(cred, category)]), Saved(save))
  }

  /** Setting a worker's category. */
  function SetCategorySpec(x: Syntax, b: Book, name: string, category: string, save: bool): (Book, Answer) {
    if !x.name(category) then (b, Err(BadName))
    else if name !in b.workers then (b, Err(Missing))
    else (b.(workers := b.workers[name := b.workers[name].(category := category)]), Saved(save))
  }

  function DelWorkerSpec(b: Book, name: string, save: bool): (Book, Answer) {
    if name !in b.workers then (b, Err(Missing)) else (b.(workers := b.workers - {name}), Saved(save))
  }

  // ---- domain records ----

  function AddDomainSpec(x: Syntax, b: Book, category: string, name: string, sub: string, save: bool): (Book, Answer) {
    if !x.name(category) then (b, Err(BadName))
    else if !x.host(name) then (b, Err(BadHost))
    else if name in b.domains then (b, Err(Exists))
    else (b.(domains := b.domains[name := NewDomain(category, sub)]), Saved(save))
  }

  function DelDomainSpec(b: Book, name: string, save: bool): (Book, Answer) {
    if name !in b.domains then (b, Err(Missing)) else (b.(domains := b.domains - {name}), Saved(save))
  }

  datatype Edit =
    | SetCategory(value: string) | SetSub(value: string) | SetStatus(status: Status) | SetPurchased(value: string)
    | SetUsage(value: string) | SetDNS(value: string) | SetChanged(value: string) | SetReady(ready: bool)

  function ParseStatus(s: string): Option<Status> {
    var v := ToLower(TrimSpace(s));
    if v in ["unused", "未使用", "空闲", "free"] then Some(Unused)
    else if v in ["used", "已使用", "在用"] then Some(Used)
    else if v in ["banned", "被ban", "ban", "封禁"] then Some(Banned)
    else None
  }

  function ParseReady(s: string): Option<bool> {
    var v := ToLower(TrimSpace(s));
    if v in ["yes", "y", "true", "1", "就绪", "是", "ok"] then Some(true)
    else if v in ["no", "n", "false", "0", "未就绪", "否"] then Some(false)
    else None
  }

  /** The edit a field name and a value ask for, or `None` when they are refused. */
  function ParseEdit(x: Syntax, field: string, value: string): Option<Edit> {
    var f := ToLower(TrimSpace(field));
    if f in ["category", "大类"] then (if x.name(value) then Some(SetCategory(value)) else None)
    else if f in ["sub", "小类"] then Some(SetSub(value))
    else if f in ["status", "状态"] then (var s := ParseStatus(value); if s.Some? then Some(SetStatus(s.value)) else None)
    else if f in ["purchased", "购买", "购买日期"] then Some(SetPurchased(value))
    else if f in ["usage", "用途", "用在哪"] then Some(SetUsage(value))
    else if f in ["dns", "解析"] then Some(SetDNS(value))
    else if f in ["changed", "更换", "更换时间"] then Some(SetChanged(value))
    else if f in ["ready", "就绪"] then (var r := ParseReady(value); if r.Some? then Some(SetReady(r.value)) else None)
    else None
  }

  function Edited(d: Domain, e: Edit): Domain {
    match e
    case SetCategory(v) => d.(category := v)
    case SetSub(v) => d.(sub := v)
    case SetStatus(s) => d.(status := s, worker := if s == Unused then "" else d.worker)
    case SetPurchased(v) => d.(purchasedAt := v)
    case SetUsage(v) => d.(usage := v)
    case SetDNS(v) => d.(dns := v)
    case SetChanged(v) => d.(changedAt := v)
    case SetReady(r) => d.(ready := r)
  }

  function SetFieldSpec(b: Book, name: string, e: Option<Edit>, save: bool): (Book, Answer) {
    if name !in b.domains then (b, Err(Missing))
    else if e.None? then (b, Err(BadValue))
    else (b.(domains := b.domains[name := Edited(b.domains[name], e.value)]), Saved(save))
  }

  /** How records are listed: by category, and by name within one. */
  datatype Key = Key(category: string, name: string)

  predicate KeyLess(a: Key, b: Key) {
    StrLess(a.category, b.category) || (a.category == b.category && StrLess(a.name, b.name))
  }

  lemma KeyLessTotal()
    ensures StrictTotal(KeyLess)
  {
    StrLessTotal();
  }

  predicate Matches(d: Domain, category: string, status: Option<Status>) {
    (category == "" || d.category == category) && (status.None? || d.status == status.value)
  }

  /** The records a filter lets through; an empty one lets all through. */
  function Matching(domains: map<string, Domain>, category: string, status: Option<Status>): set<Key> {
    set n | n in domains && Matches(domains[n], category, status) :: Key(domains[n].category, n)
  }

  /** The first unused hostname of a category, in the order of the listing. */
  ghost function NextUnusedSpec(domains: map<string, Domain>, category: string): Option<string> {
    var free := Matching(domains, category, Some(Unused));
    if free == {} then None else
      KeyLessTotal();
      Some(Least(free, KeyLess).name)
  }

  // ---- binding ----

  /** Which API calls succeed. */
  datatype Api = Api(list: bool, zone: bool, change: bool)

  function CategoryOf(w: Worker): string { if w.category == "" then "default" else w.category }

  /** The hostname to bind: the one asked for, or the next unused one of the worker's category. */
  ghost function Chosen(b: Book, worker: string, domain: string): Result<string, BookError> {
    if worker !in b.workers then Err(Missing)
    else if domain != "" then Ok(domain)
    else if b.workers[worker].category == "" then Err(NoCategory)
    else
      match NextUnusedSpec(b.domains, b.workers[worker].category)
      case None => Err(NoneFree)
      case Some(d) => Ok(d)
  }

  /** Why the attachment is not made, if it is not. */
  function Refusal(x: Syntax, w: World, worker: string, domain: string, force: bool, api: Api): Option<BookError>
    requires worker in w.book.workers
  {
    if !x.host(domain) then Some(BadHost)
    else if w.book.workers[worker].cred !in w.book.creds then Some(Missing)
    else if !api.list then Some(ApiFailed)
    else if domain in w.remote && w.remote[domain] != worker && !force then Some(Conflict(w.remote[domain]))
    else if !api.zone || !api.change then Some(ApiFailed)
    else None
  }

  /** Mark a record, if there is one, as used by the worker. */
  function MarkUsed(b: Book, host: string, worker: string, stamp: Option<string>): Book {
    if host !in b.domains then b else
      var d := Attached(b.domains[host], worker);
      b.(domains := b.domains[host := if stamp.Some? then d.(changedAt := stamp.value) else d])
  }

  /** The record after a successful attachment, added first if there is none; that this cannot be saved is ignored. */
  function RecordBound(x: Syntax, b: Book, worker: string, v: Worker, domain: string, stamp: string): Book {
    var added := if domain in b.domains then b else AddDomainSpec(x, b, CategoryOf(v), domain, "", true).0;
    MarkUsed(added, domain, worker, Some(stamp))
  }

  ghost function BindSpec(x: Syntax, w: World, worker: string, domain: string, force: bool, api: Api, stamp: string): (World, Answer) {
    match Chosen(w.book, worker, domain)
    case Err(e) => (w, Err(e))
    case Ok(d) =>
      match Refusal(x, w, worker, d, force, api)
      case Some(e) => (w, Err(e))
      case None => (World(RecordBound(x, w.book, worker, w.book.workers[worker], d, stamp), w.remote[d := worker]), Ok(()))
  }

  function UnbindSpec(w: World, domain: string, api: Api): (World, Answer) {
    var b := w.book;
    if domain !in b.domains then (w, Err(Missing))
    else if b.domains[domain].worker == "" then (w, Err(NotBound))
    else if b.domains[domain].worker !in b.workers || b.workers[b.domains[domain].worker].cred !in b.creds then (w, Err(Missing))
    else if !api.list then (w, Err(ApiFailed))
    else if domain !in w.remote then (w, Err(NotBound))
    else if !api.change then (w, Err(ApiFailed))
    else (World(b.(domains := b.domains[domain := Released(b.domains[domain])]), w.remote - {domain}), Ok(()))
  }

  // ---- import ----

  function BoundTo(remote: map<string, string>, worker: string): set<string> { set h | h in remote && remote[h] == worker }

  /** What import makes of one hostname attached to the worker; `save` tells whether adding a new record could be saved. */
  function ImportOne(x: Syntax, domains: map<string, Domain>, worker: string, category: string, host: string, save: bool): map<string, Domain> {
    if host in domains then domains[host := Attached(domains[host], worker)]
    else if !x.host(host) || !x.name(category) then domains
    else if !save then domains[host := NewDomain(category, "")]
    else domains[host := Attached(NewDomain(category, ""), worker)]
  }

  /** The records after importing the hostnames in `hosts`. */
  function Imported(x: Syntax, domains: map<string, Domain>, worker: string, category: string, hosts: set<string>, saves: string -> bool): map<string, Domain> {
    map h | h in domains.Keys + hosts && (h in domains || (x.host(h) && x.name(category))) ::
      if h in hosts then ImportOne(x, domains, worker, category, h, saves(h))[h] else domains[h]
  }

  lemma {:induction false} ImportedNext(x: Syntax, before: map<string, Domain>, worker: string, category: string, hosts: set<string>, host: string, saves: string -> bool)
    requires host !in hosts
    ensures var now := Imported(x, before, worker, category, hosts, saves);
      && Imported(x, before, worker, category, hosts + {host}, saves) == ImportOne(x, now, worker, category, host, saves(host))
      && (host in now <==> host in before) && (host in before ==> now[host] == before[host])
  {
  }

  function ImportSpec(x: Syntax, w: World, worker: string, api: Api, saves: string -> bool): (World, Answer) {
    var b := w.book;
    if worker !in b.workers || b.workers[worker].cred !in b.creds then (w, Err(Missing))
    else if !api.list then (w, Err(ApiFailed))
    else
      var domains := Imported(x, b.domains, worker, CategoryOf(b.workers[worker]), BoundTo(w.remote, worker), saves);
      (w.(book := b.(domains := domains)), Ok(()))
  }

  // ---- the invariant ----

  /** A record naming a worker is attached to it; an unused record names none; every worker's credential exists. */
  ghost predicate Agrees(w: World) {
    && (forall d :: d in w.book.domains ==> RecordAgrees(w, d))
    && (forall n :: n in w.book.workers ==> n != "" && w.book.workers[n].cred in w.book.creds)
  }

  predicate RecordAgrees(w: World, d: string)
    requires d in w.book.domains
  {
    var r := w.book.domains[d];
    (r.worker != "" ==> d in w.remote && w.remote[d] == r.worker) && (r.status == Unused ==> r.worker == "")
  }

  datatype Command =
    | AddCred(name: string, cred: Cred)
    | DelCred(name: string)
    | AddWorker(name: string, credName: string, category: string)
    | SetWorkerCategory(name: string, category: string)
    | DelWorker(name: string)
    | AddDomain(category: string, name: string, sub: string)
    | DelDomain(name: string)
    | SetField(name: string, edit: Option<Edit>)
    | Bind(worker: string, domain: string, force: bool, api: Api, stamp: string)
    | Unbind(domain: string, api: Api)
    | Import(worker: string, api: Api, saves: string -> bool)

  ghost function Step(x: Syntax, w: World, c: Command, save: bool): World {
    var b := w.book;
    match c
    case AddCred(name, cred) => w.(book := AddCredSpec(x, b, name, cred, save).0)
    case DelCred(name) => w.(book := DelCredSpec(b, name, save).0)
    case AddWorker(name, cred, category) => w.(book := AddWorkerSpec(x, b, name, cred, category, save).0)
    case SetWorkerCategory(name, category) => w.(book := SetCategorySpec(x, b, name, category, save).0)
    case DelWorker(name) => w.(book := DelWorkerSpec(b, name, save).0)
    case AddDomain(category, name, sub) => w.(book := AddDomainSpec(x, b, category, name, sub, save).0)
    case DelDomain(name) => w.(book := DelDomainSpec(b, name, save).0)
    case SetField(name, edit) => w.(book := SetFieldSpec(b, name, edit, save).0)
    case Bind(worker, domain, force, api, stamp) => BindSpec(x, w, worker, domain, force, api, stamp).0
    case Unbind(domain, api) => UnbindSpec(w, domain, api).0
    case Import(worker, api, saves) => ImportSpec(x, w, worker, api, saves).0
  }

  /** Names are never empty. */
  ghost predicate ValidSyntax(x: Syntax) { !x.name("") }

  lemma {:induction false} BindAgrees(x: Syntax, w: World, worker: string, domain: string, force: bool, api: Api, stamp: string)
    requires Agrees(w)
    ensures Agrees(BindSpec(x, w, worker, domain, force, api, stamp).0)
  {
    var w' := BindSpec(x, w, worker, domain, force, api, stamp).0;
    forall d | d in w'.book.domains ensures RecordAgrees(w', d) { assert d in w.book.domains ==> RecordAgrees(w, d); }
  }

  lemma {:induction false} UnbindAgrees(w: World, domain: string, api: Api)
    requires Agrees(w)
    ensures Agrees(UnbindSpec(w, domain, api).0)
  {
    var w' := UnbindSpec(w, domain, api).0;
    forall d | d in w'.book.domains ensures RecordAgrees(w', d) { assert d in w.book.domains ==> RecordAgrees(w, d); }
  }

  lemma {:induction false} ImportAgrees(x: Syntax, w: World, worker: string, api: Api, saves: string -> bool)
    requires Agrees(w)
    ensures Agrees(ImportSpec(x, w, worker, api, saves).0)
  {
    var w' := ImportSpec(x, w, worker, api, saves).0;
    forall d | d in w'.book.domains ensures RecordAgrees(w', d) { assert d in w.book.domains ==> RecordAgrees(w, d); }
  }

  /** Commands that touch the book only. */
  lemma {:induction false} BookStepAgrees(x: Syntax, w: World, c: Command, save: bool)
    requires ValidSyntax(x) && Agrees(w) && !c.Bind? && !c.Unbind? && !c.Import?
    ensures Agrees(Step(x, w, c, save))
  {
    var w' := Step(x, w, c, save);
    forall d | d in w'.book.domains ensures RecordAgrees(w', d) { assert d in w.book.domains ==> RecordAgrees(w, d); }
  }

  lemma {:induction false} StepAgrees(x: Syntax, w: World, c: Command, save: bool)
    requires ValidSyntax(x) && Agrees(w)
    ensures Agrees(Step(x, w, c, save))
  {
    match c
    case Bind(worker, domain, force, api, stamp) => BindAgrees(x, w, worker, domain, force, api, stamp);
    case Unbind(domain, api) => UnbindAgrees(w, domain, api);
    case Import(worker, api, saves) => ImportAgrees(x, w, worker, api, saves);
    case _ => BookStepAgrees(x, w, c, save);
  }

  ghost function After(x: Syntax, run: seq<(Command, bool)>, remote: map<string, string>): World {
    if run == [] then World(Book(map[], map[], map[]), remote)
    else Step(x, After(x, run[..|run| - 1], remote), run[|run| - 1].0, run[|run| - 1].1)
  }

  /** In every run from an empty book, whatever is attached at Cloudflare to begin with. */
  lemma {:induction false} BookAgrees(x: Syntax, run: seq<(Command, bool)>, remote: map<string, string>)
    requires ValidSyntax(x)
    ensures Agrees(After(x, run, remote))
  {
    if run != [] {
      BookAgrees(x, run[..|run| - 1], remote);
      StepAgrees(x, After(x, run[..|run| - 1], remote), run[|run| - 1].0, run[|run| - 1].1);
    }
  }

  /** The names and hostnames the program accepts meet what the proofs ask of them; the category import falls back on is one. */
  lemma SyntaxIsValid()
    ensures ValidSyntax(SYNTAX) && SYNTAX.name("default")
  {
  }

  /** A hostname that import had to add, and whose addition was not saved, is left unused. */
  ghost predicate SkippedAdd(x: Syntax, w: World, worker: string, host: string, saves: string -> bool)
    requires worker in w.book.workers
  {
    && host in BoundTo(w.remote, worker) && host !in w.book.domains
    && x.host(host) && x.name(CategoryOf(w.book.workers[worker])) && !saves(host)
  }

  /** Importing again changes no record -- exactly when the first import did not fail to save a record it added. */
  lemma {:induction false} ImportTwice(x: Syntax, w: World, worker: string, api: Api, saves: string -> bool, again: string -> bool)
    requires worker in w.book.workers && ImportSpec(x, w, worker, api, saves).1.Ok? && worker != ""
    ensures var once := ImportSpec(x, w, worker, api, saves).0;
      && ImportSpec(x, once, worker, api, again).1.Ok?
      && (ImportSpec(x, once, worker, api, again).0 == once <==> forall h :: !SkippedAdd(x, w, worker, h, saves))
  {
    var once := ImportSpec(x, w, worker, api, saves).0;
    var twice := ImportSpec(x, once, worker, api, again).0;
    if h :| SkippedAdd(x, w, worker, h, saves) {
      assert once.book.domains[h].worker == "" && twice.book.domains[h].worker == worker;
    } else {
      forall h | h in twice.book.domains ensures h in once.book.domains && twice.book.domains[h] == once.book.domains[h] {
        assert !SkippedAdd(x, w, worker, h, saves);
      }
      assert twice.book.domains == once.book.domains;
    }
  }
}
