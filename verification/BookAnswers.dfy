/**
  What the record book's commands answer and change, for all their inputs: when
  exactly each succeeds, and what the book and Cloudflare hold then.
 */
module BookAnswers {
  import opened Wrappers
  import opened Text
  import opened Sorting
  import opened BookSpec

  predicate HasCred(b: Book, worker: string) { worker in b.workers && b.workers[worker].cred in b.creds }

  /** All other hostnames' records, and all workers and credentials, are as they were. */
  predicate OnlyRecord(b: Book, b': Book, d: string) {
    && b'.workers == b.workers && b'.creds == b.creds
    && (forall h :: h in b.domains.Keys + b'.domains.Keys && h != d ==> h in b.domains && h in b'.domains && b'.domains[h] == b.domains[h])
  }

  /** The record is in use by the worker and otherwise what it was. */
  predicate InUseBy(r: Domain, r': Domain, worker: string) {
    && r'.status == Used && r'.worker == worker && r'.category == r.category && r'.sub == r.sub
    && r'.purchasedAt == r.purchasedAt && r'.usage == r.usage && r'.dns == r.dns && r'.ready == r.ready
  }

  function DefaultCategory(w: Worker): string { if w.category == "" then "default" else w.category }

  /**
    Binding a hostname succeeds exactly for a known worker with its credential and a
    proper hostname, when the calls succeed and the hostname is free, the worker's
    already, or taken by force. Then it is attached to the worker and recorded so. The
    one who has it is named when only force is missing.
   */
  lemma {:induction false} BindAnswers(x: Syntax, w: World, worker: string, d: string, force: bool, api: Api, stamp: string)
    requires d != ""
    ensures var r := BindSpec(x, w, worker, d, force, api, stamp); var b, b' := w.book, r.0.book;
      var may := HasCred(b, worker) && x.host(d) && api.list;
      var free := d !in w.remote || w.remote[d] == worker || force;
      && (r.1.Ok? <==> may && free && api.zone && api.change)
      && (r.1.Err? ==> r.0 == w)
      && (forall n :: r.1 == Err(Conflict(n)) <==> may && !free && n == w.remote[d])
      && (r.1.Ok? ==> r.0.remote == w.remote[d := worker] && OnlyRecord(b, b', d))
      && (r.1.Ok? && d in b.domains ==> d in b'.domains && InUseBy(b.domains[d], b'.domains[d], worker) && b'.domains[d].changedAt == stamp)
      && (r.1.Ok? && d !in b.domains && x.name(DefaultCategory(b.workers[worker])) ==>
            d in b'.domains && b'.domains[d] == Domain(DefaultCategory(b.workers[worker]), "", Used, worker, "", "", "", false, stamp))
  {
  }

  predicate Free(b: Book, category: string, h: string) {
    h in b.domains && b.domains[h].status == Unused && b.domains[h].category == category
  }

  /** Without a hostname the first free one of the worker's category is bound, if the worker has a category with a free one. */
  lemma {:induction false} BindPicks(x: Syntax, w: World, worker: string, force: bool, api: Api, stamp: string, h: string)
    requires h != ""
    ensures var r, b := BindSpec(x, w, worker, "", force, api, stamp), w.book;
      && (worker !in b.workers ==> r == (w, Err(Missing)))
      && (worker in b.workers && b.workers[worker].category == "" ==> r == (w, Err(NoCategory)))
      && (worker in b.workers && b.workers[worker].category != "" && (forall n :: !Free(b, b.workers[worker].category, n)) ==>
            r == (w, Err(NoneFree)))
      && (worker in b.workers && b.workers[worker].category != "" && Free(b, b.workers[worker].category, h)
          && (forall n :: Free(b, b.workers[worker].category, n) && n != h ==> StrLess(h, n)) ==>
            r == BindSpec(x, w, worker, h, force, api, stamp))
  {
    if worker in w.book.workers && w.book.workers[worker].category != "" { PicksFirst(w.book, w.book.workers[worker].category, h); }
  }

  lemma {:induction false} PicksFirst(b: Book, category: string, h: string)
    requires category != ""
    ensures (forall n :: !Free(b, category, n)) ==> NextUnusedSpec(b.domains, category) == None
    ensures Free(b, category, h) && (forall n :: Free(b, category, n) && n != h ==> StrLess(h, n)) ==> NextUnusedSpec(b.domains, category) == Some(h)
  {
    var free := Matching(b.domains, category, Some(Unused));
    KeyLessTotal();
    StrLessTotal();
    if free != {} {
      var k :| k in free;
      assert Free(b, category, k.name);
    }
    if Free(b, category, h) && forall n :: Free(b, category, n) && n != h ==> StrLess(h, n) {
      var first := Key(category, h);
      assert first in free;
      var least := Least(free, KeyLess);
      assert Free(b, category, least.name) && least.category == category;
      assert least == first;
    }
  }

  /** Unbinding succeeds exactly for a record naming a worker still known with its credential, attached at Cloudflare, when the calls succeed; then it is detached and unused. */
  lemma {:induction false} UnbindAnswers(w: World, d: string, api: Api)
    ensures var r := UnbindSpec(w, d, api); var b, b' := w.book, r.0.book;
      && (r.1.Ok? <==> d in b.domains && b.domains[d].worker != "" && HasCred(b, b.domains[d].worker) && api.list && d in w.remote && api.change)
      && (r.1.Err? ==> r.0 == w)
      && (r.1.Ok? ==> r.0.remote == w.remote - {d} && OnlyRecord(b, b', d) && d in b'.domains
                      && b'.domains[d] == b.domains[d].(status := Unused, worker := ""))
  {
  }

  /**
    An import succeeds exactly for a known worker with its credential, when the list
    can be had. Then every hostname attached to the worker is in use by it -- but for
    improper ones not on record before, and new ones whose record could not be saved,
    which stay unused -- and every other record is as it was. Cloudflare is left alone.
   */
  lemma {:induction false} ImportAnswers(x: Syntax, w: World, worker: string, api: Api, saves: string -> bool, h: string)
    ensures var r := ImportSpec(x, w, worker, api, saves); var b, b' := w.book, r.0.book;
      && (r.1.Ok? <==> HasCred(b, worker) && api.list)
      && (r.1.Err? ==> r.0 == w)
      && r.0.remote == w.remote && b'.workers == b.workers && b'.creds == b.creds
      && (r.1.Ok? && !(h in w.remote && w.remote[h] == worker) ==>
            (h in b'.domains <==> h in b.domains) && (h in b.domains ==> b'.domains[h] == b.domains[h]))
      && (r.1.Ok? && h in w.remote && w.remote[h] == worker && h in b.domains ==>
            h in b'.domains && InUseBy(b.domains[h], b'.domains[h], worker) && b'.domains[h].changedAt == b.domains[h].changedAt)
      && (r.1.Ok? && h in w.remote && w.remote[h] == worker && h !in b.domains ==>
            var category := DefaultCategory(b.workers[worker]);
            if x.host(h) && x.name(category)
            then h in b'.domains && b'.domains[h]
                   == Domain(category, "", if saves(h) then Used else Unused, if saves(h) then worker else "", "", "", "", false, "")
            else h !in b'.domains)
  {
  }

  // ---- the book alone ----

  lemma {:induction false} CredAnswers(x: Syntax, b: Book, name: string, cred: Cred, save: bool)
    ensures var r := AddCredSpec(x, b, name, cred, save);
      var may := x.name(name) && TrimSpace(cred.accountId) != "" && TrimSpace(cred.token) != "" && name !in b.creds;
      && (r.1.Ok? <==> may && save) && (may ==> r.0 == b.(creds := b.creds[name := cred])) && (!may ==> r.0 == b)
    ensures var r := DelCredSpec(b, name, save);
      var may := name in b.creds && forall n :: n in b.workers ==> b.workers[n].cred != name;
      && (r.1.Ok? <==> may && save) && (may ==> r.0 == b.(creds := b.creds - {name})) && (!may ==> r.0 == b)
  {
  }

  lemma {:induction false} WorkerAnswers(x: Syntax, b: Book, name: string, cred: string, category: string, save: bool)
    ensures var r := AddWorkerSpec(x, b, name, cred, category, save);
      var may := x.name(name) && cred in b.creds && name !in b.workers && (category == "" || x.name(category));
      && (r.1.Ok? <==> may && save) && (may ==> r.0 == b.(workers := b.workers[name := Worker(cred, category)])) && (!may ==> r.0 == b)
    ensures var r := SetCategorySpec(x, b, name, category, save);
      var may := x.name(category) && name in b.workers;
      && (r.1.Ok? <==> may && save)
      && (may ==> r.0 == b.(workers := b.workers[name := Worker(b.workers[name].cred, category)])) && (!may ==> r.0 == b)
    ensures var r := DelWorkerSpec(b, name, save);
      && (r.1.Ok? <==> name in b.workers && save)
      && r.0 == b.(workers := b.workers - {name})
  {
    if name !in b.workers { assert b.workers - {name} == b.workers; }
  }

  lemma {:induction false} DomainAnswers(x: Syntax, b: Book, category: string, name: string, sub: string, e: Option<Edit>, save: bool)
    ensures var r := AddDomainSpec(x, b, category, name, sub, save);
      var may := x.name(category) && x.host(name) && name !in b.domains;
      && (r.1.Ok? <==> may && save) && (!may ==> r.0 == b)
      && (may ==> r.0 == b.(domains := b.domains[name := Domain(category, sub, Unused, "", "", "", "", false, "")]))
    ensures var r := DelDomainSpec(b, name, save);
      (r.1.Ok? <==> name in b.domains && save) && r.0 == b.(domains := b.domains - {name})
    ensures var r := SetFieldSpec(b, name, e, save);
      var may := name in b.domains && e.Some?;
      && (r.1.Ok? <==> may && save) && (!may ==> r.0 == b)
      && (may ==> OnlyRecord(b, r.0, name) && name in r.0.domains && EditedOnly(b.domains[name], r.0.domains[name], e.value))
  {
    if name !in b.domains { assert b.domains - {name} == b.domains; }
  }

  /** The words a user may write for a status and for readiness. */
  predicate MeansStatus(s: Status, value: string) {
    var v := ToLower(TrimSpace(value));
    match s
    case Unused => v in {"unused", "未使用", "空闲", "free"}
    case Used => v in {"used", "已使用", "在用"}
    case Banned => v in {"banned", "被ban", "ban", "封禁"}
  }

  predicate MeansReady(ready: bool, value: string) {
    var v := ToLower(TrimSpace(value));
    if ready then v in {"yes", "y", "true", "1", "就绪", "是", "ok"} else v in {"no", "n", "false", "0", "未就绪", "否"}
  }

  /** Which field an edit is for, as a user may write it. */
  predicate NamesField(e: Edit, field: string) {
    var f := ToLower(TrimSpace(field));
    match e
    case SetCategory(_) => f in {"category", "大类"}
    case SetSub(_) => f in {"sub", "小类"}
    case SetStatus(_) => f in {"status", "状态"}
    case SetPurchased(_) => f in {"purchased", "购买", "购买日期"}
    case SetUsage(_) => f in {"usage", "用途", "用在哪"}
    case SetDNS(_) => f in {"dns", "解析"}
    case SetChanged(_) => f in {"changed", "更换", "更换时间"}
    case SetReady(_) => f in {"ready", "就绪"}
  }

  /** The value is one for the edit. */
  predicate FitsEdit(x: Syntax, e: Edit, value: string) {
    match e
    case SetCategory(v) => v == value && x.name(value)
    case SetSub(v) => v == value
    case SetStatus(s) => MeansStatus(s, value)
    case SetPurchased(v) => v == value
    case SetUsage(v) => v == value
    case SetDNS(v) => v == value
    case SetChanged(v) => v == value
    case SetReady(r) => MeansReady(r, value)
  }

  lemma {:induction false} WordsExactly(s: Status, ready: bool, value: string)
    ensures ParseStatus(value) == Some(s) <==> MeansStatus(s, value)
    ensures ParseReady(value) == Some(ready) <==> MeansReady(ready, value)
  {
  }

  lemma {:induction false} AskedFits(x: Syntax, field: string, value: string, e: Edit)
    requires ParseEdit(x, field, value) == Some(e)
    ensures NamesField(e, field) && FitsEdit(x, e, value)
  {
    if e.SetStatus? { WordsExactly(e.status, true, value); }
    if e.SetReady? { WordsExactly(Unused, e.ready, value); }
  }

  lemma {:induction false} FieldsApart(field: string, e: Edit, d: Edit)
    requires NamesField(e, field) && NamesField(d, field)
    ensures (e.SetCategory? <==> d.SetCategory?) && (e.SetSub? <==> d.SetSub?) && (e.SetStatus? <==> d.SetStatus?)
    ensures (e.SetPurchased? <==> d.SetPurchased?) && (e.SetUsage? <==> d.SetUsage?) && (e.SetDNS? <==> d.SetDNS?)
    ensures (e.SetChanged? <==> d.SetChanged?) && (e.SetReady? <==> d.SetReady?)
  {
  }

  /** A field name and a value ask for an edit exactly when the name is one of the edit's field and the value fits; no two edits are asked for at once. */
  lemma {:induction false} EditExactly(x: Syntax, field: string, value: string, e: Edit)
    ensures ParseEdit(x, field, value) == Some(e) <==> NamesField(e, field) && FitsEdit(x, e, value)
  {
    if ParseEdit(x, field, value) == Some(e) { AskedFits(x, field, value, e); }
    if NamesField(e, field) && FitsEdit(x, e, value) {
      FittingIsAsked(x, field, value, e);
      var d := ParseEdit(x, field, value).value;
      AskedFits(x, field, value, d);
      FieldsApart(field, e, d);
      FitsOne(x, value, e, d);
    }
  }

  lemma {:induction false} FittingIsAsked(x: Syntax, field: string, value: string, e: Edit)
    requires NamesField(e, field) && FitsEdit(x, e, value)
    ensures ParseEdit(x, field, value).Some?
  {
    if NamesField(SetCategory(value), field) { FieldsApart(field, e, SetCategory(value)); }
    if NamesField(SetStatus(Used), field) { FieldsApart(field, e, SetStatus(Used)); }
    if NamesField(SetReady(true), field) { FieldsApart(field, e, SetReady(true)); }
    if e.SetStatus? { WordsExactly(e.status, true, value); }
    if e.SetReady? { WordsExactly(Unused, e.ready, value); }
  }

  /** A value fits one edit of a field only. */
  lemma {:induction false} FitsOne(x: Syntax, value: string, e: Edit, d: Edit)
    requires FitsEdit(x, e, value) && FitsEdit(x, d, value)
    requires e.SetStatus? <==> d.SetStatus?
    requires e.SetReady? <==> d.SetReady?
    requires (e.SetCategory? <==> d.SetCategory?) && (e.SetSub? <==> d.SetSub?) && (e.SetPurchased? <==> d.SetPurchased?)
    requires (e.SetUsage? <==> d.SetUsage?) && (e.SetDNS? <==> d.SetDNS?) && (e.SetChanged? <==> d.SetChanged?)
    ensures e == d
  {
    if e.SetStatus? {
      WordsExactly(e.status, true, value);
      WordsExactly(d.status, true, value);
    }
    if e.SetReady? {
      WordsExactly(Unused, e.ready, value);
      WordsExactly(Unused, d.ready, value);
    }
  }

  /** Each edit sets its own field; a record that becomes unused names no worker. */
  predicate EditedOnly(d: Domain, d': Domain, e: Edit) {
    && d'.category == (if e.SetCategory? then e.value else d.category)
    && d'.sub == (if e.SetSub? then e.value else d.sub)
    && d'.status == (if e.SetStatus? then e.status else d.status)
    && d'.worker == (if e.SetStatus? && e.status == Unused then "" else d.worker)
    && d'.purchasedAt == (if e.SetPurchased? then e.value else d.purchasedAt)
    && d'.usage == (if e.SetUsage? then e.value else d.usage)
    && d'.dns == (if e.SetDNS? then e.value else d.dns)
    && d'.changedAt == (if e.SetChanged? then e.value else d.changedAt)
    && d'.ready == (if e.SetReady? then e.ready else d.ready)
  }
}
