/** The record book as a store updated in place; each command is proved against `BookSpec`. */
module RecordBook {
  import opened Wrappers
  import opened Text
  import opened Sorting
  import opened BookSpec

  /** Cloudflare's side: at most one worker for each hostname. */
  class Cloudflare {
    var attached: map<string, string>

    constructor (attached: map<string, string>)
      ensures this.attached == attached
    {
      this.attached := attached;
    }

    method ByHostname(host: string, ok: bool) returns (r: Option<Option<string>>)
      ensures r == if ok then Some(if host in attached then Some(attached[host]) else None) else None
    {
      if !ok { return None; }
      r := Some(if host in attached then Some(attached[host]) else None);
    }

    method ByService(service: string, ok: bool) returns (r: Option<seq<string>>)
      ensures r.Some? <==> ok
      ensures ok ==> NoDuplicates(r.value) && Elements(r.value) == BoundTo(attached, service)
    {
      if !ok { return None; }
      var hosts := Collect(BoundTo(attached, service));
      r := Some(hosts);
    }

    method Attach(host: string, service: string, ok: bool) returns (done: bool)
      modifies this
      ensures done == ok && attached == if ok then old(attached)[host := service] else old(attached)
    {
      if ok { attached := attached[host := service]; }
      done := ok;
    }

    method Detach(host: string, ok: bool) returns (done: bool)
      modifies this
      ensures done == ok && attached == if ok then old(attached) - {host} else old(attached)
    {
      if ok { attached := attached - {host}; }
      done := ok;
    }
  }

  datatype ImportResult = Added(host: string) | Updated(host: string)

  class RecordBook {
    const syntax: Syntax
    const cloud: Cloudflare
    var creds: map<string, Cred>
    var workers: map<string, Worker>
    var domains: map<string, Domain>

    ghost function Now(): Book
      reads this
    {
      Book(creds, workers, domains)
    }

    ghost function Both(): World
      reads this, cloud
    {
      World(Now(), cloud.attached)
    }

    constructor (syntax: Syntax, cloud: Cloudflare)
      ensures Now() == Book(map[], map[], map[]) && this.syntax == syntax && this.cloud == cloud
    {
      this.syntax, this.cloud := syntax, cloud;
      creds, workers, domains := map[], map[], map[];
    }

    method AddCred(name: string, cred: Cred, save: bool) returns (r: Answer)
      modifies this`creds
      ensures (Now(), r) == AddCredSpec(syntax, old(Now()), name, cred, save)
    {
      if !syntax.name(name) { return Err(BadName); }
      if TrimSpace(cred.accountId) == "" || TrimSpace(cred.token) == "" { return Err(BadValue); }
      if name in creds { return Err(Exists); }
      creds := creds[name := cred];
      r := Saved(save);
    }

    /** Refused while some worker uses the credential. */
    method DelCred(name: string, save: bool) returns (r: Answer)
      modifies this`creds
      ensures (Now(), r) == DelCredSpec(old(Now()), name, save)
    {
      if name !in creds { return Err(Missing); }
      var names := Collect(workers.Keys);
      for i := 0 to |names|
        invariant forall k :: 0 <= k < i && names[k] in workers ==> workers[names[k]].cred != name
      {
        assert names[i] in Elements(names);
        if workers[names[i]].cred == name {
          assert CredUsed(Now(), name);
          return Err(InUse);
        }
      }
      forall w | w in workers ensures workers[w].cred != name { assert w in Elements(names); }
      creds := creds - {name};
      r := Saved(save);
    }

    method AddWorker(name: string, cred: string, category: string, save: bool) returns (r: Answer)
      modifies this`workers
      ensures (Now(), r) == AddWorkerSpec(syntax, old(Now()), name, cred, category, save)
    {
      if !syntax.name(name) { return Err(BadName); }
      if cred !in creds { return Err(Missing); }
      if name in workers { return Err(Exists); }
      if category != "" && !syntax.name(category) { return Err(BadName); }
      workers := workers[name := Worker(cred, category)];
      r := Saved(save);
    }

    method SetWorkerCategory(name: string, category: string, save: bool) returns (r: Answer)
      modifies this`workers
      ensures (Now(), r) == SetCategorySpec(syntax, old(Now()), name, category, save)
    {
      if !syntax.name(category) { return Err(BadName); }
      if name !in workers { return Err(Missing); }
      workers := workers[name := workers[name].(category := category)];
      r := Saved(save);
    }

    method DelWorker(name: string, save: bool) returns (r: Answer)
      modifies this`workers
      ensures (Now(), r) == DelWorkerSpec(old(Now()), name, save)
    {
      if name !in workers { return Err(Missing); }
      workers := workers - {name};
      r := Saved(save);
    }

    method AddDomain(category: string, name: string, sub: string, save: bool) returns (r: Answer)
      modifies this`domains
      ensures (Now(), r) == AddDomainSpec(syntax, old(Now()), category, name, sub, save)
    {
      if !syntax.name(category) { return Err(BadName); }
      if !syntax.host(name) { return Err(BadHost); }
      if name in domains { return Err(Exists); }
      domains := domains[name := NewDomain(category, sub)];
      r := Saved(save);
    }

    method DelDomain(name: string, save: bool) returns (r: Answer)
      modifies this`domains
      ensures (Now(), r) == DelDomainSpec(old(Now()), name, save)
    {
      if name !in domains { return Err(Missing); }
      domains := domains - {name};
      r := Saved(save);
    }

    method SetDomainField(name: string, field: string, value: string, save: bool) returns (r: Answer)
      modifies this`domains
      ensures (Now(), r) == SetFieldSpec(old(Now()), name, ParseEdit(syntax, field, value), save)
    {
      if name !in domains { return Err(Missing); }
      var e := ParseEdit(syntax, field, value);
      if e.None? { return Err(BadValue); }
      domains := domains[name := Edited(domains[name], e.value)];
      r := Saved(save);
    }

    /** Each record the filter lets through, once, by category and then by name. */
    method ListDomains(category: string, status: Option<Status>) returns (list: seq<Key>)
      ensures forall i, j :: 0 <= i < j < |list| ==>
        StrLess(list[i].category, list[j].category) || (list[i].category == list[j].category && StrLess(list[i].name, list[j].name))
      ensures Ascending(KeyLess, list)
      ensures forall k :: k in list <==>
        && k.name in domains && k.category == domains[k.name].category
        && (category == "" || k.category == category) && (status.None? || domains[k.name].status == status.value)
      ensures forall k :: k in list <==> IsListed(k, category, status)
    {
      var names := Collect(domains.Keys);
      var out: seq<Key> := [];
      for i := 0 to |names|
        invariant NoDuplicates(out)
        invariant forall k :: k in out <==> k.name in names[..i] && IsListed(k, category, status)
      {
        assert names[..i + 1] == names[..i] + [names[i]];
        assert names[i] in Elements(names);
        var d := domains[names[i]];
        if Matches(d, category, status) {
          var key := Key(d.category, names[i]);
          AppendFresh(out, key);
          out := out + [key];
        }
      }
      assert names[..|names|] == names;
      assert forall n :: n in domains <==> n in Elements(names);
      KeyLessTotal();
      list := SortSet(out, KeyLess);
      assert forall k :: k in list <==> k in Elements(out);
    }

    predicate IsListed(k: Key, category: string, status: Option<Status>)
      reads this
    {
      k.name in domains && k.category == domains[k.name].category && Matches(domains[k.name], category, status)
    }

    /** The first of the unused hostnames; none when no record of the category is unused. */
    method NextUnused(category: string) returns (r: Option<string>)
      ensures r == NextUnusedSpec(domains, category)
      ensures r.None? <==> forall n :: n in domains ==> !Matches(domains[n], category, Some(Unused))
      ensures r.Some? ==> r.value in domains && Matches(domains[r.value], category, Some(Unused))
      ensures r.Some? ==> forall n :: n in domains && Matches(domains[n], category, Some(Unused)) && n != r.value ==>
        KeyLess(Key(domains[r.value].category, r.value), Key(domains[n].category, n))
    {
      var list := ListDomains(category, Some(Unused));
      KeyLessTotal();
      ghost var free := Matching(domains, category, Some(Unused));
      assert forall k :: k in list <==> k in free;
      assert forall n :: n in domains && Matches(domains[n], category, Some(Unused)) ==> Key(domains[n].category, n) in free;
      if |list| == 0 { return None; }
      assert list[0] in list;
      assert IsLeast(list[0], free, KeyLess);
      r := Some(list[0].name);
    }

    method BindDomain(worker: string, domain: string, force: bool, api: Api, stamp: string, save: bool) returns (r: Answer)
      modifies this`domains, cloud
      ensures (Both(), r) == BindSpec(syntax, old(Both()), worker, domain, force, api, stamp)
    {
      if worker !in workers { return Err(Missing); }
      var w := workers[worker];
      var host := domain;
      if domain == "" {
        if w.category == "" { return Err(NoCategory); }
        var next := NextUnused(w.category);
        if next.None? { return Err(NoneFree); }
        host := next.value;
      }
      assert Chosen(Now(), worker, domain) == Ok(host);
      r := AttachAndRecord(worker, host, force, api, stamp, save);
    }

    method AttachAndRecord(worker: string, host: string, force: bool, api: Api, stamp: string, save: bool) returns (r: Answer)
      requires worker in workers
      modifies this`domains, cloud
      ensures var refusal := Refusal(syntax, old(Both()), worker, host, force, api);
        && r == (if refusal.Some? then Err(refusal.value) else Ok(()))
        && Both() == (if refusal.Some? then old(Both())
                      else World(RecordBound(syntax, old(Now()), worker, old(workers)[worker], host, stamp), old(cloud.attached)[host := worker]))
    {
      if !syntax.host(host) { return Err(BadHost); }
      if workers[worker].cred !in creds { return Err(Missing); }
      var existing := cloud.ByHostname(host, api.list);
      if existing.None? { return Err(ApiFailed); }
      if existing.value.Some? && existing.value.value != worker && !force { return Err(Conflict(existing.value.value)); }
      if !api.zone { return Err(ApiFailed); }
      var attached := cloud.Attach(host, worker, api.change);
      if !attached { return Err(ApiFailed); }
      if host !in domains {
        var _ := AddDomain(CategoryOf(workers[worker]), host, "", save);
      }
      if host in domains {
        domains := domains[host := Attached(domains[host], worker).(changedAt := stamp)];
      }
      r := Ok(());
    }

    method UnbindDomain(domain: string, api: Api) returns (r: Answer)
      modifies this`domains, cloud
      ensures (Both(), r) == UnbindSpec(old(Both()), domain, api)
    {
      if domain !in domains { return Err(Missing); }
      var worker := domains[domain].worker;
      if worker == "" { return Err(NotBound); }
      if worker !in workers || workers[worker].cred !in creds { return Err(Missing); }
      var existing := cloud.ByHostname(domain, api.list);
      if existing.None? { return Err(ApiFailed); }
      if existing.value.None? { return Err(NotBound); }
      var detached := cloud.Detach(domain, api.change);
      if !detached { return Err(ApiFailed); }
      domains := domains[domain := Released(domains[domain])];
      r := Ok(());
    }

    /** Make the book reflect what the worker serves, hostname by hostname. */
    method ImportWorkerDomains(worker: string, api: Api, saves: string -> bool) returns (r: Answer, results: seq<ImportResult>)
      modifies this`domains
      ensures (Both(), r) == ImportSpec(syntax, old(Both()), worker, api, saves)
      ensures r.Ok? ==> forall h :: Updated(h) in results <==> h in BoundTo(cloud.attached, worker) && h in old(domains)
      ensures r.Ok? ==> forall h :: Added(h) in results <==>
        h in BoundTo(cloud.attached, worker) && IsAdded(syntax, old(domains), CategoryOf(workers[worker]), h, saves)
    {
      results := [];
      if worker !in workers || workers[worker].cred !in creds { return Err(Missing), results; }
      var bound := cloud.ByService(worker, api.list);
      if bound.None? { return Err(ApiFailed), results; }
      var category := CategoryOf(workers[worker]);
      results := ImportHosts(bound.value, worker, category, saves);
      r := Ok(());
    }

    method ImportHosts(hosts: seq<string>, worker: string, category: string, saves: string -> bool) returns (results: seq<ImportResult>)
      requires NoDuplicates(hosts)
      modifies this`domains
      ensures domains == Imported(syntax, old(domains), worker, category, Elements(hosts), saves)
      ensures forall h :: Updated(h) in results <==> h in Elements(hosts) && h in old(domains)
      ensures forall h :: Added(h) in results <==> h in Elements(hosts) && IsAdded(syntax, old(domains), category, h, saves)
    {
      results := [];
      ghost var before := domains;
      assert Imported(syntax, before, worker, category, {}, saves) == before;
      for i := 0 to |hosts|
        invariant domains == Imported(syntax, before, worker, category, Elements(hosts[..i]), saves)
        invariant forall h :: Updated(h) in results <==> h in Elements(hosts[..i]) && h in before
        invariant forall h :: Added(h) in results <==> h in Elements(hosts[..i]) && IsAdded(syntax, before, category, h, saves)
      {
        assert hosts[..i + 1] == hosts[..i] + [hosts[i]];
        AppendFresh(hosts[..i], hosts[i]);
        ImportedNext(syntax, before, worker, category, Elements(hosts[..i]), hosts[i], saves);
        var result := ImportHost(hosts[i], worker, category, saves);
        results := results + result;
      }
      assert hosts[..|hosts|] == hosts;
    }

    method ImportHost(host: string, worker: string, category: string, saves: string -> bool) returns (result: seq<ImportResult>)
      modifies this`domains
      ensures domains == ImportOne(syntax, old(domains), worker, category, host, saves(host))
      ensures result == if host in old(domains) then [Updated(host)]
        else if IsAdded(syntax, old(domains), category, host, saves) then [Added(host)] else []
    {
      if host in domains {
        domains := domains[host := Attached(domains[host], worker)];
        return [Updated(host)];
      }
      var added := AddDomain(category, host, "", saves(host));
      if added.Err? { return []; }
      domains := domains[host := Attached(domains[host], worker)];
      result := [Added(host)];
    }
  }

  /** A hostname import adds to the book and manages to save. */
  predicate IsAdded(x: Syntax, before: map<string, Domain>, category: string, host: string, saves: string -> bool) {
    host !in before && x.host(host) && x.name(category) && saves(host)
  }
}
