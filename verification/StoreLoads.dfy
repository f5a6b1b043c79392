/** Which files a start-up accepts, whoever wrote them, and what it makes of them. */
module StoreLoads {
  import opened Wrappers
  import opened Sorting
  import opened Canonical
  import opened Records
  import opened StoreSpec
  import opened StoreAnswers

  /** A record start-up can use: a proper user and identity of this issuer, permissions that parse, a credential that opens. */
  ghost predicate Readable(cfg: Config, b: Binding) {
    && b.telegramId > 0 && b.issuer == cfg.issuer && b.subject != ""
    && |b.permissions| <= 1000 && (forall v :: v in b.permissions ==> cfg.grammar.parseERP(v).Some?)
    && Token(b).Some?
  }

  /** No user and no identity is listed twice. */
  ghost predicate AllDistinct(list: seq<Binding>) {
    forall i, j :: 0 <= i < j < |list| ==> list[i].telegramId != list[j].telegramId && list[i].subject != list[j].subject
  }

  /** The record with its permissions in stored form. */
  ghost predicate ReadAs(cfg: Config, b: Binding, b': Binding) {
    b' == b.(permissions := b'.permissions) && ListsParsed(b'.permissions, b.permissions, cfg.grammar.parseERP)
  }

  ghost predicate Collected(cfg: Config, list: seq<Binding>, l: LoadedBindings) {
    && (forall id :: id in l.bindings ==> exists i :: 0 <= i < |list| && list[i].telegramId == id)
    && (forall i :: 0 <= i < |list| ==> list[i].telegramId in l.bindings && ReadAs(cfg, list[i], l.bindings[list[i].telegramId]))
    && (forall k :: k in l.subjects <==> exists i :: 0 <= i < |list| && SubjectKey(list[i]) == k)
  }

  /** The next record is taken in if it is readable, and neither its user nor its identity was listed before. */
  lemma {:induction false} NextExactly(cfg: Config, acc: LoadedBindings, b: Binding)
    ensures LoadBinding(cfg, acc, b).Ok? <==> Readable(cfg, b) && b.telegramId !in acc.bindings && SubjectKey(b) !in acc.subjects
    ensures LoadBinding(cfg, acc, b).Ok? ==>
      && LoadBinding(cfg, acc, b).value.subjects == acc.subjects + {SubjectKey(b)}
      && b.telegramId in LoadBinding(cfg, acc, b).value.bindings
      && ReadAs(cfg, b, LoadBinding(cfg, acc, b).value.bindings[b.telegramId])
      && LoadBinding(cfg, acc, b).value.bindings
           == acc.bindings[b.telegramId := LoadBinding(cfg, acc, b).value.bindings[b.telegramId]]
  {
    ListedParsed(b.permissions, cfg.grammar.parseERP);
  }

  lemma {:induction false} SubjectsNext(cfg: Config, front: seq<Binding>, acc: LoadedBindings, b: Binding, l: LoadedBindings)
    requires Collected(cfg, front, acc) && l.subjects == acc.subjects + {SubjectKey(b)}
    ensures forall k :: k in l.subjects <==> exists i :: 0 <= i < |front + [b]| && SubjectKey((front + [b])[i]) == k
  {
    var list := front + [b];
    assert list[|front|] == b;
    forall k ensures k in l.subjects <==> exists i :: 0 <= i < |list| && SubjectKey(list[i]) == k {
      if k in acc.subjects {
        var i :| 0 <= i < |front| && SubjectKey(front[i]) == k;
        assert SubjectKey(list[i]) == k;
      } else if k == SubjectKey(b) {
        assert SubjectKey(list[|front|]) == k;
      }
      if exists i :: 0 <= i < |list| && SubjectKey(list[i]) == k {
        var i :| 0 <= i < |list| && SubjectKey(list[i]) == k;
        if i < |front| { assert SubjectKey(front[i]) == k; }
      }
    }
  }

  lemma {:induction false} CollectedNext(cfg: Config, front: seq<Binding>, acc: LoadedBindings, b: Binding, l: LoadedBindings)
    requires Collected(cfg, front, acc) && b.telegramId !in acc.bindings
    requires l.subjects == acc.subjects + {SubjectKey(b)} && b.telegramId in l.bindings
    requires ReadAs(cfg, b, l.bindings[b.telegramId]) && l.bindings == acc.bindings[b.telegramId := l.bindings[b.telegramId]]
    ensures Collected(cfg, front + [b], l)
  {
    var list := front + [b];
    assert list[|front|] == b;
    SubjectsNext(cfg, front, acc, b, l);
    forall id | id in l.bindings ensures exists i :: 0 <= i < |list| && list[i].telegramId == id {
      if id in acc.bindings {
        var i :| 0 <= i < |front| && front[i].telegramId == id;
        assert list[i].telegramId == id;
      } else {
        assert list[|front|].telegramId == id;
      }
    }
    forall i | 0 <= i < |list| ensures list[i].telegramId in l.bindings && ReadAs(cfg, list[i], l.bindings[list[i].telegramId]) {
      if i < |front| { assert list[i] == front[i]; }
    }
  }

  /** Whether the record is new to the ones before it. */
  lemma {:induction false} NewExactly(cfg: Config, front: seq<Binding>, acc: LoadedBindings, b: Binding)
    requires Collected(cfg, front, acc) && forall i :: 0 <= i < |front| ==> front[i].issuer == b.issuer
    ensures b.telegramId !in acc.bindings && SubjectKey(b) !in acc.subjects
      <==> forall i :: 0 <= i < |front| ==> front[i].telegramId != b.telegramId && front[i].subject != b.subject
  {
    forall i | 0 <= i < |front| ensures SubjectKey(front[i]) == SubjectKey(b) <==> front[i].subject == b.subject { SubjectKeyExact(front[i], b); }
    if b.telegramId !in acc.bindings && SubjectKey(b) !in acc.subjects {
      forall i | 0 <= i < |front| ensures front[i].telegramId != b.telegramId && front[i].subject != b.subject {
        assert front[i].telegramId in acc.bindings;
        assert SubjectKey(front[i]) in acc.subjects;
      }
    }
  }

  lemma DistinctNext(front: seq<Binding>, b: Binding)
    ensures AllDistinct(front + [b]) <==>
      AllDistinct(front) && forall i :: 0 <= i < |front| ==> front[i].telegramId != b.telegramId && front[i].subject != b.subject
  {
    var list := front + [b];
    assert list[|front|] == b && forall i :: 0 <= i < |front| ==> list[i] == front[i];
    if AllDistinct(list) {
      forall i | 0 <= i < |front| ensures front[i].telegramId != b.telegramId && front[i].subject != b.subject {
        assert list[i].telegramId != list[|front|].telegramId && list[i].subject != list[|front|].subject;
      }
      forall i, j | 0 <= i < j < |front| ensures front[i].telegramId != front[j].telegramId && front[i].subject != front[j].subject {
        assert list[i].telegramId != list[j].telegramId && list[i].subject != list[j].subject;
      }
    }
  }

  lemma ReadableNext(cfg: Config, front: seq<Binding>, b: Binding)
    ensures (forall i :: 0 <= i < |front + [b]| ==> Readable(cfg, (front + [b])[i]))
      <==> (forall i :: 0 <= i < |front| ==> Readable(cfg, front[i])) && Readable(cfg, b)
  {
    var list := front + [b];
    assert list[|front|] == b && forall i :: 0 <= i < |front| ==> list[i] == front[i];
    if forall i :: 0 <= i < |list| ==> Readable(cfg, list[i]) {
      assert Readable(cfg, list[|front|]);
      forall i | 0 <= i < |front| ensures Readable(cfg, front[i]) { assert Readable(cfg, list[i]); }
    }
  }

  /** A listing is accepted exactly when every record in it is readable and nobody is in it twice; then it is taken over record by record. */
  lemma {:induction false} LoadsExactly(cfg: Config, list: seq<Binding>)
    ensures LoadBindings(cfg, list).Ok? <==> (forall i :: 0 <= i < |list| ==> Readable(cfg, list[i])) && AllDistinct(list)
    ensures LoadBindings(cfg, list).Ok? ==> Collected(cfg, list, LoadBindings(cfg, list).value)
  {
    if list != [] {
      var front, b := list[..|list| - 1], list[|list| - 1];
      assert list == front + [b];
      LoadsExactly(cfg, front);
      ReadableNext(cfg, front, b);
      DistinctNext(front, b);
      if LoadBindings(cfg, front).Ok? {
        var acc := LoadBindings(cfg, front).value;
        NextExactly(cfg, acc, b);
        if b.issuer == cfg.issuer { NewExactly(cfg, front, acc, b); }
        if LoadBinding(cfg, acc, b).Ok? { CollectedNext(cfg, front, acc, b, LoadBinding(cfg, acc, b).value); }
      }
    }
  }

  /** This program's file, for this issuer and client. */
  predicate OwnHeader(cfg: Config, version: int, issuer: string, clientId: string) {
    version == 1 && issuer == cfg.issuer && clientId == cfg.clientId
  }

  /** The main file loads exactly when there is none, or it is this program's and all its records can be used. */
  lemma {:induction false} FileLoadsExactly(cfg: Config, main: Option<Snapshot>, now: int)
    ensures LoadSpec(cfg, main, now).Ok? <==>
      main.None? || (OwnHeader(cfg, main.value.version, main.value.issuer, main.value.clientId)
                     && (forall i :: 0 <= i < |main.value.bindings| ==> Readable(cfg, main.value.bindings[i])) && AllDistinct(main.value.bindings))
    ensures main.Some? && !OwnHeader(cfg, main.value.version, main.value.issuer, main.value.clientId) ==>
      LoadSpec(cfg, main, now) == Err(WrongFile)
    ensures LoadSpec(cfg, main, now).Ok? ==>
      forall id :: id in LoadSpec(cfg, main, now).value.bindings <==>
        main.Some? && exists i :: 0 <= i < |main.value.bindings| && main.value.bindings[i].telegramId == id
  {
    if main.Some? { LoadsExactly(cfg, main.value.bindings); }
  }

  /** The log is laid over memory exactly when it is this program's, its record can be used, and no identity is then bound twice. */
  lemma {:induction false} LogOverlaysExactly(cfg: Config, mem: Mem, w: Wal)
    requires forall id :: id in mem.bindings ==> mem.bindings[id].telegramId == id && mem.bindings[id].issuer == cfg.issuer
    ensures var b := w.binding;
      OverlaySpec(cfg, mem, w).Ok? <==>
        && OwnHeader(cfg, w.version, w.issuer, w.clientId) && Readable(cfg, b)
        && (forall u, v :: u in mem.bindings && v in mem.bindings && u != v && u != b.telegramId && v != b.telegramId ==>
              mem.bindings[u].subject != mem.bindings[v].subject)
        && (forall v :: v in mem.bindings && v != b.telegramId ==> mem.bindings[v].subject != b.subject)
    ensures var b, r := w.binding, OverlaySpec(cfg, mem, w);
      r.Ok? ==>
        && b.telegramId in r.value.bindings && ReadAs(cfg, b, r.value.bindings[b.telegramId]) && SameTickets(mem, r.value)
        && r.value.bindings == mem.bindings[b.telegramId := r.value.bindings[b.telegramId]]
  {
    var b := w.binding;
    ListedParsed(b.permissions, cfg.grammar.parseERP);
    if NormalizeERP(b.permissions, cfg.grammar).Some? && b.issuer == cfg.issuer {
      var kept := b.(permissions := NormalizeERP(b.permissions, cfg.grammar).value);
      SharesExactly(cfg, mem.bindings, kept);
    }
  }

  lemma {:induction false} SharesExactly(cfg: Config, m: map<int, Binding>, b: Binding)
    requires b.issuer == cfg.issuer && forall id :: id in m ==> m[id].issuer == cfg.issuer
    ensures !SharesIdentity(m[b.telegramId := b]) <==>
      && (forall u, v :: u in m && v in m && u != v && u != b.telegramId && v != b.telegramId ==> m[u].subject != m[v].subject)
      && (forall v :: v in m && v != b.telegramId ==> m[v].subject != b.subject)
  {
    var m' := m[b.telegramId := b];
    forall u, v | u in m' && v in m' ensures SubjectKey(m'[u]) == SubjectKey(m'[v]) <==> m'[u].subject == m'[v].subject {
      SubjectKeyExact(m'[u], m'[v]);
    }
    if !SharesIdentity(m') {
      forall v | v in m && v != b.telegramId ensures m[v].subject != b.subject { assert SubjectKey(m'[v]) != SubjectKey(m'[b.telegramId]); }
      forall u, v | u in m && v in m && u != v && u != b.telegramId && v != b.telegramId ensures m[u].subject != m[v].subject {
        assert SubjectKey(m'[u]) != SubjectKey(m'[v]);
      }
    }
  }

  /** A start-up on a file that cannot be used changes nothing on disk and does not come up. */
  lemma {:induction false} BadFileStopsStart(cfg: Config, disk: Disk, now: int, wall: int, io: StartIO)
    requires LoadSpec(cfg, disk.main, now).Err?
    ensures var s := StartSpec(cfg, disk, now, wall, io); s.disk == disk && s.trace == [] && s.result.Err?
  {
  }
}
