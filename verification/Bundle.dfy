/**
  Collecting a chat's messages into a bundle. Handlers run concurrently, so messages
  arrive in any order; the finished bundle does not depend on it.
 */
module Bundle {
  import opened Wrappers
  import opened Sorting

  datatype Message = Message(name: string, username: string, kind: string, text: string, media: string, time: int, id: int)

  /** By time, and by the source message's id where times are equal. */
  predicate Earlier(a: Message, b: Message) { a.time < b.time || (a.time == b.time && a.id < b.id) }

  lemma EarlierIsOrder()
    ensures StrictOrder(Earlier) && WeakOrder(Earlier)
  {
  }

  /** No two messages of a bundle have the same id. */
  ghost predicate DistinctIds(ms: seq<Message>) {
    forall i, j :: 0 <= i < j < |ms| ==> ms[i].id != ms[j].id
  }

  lemma {:induction false} DistinctIdsOfPermutation(a: seq<Message>, b: seq<Message>)
    requires DistinctIds(a) && multiset(a) == multiset(b)
    ensures DistinctIds(b)
  {
    assert NoDuplicates(a);
    NoDuplicatesMultiplicity(a);
    NoDuplicatesMultiplicity(b);
    MultisetMembers(a, b);
    forall i, j | 0 <= i < j < |b| ensures b[i].id != b[j].id {
      assert b[i] in a && b[j] in a && b[i] != b[j];
    }
  }

  lemma {:induction false} SortedIsAscending(ms: seq<Message>)
    requires Sorted(Earlier, ms) && DistinctIds(ms)
    ensures Ascending(Earlier, ms)
  {
  }

  /** The one chat order of a collection of messages. */
  ghost predicate IsChatOrder(r: seq<Message>, arrived: seq<Message>) {
    Sorted(Earlier, r) && multiset(r) == multiset(arrived)
  }

  /** Two arrival orders of the same messages end in the same bundle. */
  lemma {:induction false} ArrivalOrderIsIrrelevant(a: seq<Message>, b: seq<Message>, r: seq<Message>, q: seq<Message>)
    requires DistinctIds(a) && multiset(a) == multiset(b)
    requires IsChatOrder(r, a) && IsChatOrder(q, b)
    ensures r == q
  {
    EarlierIsOrder();
    DistinctIdsOfPermutation(a, r);
    DistinctIdsOfPermutation(a, q);
    SortedIsAscending(r);
    SortedIsAscending(q);
    MultisetMembers(r, q);
    AscendingUnique(r, q, Earlier);
  }

  // ---- what was added between start and end ----

  datatype Event = Start(chat: int) | Add(chat: int, message: Message) | End(chat: int) | Cancel(chat: int)

  type Open = map<int, seq<Message>>

  function Apply(open: Open, e: Event): Open {
    match e
    case Start(chat) => if chat in open then open else open[chat := []]
    case Add(chat, m) => if chat in open then open[chat := open[chat] + [m]] else open
    case End(chat) => open - {chat}
    case Cancel(chat) => open - {chat}
  }

  function After(events: seq<Event>): Open {
    if events == [] then map[] else Apply(After(events[..|events| - 1]), events[|events| - 1])
  }

  /** The messages added to `chat` in these events. */
  function AddedTo(events: seq<Event>, chat: int): seq<Message> {
    if events == [] then []
    else
      var front, e := AddedTo(events[..|events| - 1], chat), events[|events| - 1];
      if e.Add? && e.chat == chat then front + [e.message] else front
  }

  predicate Leaves(e: Event, chat: int) { (e.End? || e.Cancel?) && e.chat == chat }

  /** Collecting since a `Start`, a chat holds exactly the messages added to it since, whatever happened to other chats. */
  lemma {:induction false} CollectedSinceStart(before: seq<Event>, chat: int, since: seq<Event>)
    requires chat !in After(before) && forall i :: 0 <= i < |since| ==> !Leaves(since[i], chat)
    ensures var open := After(before + [Start(chat)] + since); chat in open && open[chat] == AddedTo(since, chat)
  {
    if since == [] {
      assert before + [Start(chat)] + since == before + [Start(chat)];
      assert (before + [Start(chat)])[..|before|] == before;
    } else {
      var front, e := since[..|since| - 1], since[|since| - 1];
      CollectedSinceStart(before, chat, front);
      var whole := before + [Start(chat)] + front;
      assert before + [Start(chat)] + since == whole + [e];
      assert (whole + [e])[..|whole|] == whole;
    }
  }

  /** So two runs that add the same messages after their start, in any two orders, end in the same bundle. */
  lemma {:induction false} BundleIsDeterministic(
      before: seq<Event>, since: seq<Event>, before': seq<Event>, since': seq<Event>, chat: int, r: seq<Message>, q: seq<Message>)
    requires chat !in After(before) && forall i :: 0 <= i < |since| ==> !Leaves(since[i], chat)
    requires chat !in After(before') && forall i :: 0 <= i < |since'| ==> !Leaves(since'[i], chat)
    requires multiset(AddedTo(since, chat)) == multiset(AddedTo(since', chat)) && DistinctIds(AddedTo(since, chat))
    requires chat in After(before + [Start(chat)] + since) && IsChatOrder(r, After(before + [Start(chat)] + since)[chat])
    requires chat in After(before' + [Start(chat)] + since') && IsChatOrder(q, After(before' + [Start(chat)] + since')[chat])
    ensures r == q && multiset(r) == multiset(AddedTo(since, chat))
  {
    CollectedSinceStart(before, chat, since);
    CollectedSinceStart(before', chat, since');
    ArrivalOrderIsIrrelevant(AddedTo(since, chat), AddedTo(since', chat), r, q);
  }

  /** Event `i` began the collection that is under way: a start, not left since, and every earlier start of the chat was left before it. */
  ghost predicate OpenedBy(events: seq<Event>, chat: int, i: nat) {
    && i < |events| && events[i] == Start(chat) && NotLeft(events, chat, i)
    && forall j :: 0 <= j < i && events[j] == Start(chat) ==> !NotLeft(events[..i], chat, j)
  }

  ghost predicate NotLeft(events: seq<Event>, chat: int, i: nat) {
    forall k :: i < k < |events| ==> !Leaves(events[k], chat)
  }

  lemma {:induction false} StartedIsOpen(events: seq<Event>, chat: int, j: nat)
    requires j < |events| && events[j] == Start(chat) && NotLeft(events, chat, j)
    ensures chat in After(events)
  {
    var front, e := events[..|events| - 1], events[|events| - 1];
    if j < |front| {
      assert NotLeft(front, chat, j);
      StartedIsOpen(front, chat, j);
    }
  }

  lemma {:induction false} OpenWasOpened(events: seq<Event>, chat: int) returns (i: nat)
    requires chat in After(events)
    ensures OpenedBy(events, chat, i)
  {
    var front, e := events[..|events| - 1], events[|events| - 1];
    assert events == front + [e];
    if chat in After(front) {
      i := OpenWasOpened(front, chat);
      assert events[..i] == front[..i];
    } else {
      i := |front|;
      assert events[..i] == front;
      forall j | 0 <= j < i && events[j] == Start(chat) ensures !NotLeft(front, chat, j) {
        if NotLeft(front, chat, j) { StartedIsOpen(front, chat, j); }
      }
    }
  }

  lemma {:induction false} ClosedBefore(events: seq<Event>, chat: int, i: nat)
    requires OpenedBy(events, chat, i)
    ensures chat !in After(events[..i])
  {
    var before := events[..i];
    if chat in After(before) {
      var j := OpenWasOpened(before, chat);
    }
  }

  lemma {:induction false} OpenedHolds(events: seq<Event>, chat: int, i: nat)
    requires OpenedBy(events, chat, i)
    ensures chat in After(events) && After(events)[chat] == AddedTo(events[i + 1..], chat)
  {
    var since := events[i + 1..];
    ClosedBefore(events, chat, i);
    forall k | 0 <= k < |since| ensures !Leaves(since[k], chat) { assert since[k] == events[i + 1 + k]; }
    CollectedSinceStart(events[..i], chat, since);
    assert events == events[..i] + [Start(chat)] + since;
  }

  /**
    Read off the whole history: a chat is collecting exactly when some start of it is
    not left yet, and holds exactly what was added to it since.
   */
  lemma {:induction false} CollectingExactly(events: seq<Event>, chat: int)
    ensures chat in After(events) <==> exists i: nat :: OpenedBy(events, chat, i)
    ensures forall i: nat :: OpenedBy(events, chat, i) ==> chat in After(events) && After(events)[chat] == AddedTo(events[i + 1..], chat)
  {
    if chat in After(events) { var i := OpenWasOpened(events, chat); }
    forall i: nat | OpenedBy(events, chat, i) ensures chat in After(events) && After(events)[chat] == AddedTo(events[i + 1..], chat) {
      OpenedHolds(events, chat, i);
    }
  }

  // ---- the collector ----

  datatype Finished = Finished(chat: int, title: string, started: int, ended: int, messages: seq<Message>)

  datatype Draft = Draft(title: string, started: int, messages: seq<Message>)

  datatype BundleError = AlreadyCollecting | NotCollecting | Empty

  class Collector {
    var collecting: map<int, Draft>
    var finished: map<string, Finished>
    ghost var events: seq<Event>

    ghost function Drafts(): Open
      reads this
    {
      map chat | chat in collecting :: collecting[chat].messages
    }

    /** The drafts are what the calls so far make them. */
    ghost predicate Valid()
      reads this
    {
      Drafts() == After(events)
    }

    constructor ()
      ensures Valid() && events == [] && finished == map[]
    {
      collecting, finished, events := map[], map[], [];
    }

    method Start(chat: int, title: string, now: int) returns (r: Result<(), BundleError>)
      requires Valid()
      modifies this`collecting, this`events
      ensures Valid() && events == old(events) + [Event.Start(chat)]
      ensures r == if exists i: nat :: OpenedBy(old(events), chat, i) then Err(AlreadyCollecting) else Ok(())
      ensures r.Ok? ==> collecting == old(collecting)[chat := Draft(title, now, [])]
      ensures r.Err? ==> collecting == old(collecting)
    {
      CollectingExactly(events, chat);
      assert chat in Drafts() <==> chat in collecting;
      r := if chat in collecting then Err(AlreadyCollecting) else Ok(());
      events := events + [Event.Start(chat)];
      assert events[..|events| - 1] == old(events);
      if r.Err? { return; }
      collecting := collecting[chat := Draft(title, now, [])];
    }

    /** Ignored unless the chat is collecting. */
    method Add(chat: int, m: Message)
      requires Valid()
      modifies this`collecting, this`events
      ensures Valid() && events == old(events) + [Event.Add(chat, m)]
      ensures collecting.Keys == old(collecting).Keys
      ensures forall c :: c in collecting ==>
        collecting[c].title == old(collecting)[c].title && collecting[c].started == old(collecting)[c].started
    {
      events := events + [Event.Add(chat, m)];
      assert events[..|events| - 1] == old(events);
      if chat in collecting {
        var b := collecting[chat];
        collecting := collecting[chat := b.(messages := b.messages + [m])];
      }
    }

    /** Finish: everything added since the start, in chat order, under a new id. An empty collection is dropped. */
    method End(chat: int, id: string, now: int) returns (r: Result<Finished, BundleError>)
      requires Valid()
      modifies this
      ensures Valid() && events == old(events) + [Event.End(chat)]
      ensures r == Err(NotCollecting) <==> !exists i: nat :: OpenedBy(old(events), chat, i)
      ensures forall i: nat :: OpenedBy(old(events), chat, i) ==>
        if AddedTo(old(events)[i + 1..], chat) == [] then r == Err(Empty)
        else r.Ok? && IsChatOrder(r.value.messages, AddedTo(old(events)[i + 1..], chat))
      ensures r.Ok? ==> forall i, j :: 0 <= i < j < |r.value.messages| ==>
        var a, b := r.value.messages[i], r.value.messages[j]; a.time < b.time || (a.time == b.time && a.id <= b.id)
      ensures r.Ok? ==>
        && chat in old(collecting)
        && r.value == Finished(chat, old(collecting)[chat].title, old(collecting)[chat].started, now, r.value.messages)
      ensures finished == if r.Ok? then old(finished)[id := r.value] else old(finished)
    {
      CollectingExactly(events, chat);
      assert chat in collecting ==> collecting[chat].messages == After(events)[chat];
      events := events + [Event.End(chat)];
      assert events[..|events| - 1] == old(events);
      if chat !in collecting {
        assert chat !in Drafts();
        return Err(NotCollecting);
      }
      var b := collecting[chat];
      collecting := collecting - {chat};
      if |b.messages| == 0 { return Err(Empty); }
      EarlierIsOrder();
      var sorted := SortSlice(b.messages, Earlier);
      var done := Finished(chat, b.title, b.started, now, sorted);
      finished := finished[id := done];
      r := Ok(done);
    }

    method Cancel(chat: int) returns (r: bool)
      requires Valid()
      modifies this`collecting, this`events
      ensures Valid() && events == old(events) + [Event.Cancel(chat)]
      ensures r <==> exists i: nat :: OpenedBy(old(events), chat, i)
    {
      CollectingExactly(events, chat);
      r := chat in collecting;
      assert r <==> chat in Drafts();
      events := events + [Event.Cancel(chat)];
      assert events[..|events| - 1] == old(events);
      collecting := collecting - {chat};
    }

    /** Whether some start of the chat is not left yet, and how many messages were added to it since. */
    method Status(chat: int) returns (open: bool, count: nat)
      requires Valid()
      ensures open <==> exists i: nat :: OpenedBy(events, chat, i)
      ensures forall i: nat :: OpenedBy(events, chat, i) ==> count == |AddedTo(events[i + 1..], chat)|
      ensures !open ==> count == 0
    {
      CollectingExactly(events, chat);
      assert chat in Drafts() <==> chat in collecting;
      if chat in collecting {
        assert Drafts()[chat] == collecting[chat].messages;
        return true, |collecting[chat].messages|;
      }
      return false, 0;
    }
  }
}
