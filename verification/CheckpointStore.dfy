/** The thread's stored messages: entries with ids, updated by removing ids and appending. */
module CheckpointStore {
  import opened Text
  import opened Messages

  /** A stored message; the empty id stands for a message that has none. */
  datatype Stored = Stored(id: string, message: Message)

  function Bare(entries: seq<Stored>): (ms: seq<Message>)
    ensures |ms| == |entries|
    ensures forall i :: 0 <= i < |ms| ==> ms[i] == entries[i].message
  {
    seq(|entries|, i requires 0 <= i < |entries| => entries[i].message)
  }

  function WithoutIds(ms: seq<Message>): (entries: seq<Stored>)
    ensures Bare(entries) == ms
  {
    seq(|ms|, i requires 0 <= i < |ms| => Stored("", ms[i]))
  }

  predicate AllIds(entries: seq<Stored>) {
    forall e :: e in entries ==> e.id != ""
  }

  function RemovalIds(entries: seq<Stored>): set<string> {
    set e | e in entries && e.id != "" :: e.id
  }

  function Kept(entries: seq<Stored>, removeIds: set<string>): seq<Stored> {
    if entries == [] then []
    else (if entries[0].id in removeIds then [] else [entries[0]]) + Kept(entries[1..], removeIds)
  }

  function Named(e: Stored, n: nat): Stored {
    if e.id != "" then e else Stored("m" + Decimal(n), e.message)
  }

  /** The counter after naming the messages that have no id. */
  function CounterAfter(added: seq<Stored>, start: nat): nat {
    if added == [] then start
    else CounterAfter(added[..|added| - 1], start) + if added[|added| - 1].id != "" then 0 else 1
  }

  /** Messages added without an id get the next "m<n>". */
  function AssignIds(added: seq<Stored>, start: nat): seq<Stored> {
    if added == [] then []
    else AssignIds(added[..|added| - 1], start) + [Named(added[|added| - 1], CounterAfter(added, start))]
  }

  lemma {:induction false} AssignIdsKeepsMessages(added: seq<Stored>, start: nat)
    ensures |AssignIds(added, start)| == |added|
    ensures AllIds(AssignIds(added, start))
    ensures forall i :: 0 <= i < |added| ==> AssignIds(added, start)[i].message == added[i].message
  {
    if added != [] {
      AssignIdsKeepsMessages(added[..|added| - 1], start);
    }
  }

  /** The positions up to i whose message came without an id. */
  function Nameless(added: seq<Stored>, i: int): set<int> {
    set j | 0 <= j <= i && j < |added| && added[j].id == ""
  }

  lemma {:induction false} NamelessSnoc(added: seq<Stored>, start: nat)
    ensures CounterAfter(added, start) == start + |Nameless(added, |added| - 1)|
  {
    if added != [] {
      var front, last := added[..|added| - 1], |added| - 1;
      NamelessSnoc(front, start);
      assert Nameless(added, last) == Nameless(front, last - 1) + if added[last].id == "" then {last} else {};
    }
  }

  /** Messages keep the ids they have; the others are numbered on from the start, in order. */
  lemma {:induction false} AssignIdsExactly(added: seq<Stored>, start: nat, i: nat)
    requires i < |added|
    ensures |AssignIds(added, start)| == |added|
    ensures AssignIds(added, start)[i] ==
              if added[i].id != "" then added[i] else Stored("m" + Decimal(start + |Nameless(added, i)|), added[i].message)
  {
    var front := added[..|added| - 1];
    AssignIdsKeepsMessages(added, start);
    AssignIdsKeepsMessages(front, start);
    if i < |front| {
      AssignIdsExactly(front, start, i);
      assert Nameless(front, i) == Nameless(added, i);
    } else {
      NamelessSnoc(added, start);
    }
  }

  /** Removal goes entry by entry and takes exactly those whose id is named. */
  lemma KeptExactly(e: Stored, rest: seq<Stored>, removeIds: set<string>)
    ensures Kept([e] + rest, removeIds) == (if e.id in removeIds then [] else [e]) + Kept(rest, removeIds)
    ensures Kept([], removeIds) == []
  {
    assert ([e] + rest)[1..] == rest;
  }

  function Updated(entries: seq<Stored>, removeIds: set<string>, added: seq<Stored>): seq<Stored> {
    Kept(entries, removeIds) + AssignIds(added, |entries|)
  }

  /** Removing every id that the store holds and appending a new list. */
  function Replaced(entries: seq<Stored>, added: seq<Stored>): seq<Stored> {
    Updated(entries, RemovalIds(entries), added)
  }

  lemma {:induction false} KeptIsIdless(entries: seq<Stored>, ids: set<string>)
    requires RemovalIds(entries) <= ids && "" !in ids
    ensures Kept(entries, ids) == [] <==> AllIds(entries)
    ensures forall e :: e in Kept(entries, ids) ==> e.id == ""
  {
    if entries != [] {
      assert entries == [entries[0]] + entries[1..];
      assert forall e :: e in entries[1..] ==> e in entries;
      KeptIsIdless(entries[1..], ids);
    }
  }

  /** Replacing the list leaves exactly the new list, if and only if every stored message had
      an id; a message without one cannot be named for removal and stays in front. */
  lemma ReplaceIsExact(entries: seq<Stored>, added: seq<Stored>)
    ensures Bare(Replaced(entries, added)) == Bare(added) <==> AllIds(entries)
    ensures AllIds(entries) ==> AllIds(Replaced(entries, added))
    ensures |Replaced(entries, added)| >= |added|
  {
    KeptIsIdless(entries, RemovalIds(entries));
    AssignIdsKeepsMessages(added, |entries|);
    var kept := Kept(entries, RemovalIds(entries));
    assert |Bare(Replaced(entries, added))| == |kept| + |added|;
    if kept == [] {
      assert Replaced(entries, added) == AssignIds(added, |entries|);
    }
  }

  lemma KeptStep(entries: seq<Stored>, removeIds: set<string>, i: nat)
    requires i < |entries|
    ensures Kept(entries[i..], removeIds) ==
              (if entries[i].id in removeIds then [] else [entries[i]]) + Kept(entries[i + 1..], removeIds)
  {
    assert entries[i..][1..] == entries[i + 1..];
  }

  method FilterKept(entries: seq<Stored>, removeIds: set<string>) returns (kept: seq<Stored>)
    ensures kept == Kept(entries, removeIds)
  {
    kept := [];
    var i := 0;
    while i < |entries|
      invariant 0 <= i <= |entries|
      invariant Kept(entries, removeIds) == kept + Kept(entries[i..], removeIds)
    {
      KeptStep(entries, removeIds, i);
      if entries[i].id !in removeIds {
        kept := kept + [entries[i]];
      }
      i := i + 1;
    }
    assert kept + [] == kept;
  }

  method NameAdded(added: seq<Stored>, start: nat) returns (named: seq<Stored>)
    ensures named == AssignIds(added, start)
  {
    named := [];
    var counter := start;
    for i := 0 to |added|
      invariant counter == CounterAfter(added[..i], start)
      invariant named == AssignIds(added[..i], start)
    {
      assert added[..i + 1][..i] == added[..i];
      if added[i].id != "" {
        named := named + [added[i]];
      } else {
        counter := counter + 1;
        named := named + [Stored("m" + Decimal(counter), added[i].message)];
      }
    }
    assert added[..|added|] == added;
  }

  class Store {
    var entries: seq<Stored>
    /** Whether a graph step is pending on an interrupt. */
    var interrupted: bool

    /** Wraps existing messages, giving an id to each that has none. */
    constructor (initial: seq<Stored>)
      ensures entries == AssignIds(initial, 0) && !interrupted
    {
      entries := initial;
      interrupted := false;
      new;
      entries := NameAdded(initial, 0);
    }

    /** Drops the entries named in removeIds, then appends, assigning ids in order. */
    method Update(removeIds: set<string>, added: seq<Stored>)
      modifies this`entries
      ensures entries == Updated(old(entries), removeIds, added)
    {
      var kept := FilterKept(entries, removeIds);
      var named := NameAdded(added, |entries|);
      entries := kept + named;
    }
  }
}
