/** The bounded registry of active stream captures: a fixed array of (context, stream) counts. */
module CaptureRegistry {
  import opened Common

  const CAPACITY: nat := 1024

  datatype Key = Key(context: nat, stream: nat)

  datatype Entry = Entry(key: Key, count: nat)

  const EMPTY := Entry(Key(0, 0), 0)

  predicate Holds(e: Entry, key: Key) { e.count != 0 && e.key == key }

  /** The first entry of `key`, or the length. */
  function Find(entries: seq<Entry>, key: Key): (i: nat)
    ensures i <= |entries| && (i < |entries| ==> Holds(entries[i], key))
    ensures forall j :: 0 <= j < i ==> !Holds(entries[j], key)
  {
    FirstWhere(entries, (e: Entry) => Holds(e, key))
  }

  /** The first unused entry, or the length. */
  function FirstFree(entries: seq<Entry>): (i: nat)
    ensures i <= |entries| && (i < |entries| ==> entries[i].count == 0)
    ensures forall j :: 0 <= j < i ==> entries[j].count != 0
  {
    FirstWhere(entries, (e: Entry) => e.count == 0)
  }

  predicate AnyActive(entries: seq<Entry>) { exists i :: 0 <= i < |entries| && entries[i].count != 0 }

  /** How often a capture is registered. */
  function CountOf(entries: seq<Entry>, key: Key): nat {
    var i := Find(entries, key);
    if i < |entries| then entries[i].count else 0
  }

  /** No capture has two entries. */
  predicate Unique(entries: seq<Entry>) {
    forall i, j :: 0 <= i < j < |entries| && entries[i].count != 0 && entries[j].count != 0 ==> entries[i].key != entries[j].key
  }

  predicate Full(entries: seq<Entry>) { forall i :: 0 <= i < |entries| ==> entries[i].count != 0 }

  function Added(entries: seq<Entry>, key: Key): Option<seq<Entry>> {
    var i, free := Find(entries, key), FirstFree(entries);
    if i < |entries| then Some(entries[i := Entry(key, entries[i].count + 1)])
    else if free < |entries| then Some(entries[free := Entry(key, 1)])
    else None
  }

  function Removed(entries: seq<Entry>, key: Key): Option<seq<Entry>> {
    var i := Find(entries, key);
    if i == |entries| then None
    else if entries[i].count == 1 then Some(entries[i := EMPTY])
    else Some(entries[i := Entry(key, entries[i].count - 1)])
  }

  lemma FoundIs(entries: seq<Entry>, key: Key, i: nat)
    requires Unique(entries) && i < |entries| && Holds(entries[i], key)
    ensures Find(entries, key) == i
  {
  }

  lemma CountElsewhere(entries: seq<Entry>, i: nat, e: Entry, key: Key)
    requires i < |entries| && Unique(entries) && Unique(entries[i := e])
    requires !Holds(entries[i], key) && !Holds(e, key)
    ensures CountOf(entries[i := e], key) == CountOf(entries, key)
  {
    var j := Find(entries, key);
    if j < |entries| {
      FoundIs(entries[i := e], key, j);
    } else {
      var entries' := entries[i := e];
      assert forall k :: 0 <= k < |entries'| ==> !Holds(entries'[k], key);
    }
  }

  /** Registering counts one capture more, fails only when full without the capture, and touches no other. */
  lemma AddedCounts(entries: seq<Entry>, key: Key, other: Key)
    requires Unique(entries)
    ensures Added(entries, key).None? <==> CountOf(entries, key) == 0 && Full(entries)
    ensures var added := Added(entries, key); added.Some? ==>
      && |added.value| == |entries| && Unique(added.value) && AnyActive(added.value)
      && CountOf(added.value, other) == CountOf(entries, other) + One(other == key)
  {
    var added := Added(entries, key);
    if added.Some? {
      var i := if Find(entries, key) < |entries| then Find(entries, key) else FirstFree(entries);
      assert added.value[i].count != 0;
      assert Unique(added.value);
      if other == key {
        FoundIs(added.value, key, i);
      } else {
        CountElsewhere(entries, i, added.value[i], other);
      }
    }
  }

  /** Removing counts one capture less, fails only when it is not registered, and touches no other. */
  lemma RemovedCounts(entries: seq<Entry>, key: Key, other: Key)
    requires Unique(entries)
    ensures Removed(entries, key).None? <==> CountOf(entries, key) == 0
    ensures var removed := Removed(entries, key); removed.Some? ==>
      && |removed.value| == |entries| && Unique(removed.value)
      && CountOf(entries, other) == CountOf(removed.value, other) + One(other == key)
  {
    var i := Find(entries, key);
    if i < |entries| {
      var removed := Removed(entries, key).value;
      assert Unique(removed);
      if other != key {
        CountElsewhere(entries, i, removed[i], other);
      } else if removed[i].count != 0 {
        FoundIs(removed, key, i);
      } else {
        assert forall k :: 0 <= k < |entries| ==> !Holds(removed[k], key);
      }
    }
  }

  /** Something is active exactly when some capture is counted. */
  lemma ActiveIffCounted(entries: seq<Entry>)
    requires Unique(entries)
    ensures AnyActive(entries) <==> exists key :: CountOf(entries, key) > 0
  {
    if AnyActive(entries) {
      var i :| 0 <= i < |entries| && entries[i].count != 0;
      FoundIs(entries, entries[i].key, i);
      assert CountOf(entries, entries[i].key) > 0;
    }
  }

  class Registry {
    const entries: array<Entry>

    ghost predicate Valid()
      reads this, entries
    {
      entries.Length == CAPACITY && Unique(entries[..])
    }

    constructor ()
      ensures Valid() && fresh(entries) && !AnyActive(entries[..])
    {
      entries := new Entry[CAPACITY](_ => EMPTY);
    }

    /** Counts the capture, in its entry or else in the first unused one. */
    method Register(key: Key) returns (registered: bool)
      requires Valid()
      modifies entries
      ensures Valid()
      ensures registered <==> Added(old(entries[..]), key).Some?
      ensures entries[..] == if registered then Added(old(entries[..]), key).value else old(entries[..])
    {
      AddedCounts(entries[..], key, key);
      var free, i := entries.Length, 0;
      while i < entries.Length
        invariant 0 <= i <= entries.Length && 0 <= free <= entries.Length
        invariant forall j :: 0 <= j < i ==> !Holds(entries[j], key)
        invariant forall j :: 0 <= j < i && j < free ==> entries[j].count != 0
        invariant free < entries.Length ==> free < i && entries[free].count == 0
      {
        if Holds(entries[i], key) {
          assert Find(entries[..], key) == i;
          entries[i] := Entry(key, entries[i].count + 1);
          return true;
        }
        if entries[i].count == 0 && free == entries.Length {
          free := i;
        }
        i := i + 1;
      }
      assert Find(entries[..], key) == |entries[..]|;
      assert FirstFree(entries[..]) == free;
      if free == entries.Length {
        return false;
      }
      entries[free] := Entry(key, 1);
      registered := true;
    }

    /** Uncounts the capture and clears an entry that reaches zero. */
    method Remove(key: Key) returns (removed: bool)
      requires Valid()
      modifies entries
      ensures Valid()
      ensures removed <==> Removed(old(entries[..]), key).Some?
      ensures entries[..] == if removed then Removed(old(entries[..]), key).value else old(entries[..])
    {
      RemovedCounts(entries[..], key, key);
      var i := 0;
      while i < entries.Length
        invariant 0 <= i <= entries.Length
        invariant forall j :: 0 <= j < i ==> !Holds(entries[j], key)
      {
        if Holds(entries[i], key) {
          assert Find(entries[..], key) == i;
          var count := entries[i].count - 1;
          entries[i] := if count == 0 then EMPTY else Entry(key, count);
          return true;
        }
        i := i + 1;
      }
      assert Find(entries[..], key) == |entries[..]|;
      removed := false;
    }

    method AnyCapture() returns (active: bool)
      requires Valid()
      ensures active <==> AnyActive(entries[..])
    {
      var i := 0;
      while i < entries.Length
        invariant 0 <= i <= entries.Length
        invariant forall j :: 0 <= j < i ==> entries[j].count == 0
      {
        if entries[i].count != 0 {
          assert entries[..][i].count != 0;
          return true;
        }
        i := i + 1;
      }
      active := false;
    }
  }
}
