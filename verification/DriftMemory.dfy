/** The bounded buffer of drift events, refining an unbounded log. */
module DriftMemory {
  import opened Wrappers

  datatype Event = Event(
    timestamp: nat, subgoalId: string, segmentId: Option<string>, stepId: Option<string>,
    signalType: string, confidence: real, details: string)

  datatype Key = Key(timestamp: nat, subgoalId: string, segmentId: Option<string>, signalType: string)

  function KeyOf(e: Event): Key {
    Key(e.timestamp, e.subgoalId, e.segmentId, e.signalType)
  }

  /** A Python slice `s[-n:]` for positive `n`. */
  function LastN(s: seq<Event>, n: nat): seq<Event> {
    if |s| <= n then s else s[|s| - n..]
  }

  function Keep(s: seq<Event>, p: Event -> bool): seq<Event> {
    if |s| == 0 then []
    else Keep(s[..|s| - 1], p) + (if p(s[|s| - 1]) then [s[|s| - 1]] else [])
  }

  function Survives(keys: set<Key>): Event -> bool {
    e => KeyOf(e) !in keys
  }

  // ---------------------------------------------------------------- the specification

  datatype Op = Record(event: Event) | Clear | Load(events: seq<Event>) | Remove(keys: set<Key>)

  /** What an operation does to a buffer that holds everything. */
  function Unbounded(log: seq<Event>, op: Op): seq<Event> {
    match op
    case Record(e) => log + [e]
    case Clear => []
    case Load(events) => events
    case Remove(keys) => Keep(log, Survives(keys))
  }

  /** What it does to the last `capacity` events. */
  function Bounded(capacity: nat, buffer: seq<Event>, op: Op): seq<Event> {
    match op
    case Record(e) => LastN(buffer + [e], capacity)
    case Clear => []
    case Load(events) => LastN(events, capacity)
    case Remove(keys) => Keep(buffer, Survives(keys))
  }

  function LogAfter(ops: seq<Op>): seq<Event> {
    if |ops| == 0 then [] else Unbounded(LogAfter(ops[..|ops| - 1]), ops[|ops| - 1])
  }

  function BufferAfter(capacity: nat, ops: seq<Op>): seq<Event> {
    if |ops| == 0 then [] else Bounded(capacity, BufferAfter(capacity, ops[..|ops| - 1]), ops[|ops| - 1])
  }

  /** A removal is seamless when it leaves the window full, or leaves nothing outside the window
      that an unbounded log would let back in. */
  predicate Seamless(capacity: nat, log: seq<Event>, op: Op) {
    op.Remove? ==>
      || |Keep(LastN(log, capacity), Survives(op.keys))| == capacity
      || Keep(log[..|log| - |LastN(log, capacity)|], Survives(op.keys)) == []
  }

  /** A removal tells events apart by when they occurred, for which goal and segment, and by their signal. */
  lemma KeysIdentify(a: Event, b: Event)
    ensures Survives({KeyOf(b)})(a) <==>
            a.timestamp != b.timestamp || a.subgoalId != b.subgoalId || a.segmentId != b.segmentId
            || a.signalType != b.signalType
  {
  }

  lemma {:induction false} KeepConcat(a: seq<Event>, b: seq<Event>, p: Event -> bool)
    ensures Keep(a + b, p) == Keep(a, p) + Keep(b, p)
    ensures |Keep(b, p)| <= |b|
  {
    if |b| == 0 {
      assert a + b == a;
    } else {
      var n := |b| - 1;
      assert (a + b)[..|a + b| - 1] == a + b[..n];
      KeepConcat(a, b[..n], p);
    }
  }

  /** One operation keeps the buffer the end of the log exactly when it is seamless; every
      operation but a removal always is. */
  lemma BoundedRefinesIff(capacity: nat, log: seq<Event>, op: Op)
    requires capacity > 0
    ensures Bounded(capacity, LastN(log, capacity), op) == LastN(Unbounded(log, op), capacity)
            <==> Seamless(capacity, log, op)
  {
    match op {
      case Remove(keys) =>
        var window := LastN(log, capacity);
        var older := log[..|log| - |window|];
        assert log == older + window;
        KeepConcat(older, window, Survives(keys));
      case _ =>
    }
  }

  /** After any operations whose removals are all seamless, and so after any records, clears and
      loads, the buffer holds the last `capacity` events of the log. */
  lemma {:induction false} BufferIsEndOfLog(capacity: nat, ops: seq<Op>)
    requires capacity > 0
    requires forall i :: 0 <= i < |ops| ==> Seamless(capacity, LogAfter(ops[..i]), ops[i])
    ensures BufferAfter(capacity, ops) == LastN(LogAfter(ops), capacity)
  {
    if |ops| > 0 {
      var init := ops[..|ops| - 1];
      forall i | 0 <= i < |init| ensures Seamless(capacity, LogAfter(init[..i]), init[i]) {
        assert init[..i] == ops[..i];
      }
      BufferIsEndOfLog(capacity, init);
      assert ops[..|init|] == init;
      BoundedRefinesIff(capacity, LogAfter(init), ops[|init|]);
    }
  }

  ghost predicate Suffix(short: seq<Event>, long: seq<Event>) {
    |short| <= |long| && long[|long| - |short|..] == short
  }

  /** Removing keeps a suffix one: the events in front go the same way on both sides. */
  lemma KeepsSuffix(short: seq<Event>, long: seq<Event>, p: Event -> bool)
    requires Suffix(short, long)
    ensures Suffix(Keep(short, p), Keep(long, p)) && |Keep(short, p)| <= |short|
  {
    hide Keep;
    var front := long[..|long| - |short|];
    assert long == front + short;
    KeepConcat(front, short, p);
    assert Keep(long, p)[|Keep(front, p)|..] == Keep(short, p);
  }

  /** After any operations, removals included, the buffer is a suffix of the unbounded log and within
      capacity. It is the last `capacity` events exactly when it is as long as they are. */
  lemma {:induction false} BufferIsSuffix(capacity: nat, ops: seq<Op>)
    ensures Suffix(BufferAfter(capacity, ops), LogAfter(ops)) && |BufferAfter(capacity, ops)| <= capacity
    ensures BufferAfter(capacity, ops) == LastN(LogAfter(ops), capacity) <==>
            |BufferAfter(capacity, ops)| == if |LogAfter(ops)| <= capacity then |LogAfter(ops)| else capacity
  {
    if |ops| > 0 {
      var init, op := ops[..|ops| - 1], ops[|ops| - 1];
      BufferIsSuffix(capacity, init);
      if op.Remove? {
        KeepsSuffix(BufferAfter(capacity, init), LogAfter(init), Survives(op.keys));
      } else {
        OthersKeepSuffix(capacity, BufferAfter(capacity, init), LogAfter(init), op);
      }
    }
  }

  lemma OthersKeepSuffix(capacity: nat, buffer: seq<Event>, log: seq<Event>, op: Op)
    requires Suffix(buffer, log) && |buffer| <= capacity && !op.Remove?
    ensures Suffix(Bounded(capacity, buffer, op), Unbounded(log, op)) && |Bounded(capacity, buffer, op)| <= capacity
  {
  }

  /** Events with other keys, and only those, survive, each as often as before and in order. */
  lemma {:induction false} KeepIsSubsequence(s: seq<Event>, p: Event -> bool, e: Event)
    ensures multiset(Keep(s, p))[e] == if p(e) then multiset(s)[e] else 0
  {
    if |s| > 0 {
      KeepIsSubsequence(s[..|s| - 1], p, e);
      assert s == s[..|s| - 1] + [s[|s| - 1]];
    }
  }

  /** A snapshot carries a buffer over: back into the same memory unchanged, into another one down
      to that one's capacity, and in both cases as the end of the original log. */
  lemma SnapshotTransfers(log: seq<Event>, from: nat, to: nat)
    ensures Bounded(from, LastN(log, from), Load(LastN(log, from))) == LastN(log, from)
    ensures Bounded(to, [], Load(LastN(log, from))) == LastN(log, if to <= from then to else from)
  {
  }

  // ---------------------------------------------------------------- the class

  class Memory {
    const capacity: nat
    var buffer: seq<Event>
    ghost var log: seq<Event>

    /** `log` is what an unbounded memory would hold; a removal starts it afresh. */
    ghost predicate Valid()
      reads this
    {
      capacity > 0 && buffer == LastN(log, capacity)
    }

    constructor (capacity: nat)
      requires capacity > 0
      ensures Valid() && this.capacity == capacity && buffer == [] && log == []
    {
      this.capacity := capacity;
      buffer, log := [], [];
    }

    method Append(event: Event)
      requires Valid()
      modifies this
      ensures Valid() && log == old(log) + [event]
      ensures buffer == Bounded(capacity, old(buffer), Record(event))
    {
      if |buffer| == capacity { buffer := buffer[1..]; }
      buffer := buffer + [event];
      log := log + [event];
    }

    method Recent(n: int) returns (events: seq<Event>)
      requires Valid()
      ensures events == if n <= 0 then [] else LastN(log, if n <= capacity then n else capacity)
    {
      if n <= 0 { return []; }
      events := if n <= |buffer| then buffer[|buffer| - n..] else buffer;
    }

    method Last() returns (event: Option<Event>)
      requires Valid()
      ensures event == if log == [] then None else Some(log[|log| - 1])
    {
      event := if |buffer| > 0 then Some(buffer[|buffer| - 1]) else None;
    }

    method ClearAll()
      requires Valid()
      modifies this
      ensures Valid() && buffer == [] && log == []
    {
      buffer, log := [], [];
    }

    /** The comprehension behind both filters and the removal. */
    method Filter(p: Event -> bool) returns (events: seq<Event>)
      requires Valid()
      ensures events == Keep(LastN(log, capacity), p)
    {
      events := [];
      for i := 0 to |buffer|
        invariant events == Keep(buffer[..i], p)
      {
        assert buffer[..i + 1][..i] == buffer[..i];
        if p(buffer[i]) { events := events + [buffer[i]]; }
      }
      assert buffer[..|buffer|] == buffer;
    }

    method CountRecent(signalType: string, window: int) returns (count: nat)
      requires Valid()
      ensures count == if window <= 0 then 0
                       else |Keep(LastN(log, if window <= capacity then window else capacity),
                                  (e: Event) => e.signalType == signalType)|
    {
      if window <= 0 { return 0; }
      var p := (e: Event) => e.signalType == signalType;
      var events := Recent(window);
      count := 0;
      for i := 0 to |events|
        invariant count == |Keep(events[..i], p)|
      {
        assert events[..i + 1][..i] == events[..i];
        if events[i].signalType == signalType { count := count + 1; }
      }
      assert events[..|events|] == events;
    }

    method Snapshot() returns (events: seq<Event>)
      requires Valid()
      ensures events == LastN(log, capacity)
    {
      events := buffer;
    }

    /** Clears, then appends the snapshot's last `capacity` events one by one. */
    method LoadSnapshot(events: seq<Event>)
      requires Valid()
      modifies this
      ensures Valid() && log == events
      ensures buffer == Bounded(capacity, old(buffer), Load(events))
    {
      var window := LastN(events, capacity);
      ClearAll();
      for i := 0 to |window|
        invariant Valid() && log == window[..i]
      {
        Append(window[i]);
        assert window[..i + 1] == window[..i] + [window[i]];
      }
      log := events;
    }

    /** Rebuilds the buffer from the events whose key is not listed. */
    method RemoveEvents(events: seq<Event>)
      requires Valid()
      modifies this
      ensures Valid() && log == buffer
      ensures buffer == Bounded(capacity, old(buffer), Remove(KeysOf(events)))
      ensures |buffer| <= |old(buffer)|
    {
      hide Keep, KeysOf;
      var keys := KeysOf(events);
      RemovalFits(capacity, buffer, keys);
      if events == [] {
        NoKeys(buffer);
      } else {
        buffer := Filter(Survives(keys));
      }
      log := buffer;
    }
  }

  function KeysOf(events: seq<Event>): set<Key> {
    set e | e in events :: KeyOf(e)
  }

  lemma NoKeys(buffer: seq<Event>)
    ensures Keep(buffer, Survives(KeysOf([]))) == buffer
  {
    KeepAll(buffer, Survives(KeysOf([])));
  }

  lemma RemovalFits(capacity: nat, buffer: seq<Event>, keys: set<Key>)
    requires |buffer| <= capacity
    ensures |Keep(buffer, Survives(keys))| <= |buffer|
    ensures LastN(Keep(buffer, Survives(keys)), capacity) == Keep(buffer, Survives(keys))
  {
    KeepConcat([], buffer, Survives(keys));
  }

  /** The constructor's caller: only a positive capacity makes a memory. */
  method NewMemory(capacity: int) returns (memory: Option<Memory>)
    ensures memory.Some? <==> capacity > 0
    ensures memory.Some? ==>
              && fresh(memory.value) && memory.value.Valid()
              && memory.value.capacity == capacity && memory.value.log == []
  {
    if capacity <= 0 { return None; }
    var m := new Memory(capacity);
    memory := Some(m);
  }

  lemma {:induction false} KeepAll(s: seq<Event>, p: Event -> bool)
    requires forall e :: e in s ==> p(e)
    ensures Keep(s, p) == s
  {
    if |s| > 0 { KeepAll(s[..|s| - 1], p); }
  }
}
