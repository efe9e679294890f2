/** The communicators of active sets: cached ones, and ones that live for one collective. */
module CommCache {
  import opened Words
  import opened BigCount

  const COMM_NULL: int := -1
  const COMM_WORLD: int := 0
  const UNDEFINED: int := -1
  const CACHE_SIZE: nat := 16

  datatype Entry = Entry(start: int, logs: int, size: int, comm: int, group: seq<int>)

  const EMPTY: Entry := Entry(-1, -1, -1, COMM_NULL, [])

  /** What the cache is searched for. */
  datatype Key = Key(start: int, logs: int, size: int)

  function KeyOf(e: Entry): Key { Key(e.start, e.logs, e.size) }

  /** The PEs of an active set in order: `start + i * 2^logs`. */
  function Strided(start: int, logs: nat, size: nat): (g: seq<int>)
    ensures |g| == size && forall i :: 0 <= i < size ==> g[i] == start + i * Pow2(logs)
  {
    if size == 0 then [] else Strided(start, logs, size - 1) + [start + (size - 1) * Pow2(logs)]
  }

  /** `MPI_Group_translate_ranks` from the world: the position of a PE in a group. */
  function RankIn(g: seq<int>, pe: int): int {
    if g == [] then UNDEFINED else if g[|g| - 1] == pe then |g| - 1 else RankIn(g[..|g| - 1], pe)
  }

  lemma {:induction false} RankOfMember(start: int, logs: nat, size: nat, i: nat)
    requires i < size
    ensures RankIn(Strided(start, logs, size), start + i * Pow2(logs)) == i
  {
    var g := Strided(start, logs, size);
    assert g[..size - 1] == Strided(start, logs, size - 1);
    if i < size - 1 {
      Ordered(i, size - 1, Pow2(logs));
      RankOfMember(start, logs, size - 1, i);
    }
  }

  lemma Ordered(i: nat, j: nat, w: nat)
    requires i < j && w > 0
    ensures i * w < j * w
  {}

  predicate ActiveSet(worldSize: nat, start: int, logs: int, size: int) {
    0 <= start && 0 <= logs && 0 < size && start + (size - 1) * Pow2(logs) < worldSize
  }

  ghost predicate In(entries: seq<Entry>, comm: int) { exists i :: 0 <= i < |entries| && entries[i].comm == comm }

  /** Some slot has a communicator of the active set. */
  ghost predicate Has(entries: seq<Entry>, k: Key, comm: int) {
    exists i :: 0 <= i < |entries| && entries[i].comm == comm && KeyOf(entries[i]) == k
  }

  /** The slots in use come first, and each one is for another active set. */
  ghost predicate FilledInOrder(entries: seq<Entry>) {
    forall i, j :: 0 <= i < j < |entries| && entries[j].comm != COMM_NULL ==>
      entries[i].comm != COMM_NULL && KeyOf(entries[i]) != KeyOf(entries[j])
  }

  /** The first empty slot takes the entry, if there is one; nothing else changes. */
  ghost predicate Stored(before: seq<Entry>, after: seq<Entry>, e: Entry) {
    && |after| == |before|
    && forall i :: 0 <= i < |before| ==>
      after[i] ==
        if before[i].comm == COMM_NULL && (forall j :: 0 <= j < i ==> before[j].comm != COMM_NULL) then e
        else before[i]
  }

  /** So no communicator leaves the cache, and with room the new one is in it. */
  lemma StoredKeeps(before: seq<Entry>, after: seq<Entry>, e: Entry, k: Key, c: int)
    requires Stored(before, after, e) && c != COMM_NULL
    ensures In(before, c) ==> In(after, c)
    ensures Has(before, k, c) ==> Has(after, k, c)
    ensures In(after, c) ==> In(before, c) || c == e.comm
  {
    if In(before, c) {
      var j :| 0 <= j < |before| && before[j].comm == c;
      assert after[j].comm == c;
    }
    if Has(before, k, c) {
      var j :| 0 <= j < |before| && before[j].comm == c && KeyOf(before[j]) == k;
      assert after[j] == before[j];
    }
  }

  /** The active sets of the slots in use. */
  function KeysOf(entries: seq<Entry>): set<Key> {
    set i | 0 <= i < |entries| && entries[i].comm != COMM_NULL :: KeyOf(entries[i])
  }

  /** A full cache holds as many active sets as it has slots. */
  lemma {:induction false} KeysCounted(entries: seq<Entry>)
    requires FilledInOrder(entries) && forall i :: 0 <= i < |entries| ==> entries[i].comm != COMM_NULL
    ensures |KeysOf(entries)| == |entries|
  {
    if entries != [] {
      var n := |entries| - 1;
      KeysCounted(entries[..n]);
      var k := KeyOf(entries[n]);
      assert k !in KeysOf(entries[..n]);
      forall x | x in KeysOf(entries) ensures x in KeysOf(entries[..n]) + {k} {
        var i :| 0 <= i < |entries| && KeyOf(entries[i]) == x;
        if i < n { assert entries[..n][i] == entries[i]; }
      }
      forall x | x in KeysOf(entries[..n]) + {k} ensures x in KeysOf(entries) {
        if x in KeysOf(entries[..n]) {
          var i :| 0 <= i < n && KeyOf(entries[..n][i]) == x;
          assert KeyOf(entries[i]) == x;
        }
      }
      assert KeysOf(entries) == KeysOf(entries[..n]) + {k};
    }
  }

  function NewEntry(start: int, logs: nat, size: nat, comm: int): Entry {
    Entry(start, logs, size, comm, Strided(start, logs, size))
  }

  // ----- collectives one after the other -----

  /** What one collective on the active set of `e` does to the cache, when `next` is the next new communicator. */
  ghost predicate Took(before: seq<Entry>, after: seq<Entry>, next: int, next': int, e: Entry) {
    if e.comm == COMM_WORLD || Has(before, KeyOf(e), e.comm) then after == before && next' == next
    else
      && e.comm == next && next' == next + 1 && (forall i :: 0 <= i < |before| ==> KeyOf(before[i]) != KeyOf(e))
      && Stored(before, after, e)
  }

  /** A communicator that an earlier collective on the active set used; it is in the cache for no other one. */
  ghost predicate Known(entries: seq<Entry>, next: int, k: Key, comm: int) {
    COMM_NULL < comm < next && (In(entries, comm) ==> Has(entries, k, comm))
  }

  /** It is there for later collectives. */
  ghost predicate Stays(entries: seq<Entry>, comm: int) { comm == COMM_WORLD || In(entries, comm) }

  /** Collectives on the same active set use the same communicator once it stays. */
  ghost predicate History(entries: seq<Entry>, next: int, world: Key, sets: seq<Key>, comms: seq<int>) {
    && |comms| == |sets|
    && (forall i :: 0 <= i < |sets| ==>
      Known(entries, next, sets[i], comms[i]) && (comms[i] == COMM_WORLD <==> sets[i] == world))
    && (forall i, j :: 0 <= i < j < |sets| && sets[i] == sets[j] && Stays(entries, comms[i]) ==> comms[j] == comms[i])
  }

  /** The same ones of them are in the cache. */
  ghost predicate SameKept(before: seq<Entry>, after: seq<Entry>, comms: seq<int>) {
    forall i :: 0 <= i < |comms| ==> (In(before, comms[i]) <==> In(after, comms[i]))
  }

  lemma KnownStays(before: seq<Entry>, after: seq<Entry>, next: int, next': int, e: Entry, k: Key, comm: int)
    requires Took(before, after, next, next', e) && Known(before, next, k, comm) && 0 <= next
    ensures Known(after, next', k, comm) && (In(before, comm) <==> In(after, comm))
  {
    if e.comm != COMM_WORLD && !Has(before, KeyOf(e), e.comm) { StoredKeeps(before, after, e, k, comm); }
  }

  lemma KnownNow(before: seq<Entry>, after: seq<Entry>, next: int, next': int, e: Entry)
    requires Took(before, after, next, next', e) && 0 <= e.comm < next' && !In(before, next) && !In(before, COMM_WORLD)
    ensures Known(after, next', KeyOf(e), e.comm)
  {
    if e.comm != COMM_WORLD && !Has(before, KeyOf(e), e.comm) && In(after, e.comm) {
      var i :| 0 <= i < |after| && after[i].comm == e.comm;
      assert before[i].comm != next;
      assert after[i] == e;
    }
  }

  lemma SameAgain(before: seq<Entry>, after: seq<Entry>, next: int, next': int, e: Entry, comm: int)
    requires Took(before, after, next, next', e) && FilledInOrder(before) && Has(before, KeyOf(e), comm)
    requires comm != COMM_NULL && e.comm !in {COMM_NULL, COMM_WORLD}
    ensures e.comm == comm
  {
    var i :| 0 <= i < |before| && before[i].comm == comm && KeyOf(before[i]) == KeyOf(e);
    if Has(before, KeyOf(e), e.comm) {
      var j :| 0 <= j < |before| && before[j].comm == e.comm && KeyOf(before[j]) == KeyOf(e);
      assert i == j;
    }
  }

  lemma HistoryGrows(before: seq<Entry>, after: seq<Entry>, next: int, next': int, e: Entry, world: Key,
    sets: seq<Key>, comms: seq<int>)
    requires History(before, next, world, sets, comms) && Took(before, after, next, next', e) && FilledInOrder(before)
    requires 0 <= e.comm < next' && 0 <= next && !In(before, next) && !In(before, COMM_WORLD)
    requires e.comm == COMM_WORLD <==> KeyOf(e) == world
    ensures History(after, next', world, sets + [KeyOf(e)], comms + [e.comm])
    ensures SameKept(before, after, comms)
  {
    hide In, Has, Stored, FilledInOrder, Took;
    forall i | 0 <= i < |sets| ensures Known(after, next', sets[i], comms[i])
      ensures In(before, comms[i]) <==> In(after, comms[i])
      ensures sets[i] == KeyOf(e) && Stays(after, comms[i]) ==> e.comm == comms[i]
    {
      KnownStays(before, after, next, next', e, sets[i], comms[i]);
      if sets[i] == KeyOf(e) && comms[i] != COMM_WORLD && In(before, comms[i]) {
        SameAgain(before, after, next, next', e, comms[i]);
      }
    }
    KnownNow(before, after, next, next', e);
  }

  /** While the active sets fit into the cache, the one of this collective is in it afterwards. */
  lemma RoomForAll(before: seq<Entry>, after: seq<Entry>, next: int, next': int, e: Entry, wanted: set<Key>)
    requires Took(before, after, next, next', e) && FilledInOrder(before) && KeysOf(before) <= wanted
    requires KeyOf(e) in wanted && e.comm != COMM_NULL
    ensures KeysOf(after) <= wanted && (|wanted| <= |before| ==> Stays(after, e.comm))
  {
    if e.comm != COMM_WORLD && !Has(before, KeyOf(e), e.comm) {
      KeysGrow(before, after, e, wanted);
      if i :| 0 <= i < |before| && before[i].comm == COMM_NULL {
        var j := FirstEmpty(before, i);
        assert after[j] == e;
      } else {
        KeysCounted(before);
        assert KeyOf(e) !in KeysOf(before);
        Smaller(KeysOf(before) + {KeyOf(e)}, wanted);
      }
    }
  }

  lemma KeysGrow(before: seq<Entry>, after: seq<Entry>, e: Entry, wanted: set<Key>)
    requires Stored(before, after, e) && KeysOf(before) <= wanted && KeyOf(e) in wanted
    ensures KeysOf(after) <= wanted
  {
    forall x | x in KeysOf(after) ensures x in wanted {
      var i :| 0 <= i < |after| && after[i].comm != COMM_NULL && KeyOf(after[i]) == x;
      if after[i] != e {
        assert before[i] == after[i];
        assert x in KeysOf(before);
      }
    }
  }

  /** What is left of the collectives: the communicators that are in the cache. */
  ghost predicate Remains(entries: seq<Entry>, first: map<int, seq<int>>, live: map<int, seq<int>>, comms: seq<int>) {
    forall c :: c in live <==> c in first || (c in comms && In(entries, c))
  }

  lemma RemainsGrows(before: seq<Entry>, after: seq<Entry>, first: map<int, seq<int>>, live: map<int, seq<int>>,
    live': map<int, seq<int>>, comms: seq<int>, comm: int, g: seq<int>)
    requires Remains(before, first, live, comms) && SameKept(before, after, comms)
    requires live' == if comm in live || !In(after, comm) then live else live[comm := g]
    ensures Remains(after, first, live', comms + [comm])
  {}

  ghost predicate AllStay(entries: seq<Entry>, comms: seq<int>) {
    forall i :: 0 <= i < |comms| ==> Stays(entries, comms[i])
  }

  lemma NothingYet(entries: seq<Entry>, next: int, world: Key, live: map<int, seq<int>>)
    ensures History(entries, next, world, [], []) && AllStay(entries, []) && Remains(entries, live, live, [])
  {}

  lemma AllStayGrows(before: seq<Entry>, after: seq<Entry>, comms: seq<int>, comm: int)
    requires AllStay(before, comms) && Stays(after, comm)
    requires SameKept(before, after, comms)
    ensures AllStay(after, comms + [comm])
  {}

  lemma {:induction false} Smaller(a: set<Key>, b: set<Key>)
    requires a <= b
    ensures |a| <= |b|
  {
    assert a + (b - a) == b;
  }

  lemma {:induction false} FirstEmpty(entries: seq<Entry>, i: nat) returns (j: nat)
    requires i < |entries| && entries[i].comm == COMM_NULL
    ensures j <= i && entries[j].comm == COMM_NULL && forall k :: 0 <= k < j ==> entries[k].comm != COMM_NULL
  {
    j := i;
    if k :| 0 <= k < i && entries[k].comm == COMM_NULL { j := FirstEmpty(entries, k); }
  }

  class Table {
    const worldSize: nat
    const cache: array<Entry>
    /** The communicators that exist, with their groups; what `MPI_Comm_create_group` returns next. */
    var live: map<int, seq<int>>
    var nextComm: int

    predicate IsWorld(start: int, logs: int, size: int) { start == 0 && logs == 0 && size == worldSize }

    ghost predicate EntryOk(e: Entry)
      reads this
    {
      if e.comm == COMM_NULL then e.start == -1
      else
        && e.comm != COMM_WORLD && e.comm in live
        && ActiveSet(worldSize, e.start, e.logs, e.size) && !IsWorld(e.start, e.logs, e.size)
        && e.group == Strided(e.start, e.logs, e.size) && live[e.comm] == e.group
    }

    ghost predicate Valid()
      reads this, cache
    {
      && nextComm > COMM_WORLD && (forall c :: c in live ==> COMM_WORLD <= c < nextComm)
      && COMM_WORLD in live && live[COMM_WORLD] == Strided(0, 0, worldSize)
      && cache.Length == CACHE_SIZE
      && (forall i :: 0 <= i < cache.Length ==> EntryOk(cache[i]))
      && FilledInOrder(cache[..])
    }

    /** Some slot of the cache has the communicator. */
    ghost predicate Cached(comm: int)
      reads this, cache
    {
      In(cache[..], comm)
    }

    constructor (n: nat)
      requires n > 0
      ensures Valid() && worldSize == n && fresh(cache) && live == map[COMM_WORLD := Strided(0, 0, n)]
      ensures forall i :: 0 <= i < cache.Length ==> cache[i] == EMPTY
    {
      worldSize := n;
      cache := new Entry[CACHE_SIZE](i => EMPTY);
      live := map[COMM_WORLD := Strided(0, 0, n)];
      nextComm := COMM_WORLD + 1;
    }

    /** The list of PEs that `oshmpi_acquire_comm` builds. */
    method PeList(start: int, logs: nat, size: nat) returns (g: seq<int>)
      ensures g == Strided(start, logs, size)
    {
      var list := new int[size];
      var stride := Pow2(logs);
      var i := 0;
      while i < size
        invariant i <= size && list[..i] == Strided(start, logs, i)
      {
        list[i] := start + i * stride;
        i := i + 1;
      }
      g := list[..];
    }

    /** `oshmpi_acquire_comm`: the world, a cached communicator, or a new one, which is cached while there is room. The
        communicator has the ordered group of the active set, and the root is translated into it. */
    method Acquire(start: int, logs: int, size: int, root: int, broot0: int) returns (comm: int, broot: int)
      requires Valid() && ActiveSet(worldSize, start, logs, size) && root < worldSize
      modifies cache, `live, `nextComm
      ensures Valid() && comm in live && COMM_WORLD <= comm < nextComm && live[comm] == Strided(start, logs, size)
      ensures root >= 0 ==> broot == RankIn(Strided(start, logs, size), root)
      ensures root < 0 ==> broot == if IsWorld(start, logs, size) then root else broot0
      ensures IsWorld(start, logs, size) <==> comm == COMM_WORLD
      ensures Took(old(cache[..]), cache[..], old(nextComm), nextComm, NewEntry(start, logs, size, comm))
      ensures comm in old(live) <==> comm == COMM_WORLD || Has(old(cache[..]), Key(start, logs, size), comm)
      ensures live == if comm in old(live) then old(live) else old(live)[comm := Strided(start, logs, size)]
    {
      broot := broot0;
      if start == 0 && logs == 0 && size == worldSize {
        WorldRank(root);
        comm := COMM_WORLD;
        broot := root;
      } else {
        var i := Find(start, logs, size);
        if i < cache.Length {
          comm := cache[i].comm;
          assert cache[..][i] == cache[i];
          if root >= 0 {
            broot := RankIn(cache[i].group, root);
          }
        } else {
          comm := Create(start, logs, size);
          if root >= 0 {
            broot := RankIn(live[comm], root);
          }
        }
      }
    }

    lemma NewIsNotCached()
      requires Valid()
      ensures FilledInOrder(cache[..]) && |cache[..]| == CACHE_SIZE && COMM_WORLD < nextComm
      ensures !In(cache[..], nextComm) && !In(cache[..], COMM_WORLD)
    {
      assert forall i :: 0 <= i < cache.Length ==> EntryOk(cache[i]);
    }

    /** The search for a cached communicator of the active set. */
    method Find(start: int, logs: int, size: int) returns (i: nat)
      requires Valid() && ActiveSet(worldSize, start, logs, size)
      ensures i <= cache.Length
      ensures i < cache.Length ==>
        cache[i].comm != COMM_NULL && KeyOf(cache[i]) == Key(start, logs, size) && EntryOk(cache[i])
      ensures forall j :: 0 <= j < i ==> KeyOf(cache[j]) != Key(start, logs, size)
    {
      i := 0;
      while i < cache.Length && !(start == cache[i].start && logs == cache[i].logs && size == cache[i].size)
        invariant i <= cache.Length
        invariant forall j :: 0 <= j < i ==> KeyOf(cache[j]) != Key(start, logs, size)
      {
        i := i + 1;
      }
      assert i < cache.Length ==> EntryOk(cache[i]);
    }

    /** `MPI_Group_incl`, `MPI_Comm_create_group`, and the first free slot of the cache, when there is one. */
    method Create(start: int, logs: int, size: int) returns (comm: int)
      requires Valid() && ActiveSet(worldSize, start, logs, size) && !IsWorld(start, logs, size)
      requires forall i :: 0 <= i < cache.Length ==> KeyOf(cache[i]) != Key(start, logs, size)
      modifies cache, `live, `nextComm
      ensures Valid() && comm !in old(live) && comm != COMM_WORLD && comm == old(nextComm) == nextComm - 1
      ensures live == old(live)[comm := Strided(start, logs, size)]
      ensures Stored(old(cache[..]), cache[..], NewEntry(start, logs, size, comm))
    {
      var group := PeList(start, logs, size);
      comm := nextComm;
      nextComm := nextComm + 1;
      ghost var before := live;
      live := live[comm := group];
      var i := 0;
      while i < cache.Length && cache[i].comm != COMM_NULL
        invariant i <= cache.Length
        invariant forall j :: 0 <= j < i ==> cache[j].comm != COMM_NULL
      {
        i := i + 1;
      }
      forall j | 0 <= j < cache.Length ensures EntryOk(cache[j]) {
        assert cache[j].comm == COMM_NULL || cache[j].comm in before;
      }
      if i < cache.Length {
        cache[i] := Entry(start, logs, size, comm, group);
      }
    }

    lemma WorldRank(root: int)
      ensures 0 <= root < worldSize ==> RankIn(Strided(0, 0, worldSize), root) == root
    {
      if 0 <= root < worldSize { RankOfMember(0, 0, worldSize, root); }
    }

    /** `oshmpi_release_comm`: the world and cached communicators stay, any other one is freed. */
    method Release(start: int, logs: int, size: int, comm: int)
      requires Valid() && comm in live && (IsWorld(start, logs, size) <==> comm == COMM_WORLD)
      modifies `live
      ensures Valid()
      ensures live == if comm == COMM_WORLD || Cached(comm) then old(live) else old(live) - {comm}
    {
      if start == 0 && logs == 0 && size == worldSize {
        return;
      }
      var i := 0;
      while i < cache.Length
        invariant i <= cache.Length
        invariant forall j :: 0 <= j < i ==> cache[j].comm != comm
      {
        if cache[i].comm == comm {
          return;
        }
        i := i + 1;
      }
      ghost var before := live;
      live := live - {comm};
      forall j | 0 <= j < cache.Length ensures EntryOk(cache[j]) {
        assert cache[j].comm == COMM_NULL || cache[j].comm in before;
      }
    }

    /** One collective: whatever was acquired for it and is not cached is gone afterwards; nothing else is. */
    method Collective(start: int, logs: int, size: int, root: int) returns (ghost comm: int, ghost broot: int)
      requires Valid() && ActiveSet(worldSize, start, logs, size) && root < worldSize
      modifies cache, `live, `nextComm
      ensures Valid()
      ensures root >= 0 ==> broot == RankIn(Strided(start, logs, size), root)
      ensures COMM_WORLD <= comm < nextComm && (IsWorld(start, logs, size) <==> comm == COMM_WORLD)
      ensures Took(old(cache[..]), cache[..], old(nextComm), nextComm, NewEntry(start, logs, size, comm))
      ensures comm in old(live) <==> comm == COMM_WORLD || Has(old(cache[..]), Key(start, logs, size), comm)
      ensures live ==
        if comm in old(live) || !Cached(comm) then old(live) else old(live)[comm := Strided(start, logs, size)]
    {
      var c, b := Acquire(start, logs, size, root, 0);
      comm, broot := c, b;
      if c in old(live) && c != COMM_WORLD { CachedIfHas(Key(start, logs, size), c); }
      Release(start, logs, size, c);
    }

    /** Collectives one after the other. Once a communicator stays, all later ones on the same active set use it; and
        while the active sets all have room in the cache, each of them has one that stays. */
    method Collectives(sets: seq<Key>, roots: seq<int>) returns (ghost comms: seq<int>)
      requires Valid() && |roots| == |sets|
      requires forall i :: 0 <= i < |sets| ==>
        ActiveSet(worldSize, sets[i].start, sets[i].logs, sets[i].size) && roots[i] < worldSize
      modifies cache, `live, `nextComm
      ensures Valid() && History(cache[..], nextComm, Key(0, 0, worldSize), sets, comms)
      ensures |KeysOf(old(cache[..])) + (set k | k in sets)| <= CACHE_SIZE ==> AllStay(cache[..], comms)
      ensures Remains(cache[..], old(live), live, comms)
    {
      hide In, Has, KeysOf, Stored, FilledInOrder, History, Valid, Took, Strided, Remains, AllStay, Stays, SameKept;
      hide Known, EntryOk;
      comms := [];
      ghost var served: seq<Key> := [];
      ghost var wanted := KeysOf(cache[..]) + (set k | k in sets);
      NothingYet(cache[..], nextComm, Key(0, 0, worldSize), live);
      var n := 0;
      while n < |sets|
        invariant n <= |sets| && Valid() && History(cache[..], nextComm, Key(0, 0, worldSize), served, comms)
        invariant served == sets[..n]
        invariant KeysOf(cache[..]) <= wanted
        invariant |wanted| <= CACHE_SIZE ==> AllStay(cache[..], comms)
        invariant Remains(cache[..], old(live), live, comms)
      {
        NewIsNotCached();
        var k := sets[n];
        ghost var before, next, now := cache[..], nextComm, live;
        ghost var comm, broot := Collective(k.start, k.logs, k.size, roots[n]);
        ghost var e := NewEntry(k.start, k.logs, k.size, comm);
        HistoryGrows(before, cache[..], next, nextComm, e, Key(0, 0, worldSize), served, comms);
        RoomForAll(before, cache[..], next, nextComm, e, wanted);
        if |wanted| <= CACHE_SIZE { AllStayGrows(before, cache[..], comms, comm); }
        RemainsGrows(before, cache[..], old(live), now, live, comms, comm, e.group);
        comms := comms + [e.comm];
        assert KeyOf(e) == k;
        served := served + [k];
        n := n + 1;
      }
      assert served == sets;
    }

    lemma CachedIfHas(k: Key, comm: int)
      requires Has(cache[..], k, comm)
      ensures Cached(comm)
    {}
  }

  // ----- the broadcast and collect arms of oshmpi_coll -----

  /** `MPI_Bcast` on the buffers of a group: all become that of rank `broot`. */
  function Bcast<T>(bufs: seq<T>, broot: int): (r: seq<T>)
    requires 0 <= broot < |bufs|
    ensures |r| == |bufs| && forall i :: 0 <= i < |r| ==> r[i] == bufs[broot]
  {
    seq(|bufs|, i => bufs[broot])
  }

  /** Every PE passes its target, the root its source. */
  function BcastBuffers<T>(g: seq<int>, sources: seq<T>, targets: seq<T>, root: int): (r: seq<T>)
    requires |sources| == |targets| == |g|
    ensures |r| == |g| && forall i :: 0 <= i < |g| ==> r[i] == if g[i] == root then sources[i] else targets[i]
  {
    seq(|g|, i requires 0 <= i < |g| => if g[i] == root then sources[i] else targets[i])
  }

  /** The targets afterwards: those that were passed to `MPI_Bcast` hold what it left there, and the root's own was not
      passed. */
  function TargetsAfter<T>(g: seq<int>, sources: seq<T>, targets: seq<T>, root: int): (r: seq<T>)
    requires |sources| == |targets| == |g| && 0 <= RankIn(g, root) < |g|
    ensures |r| == |g|
  {
    var bufs := Bcast(BcastBuffers(g, sources, targets, root), RankIn(g, root));
    seq(|g|, k requires 0 <= k < |g| => if g[k] == root then targets[k] else bufs[k])
  }

  /** With the translated root, every other PE's target holds the root's source, and the root's own target is as it
      was. */
  lemma BroadcastDelivers<T>(start: int, logs: nat, size: nat, sources: seq<T>, targets: seq<T>, i: nat, k: nat)
    requires |sources| == |targets| == size && i < size && k < size
    ensures var g := Strided(start, logs, size);
      && 0 <= RankIn(g, g[i]) < |g|
      && TargetsAfter(g, sources, targets, g[i])[k] == if k == i then targets[i] else sources[i]
  {
    RankOfMember(start, logs, size, i);
    RankOfMember(start, logs, size, k);
  }

  // ----- collect -----

  function Sum(counts: seq<nat>): nat { if counts == [] then 0 else Sum(counts[..|counts| - 1]) + counts[|counts| - 1] }

  function Flatten<T>(parts: seq<seq<T>>): seq<T> {
    if parts == [] then [] else Flatten(parts[..|parts| - 1]) + parts[|parts| - 1]
  }

  function Lengths<T>(parts: seq<seq<T>>): (r: seq<nat>)
    ensures |r| == |parts| && forall i :: 0 <= i < |r| ==> r[i] == |parts[i]|
  {
    seq(|parts|, i requires 0 <= i < |parts| => |parts[i]|)
  }

  /** The displacements of the collect arm: sums of the counts before, in `int` arithmetic. */
  method Displacements(rcounts: seq<nat>) returns (rdispls: array<int>)
    requires |rcounts| > 0
    ensures rdispls.Length == |rcounts|
    ensures forall i :: 0 <= i < |rcounts| ==> rdispls[i] == AsInt(Sum(rcounts[..i]))
  {
    rdispls := new int[|rcounts|];
    rdispls[0] := 0;
    var i := 1;
    while i < |rcounts|
      invariant 1 <= i <= |rcounts|
      invariant forall j :: 0 <= j < i ==> rdispls[j] == AsInt(Sum(rcounts[..j]))
    {
      assert rcounts[..i][..i - 1] == rcounts[..i - 1];
      AddedAsInt(Sum(rcounts[..i - 1]), rcounts[i - 1]);
      rdispls[i] := AsInt(rdispls[i - 1] + rcounts[i - 1]);
      i := i + 1;
    }
  }

  lemma AddedAsInt(a: int, b: int)
    ensures AsInt(AsInt(a) + b) == AsInt(a + b)
  {}

  lemma {:induction false} SumGrows(counts: seq<nat>, i: nat, j: nat)
    requires i <= j <= |counts|
    ensures Sum(counts[..i]) <= Sum(counts[..j])
  {
    if i < j {
      SumGrows(counts, i, j - 1);
      assert counts[..j][..j - 1] == counts[..j - 1];
    }
  }

  /** All displacements are the sums exactly when the last one is an `int`. */
  lemma DisplacementsExact(rcounts: seq<nat>)
    requires |rcounts| > 0
    ensures (forall i :: 0 <= i < |rcounts| ==> AsInt(Sum(rcounts[..i])) == Sum(rcounts[..i])) <==>
      Sum(rcounts[..|rcounts| - 1]) <= INT_MAX
  {
    var n := |rcounts| - 1;
    forall i | 0 <= i < |rcounts| && Sum(rcounts[..n]) <= INT_MAX
      ensures AsInt(Sum(rcounts[..i])) == Sum(rcounts[..i])
    {
      SumGrows(rcounts, i, n);
    }
    assert AsInt(Sum(rcounts[..n])) == Sum(rcounts[..n]) ==> Sum(rcounts[..n]) <= INT_MAX;
  }

  /** Three PEs with 2^30 elements each: the last displacement is negative. */
  lemma ThreeLargeOverflow()
    ensures var c: seq<nat> := [0x4000_0000, 0x4000_0000, 0x4000_0000]; AsInt(Sum(c[..2])) == -0x8000_0000
  {
    var c: seq<nat> := [0x4000_0000, 0x4000_0000, 0x4000_0000];
    assert c[..2][..1] == c[..1] && c[..1][..0] == [];
    assert c[..2][1] == 0x4000_0000 && c[..1][0] == 0x4000_0000;
    assert Sum(c[..1]) == Sum(c[..1][..0]) + 0x4000_0000;
    assert Sum(c[..2]) == Sum(c[..2][..1]) + 0x4000_0000;
  }

  /** With `len` elements a PE takes part with `len` of its type, or with one of a type made of all of them. */
  function CountOf(len: nat): nat { if len < INT_MAX then len else 1 }

  function UnitOf(len: nat): nat { if len < INT_MAX then 1 else len }

  function Counts(lens: seq<nat>): (r: seq<nat>)
    ensures |r| == |lens| && forall i :: 0 <= i < |r| ==> r[i] == CountOf(lens[i])
  {
    seq(|lens|, i requires 0 <= i < |lens| => CountOf(lens[i]))
  }

  /** Where `MPI_Allgatherv` on PE `k` puts the contribution of PE `i`, in elements: displacement and count are in units
      of the type that PE `k` has passed. */
  function OffsetAt(lens: seq<nat>, k: nat, i: nat): int
    requires k < |lens| && i < |lens|
  {
    AsInt(Sum(Counts(lens)[..i])) * UnitOf(lens[k])
  }

  function SizeAt(lens: seq<nat>, k: nat, i: nat): nat
    requires k < |lens| && i < |lens|
  {
    CountOf(lens[i]) * UnitOf(lens[k])
  }

  /** That is where the concatenation has it. */
  predicate InPlace(lens: seq<nat>, k: nat, i: nat) {
    && k < |lens| && i < |lens| && SizeAt(lens, k, i) == lens[i]
    && (lens[i] > 0 ==> OffsetAt(lens, k, i) == Sum(lens[..i]))
  }

  predicate AllSmall(lens: seq<nat>) { forall i :: 0 <= i < |lens| ==> lens[i] < INT_MAX }

  /** All lengths are below `INT32_MAX` and every contribution that is not empty starts within an `int`, or all lengths
      are the same and not below it. */
  predicate Collectable(lens: seq<nat>) {
    if AllSmall(lens) then forall i :: 0 <= i < |lens| && lens[i] > 0 ==> Sum(lens[..i]) <= INT_MAX
    else forall i :: 0 <= i < |lens| ==> lens[i] == lens[0]
  }

  lemma {:induction false} SumOfSame(counts: seq<nat>, v: nat)
    requires forall i :: 0 <= i < |counts| ==> counts[i] == v
    ensures Sum(counts) == |counts| * v
  {
    if counts != [] {
      SumOfSame(counts[..|counts| - 1], v);
      assert |counts| * v == (|counts| - 1) * v + v;
    }
  }

  lemma SmallInPlace(lens: seq<nat>, k: nat, i: nat)
    requires AllSmall(lens) && k < |lens| && i < |lens|
    ensures InPlace(lens, k, i) <==> (lens[i] > 0 ==> Sum(lens[..i]) <= INT_MAX)
  {
    assert Counts(lens) == lens;
    assert UnitOf(lens[k]) == 1;
  }

  lemma LargeInPlace(lens: seq<nat>, k: nat, i: nat)
    requires |lens| <= INT_MAX && k < |lens| && i < |lens|
    requires forall j :: 0 <= j < |lens| ==> lens[j] == lens[0] >= INT_MAX
    ensures InPlace(lens, k, i)
  {
    SumOfSame(lens[..i], lens[0]);
    SumOfSame(Counts(lens)[..i], 1);
  }

  /** A length that does not fit an `int` and another one: what the other PE expects of the first is of another size. */
  lemma MixedFails(lens: seq<nat>, k: nat, i: nat)
    requires k < |lens| && i < |lens| && lens[i] >= INT_MAX && lens[k] != lens[i]
    ensures !InPlace(lens, k, i)
  {
    assert SizeAt(lens, k, i) == UnitOf(lens[k]);
  }

  /** On every PE every contribution ends up where the concatenation has it exactly when that holds of the lengths. */
  lemma CollectsExactly(lens: seq<nat>)
    requires |lens| <= INT_MAX
    ensures (forall k, i :: 0 <= k < |lens| && 0 <= i < |lens| ==> InPlace(lens, k, i)) <==> Collectable(lens)
  {
    hide InPlace;
    if AllSmall(lens) {
      forall k, i | 0 <= k < |lens| && 0 <= i < |lens|
        ensures InPlace(lens, k, i) <==> (lens[i] > 0 ==> Sum(lens[..i]) <= INT_MAX)
      {
        SmallInPlace(lens, k, i);
      }
      forall i | 0 <= i < |lens| && lens[i] > 0 && InPlace(lens, 0, i) ensures Sum(lens[..i]) <= INT_MAX {
        SmallInPlace(lens, 0, i);
      }
    } else if Collectable(lens) {
      forall k, i | 0 <= k < |lens| && 0 <= i < |lens| ensures InPlace(lens, k, i) { LargeInPlace(lens, k, i); }
    } else {
      var i, k := Mixed(lens);
      MixedFails(lens, k, i);
    }
  }

  lemma Mixed(lens: seq<nat>) returns (i: nat, k: nat)
    requires !AllSmall(lens) && !Collectable(lens)
    ensures i < |lens| && k < |lens| && lens[i] >= INT_MAX && lens[k] != lens[i]
  {
    i :| 0 <= i < |lens| && lens[i] >= INT_MAX;
    var j :| 0 <= j < |lens| && lens[j] != lens[0];
    k := if lens[j] != lens[i] then j else 0;
  }

  /** Lengths 2^31 and 1: both counts are 1, and the second PE takes one element of the first for all of them. */
  lemma MixedLengths()
    ensures var l: seq<nat> := [0x8000_0000, 1]; Counts(l) == [1, 1] && SizeAt(l, 1, 0) == 1 && !Collectable(l)
  {
    var l: seq<nat> := [0x8000_0000, 1];
    assert l[0] >= INT_MAX && l[1] != l[0];
  }

  /** In the concatenation every contribution starts at the sum of the lengths before. */
  lemma {:induction false} CollectConcatenates<T>(parts: seq<seq<T>>, i: nat)
    requires i < |parts|
    ensures var d := Sum(Lengths(parts)[..i]);
      && d + |parts[i]| <= |Flatten(parts)| == Sum(Lengths(parts))
      && Flatten(parts)[d..d + |parts[i]|] == parts[i]
  {
    var n := |parts| - 1;
    var front := parts[..n];
    FlatLength(front);
    assert Lengths(parts)[..n] == Lengths(front);
    if i < n {
      CollectConcatenates(front, i);
      assert Lengths(parts)[..i] == Lengths(front)[..i];
    }
  }

  lemma {:induction false} FlatLength<T>(parts: seq<seq<T>>)
    ensures |Flatten(parts)| == Sum(Lengths(parts))
  {
    if parts != [] {
      FlatLength(parts[..|parts| - 1]);
      assert Lengths(parts)[..|parts| - 1] == Lengths(parts[..|parts| - 1]);
    }
  }

  /** So the target of every PE is the concatenation. */
  lemma CollectDelivers<T>(parts: seq<seq<T>>, k: nat, i: nat)
    requires Collectable(Lengths(parts)) && |parts| <= INT_MAX && k < |parts| && i < |parts| && parts[i] != []
    ensures var d, n := OffsetAt(Lengths(parts), k, i), SizeAt(Lengths(parts), k, i);
      0 <= d && d + n <= |Flatten(parts)| && Flatten(parts)[d..d + n] == parts[i]
  {
    hide Collectable, OffsetAt, SizeAt;
    CollectsExactly(Lengths(parts));
    assert InPlace(Lengths(parts), k, i);
    CollectConcatenates(parts, i);
  }
}
