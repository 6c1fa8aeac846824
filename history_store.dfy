/**
 * The per-component history: for each component, the snapshots recorded so far, oldest first,
 * at most MAX_HISTORY of them. `keys` lists the components in the order they were first
 * recorded, which is the iteration order of the underlying Map.
 */
module HistoryStore {
  import opened Snapshots

  const MAX_HISTORY: nat := 10

  datatype Store = Store(keys: seq<string>, lists: map<string, seq<Snapshot>>)

  /** Every tracked component appears once in `keys` and holds 1 to MAX_HISTORY snapshots. */
  ghost predicate WellFormed(st: Store)
  {
    && Distinct(st.keys)
    && (forall k :: k in st.keys <==> k in st.lists)
    && (forall k :: k in st.lists ==> 1 <= |st.lists[k]| <= MAX_HISTORY)
  }

  const Empty: Store := Store([], map[])

  /** `history.get(component) || []` */
  function Get(st: Store, component: string): seq<Snapshot>
  {
    if component in st.lists then st.lists[component] else []
  }

  /** `list.push(snapshot); if (list.length > MAX_HISTORY) list.shift();` */
  function Append(list: seq<Snapshot>, s: Snapshot): seq<Snapshot>
  {
    var l := list + [s];
    if |l| > MAX_HISTORY then l[1..] else l
  }

  /** `record(snapshot)`: appends to the component's list; a new component goes last in `keys`. */
  function Recorded(st: Store, s: Snapshot): Store
  {
    var c := s.component;
    Store(if c in st.lists then st.keys else st.keys + [c],
          st.lists[c := Append(Get(st, c), s)])
  }

  /** Records the snapshots one after another, in order. */
  function RecordAll(st: Store, snaps: seq<Snapshot>): Store
  {
    if snaps == [] then st
    else Recorded(RecordAll(st, snaps[..|snaps| - 1]), snaps[|snaps| - 1])
  }

  /** The sum of the list lengths over the given keys. */
  function TotalOver(ks: seq<string>, lists: map<string, seq<Snapshot>>): nat
  {
    if ks == [] then 0
    else TotalOver(ks[..|ks| - 1], lists) + |if ks[|ks| - 1] in lists then lists[ks[|ks| - 1]] else []|
  }

  /** `Array.from(history.values()).reduce((sum, list) => sum + list.length, 0)` */
  function TotalSnapshots(st: Store): nat
  {
    TotalOver(st.keys, st.lists)
  }

  /**
   * `record` keeps the store well formed; the component's list gains the snapshot at its end,
   * loses its oldest entry exactly when it already held MAX_HISTORY, and no other list changes.
   */
  lemma RecordBoundedFifo(st: Store, s: Snapshot)
    requires WellFormed(st)
    ensures WellFormed(Recorded(st, s))
    ensures var after := Get(Recorded(st, s), s.component);
      && 1 <= |after| <= MAX_HISTORY
      && after[|after| - 1] == s
      && (|Get(st, s.component)| < MAX_HISTORY ==> after == Get(st, s.component) + [s])
      && (|Get(st, s.component)| == MAX_HISTORY ==> after == Get(st, s.component)[1..] + [s])
    ensures forall k :: k != s.component ==> Get(Recorded(st, s), k) == Get(st, k)
    ensures s.component in st.lists ==> Recorded(st, s).keys == st.keys
    ensures s.component !in st.lists ==> Recorded(st, s).keys == st.keys + [s.component]
  {
    var r := Recorded(st, s);
    var l := Get(st, s.component);
    assert |l| <= MAX_HISTORY;
    if |l| == MAX_HISTORY {
      assert (l + [s])[1..] == l[1..] + [s];
    }
    forall k | k in r.keys
      ensures k in r.lists
    {
    }
  }

  /** The last `n` elements of `l` (all of them when there are fewer). */
  function LastN(l: seq<Snapshot>, n: nat): seq<Snapshot>
  {
    if |l| <= n then l else l[|l| - n..]
  }

  /**
   * Recording a run of snapshots of one component leaves that component holding the last
   * MAX_HISTORY snapshots of its old list and the run put together: first in, first out.
   */
  lemma {:induction false} RecordAllKeepsNewest(st: Store, c: string, snaps: seq<Snapshot>)
    requires |Get(st, c)| <= MAX_HISTORY
    requires forall i :: 0 <= i < |snaps| ==> snaps[i].component == c
    ensures Get(RecordAll(st, snaps), c) == LastN(Get(st, c) + snaps, MAX_HISTORY)
  {
    if snaps == [] {
      assert Get(st, c) + snaps == Get(st, c);
    } else {
      var w, y := snaps[..|snaps| - 1], snaps[|snaps| - 1];
      RecordAllKeepsNewest(st, c, w);
      var before := Get(st, c) + w;
      var prior := LastN(before, MAX_HISTORY);
      assert Get(st, c) + snaps == before + [y];
      assert Get(RecordAll(st, snaps), c) == Append(prior, y);
      if |before| >= MAX_HISTORY {
        assert prior + [y] == (before + [y])[|before| - MAX_HISTORY..];
        assert (prior + [y])[1..] == (before + [y])[|before| + 1 - MAX_HISTORY..];
      }
    }
  }

  /** Eleven snapshots of a new component leave the last ten: the first is evicted. */
  lemma EleventhEvictsFirst(st: Store, c: string, snaps: seq<Snapshot>)
    requires c !in st.lists
    requires |snaps| == MAX_HISTORY + 1
    requires forall i :: 0 <= i < |snaps| ==> snaps[i].component == c
    ensures Get(RecordAll(st, snaps), c) == snaps[1..]
    ensures |Get(RecordAll(st, snaps), c)| == MAX_HISTORY
  {
    RecordAllKeepsNewest(st, c, snaps);
    assert Get(st, c) + snaps == snaps;
  }

  lemma {:induction false} TotalOverBound(ks: seq<string>, lists: map<string, seq<Snapshot>>)
    requires forall k :: k in lists ==> |lists[k]| <= MAX_HISTORY
    ensures TotalOver(ks, lists) <= MAX_HISTORY * |ks|
  {
    if ks != [] {
      TotalOverBound(ks[..|ks| - 1], lists);
    }
  }

  lemma {:induction false} DistinctCardinality(ks: seq<string>)
    requires Distinct(ks)
    ensures |set k | k in ks| == |ks|
  {
    if ks != [] {
      var w, x := ks[..|ks| - 1], ks[|ks| - 1];
      assert Distinct(w);
      DistinctCardinality(w);
      assert (set k | k in ks) == (set k | k in w) + {x};
      assert x !in (set k | k in w);
    }
  }

  /**
   * `GET_STATS`: the number of tracked components is the length of `keys`, and the total
   * number of stored snapshots is at most MAX_HISTORY per tracked component.
   */
  lemma StatsBound(st: Store)
    requires WellFormed(st)
    ensures |st.lists| == |st.keys|
    ensures TotalSnapshots(st) <= MAX_HISTORY * |st.lists|
  {
    DistinctCardinality(st.keys);
    assert st.lists.Keys == set k | k in st.keys;
    TotalOverBound(st.keys, st.lists);
  }
}
