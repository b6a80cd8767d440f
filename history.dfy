/**
  The bounded undo/redo history the session keeps its layer snapshots in (`CircularHistory`
  from an external package, created with capacity 50 in
  src/draw-canvas/draw-canvas.context.js). The package's source is not part of this model:
  only the behaviour the session relies on is modelled, as a list of snapshots oldest first
  and a cursor, where the cursor position -1 is the `EMPTY` sentinel before the oldest entry.
*/
module History {

  /** What `current()` returns: the `EMPTY` flag or a stored snapshot. */
  datatype Entry<T> = Empty | Snapshot(value: T)

  /** Number of snapshots the session's history keeps. */
  const HistoryCapacity: nat := 50

  function MaxInt(a: int, b: int): int { if a <= b then b else a }
  function MinInt(a: int, b: int): int { if a <= b then a else b }

  /** The state of a history: the snapshots, oldest first, and the cursor into them. */
  datatype Log<T> = Log(entries: seq<T>, cursor: int)
  {
    /** At most `capacity` snapshots, and the cursor on one of them or on the `EMPTY` position. */
    predicate Valid(capacity: nat)
    {
      capacity > 0 && |entries| <= capacity && -1 <= cursor < |entries|
    }

    /** The snapshot under the cursor, or `EMPTY` before the oldest one. */
    function Current(): (e: Entry<T>)
      requires -1 <= cursor < |entries|
      ensures e.Empty? <==> cursor == -1
      ensures e.Snapshot? ==> e.value in entries
    {
      if cursor == -1 then Empty else Snapshot(entries[cursor])
    }

    /**
      `commit`: the redo branch after the cursor is dropped, the snapshot is appended and
      becomes current, and when that overflows the capacity the oldest snapshot is evicted.
      What remains before the new snapshot is the newest part of what was at or before the
      cursor.
    */
    function Commit(s: T, capacity: nat): (r: Log<T>)
      requires Valid(capacity)
      ensures r.Valid(capacity)
      ensures r.cursor == |r.entries| - 1 && r.Current() == Snapshot(s)
      ensures |r.entries| == MinInt(cursor + 2, capacity)
      ensures var kept := entries[..cursor + 1];
        r.entries[..|r.entries| - 1] == kept[|kept| - (|r.entries| - 1)..]
      ensures forall x :: x in r.entries ==> x in entries || x == s
    {
      var kept := entries[..cursor + 1] + [s];
      var trimmed := if |kept| > capacity then kept[1..] else kept;
      Log(trimmed, |trimmed| - 1)
    }

    /** `moveBackward`: one step toward the older snapshots, stopping at the `EMPTY` position. */
    function Backward(): (r: Log<T>)
      requires -1 <= cursor < |entries|
      ensures r.entries == entries && r.cursor == MaxInt(cursor - 1, -1)
    {
      if cursor == -1 then this else Log(entries, cursor - 1)
    }

    /** `moveForward`: one step toward the newer snapshots, stopping at the newest one. */
    function Forward(): (r: Log<T>)
      requires -1 <= cursor < |entries|
      ensures r.entries == entries && r.cursor == MinInt(cursor + 1, |entries| - 1)
    {
      if cursor + 1 < |entries| then Log(entries, cursor + 1) else this
    }
  }

  /** `n` undos in a row. */
  function BackwardN<T>(log: Log<T>, n: nat): (r: Log<T>)
    requires log.Valid(HistoryCapacity)
    ensures r.Valid(HistoryCapacity) && r.entries == log.entries
    decreases n
  {
    if n == 0 then log else BackwardN(log.Backward(), n - 1)
  }

  /** `n` redos in a row. */
  function ForwardN<T>(log: Log<T>, n: nat): (r: Log<T>)
    requires log.Valid(HistoryCapacity)
    ensures r.Valid(HistoryCapacity) && r.entries == log.entries
    decreases n
  {
    if n == 0 then log else ForwardN(log.Forward(), n - 1)
  }

  lemma {:induction false} BackwardNCursor<T>(log: Log<T>, n: nat)
    requires log.Valid(HistoryCapacity)
    ensures BackwardN(log, n).cursor == MaxInt(log.cursor - n, -1)
    decreases n
  {
    if n > 0 {
      BackwardNCursor(log.Backward(), n - 1);
    }
  }

  lemma {:induction false} ForwardNCursor<T>(log: Log<T>, n: nat)
    requires log.Valid(HistoryCapacity)
    ensures ForwardN(log, n).cursor == MinInt(log.cursor + n, |log.entries| - 1)
    decreases n
  {
    if n > 0 {
      ForwardNCursor(log.Forward(), n - 1);
    }
  }

  /**
    Round trip: `n` undos followed by `n` redos bring the history back to where it was, as
    long as the undos did not run past the `EMPTY` position.
  */
  lemma UndoRedoRoundTrip<T>(log: Log<T>, n: nat)
    requires log.Valid(HistoryCapacity) && n <= log.cursor + 1
    ensures ForwardN(BackwardN(log, n), n) == log
  {
    BackwardNCursor(log, n);
    ForwardNCursor(BackwardN(log, n), n);
  }

  /** Undo right after a commit brings back what was current before it; redo then returns to the commit. */
  lemma CommitThenUndo<T>(log: Log<T>, s: T, capacity: nat)
    requires log.Valid(capacity) && capacity >= 2
    ensures log.Commit(s, capacity).Backward().Current() == log.Current()
    ensures log.Commit(s, capacity).Backward().Forward().Current() == Snapshot(s)
  {
    var kept := log.entries[..log.cursor + 1] + [s];
    if |kept| > capacity {
      assert kept[1..][|kept| - 3] == log.entries[log.cursor];
    }
  }

  /**
    Branch law: a commit with undone snapshots ahead of the cursor discards them, and while
    there is room nothing before the cursor is lost.
  */
  lemma CommitDiscardsRedoBranch<T>(log: Log<T>, s: T, capacity: nat)
    requires log.Valid(capacity) && log.cursor + 2 <= capacity
    ensures log.Commit(s, capacity).entries == log.entries[..log.cursor + 1] + [s]
  {
  }

  /** The worked example: [S0, S1, S2] at S2, two undos and a commit of S3 give [S0, S3] at S3. */
  lemma BranchExample<T>(s0: T, s1: T, s2: T, s3: T)
    ensures Log([s0, s1, s2], 2).Backward().Backward().Commit(s3, HistoryCapacity) == Log([s0, s3], 1)
  {
    CommitDiscardsRedoBranch(Log([s0, s1, s2], 0), s3, HistoryCapacity);
  }

  /** Committing to a full history at its newest snapshot evicts the oldest and keeps the order of the rest. */
  lemma CommitEvictsOldest<T>(log: Log<T>, s: T, capacity: nat)
    requires log.Valid(capacity) && |log.entries| == capacity && log.cursor == capacity - 1
    ensures log.Commit(s, capacity) == Log(log.entries[1..] + [s], capacity - 1)
  {
    assert log.entries[..log.cursor + 1] == log.entries;
    assert (log.entries + [s])[1..] == log.entries[1..] + [s];
  }

  /** The history object the session holds; it is changed in place by the calls below. */
  class CircularHistory<T> {
    const capacity: nat
    var entries: seq<T>
    var cursor: int

    /** The history's state as a value. */
    function View(): Log<T>
      reads this
    {
      Log(entries, cursor)
    }

    predicate Valid()
      reads this
    {
      View().Valid(capacity)
    }

    /** A new history holds nothing, so it is at the `EMPTY` position. */
    constructor (capacity: nat)
      requires capacity > 0
      ensures Valid() && this.capacity == capacity
      ensures View() == Log([], -1) && View().Current() == Empty
    {
      this.capacity := capacity;
      entries := [];
      cursor := -1;
    }

    method Commit(s: T)
      requires Valid()
      modifies this
      ensures Valid() && View() == old(View()).Commit(s, capacity)
    {
      var next := View().Commit(s, capacity);
      entries := next.entries;
      cursor := next.cursor;
    }

    method MoveBackward()
      requires Valid()
      modifies this
      ensures Valid() && View() == old(View()).Backward()
    {
      if cursor > -1 {
        cursor := cursor - 1;
      }
    }

    method MoveForward()
      requires Valid()
      modifies this
      ensures Valid() && View() == old(View()).Forward()
    {
      if cursor + 1 < |entries| {
        cursor := cursor + 1;
      }
    }

    /** `current`: the snapshot under the cursor, or `EMPTY`. */
    method Current() returns (e: Entry<T>)
      requires Valid()
      ensures e == View().Current()
      ensures e.Empty? <==> cursor == -1
    {
      if cursor == -1 {
        e := Empty;
      } else {
        e := Snapshot(entries[cursor]);
      }
    }

    /** `dump`: every stored snapshot, oldest first. */
    method Dump() returns (all: seq<T>)
      requires Valid()
      ensures all == View().entries && |all| <= capacity
    {
      all := entries;
    }
  }
}
