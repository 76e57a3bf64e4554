/** The file manager's table (video_service/file_manager_app.py): prepared rows, the visible subset,
    and a grid that is edited row by row and filled in batches.

    A record is a number, `id` its identifier and `format` its eleven texts. The edit script is any
    valid one between two lists of row keys.
 */
module FileTable {
  import opened Options

  type Text = string

  const COLUMNS: nat := 11

  datatype Key = Key(id: nat, occurrence: nat)

  datatype Row = Row(key: Key, record: nat, values: seq<Text>)

  /** What the application knows about records. */
  datatype Format = Format(id: nat -> nat, texts: nat -> seq<Text>)
  {
    ghost predicate Valid() { forall r: nat :: |texts(r)| == COLUMNS }
  }

  // ------------------------------------------------------------- prepared rows

  /** How many of the first `n` records carry this identifier. */
  function Occurrences(records: seq<nat>, n: nat, f: Format, id: nat): nat
    requires n <= |records|
  {
    if n == 0 then 0 else Occurrences(records, n - 1, f, id) + if f.id(records[n - 1]) == id then 1 else 0
  }

  /** The row of the i-th record, formatted afresh. */
  function Fresh(records: seq<nat>, i: nat, f: Format): Row
    requires i < |records|
  {
    var r := records[i];
    Row(Key(f.id(r), Occurrences(records, i, f, f.id(r))), r, f.texts(r))
  }

  predicate Formatted(row: Row, f: Format) { row.values == f.texts(row.record) }

  ghost predicate UniqueKeys(rows: seq<Row>) { forall i, j | 0 <= i < j < |rows| :: rows[i].key != rows[j].key }

  lemma {:induction false} OccurrencesGrow(records: seq<nat>, m: nat, n: nat, f: Format, id: nat)
    requires m <= n <= |records|
    ensures Occurrences(records, m, f, id) <= Occurrences(records, n, f, id)
    decreases n
  {
    if m < n { OccurrencesGrow(records, m, n - 1, f, id); }
  }

  lemma FreshKeysDiffer(records: seq<nat>, i: nat, j: nat, f: Format)
    requires i < j < |records|
    ensures Fresh(records, i, f).key != Fresh(records, j, f).key
  {
    if f.id(records[i]) == f.id(records[j]) {
      OccurrencesGrow(records, i + 1, j, f, f.id(records[i]));
    }
  }

  /** Rows of one identifier are numbered from 0 in their order. */
  ghost predicate Numbered(rows: seq<Row>) {
    forall i, o: nat | 0 <= i < |rows| && o < rows[i].key.occurrence :: exists j :: 0 <= j < i && rows[j].key == Key(rows[i].key.id, o)
  }

  lemma {:induction false} EarlierOccurrence(records: seq<nat>, n: nat, f: Format, id: nat, o: nat) returns (j: nat)
    requires n <= |records| && o < Occurrences(records, n, f, id)
    ensures j < n && f.id(records[j]) == id && Occurrences(records, j, f, id) == o
    decreases n
  {
    if o == Occurrences(records, n - 1, f, id) {
      j := n - 1;
    } else {
      j := EarlierOccurrence(records, n - 1, f, id, o);
    }
  }

  /** `_prepare_rows`: reusing cached rows is invisible, and no two rows share a key. */
  method PrepareRows(records: seq<nat>, previous: seq<Row>, f: Format) returns (rows: seq<Row>)
    requires forall row | row in previous :: Formatted(row, f)
    ensures |rows| == |records| && forall i | 0 <= i < |rows| :: rows[i] == Fresh(records, i, f)
    ensures forall i | 0 <= i < |rows| ::
      rows[i].record == records[i] && rows[i].values == f.texts(records[i]) && rows[i].key.id == f.id(records[i])
    ensures UniqueKeys(rows) && Numbered(rows)
  {
    var cached: map<Key, Row> := map[];
    for k := 0 to |previous|
      invariant forall key | key in cached :: cached[key] in previous && cached[key].key == key
    {
      cached := cached[previous[k].key := previous[k]];
    }
    var occurrences: map<nat, nat> := map[];
    rows := [];
    for i := 0 to |records|
      invariant |rows| == i && forall k | 0 <= k < i :: rows[k] == Fresh(records, k, f)
      invariant forall id: nat :: Occurrences(records, i, f, id) == if id in occurrences then occurrences[id] else 0
    {
      var record := records[i];
      var id := f.id(record);
      var occurrence := if id in occurrences then occurrences[id] else 0;
      occurrences := occurrences[id := occurrence + 1];
      var key := Key(id, occurrence);
      if key in cached && cached[key].record == record {
        assert Formatted(cached[key], f);
        rows := rows + [cached[key]];
      } else {
        rows := rows + [Row(key, record, f.texts(record))];
      }
    }
    forall i, j | 0 <= i < j < |rows| ensures rows[i].key != rows[j].key { FreshKeysDiffer(records, i, j, f); }
    forall i, o: nat | 0 <= i < |rows| && o < rows[i].key.occurrence
      ensures exists j :: 0 <= j < i && rows[j].key == Key(rows[i].key.id, o)
    {
      var j := EarlierOccurrence(records, i, f, f.id(records[i]), o);
      assert rows[j] == Fresh(records, j, f);
    }
  }

  // --------------------------------------------------------------- edit scripts

  datatype Op = Op(equal: bool, i1: nat, i2: nat, j1: nat, j2: nat)

  /** A valid script from `a` to `b`: its pieces follow one another and cover both, and the equal ones
      are equal. */
  ghost predicate Script(ops: seq<Op>, a: seq<Key>, b: seq<Key>) {
    && (forall k | 0 <= k < |ops| :: ops[k].i1 <= ops[k].i2 <= |a| && ops[k].j1 <= ops[k].j2 <= |b|)
    && (forall k | 0 <= k < |ops| :: k + 1 < |ops| ==> ops[k].i2 == ops[k + 1].i1 && ops[k].j2 == ops[k + 1].j1)
    && (if ops == [] then a == [] && b == []
        else ops[0].i1 == 0 && ops[0].j1 == 0 && ops[|ops| - 1].i2 == |a| && ops[|ops| - 1].j2 == |b|)
    && (forall k | 0 <= k < |ops| && ops[k].equal :: a[ops[k].i1..ops[k].i2] == b[ops[k].j1..ops[k].j2])
  }

  /** Where the first k pieces of a script end. */
  function OldEnd(ops: seq<Op>, k: nat): nat
    requires k <= |ops|
  {
    if k == 0 then 0 else ops[k - 1].i2
  }

  function NewEnd(ops: seq<Op>, k: nat): nat
    requires k <= |ops|
  {
    if k == 0 then 0 else ops[k - 1].j2
  }

  /** One piece carried out on a list. */
  function Edited<T>(s: seq<T>, op: Op, inserted: seq<T>): seq<T>
    requires op.i1 <= op.i2 <= |s|
  {
    if op.equal then s else s[..op.i1] + inserted + s[op.i2..]
  }

  lemma PieceStep<T>(a: seq<T>, b: seq<T>, op: Op)
    requires op.i1 <= op.i2 <= |a| && op.j1 <= op.j2 <= |b| && (op.equal ==> a[op.i1..op.i2] == b[op.j1..op.j2])
    ensures Edited(a[..op.i2] + b[op.j2..], op, b[op.j1..op.j2]) == a[..op.i1] + b[op.j1..]
  {
    var front, middle, back := a[..op.i1], b[op.j1..op.j2], b[op.j2..];
    assert b[op.j1..] == middle + back;
    if op.equal {
      assert a[..op.i2] == front + middle;
      assert front + middle + back == front + (middle + back);
    } else {
      var s := a[..op.i2] + back;
      assert s[..op.i1] == front && s[op.i2..] == back;
      assert front + middle + back == front + (middle + back);
    }
  }

  /** The list after the pieces from the last down to the k-th have been carried out on `a`: all of them
      turn the old keys into the new ones. */
  function CarriedOut(a: seq<Key>, b: seq<Key>, ops: seq<Op>, k: nat): (s: seq<Key>)
    requires Script(ops, a, b) && k <= |ops|
    ensures s == a[..OldEnd(ops, k)] + b[NewEnd(ops, k)..]
    ensures k == 0 ==> s == b
    decreases |ops| - k
  {
    if k == |ops| then a
    else
      PieceStep(a, b, ops[k]);
      assert OldEnd(ops, k) == ops[k].i1 && NewEnd(ops, k) == ops[k].j1;
      Edited(CarriedOut(a, b, ops, k + 1), ops[k], b[ops[k].j1..ops[k].j2])
  }

  // ------------------------------------------------------------------- the grid

  type Cells = seq<Option<Text>>

  function Blank(): Cells { seq(COLUMNS, _ => None) }

  /** A row of cells that shows these texts. */
  predicate Shows(cells: Cells, values: seq<Text>) {
    |cells| == |values| && forall c | 0 <= c < |cells| :: cells[c] == Some(values[c])
  }

  /** A grid row agrees with what is recorded as rendered for its key. */
  predicate Fits(cells: Cells, key: Key, rendered: map<Key, seq<Text>>) {
    if key in rendered then Shows(cells, rendered[key]) else cells == Blank()
  }

  ghost predicate RowsFit(grid: seq<Cells>, rows: seq<Row>, rendered: map<Key, seq<Text>>) {
    |grid| == |rows| && forall i | 0 <= i < |grid| :: Fits(grid[i], rows[i].key, rendered)
  }

  datatype Item = Item(index: nat, row: Row)

  function Keys(rows: seq<Row>): seq<Key> { seq(|rows|, i requires 0 <= i < |rows| => rows[i].key) }

  /** The rows a filter lets through. */
  function Filtered(rows: seq<Row>, keep: Row -> bool): (r: seq<Row>)
    ensures forall row | row in r :: row in rows && keep(row)
  {
    if rows == [] then []
    else
      var last := rows[|rows| - 1];
      Filtered(rows[..|rows| - 1], keep) + if keep(last) then [last] else []
  }

  /** `at` lists, in order, the places of exactly those rows that pass, and `shown` is what stands there. */
  ghost predicate Picks(all: seq<Row>, keep: Row -> bool, shown: seq<Row>, at: seq<nat>) {
    && |at| == |shown| && (forall k | 0 <= k < |at| :: at[k] < |all| && all[at[k]] == shown[k])
    && (forall j, k | 0 <= j < k < |at| :: at[j] < at[k])
    && (forall i: nat | i < |all| :: keep(all[i]) <==> i in at)
  }

  lemma {:induction false} FilteredPicks(all: seq<Row>, keep: Row -> bool) returns (at: seq<nat>)
    ensures Picks(all, keep, Filtered(all, keep), at)
    decreases |all|
  {
    if all == [] {
      at := [];
    } else {
      var n := |all| - 1;
      var before := FilteredPicks(all[..n], keep);
      at := before + if keep(all[n]) then [n] else [];
      PicksGrow(all, keep, Filtered(all[..n], keep), before);
    }
    hide Picks;
  }

  lemma PicksGrow(all: seq<Row>, keep: Row -> bool, shown: seq<Row>, at: seq<nat>)
    requires all != [] && Picks(all[..|all| - 1], keep, shown, at)
    ensures var n := |all| - 1;
      Picks(all, keep, shown + (if keep(all[n]) then [all[n]] else []), at + if keep(all[n]) then [n] else [])
  {
    var n := |all| - 1;
    var next := at + if keep(all[n]) then [n] else [];
    forall i: nat | i < |all| ensures keep(all[i]) <==> i in next {
      if i < n {
        assert all[..n][i] == all[i];
        assert i in next <==> i in at;
      } else {
        assert i !in at;
      }
    }
  }

  lemma {:induction false} FilteredUnique(rows: seq<Row>, keep: Row -> bool)
    requires UniqueKeys(rows)
    ensures UniqueKeys(Filtered(rows, keep))
    decreases |rows|
  {
    if rows != [] {
      var front := rows[..|rows| - 1];
      FilteredUnique(front, keep);
      forall row | row in Filtered(front, keep) ensures row.key != rows[|rows| - 1].key {
        var i :| 0 <= i < |front| && front[i] == row;
      }
    }
  }

  lemma EmptyCache(rendered: map<Key, seq<Text>>, rows: seq<Row>)
    requires rows == [] && forall key | key in rendered :: key in Keys(rows)
    ensures rendered == map[]
  {
  }

  lemma BlankFits(rows: seq<Row>)
    ensures RowsFit(seq(|rows|, _ => Blank()), rows, map[])
  {
  }

  /** Dropping cache entries of keys that are gone changes no row. */
  lemma FitsPresent(grid: seq<Cells>, rows: seq<Row>, cached: map<Key, seq<Text>>, rendered: map<Key, seq<Text>>)
    requires RowsFit(grid, rows, cached)
    requires rendered == map key | key in cached && key in Keys(rows) :: cached[key]
    ensures RowsFit(grid, rows, rendered)
  {
    forall i | 0 <= i < |grid| ensures Fits(grid[i], rows[i].key, rendered) {
      assert Keys(rows)[i] == rows[i].key;
      assert Fits(grid[i], rows[i].key, cached);
    }
  }

  lemma SameKeysFit(grid: seq<Cells>, old_: seq<Row>, rows: seq<Row>, rendered: map<Key, seq<Text>>)
    requires RowsFit(grid, old_, rendered) && Keys(rows) == Keys(old_)
    ensures RowsFit(grid, rows, rendered)
  {
    hide Fits;
    assert |rows| == |Keys(rows)| == |Keys(old_)| == |old_|;
    forall i | 0 <= i < |grid| ensures Fits(grid[i], rows[i].key, rendered) {
      assert Keys(rows)[i] == rows[i].key && Keys(old_)[i] == old_[i].key;
      assert Fits(grid[i], old_[i].key, rendered);
    }
  }

  /** The rendered cache agrees with the grid, and what it does not yet show is pending. */
  ghost predicate Consistent(visible: seq<Row>, rendered: map<Key, seq<Text>>, pending: seq<Item>, grid: seq<Cells>) {
    && UniqueKeys(visible) && (forall row | row in visible :: |row.values| == COLUMNS)
    && RowsFit(grid, visible, rendered)
    && (forall key | key in rendered :: |rendered[key]| == COLUMNS && key in Keys(visible))
    && (forall k | 0 <= k < |pending| :: pending[k].index < |visible| && pending[k].row == visible[pending[k].index])
    && (forall i | 0 <= i < |visible| :: Rendered(visible[i], rendered) || Item(i, visible[i]) in pending)
  }

  predicate Rendered(row: Row, rendered: map<Key, seq<Text>>) { row.key in rendered && rendered[row.key] == row.values }

  /** Filling the first pending row and dropping it from the queue keeps the table consistent. */
  lemma FilledKeeps(visible: seq<Row>, rendered: map<Key, seq<Text>>, pending: seq<Item>, grid: seq<Cells>, cells: Cells)
    requires Consistent(visible, rendered, pending, grid) && pending != [] && Shows(cells, pending[0].row.values)
    ensures var row := pending[0].row;
      pending[0].index < |grid|
      && Consistent(visible, rendered[row.key := row.values], pending[1..], grid[pending[0].index := cells])
  {
    var n, row := pending[0].index, pending[0].row;
    var after := rendered[row.key := row.values];
    assert Keys(visible)[n] == row.key;
    forall i | 0 <= i < |visible| ensures Rendered(visible[i], after) || Item(i, visible[i]) in pending[1..] {
      if i != n && Item(i, visible[i]) in pending { assert Item(i, visible[i]) != pending[0]; }
    }
    forall i | 0 <= i < |grid| ensures Fits(grid[n := cells][i], visible[i].key, after) {
      if i != n { assert visible[i].key != visible[n].key && Fits(grid[i], visible[i].key, rendered); }
    }
    hide Fits, Shows;
  }

  class Table {
    var visible: seq<Row>
    var rendered: map<Key, seq<Text>>
    var pending: seq<Item>
    var grid: seq<Cells>

    ghost predicate Valid()
      reads this
    {
      Consistent(visible, rendered, pending, grid)
    }

    constructor ()
      ensures Valid() && visible == [] && pending == []
    {
      visible, rendered, pending, grid := [], map[], [], [];
    }

    /** Once nothing is pending the table is what a full redraw would show, however often a refresh
        interrupted an earlier fill. */
    lemma FullRedraw()
      requires Valid() && pending == []
      ensures |grid| == |visible| && forall i | 0 <= i < |grid| ::
        |grid[i]| == |visible[i].values| && forall c | 0 <= c < |grid[i]| :: grid[i][c] == Some(visible[i].values[c])
    {
      forall i | 0 <= i < |visible| ensures Shows(grid[i], visible[i].values) {
        assert Item(i, visible[i]) !in pending;
        assert Fits(grid[i], visible[i].key, rendered);
      }
    }

    /** `_populate_rows`: fill pending rows until nothing is pending or the batch is used up. */
    method Populate(batch: nat)
      requires Valid()
      modifies this`rendered, this`pending, this`grid
      ensures Valid()
      ensures pending == if |old(pending)| <= batch + 1 then [] else old(pending)[batch + 1..]
    {
      var done := 0;
      while pending != [] && done <= batch
        invariant Valid() && done <= batch + 1 && done <= |old(pending)| && pending == old(pending)[done..]
        decreases |pending|
      {
        FillFirst();
        done := done + 1;
      }
    }

    /** One turn of the fill loop. */
    method FillFirst()
      requires Valid() && pending != []
      modifies this`rendered, this`pending, this`grid
      ensures Valid() && pending == old(pending)[1..]
    {
      var item := pending[0];
      var key, values := item.row.key, item.row.values;
      assert Fits(grid[item.index], key, rendered);
      var cells := FillCells(grid[item.index], if key in rendered then Some(rendered[key]) else None, values);
      FilledKeeps(visible, rendered, pending, grid, cells);
      hide Consistent;
      pending := pending[1..];
      grid := grid[item.index := cells];
      rendered := rendered[key := values];
    }

    /** The column loop: only texts that changed are written. */
    static method FillCells(row: Cells, previous: Option<seq<Text>>, values: seq<Text>) returns (cells: Cells)
      requires |row| == |values| && (previous.Some? ==> Shows(row, previous.value))
      ensures Shows(cells, values)
    {
      cells := row;
      for column := 0 to |values|
        invariant |cells| == |values|
        invariant forall c | 0 <= c < column :: cells[c] == Some(values[c])
        invariant forall c | column <= c < |values| :: cells[c] == row[c]
      {
        if previous.None? || previous.value[column] != values[column] {
          cells := cells[column := Some(values[column])];
        }
      }
    }

    /** `_filter_records`: the new view replaces the old one, whatever an earlier fill had left undone.
        `identical` says that the new view consists of the very same row objects. */
    method FilterRecords(all: seq<Row>, keep: Row -> bool, identical: bool, ops: seq<Op>, batch: nat)
      requires Valid() && UniqueKeys(all) && forall row | row in all :: |row.values| == COLUMNS
      requires identical ==> Filtered(all, keep) == visible
      requires Script(ops, Keys(visible), Keys(Filtered(all, keep)))
      modifies this
      ensures Valid() && exists at :: Picks(all, keep, visible, at)
      ensures !identical && pending != [] ==> |pending| + batch + 1 <= |visible|
    {
      hide Fits, Script, Picks;
      ghost var at := FilteredPicks(all, keep);
      var rows := [];
      for i := 0 to |all|
        invariant rows == Filtered(all[..i], keep)
      {
        assert all[..i + 1][..i] == all[..i];
        if keep(all[i]) {
          rows := rows + [all[i]];
        }
      }
      assert all[..|all|] == all;
      FilteredUnique(all, keep);
      if identical {
        return;
      }
      pending := [];
      if visible == [] {
        grid := seq(|rows|, _ => Blank());
        EmptyCache(rendered, visible);
        BlankFits(rows);
      } else if Keys(rows) != Keys(visible) {
        Edit(rows, ops);
        ghost var cached := rendered;
        rendered := map key | key in rendered && key in Keys(rows) :: rendered[key];
        FitsPresent(grid, rows, cached, rendered);
      } else {
        SameKeysFit(grid, visible, rows, rendered);
      }
      visible := rows;
      CollectPending();
      Populate(batch);
    }

    /** The rows whose texts are not rendered yet. */
    method CollectPending()
      requires pending == [] && UniqueKeys(visible) && (forall row | row in visible :: |row.values| == COLUMNS)
      requires RowsFit(grid, visible, rendered)
      requires forall key | key in rendered :: |rendered[key]| == COLUMNS && key in Keys(visible)
      modifies this`pending
      ensures Valid() && |pending| <= |visible| && forall k | 0 <= k < |pending| :: !Rendered(pending[k].row, rendered)
    {
      hide Fits;
      for i := 0 to |visible|
        invariant |pending| <= i && forall k | 0 <= k < |pending| :: !Rendered(pending[k].row, rendered)
        invariant forall k | 0 <= k < |pending| :: pending[k].index < i && pending[k].row == visible[pending[k].index]
        invariant forall k | 0 <= k < i ::
          Rendered(visible[k], rendered) || Item(k, visible[k]) in pending
      {
        var row := visible[i];
        if row.key !in rendered || rendered[row.key] != row.values {
          pending := pending + [Item(i, row)];
        }
      }
    }

    /** The rows of one piece go, last first. */
    method RemoveRows(lo: nat, hi: nat)
      requires lo <= hi <= |grid|
      modifies this`grid
      ensures grid == old(grid)[..lo] + old(grid)[hi..]
    {
      ghost var before := grid;
      var row := hi;
      while row > lo
        invariant lo <= row <= hi && grid == before[..row] + before[hi..]
      {
        row := row - 1;
        grid := grid[..row] + grid[row + 1..];
      }
    }

    /** New rows come in blank, and whatever was rendered for their keys no longer counts. */
    method InsertRows(at: nat, keys: seq<Key>)
      requires at <= |grid|
      modifies this`grid, this`rendered
      ensures grid == old(grid)[..at] + seq(|keys|, _ => Blank()) + old(grid)[at..]
      ensures rendered == old(rendered) - set k | k in keys
    {
      ghost var before := grid;
      ghost var had := rendered;
      for offset := 0 to |keys|
        invariant grid == before[..at] + seq(offset, _ => Blank()) + before[at..]
        invariant rendered == had - set k | k in keys[..offset]
      {
        grid := grid[..at + offset] + [Blank()] + grid[at + offset..];
        rendered := rendered - {keys[offset]};
        assert keys[..offset + 1] == keys[..offset] + [keys[offset]];
        assert seq(offset + 1, _ => Blank()) == seq(offset, _ => Blank()) + [Blank()];
      }
      assert keys[..|keys|] == keys;
    }

    /** The loop over the edit script. */
    method Edit(rows: seq<Row>, ops: seq<Op>)
      requires UniqueKeys(visible) && UniqueKeys(rows) && RowsFit(grid, visible, rendered)
      requires Script(ops, Keys(visible), Keys(rows))
      modifies this`grid, this`rendered
      ensures RowsFit(grid, rows, rendered)
      ensures forall key | key in rendered :: key in old(rendered) && rendered[key] == old(rendered)[key]
    {
      hide Script, OldEnd, NewEnd, Fits;
      ghost var before := grid;
      ghost var had := rendered;
      ghost var a := Keys(visible);
      var b := Keys(rows);
      var n := |ops|;
      EditStart(before, a, b, ops, rendered);
      while n > 0
        invariant 0 <= n <= |ops|
        invariant Halfway(before, had, a, b, ops, n, grid, rendered)
        decreases n
      {
        n := n - 1;
        var op := ops[n];
        EditStep(before, had, a, b, ops, n, grid, rendered);
        if !op.equal {
          RemoveRows(op.i1, op.i2);
          InsertRows(op.i1, b[op.j1..op.j2]);
        }
      }
      EditEnd(before, had, a, rows, ops, grid, rendered);
    }
  }

  /** Has this key been given a new row from the j-th on? */
  ghost predicate Taken(b: seq<Key>, j: nat, key: Key) { exists t :: j <= t < |b| && b[t] == key }

  /** The rows from the j-th new key on, which start at the i-th grid row, agree with the cache. */
  ghost predicate BackFits(grid: seq<Cells>, i: nat, b: seq<Key>, j: nat, rendered: map<Key, seq<Text>>) {
    j <= |b| && |grid| == i + |b| - j && forall t | j <= t < |b| :: Fits(grid[i + t - j], b[t], rendered)
  }

  /** Nothing was forgotten but the keys of new rows. */
  ghost predicate Forgot(had: map<Key, seq<Text>>, rendered: map<Key, seq<Text>>, b: seq<Key>, j: nat) {
    && (forall key | key in rendered :: key in had && rendered[key] == had[key])
    && (forall key | key in had && key !in rendered :: Taken(b, j, key))
  }

  /** The grid after the pieces from the last down to the n-th: untouched rows in front, rows that fit
      the new keys behind. */
  ghost predicate Halfway(
    before: seq<Cells>, had: map<Key, seq<Text>>, a: seq<Key>, b: seq<Key>, ops: seq<Op>, n: nat,
    grid: seq<Cells>, rendered: map<Key, seq<Text>>)
    requires n <= |ops| && Script(ops, a, b) && |before| == |a|
  {
    && BackFits(grid, OldEnd(ops, n), b, NewEnd(ops, n), rendered) && Forgot(had, rendered, b, NewEnd(ops, n))
    && grid[..OldEnd(ops, n)] == before[..OldEnd(ops, n)]
  }

  predicate DistinctKeys(b: seq<Key>) { forall i, j | 0 <= i < j < |b| :: b[i] != b[j] }

  lemma EditStart(before: seq<Cells>, a: seq<Key>, b: seq<Key>, ops: seq<Op>, had: map<Key, seq<Text>>)
    requires Script(ops, a, b) && |before| == |a|
    ensures Halfway(before, had, a, b, ops, |ops|, before, had)
  {
    hide Fits;
  }

  lemma EditEnd(
    before: seq<Cells>, had: map<Key, seq<Text>>, a: seq<Key>, rows: seq<Row>, ops: seq<Op>,
    grid: seq<Cells>, rendered: map<Key, seq<Text>>)
    requires Script(ops, a, Keys(rows)) && |before| == |a|
    requires Halfway(before, had, a, Keys(rows), ops, 0, grid, rendered)
    ensures RowsFit(grid, rows, rendered)
    ensures forall key | key in rendered :: key in had && rendered[key] == had[key]
  {
    hide Fits;
    var b := Keys(rows);
    assert BackFits(grid, 0, b, 0, rendered);
    forall i | 0 <= i < |grid| ensures Fits(grid[i], rows[i].key, rendered) { assert b[i] == rows[i].key; }
  }

  /** What one piece must do to the grid for the invariant to move one piece on. */
  lemma EditStep(
    before: seq<Cells>, had: map<Key, seq<Text>>, a: seq<Key>, b: seq<Key>, ops: seq<Op>, n: nat,
    grid: seq<Cells>, rendered: map<Key, seq<Text>>)
    requires n < |ops| && Script(ops, a, b) && DistinctKeys(b) && |before| == |a|
    requires forall i | 0 <= i < |a| :: Fits(before[i], a[i], had)
    requires Halfway(before, had, a, b, ops, n + 1, grid, rendered)
    ensures ops[n].i1 <= ops[n].i2 <= |grid| && ops[n].j1 <= ops[n].j2 <= |b|
    ensures ops[n].equal ==> Halfway(before, had, a, b, ops, n, grid, rendered)
    ensures !ops[n].equal ==>
      var removed := grid[..ops[n].i1] + grid[ops[n].i2..];
      var added := b[ops[n].j1..ops[n].j2];
      Halfway(before, had, a, b, ops, n,
              removed[..ops[n].i1] + seq(|added|, _ => Blank()) + removed[ops[n].i1..], rendered - set k | k in added)
  {
    var op := ops[n];
    assert OldEnd(ops, n) == op.i1 && NewEnd(ops, n) == op.j1 && OldEnd(ops, n + 1) == op.i2 && NewEnd(ops, n + 1) == op.j2;
    assert op.equal ==> a[op.i1..op.i2] == b[op.j1..op.j2];
    assert op.i1 <= op.i2 <= |a| && op.j1 <= op.j2 <= |b|;
    hide Script, OldEnd, NewEnd, BackFits, Forgot, Fits, DistinctKeys;
    assert op.i2 <= |grid| by { BackLength(grid, op.i2, b, op.j2, rendered); }
    assert grid[..op.i1] == grid[..op.i2][..op.i1] == before[..op.i1];
    if op.equal {
      EqualStep(before, had, a, b, op, grid, rendered);
    } else {
      var removed, added := grid[..op.i1] + grid[op.i2..], b[op.j1..op.j2];
      assert (removed[..op.i1] + seq(|added|, _ => Blank()) + removed[op.i1..])[..op.i1] == grid[..op.i1];
      assert removed[..op.i1] == grid[..op.i1] && removed[op.i1..] == grid[op.i2..];
      ReplaceStep(had, b, op, grid, rendered);
      ForgotMore(had, rendered, b, op);
    }
  }

  lemma BackLength(grid: seq<Cells>, i: nat, b: seq<Key>, j: nat, rendered: map<Key, seq<Text>>)
    requires BackFits(grid, i, b, j, rendered)
    ensures i <= |grid|
  {
  }

  lemma EqualStep(
    before: seq<Cells>, had: map<Key, seq<Text>>, a: seq<Key>, b: seq<Key>, op: Op,
    grid: seq<Cells>, rendered: map<Key, seq<Text>>)
    requires op.i1 <= op.i2 <= |a| == |before| && op.j1 <= op.j2 <= |b| && a[op.i1..op.i2] == b[op.j1..op.j2]
    requires DistinctKeys(b) && forall i | 0 <= i < |a| :: Fits(before[i], a[i], had)
    requires BackFits(grid, op.i2, b, op.j2, rendered) && Forgot(had, rendered, b, op.j2)
    requires grid[..op.i2] == before[..op.i2]
    ensures BackFits(grid, op.i1, b, op.j1, rendered) && Forgot(had, rendered, b, op.j1)
  {
    assert op.i2 - op.i1 == |a[op.i1..op.i2]| == |b[op.j1..op.j2]| == op.j2 - op.j1;
    forall t | op.j1 <= t < |b| ensures Fits(grid[op.i1 + t - op.j1], b[t], rendered) {
      if t < op.j2 {
        EqualRow(before, had, a, b, op, grid, rendered, t);
      }
    }
    forall key | key in had && key !in rendered ensures Taken(b, op.j1, key) { assert Taken(b, op.j2, key); }
    hide Fits, DistinctKeys;
  }

  /** A row that stays keeps its cells and its entry in the cache. */
  lemma EqualRow(
    before: seq<Cells>, had: map<Key, seq<Text>>, a: seq<Key>, b: seq<Key>, op: Op,
    grid: seq<Cells>, rendered: map<Key, seq<Text>>, t: nat)
    requires op.i1 <= op.i2 <= |a| == |before| && op.i2 <= |grid| && op.j1 <= t < op.j2 <= |b|
    requires a[op.i1..op.i2] == b[op.j1..op.j2] && op.i2 - op.i1 == op.j2 - op.j1
    requires DistinctKeys(b) && forall i | 0 <= i < |a| :: Fits(before[i], a[i], had)
    requires Forgot(had, rendered, b, op.j2) && grid[..op.i2] == before[..op.i2]
    ensures Fits(grid[op.i1 + t - op.j1], b[t], rendered)
  {
    var i := op.i1 + t - op.j1;
    assert a[i] == a[op.i1..op.i2][t - op.j1] == b[op.j1..op.j2][t - op.j1] == b[t];
    assert grid[i] == grid[..op.i2][i] == before[..op.i2][i] == before[i];
    assert !Taken(b, op.j2, b[t]);
    assert b[t] in had <==> b[t] in rendered;
    assert Fits(before[i], a[i], had);
  }

  lemma ReplaceStep(had: map<Key, seq<Text>>, b: seq<Key>, op: Op, grid: seq<Cells>, rendered: map<Key, seq<Text>>)
    requires op.i1 <= op.i2 <= |grid| && op.j1 <= op.j2 <= |b| && DistinctKeys(b)
    requires BackFits(grid, op.i2, b, op.j2, rendered)
    ensures var added := b[op.j1..op.j2];
      BackFits(grid[..op.i1] + seq(|added|, _ => Blank()) + grid[op.i2..], op.i1, b, op.j1, rendered - set k | k in added)
  {
    var added := b[op.j1..op.j2];
    var after := grid[..op.i1] + seq(|added|, _ => Blank()) + grid[op.i2..];
    var left := rendered - set k | k in added;
    forall t | op.j1 <= t < |b| ensures Fits(after[op.i1 + t - op.j1], b[t], left) {
      if t < op.j2 {
        assert added[t - op.j1] == b[t];
        assert after[op.i1 + t - op.j1] == Blank();
      } else {
        assert after[op.i1 + t - op.j1] == grid[op.i2 + t - op.j2];
        NotAdded(b, op, t);
        assert Fits(grid[op.i2 + t - op.j2], b[t], rendered);
      }
    }
    hide Fits, DistinctKeys;
  }

  lemma NotAdded(b: seq<Key>, op: Op, t: nat)
    requires op.j1 <= op.j2 <= t < |b| && DistinctKeys(b)
    ensures b[t] !in b[op.j1..op.j2]
  {
  }

  lemma ForgotMore(had: map<Key, seq<Text>>, rendered: map<Key, seq<Text>>, b: seq<Key>, op: Op)
    requires op.j1 <= op.j2 <= |b| && Forgot(had, rendered, b, op.j2)
    ensures Forgot(had, rendered - (set k | k in b[op.j1..op.j2]), b, op.j1)
  {
    var left := rendered - set k | k in b[op.j1..op.j2];
    forall key | key in had && key !in left ensures Taken(b, op.j1, key) {
      if key in rendered {
        var u :| 0 <= u < |b[op.j1..op.j2]| && b[op.j1..op.j2][u] == key;
        assert b[op.j1 + u] == key;
      } else {
        assert Taken(b, op.j2, key);
      }
    }
  }
}
