/** Ordered association lists: the row list of a sheet and the cell list of a row. */
module OrderedList {
  import opened KeyedList
  import opened Wrappers

  type Keyed<+V> = Entry<nat, V>

  ghost predicate Ascending<V>(s: seq<Keyed<V>>) {
    forall i, j | 0 <= i < j < |s| :: s[i].key < s[j].key
  }

  /** The first entry beyond the key: the node new entries are inserted before. */
  function FirstAbove<V>(s: seq<Keyed<V>>, key: nat): (i: nat)
    ensures i <= |s|
    ensures i < |s| ==> s[i].key > key
    ensures forall j | 0 <= j < i :: s[j].key <= key
  {
    if s == [] || s[0].key > key then 0 else 1 + FirstAbove(s[1..], key)
  }

  function Get<V>(s: seq<Keyed<V>>, key: nat): Option<V> {
    var i := IndexOf(s, key);
    if i < |s| then Some(s[i].body) else None
  }

  /** Replace in place, or insert before the first larger key. */
  function Put<V>(s: seq<Keyed<V>>, key: nat, body: V): seq<Keyed<V>> {
    var i := IndexOf(s, key);
    if i < |s| then s[i := Entry(key, body)]
    else s[..FirstAbove(s, key)] + [Entry(key, body)] + s[FirstAbove(s, key)..]
  }

  lemma GetByIndex<V>(s: seq<Keyed<V>>, i: nat)
    requires Ascending(s) && i < |s|
    ensures Get(s, s[i].key) == Some(s[i].body)
  {
  }

  lemma PutAscending<V>(s: seq<Keyed<V>>, key: nat, body: V)
    requires Ascending(s)
    ensures Ascending(Put(s, key, body))
  {
  }

  lemma PutGet<V>(s: seq<Keyed<V>>, key: nat, body: V, other: nat)
    requires Ascending(s)
    ensures Get(Put(s, key, body), other) == if other == key then Some(body) else Get(s, other)
  {
    var t := Put(s, key, body);
    PutAscending(s, key, body);
    var i, at := IndexOf(s, key), FirstAbove(s, key);
    if other == key {
      GetByIndex(t, if i < |s| then i else at);
    } else {
      var k := IndexOf(s, other);
      if k < |s| {
        var k' := if i < |s| || k < at then k else k + 1;
        assert t[k'] == s[k];
        GetByIndex(t, k');
      } else {
        var new' := if i < |s| then i else at;
        forall j | 0 <= j < |t|
          ensures t[j].key != other
        {
          if j != new' {
            assert t[j] == s[if i < |s| || j < at then j else j - 1];
          }
        }
      }
    }
  }

  /** Ascending lists are determined by their lookups. */
  lemma {:induction false} Extensional<V>(s: seq<Keyed<V>>, t: seq<Keyed<V>>)
    requires Ascending(s) && Ascending(t)
    requires forall key :: Get(s, key) == Get(t, key)
    ensures s == t
  {
    if s == [] || t == [] {
      if s != [] {
        GetByIndex(s, 0);
      }
      if t != [] {
        GetByIndex(t, 0);
      }
    } else {
      HeadsAgree(s, t);
      forall key
        ensures Get(s[1..], key) == Get(t[1..], key)
      {
        GetTail(s, key);
        GetTail(t, key);
        assert Get(s, key) == Get(t, key);
      }
      Extensional(s[1..], t[1..]);
      assert s == [s[0]] + s[1..] && t == [t[0]] + t[1..];
    }
  }

  lemma HeadsAgree<V>(s: seq<Keyed<V>>, t: seq<Keyed<V>>)
    requires Ascending(s) && Ascending(t) && s != [] && t != []
    requires forall key :: Get(s, key) == Get(t, key)
    ensures s[0] == t[0]
  {
    assert Get(s, s[0].key) == Get(t, s[0].key);
    assert Get(s, t[0].key) == Get(t, t[0].key);
    var i, j := IndexOf(t, s[0].key), IndexOf(s, t[0].key);
    assert t[0].key <= t[i].key == s[0].key;
    assert s[0].key <= s[j].key == t[0].key;
  }

  lemma GetTail<V>(s: seq<Keyed<V>>, key: nat)
    requires Ascending(s) && s != []
    ensures Get(s[1..], key) == if key == s[0].key then None else Get(s, key)
  {
    var i := IndexOf(s[1..], key);
    if i < |s[1..]| {
      assert s[1..][i] == s[i + 1];
    }
  }

  /** Inserting a placeholder and then filling it is the same as putting the value. */
  lemma FillInserted<V>(s: seq<Keyed<V>>, key: nat, placeholder: V, body: V)
    ensures var i, at := IndexOf(s, key), FirstAbove(s, key);
            Put(s, key, body)
            == if i < |s| then s[i := Entry(key, body)]
               else (s[..at] + [Entry(key, placeholder)] + s[at..])[at := Entry(key, body)]
  {
  }

  // The source's generator searches, as loops.

  method FindIndex<V>(s: seq<Keyed<V>>, key: nat) returns (i: nat)
    ensures i == IndexOf(s, key)
  {
    i := 0;
    while i < |s| && s[i].key != key
      invariant i <= |s|
      invariant IndexOf(s, key) == i + IndexOf(s[i..], key)
    {
      assert s[i..][1..] == s[i + 1..];
      i := i + 1;
    }
  }

  method FindFollowing<V>(s: seq<Keyed<V>>, key: nat) returns (i: nat)
    ensures i == FirstAbove(s, key)
  {
    i := 0;
    while i < |s| && s[i].key <= key
      invariant i <= |s|
      invariant FirstAbove(s, key) == i + FirstAbove(s[i..], key)
    {
      assert s[i..][1..] == s[i + 1..];
      i := i + 1;
    }
  }
}

/**
 * Editing text cells in place. The rows of the sheet and the cells of a row are sparse, so an edit may
 * have to create either; it must land where the strictly ascending order of the file format puts it.
 */
module SheetEditor {
  import opened KeyedList
  import opened Wrappers
  import opened OrderedList
  import CellReference

  datatype Node = Formula(text: string) | Value(text: string) | Inline(text: string) | Other(id: nat)

  /** A cell's style and other attributes, its type attribute, and its child nodes. */
  datatype Cell = Cell(style: string, kind: string, children: seq<Node>)

  type Cells = seq<Keyed<Cell>>
  type Rows = seq<Keyed<Cells>>

  datatype Edit = Edit(cell: string, value: string)
  datatype Range = Range(left: nat, top: nat, right: nat, bottom: nat)

  datatype EditError = WrongCount | InvalidOrDuplicate | OutsideBounds | InvalidText | FormulaCell | InsideMerge

  // ---- What an edit means ----------------------------------------------------------------------

  function Kept(children: seq<Node>): seq<Node> {
    if children == [] then []
    else (if children[0].Other? then [children[0]] else []) + Kept(children[1..])
  }

  function SetText(cell: Cell, value: string): Cell {
    cell.(kind := "inlineStr", children := Kept(cell.children) + [Inline(value)])
  }

  predicate HasFormula(cell: Cell) {
    exists k | 0 <= k < |cell.children| :: cell.children[k].Formula?
  }

  const BlankCell := Cell("", "", [])

  predicate Readable(e: Edit) {
    CellReference.Read(e.cell, false).Some?
  }

  function Place(e: Edit): CellReference.Coordinate
    requires Readable(e)
  {
    CellReference.Read(e.cell, false).value
  }

  function OrElse<T>(o: Option<T>, otherwise: T): T {
    if o.Some? then o.value else otherwise
  }

  function EditCells(cells: Cells, column: nat, value: string): Cells {
    Put(cells, column, SetText(OrElse(Get(cells, column), BlankCell), value))
  }

  function EditRows(rows: Rows, row: nat, column: nat, value: string): Rows {
    Put(rows, row, EditCells(OrElse(Get(rows, row), []), column, value))
  }

  function ApplyAll(rows: Rows, edits: seq<Edit>): Rows
    requires forall k | 0 <= k < |edits| :: Readable(edits[k])
  {
    if edits == [] then rows
    else
      var last := edits[|edits| - 1];
      EditRows(ApplyAll(rows, edits[..|edits| - 1]), Place(last).row, Place(last).column, last.value)
  }

  ghost predicate AscendingSheet(rows: Rows) {
    Ascending(rows) && forall k | 0 <= k < |rows| :: Ascending(rows[k].body)
  }

  /** The sheet as a map from places to cells. */
  function At(rows: Rows, row: nat, column: nat): Option<Cell> {
    var cells := Get(rows, row);
    if cells.Some? then Get(cells.value, column) else None
  }

  lemma RowAscending(rows: Rows, row: nat)
    requires AscendingSheet(rows)
    ensures Ascending(OrElse(Get(rows, row), []))
  {
  }

  lemma EditRefines(rows: Rows, row: nat, column: nat, value: string)
    requires AscendingSheet(rows)
    ensures AscendingSheet(EditRows(rows, row, column, value))
    ensures forall r, c :: At(EditRows(rows, row, column, value), r, c)
                           == if r == row && c == column then Some(SetText(OrElse(At(rows, row, column), BlankCell), value))
                              else At(rows, r, c)
    ensures forall r :: Get(EditRows(rows, row, column, value), r).Some? <==> Get(rows, r).Some? || r == row
  {
    hide Get; hide Put; hide Ascending;
    var cells := OrElse(Get(rows, row), []);
    RowAscending(rows, row);
    var cell := SetText(OrElse(Get(cells, column), BlankCell), value);
    assert Get<Cell>([], column) == None by { EmptyGet<Cell>(column); }
    PutAscending(cells, column, cell);
    PutAscendingSheet(rows, row, Put(cells, column, cell));
    forall r, c
      ensures At(EditRows(rows, row, column, value), r, c)
              == if r == row && c == column then Some(SetText(OrElse(At(rows, row, column), BlankCell), value))
                 else At(rows, r, c)
    {
      AscendingOf(rows);
      PutGet(rows, row, Put(cells, column, cell), r);
      PutGet(cells, column, cell, c);
      EmptyGet<Cell>(c);
    }
    forall r
      ensures Get(EditRows(rows, row, column, value), r).Some? <==> Get(rows, r).Some? || r == row
    {
      AscendingOf(rows);
      PutGet(rows, row, Put(cells, column, cell), r);
    }
  }

  lemma EmptyGet<V>(key: nat)
    ensures Get<V>([], key) == None
  {
  }

  lemma AscendingOf(rows: Rows)
    requires AscendingSheet(rows)
    ensures Ascending(rows)
  {
  }

  lemma PutAscendingSheet(rows: Rows, row: nat, cells: Cells)
    requires AscendingSheet(rows) && Ascending(cells)
    ensures AscendingSheet(Put(rows, row, cells))
  {
    hide Ascending;
    PutAscending(rows, row, cells);
  }

  predicate FormulaIn(rows: Rows, row: nat, column: nat) {
    At(rows, row, column).Some? && HasFormula(At(rows, row, column).value)
  }

  /** The text an edit list puts at a place, if any. */
  function TextFor(edits: seq<Edit>, row: nat, column: nat): Option<string>
    requires forall k | 0 <= k < |edits| :: Readable(edits[k])
  {
    if edits == [] then None
    else
      var last := edits[|edits| - 1];
      if Place(last) == CellReference.Coordinate(column, row) then Some(last.value)
      else TextFor(edits[..|edits| - 1], row, column)
  }

  predicate DistinctCells(edits: seq<Edit>) {
    forall i, j | 0 <= i < j < |edits| :: edits[i].cell != edits[j].cell
  }

  predicate AllReadable(edits: seq<Edit>) {
    forall k | 0 <= k < |edits| :: Readable(edits[k])
  }

  /** Distinct references are distinct places, so each place is written at most once. */
  lemma {:induction false} TextForIs(edits: seq<Edit>, row: nat, column: nat)
    requires AllReadable(edits) && DistinctCells(edits)
    ensures TextFor(edits, row, column).Some? <==> exists e :: e in edits && Place(e) == CellReference.Coordinate(column, row)
    ensures forall e | e in edits && Place(e) == CellReference.Coordinate(column, row) ::
              TextFor(edits, row, column) == Some(e.value)
  {
    hide Readable; hide Place;
    if edits != [] {
      var last, init := edits[|edits| - 1], edits[..|edits| - 1];
      assert edits == init + [last];
      TextForIs(init, row, column);
      if Place(last) == CellReference.Coordinate(column, row) {
        forall e | e in edits && Place(e) == Place(last)
          ensures e == last
        {
          SamePlace(e, last);
        }
      }
    }
  }

  lemma SamePlace(a: Edit, b: Edit)
    requires Readable(a) && Readable(b) && Place(a) == Place(b)
    ensures a.cell == b.cell
  {
    CellReference.BareReferencesAreInjective(a.cell, b.cell);
  }

  /** The whole edit list refines a map update, and order in the file is kept. */
  lemma {:induction false} ApplyRefinesMapUpdate(rows: Rows, edits: seq<Edit>)
    requires AscendingSheet(rows) && AllReadable(edits) && DistinctCells(edits)
    ensures AscendingSheet(ApplyAll(rows, edits))
    ensures forall r, c :: At(ApplyAll(rows, edits), r, c)
                           == match TextFor(edits, r, c)
                              case None => At(rows, r, c)
                              case Some(text) => Some(SetText(OrElse(At(rows, r, c), BlankCell), text))
    ensures forall r :: Get(ApplyAll(rows, edits), r).Some?
                        <==> Get(rows, r).Some? || exists e :: e in edits && Place(e).row == r
  {
    hide At; hide SetText; hide EditRows; hide AscendingSheet; hide Readable; hide Place; hide Get;
    if edits != [] {
      var last, init := edits[|edits| - 1], edits[..|edits| - 1];
      assert edits == init + [last];
      var place := Place(last);
      ApplyRefinesMapUpdate(rows, init);
      EditRefines(ApplyAll(rows, init), place.row, place.column, last.value);
      NotYetWritten(init, last);
    }
  }

  lemma NotYetWritten(init: seq<Edit>, last: Edit)
    requires AllReadable(init + [last]) && DistinctCells(init + [last])
    ensures AllReadable(init) && Readable(last)
    ensures TextFor(init, Place(last).row, Place(last).column) == None
  {
    var edits := init + [last];
    assert edits[|init|] == last;
    assert forall k | 0 <= k < |init| :: edits[k] == init[k];
    TextForIs(init, Place(last).row, Place(last).column);
    forall e | e in init
      ensures Place(e) != Place(last)
    {
      var k :| 0 <= k < |init| && init[k] == e;
      assert edits[k].cell != edits[|init|].cell;
      if Place(e) == Place(last) {
        SamePlace(e, last);
      }
    }
  }

  /** Any reordering of an edit list produces the very same document. */
  lemma EditOrderIsIrrelevant(rows: Rows, p: seq<Edit>, q: seq<Edit>)
    requires AscendingSheet(rows) && AllReadable(p) && DistinctCells(p) && AllReadable(q) && DistinctCells(q)
    requires multiset(p) == multiset(q)
    ensures ApplyAll(rows, p) == ApplyAll(rows, q)
  {
    var a, b := ApplyAll(rows, p), ApplyAll(rows, q);
    ApplyRefinesMapUpdate(rows, p);
    ApplyRefinesMapUpdate(rows, q);
    assert forall e :: e in p <==> e in multiset(p);
    assert forall e :: e in q <==> e in multiset(q);
    forall r
      ensures Get(a, r) == Get(b, r)
    {
      hide ApplyAll; hide TextFor; hide SetText; hide Place; hide Readable; hide IndexOf;
      assert Get(a, r).Some? <==> Get(b, r).Some?;
      if Get(a, r).Some? {
        var s, t := Get(a, r).value, Get(b, r).value;
        RowAscending(a, r);
        RowAscending(b, r);
        forall c
          ensures Get(s, c) == Get(t, c)
        {
          TextForIs(p, r, c);
          TextForIs(q, r, c);
          assert At(a, r, c) == Get(s, c) && At(b, r, c) == Get(t, c);
        }
        Extensional(s, t);
      }
    }
    AscendingOf(a);
    AscendingOf(b);
    Extensional(a, b);
  }

  // ---- The source's in-place editor ------------------------------------------------------------

  class SheetData {
    var rows: Rows
    const maxRow: nat
    const maxColumn: nat
    const merged: seq<Range>

    constructor (rows: Rows, maxRow: nat, maxColumn: nat, merged: seq<Range>)
      ensures this.rows == rows && this.maxRow == maxRow && this.maxColumn == maxColumn && this.merged == merged
    {
      this.rows, this.maxRow, this.maxColumn, this.merged := rows, maxRow, maxColumn, merged;
    }

    predicate InBounds(e: Edit)
      requires Readable(e)
    {
      Place(e).row <= maxRow && Place(e).column <= (if maxColumn < 64 then maxColumn else 64)
    }

    static predicate ValidText(value: string) {
      |value| <= 32000
      && forall k | 0 <= k < |value| :: !(value[k] < '\t' || value[k] == '\U{0B}' || value[k] == '\U{0C}' || '\U{0E}' <= value[k] < ' ')
    }

    predicate FormulaAt(e: Edit)
      requires Readable(e)
      reads this
    {
      FormulaIn(rows, Place(e).row, Place(e).column)
    }

    /** Strictly inside a merged range, that is, anywhere but its top-left cell. */
    predicate Covered(e: Edit)
      requires Readable(e)
    {
      exists k | 0 <= k < |merged| ::
        && merged[k].left <= Place(e).column <= merged[k].right && merged[k].top <= Place(e).row <= merged[k].bottom
        && Place(e) != CellReference.Coordinate(merged[k].left, merged[k].top)
    }

    predicate Editable(e: Edit)
      reads this
    {
      Readable(e) && InBounds(e) && ValidText(e.value) && !FormulaAt(e) && !Covered(e)
    }

    predicate Accepts(edits: seq<Edit>)
      reads this
    {
      1 <= |edits| <= 500 && DistinctCells(edits) && forall k | 0 <= k < |edits| :: Editable(edits[k])
    }

    /**
     * What may be edited: the cell of a spelled-out coordinate within the sheet and the first 64 columns, to a text of at
     * most 32000 characters without control characters but tab and line ends, where there is no formula, and in a merged
     * range only its top-left cell.
     */
    ghost predicate Permitted(e: Edit, c: CellReference.Coordinate)
      reads this
    {
      && e.cell == CellReference.Print(c) && 1 <= c.column <= 16384 && c.column <= maxColumn && c.column <= 64
      && 1 <= c.row <= 1048576 && c.row <= maxRow
      && |e.value| <= 32000 && (forall x <- e.value :: x >= ' ' || x in "\t\n\r")
      && (forall cells, cell: Cell :: Get(rows, c.row) == Some(cells) && Get(cells, c.column) == Some(cell) ==>
            forall n <- cell.children :: !n.Formula?)
      && (forall m <- merged :: m.left <= c.column <= m.right && m.top <= c.row <= m.bottom ==> c.column == m.left && c.row == m.top)
    }

    static lemma TextIs(value: string)
      ensures ValidText(value) <==> |value| <= 32000 && forall x <- value :: x >= ' ' || x in "\t\n\r"
    {
      forall k | 0 <= k < |value|
        ensures !(value[k] < '\t' || value[k] == '\U{0B}' || value[k] == '\U{0C}' || '\U{0E}' <= value[k] < ' ')
                <==> value[k] >= ' ' || value[k] in "\t\n\r"
      {
        var ends := "\t\n\r";
        assert ends[0] == '\t' && ends[1] == '\n' && ends[2] == '\r';
      }
    }

    lemma CoveredIs(e: Edit)
      requires Readable(e)
      ensures var c := Place(e);
              Covered(e) <==> exists m <- merged :: && m.left <= c.column <= m.right && m.top <= c.row <= m.bottom
                                                    && !(c.column == m.left && c.row == m.top)
    {
      hide Place;
      if Covered(e) {
        var k :| 0 <= k < |merged| && merged[k].left <= Place(e).column <= merged[k].right && merged[k].top <= Place(e).row <= merged[k].bottom
                 && Place(e) != CellReference.Coordinate(merged[k].left, merged[k].top);
        assert merged[k] in merged;
      }
    }

    lemma FormulaIs(row: nat, column: nat)
      ensures !FormulaIn(rows, row, column) <==>
              forall cells, cell: Cell :: Get(rows, row) == Some(cells) && Get(cells, column) == Some(cell) ==>
                forall n <- cell.children :: !n.Formula?
    {
      hide Get;
      if At(rows, row, column).Some? {
        ChildrenIs(At(rows, row, column).value);
      }
    }

    static lemma ChildrenIs(cell: Cell)
      ensures HasFormula(cell) <==> exists n <- cell.children :: n.Formula?
    {
      if HasFormula(cell) {
        var k :| 0 <= k < |cell.children| && cell.children[k].Formula?;
        assert cell.children[k] in cell.children;
      }
    }

    /** Exactly the edits that are accepted, by coordinate. */
    lemma EditableIs(e: Edit)
      ensures Editable(e) <==> exists c: CellReference.Coordinate :: Permitted(e, c)
    {
      TextIs(e.value);
      if Readable(e) {
        var c := Place(e);
        CellReference.BareReferenceIsCanonical(e.cell);
        InRange(e);
        CoveredIs(e);
        FormulaIs(c.row, c.column);
        hide Covered; hide FormulaIn; hide Place; hide Readable; hide ValidText;
        if Editable(e) {
          assert Permitted(e, c);
        }
      }
      if c: CellReference.Coordinate :| Permitted(e, c) {
        CellReference.CoordinateRoundTrip(c);
        assert Readable(e) && Place(e) == c;
      }
    }

    static lemma InRange(e: Edit)
      requires Readable(e)
      ensures Place(e).column <= 16384 && Place(e).row <= 1048576
    {
    }

    /** The refusal names something that is wrong with the list. */
    ghost predicate Fault(edits: seq<Edit>, p: EditError)
      reads this
    {
      match p
      case WrongCount => !(1 <= |edits| <= 500)
      case InvalidOrDuplicate =>
        exists n | 0 <= n < |edits| :: !Readable(edits[n]) || exists m | 0 <= m < n :: edits[m].cell == edits[n].cell
      case OutsideBounds => exists e <- edits :: Readable(e) && !InBounds(e)
      case InvalidText => exists e <- edits :: !ValidText(e.value)
      case FormulaCell => exists e <- edits :: Readable(e) && FormulaAt(e)
      case InsideMerge => exists e <- edits :: Readable(e) && Covered(e)
    }

    lemma WrongCountIs(edits: seq<Edit>)
      ensures Fault(edits, WrongCount) <==> !(1 <= |edits| <= 500)
    {
    }

    lemma FaultAt(edits: seq<Edit>, n: nat, p: EditError)
      requires n < |edits|
      requires match p {
                 case WrongCount => false
                 case InvalidOrDuplicate => !Readable(edits[n]) || exists m | 0 <= m < n :: edits[m].cell == edits[n].cell
                 case OutsideBounds => Readable(edits[n]) && !InBounds(edits[n])
                 case InvalidText => !ValidText(edits[n].value)
                 case FormulaCell => Readable(edits[n]) && FormulaAt(edits[n])
                 case InsideMerge => Readable(edits[n]) && Covered(edits[n])
               }
      ensures Fault(edits, p)
    {
      assert edits[n] in edits;
    }

    method CheckOne(e: Edit) returns (problem: Option<EditError>)
      requires Readable(e)
      ensures problem.None? <==> InBounds(e) && ValidText(e.value) && !FormulaAt(e)
      ensures problem == Some(OutsideBounds) ==> !InBounds(e)
      ensures problem == Some(InvalidText) ==> !ValidText(e.value)
      ensures problem == Some(FormulaCell) ==> FormulaAt(e)
      ensures problem in {None, Some(OutsideBounds), Some(InvalidText), Some(FormulaCell)}
    {
      hide Place; hide Readable;
      if !InBounds(e) {
        return Some(OutsideBounds);
      }
      if !ValidText(e.value) {
        return Some(InvalidText);
      }
      return if FormulaAt(e) then Some(FormulaCell) else None;
    }

    method Check(edits: seq<Edit>) returns (problem: Option<EditError>)
      ensures problem.None? <==> Accepts(edits)
      ensures problem.Some? ==> Fault(edits, problem.value)
    {
      hide Readable; hide InBounds; hide ValidText; hide FormulaAt; hide Covered; hide Fault;
      if !(1 <= |edits| <= 500) {
        assert Fault(edits, WrongCount) by {
          WrongCountIs(edits);
        }
        return Some(WrongCount);
      }
      var seen: set<string> := {};
      for n := 0 to |edits|
        invariant forall k | 0 <= k < n :: edits[k].cell in seen
        invariant forall ref | ref in seen :: exists k :: 0 <= k < n && edits[k].cell == ref
        invariant forall i, j | 0 <= i < j < n :: edits[i].cell != edits[j].cell
        invariant forall k | 0 <= k < n :: Readable(edits[k]) && InBounds(edits[k]) && ValidText(edits[k].value) && !FormulaAt(edits[k])
      {
        var e := edits[n];
        if !Readable(e) || e.cell in seen {
          FaultAt(edits, n, InvalidOrDuplicate);
          return Some(InvalidOrDuplicate);
        }
        problem := CheckOne(e);
        if problem.Some? {
          FaultAt(edits, n, problem.value);
          return;
        }
        seen := seen + {e.cell};
      }
      for n := 0 to |edits|
        invariant forall k | 0 <= k < n :: !Covered(edits[k])
      {
        if Covered(edits[n]) {
          FaultAt(edits, n, InsideMerge);
          return Some(InsideMerge);
        }
      }
      return None;
    }

    static method RemoveContent(children: seq<Node>) returns (kept: seq<Node>)
      ensures kept == Kept(children)
    {
      kept := [];
      for n := 0 to |children|
        invariant Kept(children) == kept + Kept(children[n..])
      {
        assert children[n..][1..] == children[n + 1..];
        if children[n].Other? {
          assert kept + ([children[n]] + Kept(children[n + 1..])) == kept + [children[n]] + Kept(children[n + 1..]);
          kept := kept + [children[n]];
        } else {
          assert [] + Kept(children[n + 1..]) == Kept(children[n + 1..]);
        }
      }
      assert children[|children|..] == [];
    }

    method EditOne(row: nat, column: nat, value: string)
      modifies this
      ensures rows == EditRows(old(rows), row, column, value)
    {
      hide IndexOf; hide FirstAbove;
      var r := FindIndex(rows, row);
      if r == |rows| {
        var following := FindFollowing(rows, row);
        rows := rows[..following] + [Entry(row, [])] + rows[following..];
        r := following;
      }
      ghost var oldCells := rows[r].body;
      var cells := rows[r].body;
      var c := FindIndex(cells, column);
      if c == |cells| {
        var following := FindFollowing(cells, column);
        cells := cells[..following] + [Entry(column, BlankCell)] + cells[following..];
        c := following;
      }
      var kept := RemoveContent(cells[c].body.children);
      cells := cells[c := Entry(column, cells[c].body.(kind := "inlineStr", children := kept + [Inline(value)]))];
      FillInserted(oldCells, column, BlankCell, SetText(OrElse(Get(oldCells, column), BlankCell), value));
      assert cells == EditCells(oldCells, column, value);
      rows := rows[r := Entry(row, cells)];
      FillInserted(old(rows), row, [], cells);
    }

    /**
     * The whole save. A refused list changes nothing; an accepted one applies every edit and keeps each
     * formula of an ordered sheet exactly as it was.
     */
    method Save(edits: seq<Edit>) returns (problem: Option<EditError>)
      modifies this
      ensures problem.None? <==> old(Accepts(edits))
      ensures problem.Some? ==> old(Fault(edits, problem.value))
      ensures problem.Some? ==> rows == old(rows)
      ensures problem.None? ==> AllReadable(edits) && rows == ApplyAll(old(rows), edits)
      ensures AscendingSheet(old(rows)) ==> AscendingSheet(rows)
      ensures AscendingSheet(old(rows)) ==>
                forall r, c :: FormulaIn(old(rows), r, c) ==> At(rows, r, c) == At(old(rows), r, c)
    {
      hide AscendingSheet; hide ApplyAll; hide At; hide HasFormula; hide FormulaIn;
      problem := Check(edits);
      if problem.Some? {
        return;
      }
      ApplyEdits(edits);
      FormulasStay(old(rows), edits);
    }

    /** The edits one after another, in the order of the list. */
    method ApplyEdits(edits: seq<Edit>)
      requires AllReadable(edits)
      modifies this
      ensures rows == ApplyAll(old(rows), edits)
    {
      hide EditRows; hide Readable; hide Place;
      for n := 0 to |edits|
        invariant rows == ApplyAll(old(rows), edits[..n])
      {
        EditOne(Place(edits[n]).row, Place(edits[n]).column, edits[n].value);
        assert edits[..n + 1][..n] == edits[..n];
      }
      assert edits[..|edits|] == edits;
    }
  }

  /** Edits that avoid every formula leave every formula of an ordered sheet as it was. */
  lemma FormulasStay(before: Rows, edits: seq<Edit>)
    requires AllReadable(edits) && DistinctCells(edits)
    requires forall e | e in edits :: !FormulaIn(before, Place(e).row, Place(e).column)
    ensures AscendingSheet(before) ==>
              && AscendingSheet(ApplyAll(before, edits))
              && forall r, c :: FormulaIn(before, r, c) ==> At(ApplyAll(before, edits), r, c) == At(before, r, c)
  {
    hide AscendingSheet; hide ApplyAll; hide At; hide HasFormula; hide TextFor; hide Place; hide Readable;
    if AscendingSheet(before) {
      ApplyRefinesMapUpdate(before, edits);
      forall r, c | FormulaIn(before, r, c)
        ensures At(ApplyAll(before, edits), r, c) == At(before, r, c)
      {
        TextForIs(edits, r, c);
        assert TextFor(edits, r, c) == None;
      }
    }
  }
}
