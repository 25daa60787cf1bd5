/** The sparse, bi-infinite tape: a map from signed position to symbol, a head
    position and a blank symbol. Cells that are not in the map hold the blank
    symbol, and the map never stores the blank symbol itself. */
module Tapes {

  /** `Integer.MAX_VALUE`: the leftmost position reported for a blank tape. */
  const MaxInt: int := 0x7fff_ffff
  /** `Integer.MIN_VALUE`: the rightmost position reported for a blank tape. */
  const MinInt: int := -0x8000_0000

  /** The representation invariant: no stored cell holds the blank symbol. */
  predicate NoBlankStored(cells: map<int, char>, blank: char) {
    forall p :: p in cells ==> cells[p] != blank
  }

  /** The symbol in cell `p`: the stored one, or blank if the cell is not stored. */
  function CellAt(cells: map<int, char>, blank: char, p: int): (c: char)
    ensures p in cells ==> c == cells[p]
    ensures NoBlankStored(cells, blank) ==> (c == blank <==> p !in cells)
  {
    if p in cells then cells[p] else blank
  }

  /** The cells after writing `c` at position `p`: writing the blank symbol
      removes the cell instead of storing it. */
  function Written(cells: map<int, char>, p: int, c: char, blank: char): (r: map<int, char>)
    ensures CellAt(r, blank, p) == c
    ensures forall q :: q != p ==> CellAt(r, blank, q) == CellAt(cells, blank, q)
    ensures forall q :: q != p ==> (q in r <==> q in cells)
    ensures NoBlankStored(cells, blank) ==> NoBlankStored(r, blank)
  {
    if c == blank then cells - {p} else cells[p := c]
  }

  /** The character of `content` that a fresh tape puts at position `p`. */
  function PlacedAt(content: string, offset: int, p: int): char
    requires offset <= p < offset + |content|
  {
    content[p - offset]
  }

  /** The cells of a fresh tape: `content[i]` at position `offset + i`,
      skipping every character equal to the blank symbol. */
  function InitialCells(content: string, offset: int, blank: char): (r: map<int, char>)
    ensures NoBlankStored(r, blank)
    ensures forall i :: 0 <= i < |content| && content[i] != blank ==>
              offset + i in r && r[offset + i] == content[i]
    ensures forall p :: p in r ==> offset <= p < offset + |content| && content[p - offset] != blank
  {
    map p | offset <= p < offset + |content| && PlacedAt(content, offset, p) != blank :: PlacedAt(content, offset, p)
  }

  /** The cells of a fresh tape are the only map holding exactly the
      non-blank characters of `content`, each at its own position. */
  lemma InitialCellsUnique(content: string, offset: int, blank: char, m: map<int, char>)
    requires forall i :: 0 <= i < |content| && content[i] != blank ==> offset + i in m
    requires forall p :: p in m ==> offset <= p < offset + |content| && content[p - offset] != blank
    requires forall p :: p in m ==> m[p] == content[p - offset]
    ensures InitialCells(content, offset, blank) == m
  {
    var r := InitialCells(content, offset, blank);
    forall p | p in m ensures p in r && r[p] == m[p] {
      assert offset + (p - offset) in r;
    }
    forall p | p in r ensures p in m {
      assert offset + (p - offset) in m;
    }
  }

  /** Writing a non-blank symbol inside a fresh tape's string gives the
      fresh tape of the string with that character replaced. */
  lemma WrittenInside(content: string, offset: int, blank: char, i: int, c: char)
    requires 0 <= i < |content| && c != blank
    ensures Written(InitialCells(content, offset, blank), offset + i, c, blank)
         == InitialCells(content[i := c], offset, blank)
  {
    var r := Written(InitialCells(content, offset, blank), offset + i, c, blank);
    var w := content[i := c];
    forall p | p in r ensures offset <= p < offset + |w| && w[p - offset] != blank && r[p] == w[p - offset] {
      if p != offset + i {
        assert CellAt(r, blank, p) == CellAt(InitialCells(content, offset, blank), blank, p);
      }
    }
    forall j | 0 <= j < |w| && w[j] != blank ensures offset + j in r {
      if j != i {
        assert CellAt(r, blank, offset + j) == CellAt(InitialCells(content, offset, blank), blank, offset + j);
      }
    }
    InitialCellsUnique(w, offset, blank, r);
  }

  /** Writing the blank symbol outside a fresh tape's string changes nothing. */
  lemma WrittenBlankOutside(content: string, offset: int, blank: char, p: int)
    requires p < offset || offset + |content| <= p
    ensures Written(InitialCells(content, offset, blank), p, blank, blank) == InitialCells(content, offset, blank)
  {
    var cells := InitialCells(content, offset, blank);
    assert p !in cells;
    assert cells - {p} == cells;
  }

  /** The least element of a non-empty set of positions. */
  ghost function LeastOf(keys: set<int>): (m: int)
    requires exists p :: p in keys
    ensures m in keys && forall q :: q in keys ==> m <= q
    decreases |keys|
  {
    var x :| x in keys;
    if exists y :: y in keys && y != x then
      var rest := keys - {x};
      assert forall q :: q in keys ==> q == x || q in rest;
      var m := LeastOf(rest);
      if x < m then x else m
    else
      x
  }

  /** The greatest element of a non-empty set of positions. */
  ghost function GreatestOf(keys: set<int>): (m: int)
    requires exists p :: p in keys
    ensures m in keys && forall q :: q in keys ==> q <= m
    decreases |keys|
  {
    var x :| x in keys;
    if exists y :: y in keys && y != x then
      var rest := keys - {x};
      assert forall q :: q in keys ==> q == x || q in rest;
      var m := GreatestOf(rest);
      if m < x then x else m
    else
      x
  }

  /** The least stored position, or `MaxInt` when nothing is stored. */
  function Leftmost(cells: map<int, char>): (p: int)
    ensures cells == map[] ==> p == MaxInt
    ensures cells != map[] ==> p in cells && forall q :: q in cells ==> p <= q
  {
    if exists p :: p in cells then
      assert LeastOf(cells.Keys) in cells;
      var p :| p in cells && forall q :: q in cells ==> p <= q;
      p
    else
      assert cells == map[];
      MaxInt
  }

  /** The greatest stored position, or `MinInt` when nothing is stored. */
  function Rightmost(cells: map<int, char>): (p: int)
    ensures cells == map[] ==> p == MinInt
    ensures cells != map[] ==> p in cells && forall q :: q in cells ==> q <= p
  {
    if exists p :: p in cells then
      assert GreatestOf(cells.Keys) in cells;
      var p :| p in cells && forall q :: q in cells ==> q <= p;
      p
    else
      assert cells == map[];
      MinInt
  }

  /** The stored content read from the leftmost to the rightmost stored
      position, with blank in the gaps; empty when nothing is stored. */
  function Content(cells: map<int, char>, blank: char): (s: string)
    ensures s == [] <==> cells == map[]
  {
    if cells == map[] then []
    else
      var lo, hi := Leftmost(cells), Rightmost(cells);
      seq(hi - lo + 1, k requires 0 <= k <= hi - lo => CellAt(cells, blank, lo + k))
  }

  /** Character `k` of the content is the symbol at position `Leftmost + k`,
      and the content spans exactly the stored positions. */
  lemma ContentAt(cells: map<int, char>, blank: char, k: int)
    requires cells != map[] && 0 <= k
    ensures |Content(cells, blank)| == Rightmost(cells) - Leftmost(cells) + 1
    ensures k < |Content(cells, blank)| ==>
              Content(cells, blank)[k] == CellAt(cells, blank, Leftmost(cells) + k)
  {
  }

  /** With no blank stored, a non-empty content starts and ends with a
      non-blank symbol: those are the leftmost and rightmost stored cells. */
  lemma ContentEdgesNotBlank(cells: map<int, char>, blank: char)
    requires NoBlankStored(cells, blank)
    requires Content(cells, blank) != []
    ensures Content(cells, blank)[0] == cells[Leftmost(cells)] != blank
    ensures Content(cells, blank)[|Content(cells, blank)| - 1] == cells[Rightmost(cells)] != blank
  {
    ContentAt(cells, blank, 0);
    ContentAt(cells, blank, Rightmost(cells) - Leftmost(cells));
  }

  /** A tape built from a string whose first character is not blank has
      its leftmost stored cell at the offset. */
  lemma InitialLeftmost(content: string, offset: int, blank: char)
    requires content != [] && content[0] != blank
    ensures Leftmost(InitialCells(content, offset, blank)) == offset
  {
    assert offset + 0 in InitialCells(content, offset, blank);
  }

  /** A tape built from a string whose last character is not blank has
      its rightmost stored cell at the string's last position. */
  lemma InitialRightmost(content: string, offset: int, blank: char)
    requires content != [] && content[|content| - 1] != blank
    ensures Rightmost(InitialCells(content, offset, blank)) == offset + |content| - 1
  {
    assert offset + (|content| - 1) in InitialCells(content, offset, blank);
  }

  /** A tape built from a string whose ends are not blank renders back to that
      string, and its content starts at the given offset. */
  lemma {:induction false} ContentOfInitialCells(content: string, offset: int, blank: char)
    requires content != [] && content[0] != blank && content[|content| - 1] != blank
    ensures Leftmost(InitialCells(content, offset, blank)) == offset
    ensures Content(InitialCells(content, offset, blank), blank) == content
  {
    var cells := InitialCells(content, offset, blank);
    InitialLeftmost(content, offset, blank);
    InitialRightmost(content, offset, blank);
    var s := Content(cells, blank);
    ContentAt(cells, blank, 0);
    assert |s| == |content|;
    forall k | 0 <= k < |content|
      ensures s[k] == content[k]
    {
      ContentAt(cells, blank, k);
      if content[k] != blank {
        assert offset + k in cells;
      }
    }
  }

  /** Writing a non-blank symbol just left of a fresh tape's string, whose
      ends are not blank, extends the content by that symbol on the left and
      moves the offset one position to the left. */
  lemma {:induction false} ContentWrittenBefore(content: string, offset: int, blank: char, c: char)
    requires content != [] && content[0] != blank && content[|content| - 1] != blank && c != blank
    ensures Leftmost(Written(InitialCells(content, offset, blank), offset - 1, c, blank)) == offset - 1
    ensures Content(Written(InitialCells(content, offset, blank), offset - 1, c, blank), blank) == [c] + content
  {
    var init := InitialCells(content, offset, blank);
    var cells := Written(init, offset - 1, c, blank);
    var last := offset + |content| - 1;
    InitialRightmost(content, offset, blank);
    assert offset - 1 in cells;
    assert last in init && last in cells;
    assert Leftmost(cells) == offset - 1;
    assert Rightmost(cells) == last;
    var s := Content(cells, blank);
    ContentAt(cells, blank, 0);
    assert |s| == |content| + 1;
    forall k | 0 <= k < |s| ensures s[k] == ([c] + content)[k] {
      ContentAt(cells, blank, k);
      if k > 0 {
        var p := offset + (k - 1);
        assert CellAt(cells, blank, p) == CellAt(init, blank, p);
        if content[k - 1] == blank {
          assert p !in init;
        }
      }
    }
  }

  /** A tape whose content is entirely blank stores nothing. */
  lemma {:induction false} AllBlankInitialCells(content: string, offset: int, blank: char)
    requires forall i :: 0 <= i < |content| ==> content[i] == blank
    ensures InitialCells(content, offset, blank) == map[]
    ensures Content(InitialCells(content, offset, blank), blank) == []
    ensures Leftmost(InitialCells(content, offset, blank)) == MaxInt
  {
    var cells := InitialCells(content, offset, blank);
    assert cells.Keys == {};
  }

  class Tape {
    /** The stored cells: position to non-blank symbol. */
    var cells: map<int, char>
    /** The head position. */
    var current: int
    /** The blank symbol; fixed when the tape is created. */
    const blank: char

    ghost predicate Valid()
      reads this
    {
      NoBlankStored(cells, blank)
    }

    /** Creates a tape holding `content` from `offset` on, head at `current`. */
    constructor (content: string, offset: int, current: int, blank: char)
      ensures Valid()
      ensures cells == InitialCells(content, offset, blank)
      ensures this.current == current && this.blank == blank
    {
      var m: map<int, char> := map[];
      var i := 0;
      while i < |content|
        invariant 0 <= i <= |content|
        invariant forall p :: p in m <==> offset <= p < offset + i && content[p - offset] != blank
        invariant forall p :: p in m ==> m[p] == content[p - offset]
      {
        if content[i] != blank {
          m := m[offset + i := content[i]];
        }
        i := i + 1;
      }
      ghost var r := InitialCells(content, offset, blank);
      forall p | p in r ensures p in m {
      }
      forall p | p in m ensures p in r && r[p] == m[p] {
        assert offset + (p - offset) in r;
      }
      assert m == r;
      this.cells := m;
      this.current := current;
      this.blank := blank;
    }

    /** Moves the head one position to the left. */
    method Left()
      requires Valid()
      modifies this
      ensures Valid()
      ensures current == old(current) - 1
      ensures cells == old(cells)
    {
      current := current - 1;
    }

    /** Moves the head one position to the right. */
    method Right()
      requires Valid()
      modifies this
      ensures Valid()
      ensures current == old(current) + 1
      ensures cells == old(cells)
    {
      current := current + 1;
    }

    /** The symbol under the head. */
    method Read() returns (c: char)
      ensures current in cells ==> c == cells[current]
      ensures current !in cells ==> c == blank
    {
      if current in cells {
        c := cells[current];
      } else {
        c := blank;
      }
    }

    /** Writes `c` under the head; writing the blank symbol removes the cell. */
    method Write(c: char)
      requires Valid()
      modifies this
      ensures Valid()
      ensures cells == Written(old(cells), current, c, blank)
      ensures current == old(current)
    {
      if c == blank {
        cells := cells - {current};
      } else {
        cells := cells[current := c];
      }
    }

    /** The content from the leftmost to the rightmost stored cell. */
    method GetContent() returns (s: string)
      ensures cells == map[] ==> s == []
      ensures cells != map[] ==> |s| == Rightmost(cells) - Leftmost(cells) + 1
      ensures forall k :: 0 <= k < |s| ==> s[k] == CellAt(cells, blank, Leftmost(cells) + k)
      ensures s == Content(cells, blank)
    {
      var left := Leftmost(cells);
      var right := Rightmost(cells);
      s := [];
      var i := left;
      while i <= right
        invariant left <= i
        invariant cells == map[] ==> i == left
        invariant cells != map[] ==> i <= right + 1
        invariant |s| == i - left
        invariant forall k :: 0 <= k < |s| ==> s[k] == CellAt(cells, blank, left + k)
      {
        if i in cells {
          s := s + [cells[i]];
        } else {
          s := s + [blank];
        }
        i := i + 1;
      }
      if cells != map[] {
        forall k | 0 <= k < |s| ensures s[k] == Content(cells, blank)[k] {
          ContentAt(cells, blank, k);
        }
        ContentAt(cells, blank, 0);
      }
    }

    /** The position of the first stored cell, or `MaxInt` for a blank tape. */
    function GetOffset(): (p: int)
      reads this
      ensures cells == map[] ==> p == MaxInt
      ensures cells != map[] ==> p in cells && forall q :: q in cells ==> p <= q
    {
      Leftmost(cells)
    }
  }
}
