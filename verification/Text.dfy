/** Comma-separated cells: joining, splitting, trimming. */
module Text {

  function Join(cells: seq<string>): string {
    if cells == [] then ""
    else if |cells| == 1 then cells[0]
    else cells[0] + "," + Join(cells[1..])
  }

  // The cells of a line; a line without a comma is one cell, the empty line one empty cell.
  function Split(s: string): (cells: seq<string>)
    ensures |cells| >= 1
  {
    if s == "" then [""]
    else if s[0] == ',' then [""] + Split(s[1..])
    else
      var rest := Split(s[1..]);
      [[s[0]] + rest[0]] + rest[1..]
  }

  // White space, the wide kinds included.
  predicate IsSpace(c: char) {
    var n := c as int;
    || 9 <= n <= 13 || n == 32 || n == 0x85 || n == 0xa0 || n == 0x1680 || 0x2000 <= n <= 0x200a
    || n == 0x2028 || n == 0x2029 || n == 0x202f || n == 0x205f || n == 0x3000
  }

  function Trim(s: string): string {
    if s != "" && IsSpace(s[0]) then Trim(s[1..])
    else if s != "" && IsSpace(s[|s| - 1]) then Trim(s[..|s| - 1])
    else s
  }

  // What is left has no space at either end, and only spaces are gone.
  lemma {:induction false} TrimDropsSpaces(s: string) returns (i: nat, j: nat)
    ensures i <= j <= |s| && Trim(s) == s[i..j]
    ensures forall k :: 0 <= k < i || j <= k < |s| ==> IsSpace(s[k])
    ensures i < j ==> !IsSpace(s[i]) && !IsSpace(s[j - 1])
  {
    if s != "" && IsSpace(s[0]) {
      i, j := TrimDropsSpaces(s[1..]);
      i, j := i + 1, j + 1;
    } else if s != "" && IsSpace(s[|s| - 1]) {
      i, j := TrimDropsSpaces(s[..|s| - 1]);
    } else {
      i, j := 0, |s|;
    }
  }

  predicate NoComma(s: string) {
    forall i :: 0 <= i < |s| ==> s[i] != ','
  }

  // A cell that survives the line format and the trimming of its reader.
  predicate Plain(s: string) {
    NoComma(s) && Trim(s) == s
  }

  lemma {:induction false} SplitCell(cell: string, rest: string)
    requires NoComma(cell)
    ensures Split(cell + "," + rest) == [cell] + Split(rest)
    ensures Split(cell) == [cell]
  {
    if cell == "" {
      assert cell + "," + rest == "," + rest;
    } else {
      SplitCell(cell[1..], rest);
      assert (cell + "," + rest)[1..] == cell[1..] + "," + rest;
      assert [cell[0]] + cell[1..] == cell;
    }
  }

  // Splitting a joined line gives back exactly its cells.
  lemma {:induction false} SplitJoin(cells: seq<string>)
    requires cells != [] && forall i :: 0 <= i < |cells| ==> NoComma(cells[i])
    ensures Split(Join(cells)) == cells
  {
    if |cells| == 1 {
      SplitCell(cells[0], "");
    } else {
      SplitJoin(cells[1..]);
      SplitCell(cells[0], Join(cells[1..]));
    }
  }
}
