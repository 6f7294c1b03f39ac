/** The fixed-width table layout: the column widths of main.h, printf's
    left-justified padding, name truncation, and the separator, header and
    row lines. Each line is the text the program writes, newline included. */
module Table {
  import opened CStrings

  const ID_WIDTH: nat := 10
  const NAME_WIDTH: nat := 40
  const STATUS_WIDTH: nat := 15
  const ASSIGNEES_WIDTH: nat := 80

  /** Length of a separator line, and of every line whose fields fit their
      columns, counting the newline. */
  const LINE_WIDTH: nat := ID_WIDTH + NAME_WIDTH + STATUS_WIDTH + ASSIGNEES_WIDTH + 14

  function Max(a: nat, b: nat): nat { if a >= b then a else b }

  /** How far a field of length len overflows a column of the given width. */
  function Excess(len: nat, width: nat): nat { if len > width then len - width else 0 }

  /** n copies of the character c. */
  function Fill(c: char, n: nat): (r: string)
    ensures |r| == n && forall i :: 0 <= i < n ==> r[i] == c
  {
    seq(n, _ => c)
  }

  /** printf's `%-*s`: s left-justified in a column of the given width.
      Padding never shortens s, so a longer s widens the column. */
  function Pad(s: CString, width: nat): (r: CString)
    ensures |r| == Max(width, |s|)
    ensures r[..|s|] == s
    ensures forall i :: |s| <= i < |r| ==> r[i] == ' '
  {
    if |s| < width then s + Fill(' ', width - |s|) else s
  }

  /** The name column of print_table_row: strncpy at most NAME_WIDTH
      characters, then, when the name is longer, overwrite the last three
      with "...". */
  function TruncateName(name: CString): (r: CString)
    ensures |r| <= NAME_WIDTH
    ensures |name| <= NAME_WIDTH ==> r == name
    ensures |name| > NAME_WIDTH ==>
      && |r| == NAME_WIDTH
      && r[..NAME_WIDTH - 3] == name[..NAME_WIDTH - 3]
      && r[NAME_WIDTH - 3..] == "..."
  {
    var copied := Take(name, NAME_WIDTH);
    if |name| > NAME_WIDTH then copied[..NAME_WIDTH - 3] + "..." else copied
  }

  /** The format string "| %-*s | %-*s | %-*s | %-*s |\n" shared by the
      header and every row. */
  function FormatLine(id: CString, name: CString, status: CString, assignees: CString): (r: string)
    ensures |r| == 14 + Max(ID_WIDTH, |id|) + Max(NAME_WIDTH, |name|)
                      + Max(STATUS_WIDTH, |status|) + Max(ASSIGNEES_WIDTH, |assignees|)
  {
    "| " + Pad(id, ID_WIDTH) + " | " + Pad(name, NAME_WIDTH) + " | " + Pad(status, STATUS_WIDTH)
    + " | " + Pad(assignees, ASSIGNEES_WIDTH) + " |\n"
  }

  /** The line print_table_header writes between its two separators. */
  function HeaderLine(): (r: string)
    ensures |r| == LINE_WIDTH
  {
    FormatLine("ID", "Name", "Status", "Assignees")
  }

  /** The line print_table_row writes. */
  function RowLine(id: CString, name: CString, status: CString, assignees: CString): (r: string)
    ensures |r| >= LINE_WIDTH
    ensures r[..2] == "| " && r[|r| - 3..] == " |\n"
  {
    FormatLine(id, TruncateName(name), status, assignees)
  }

  /** The line print_table_separator writes. */
  function SeparatorLine(): (r: string)
    ensures |r| == LINE_WIDTH
    ensures r[0] == '+' && r[LINE_WIDTH - 2..] == "+\n"
  {
    "+" + Fill('-', ID_WIDTH + 2) + "+" + Fill('-', NAME_WIDTH + 2) + "+" + Fill('-', STATUS_WIDTH + 2)
    + "+" + Fill('-', ASSIGNEES_WIDTH + 2) + "+\n"
  }

  /** The separator, the header line and the separator again. */
  function HeaderBlock(): (r: string)
    ensures |r| == 3 * LINE_WIDTH
    ensures r[..LINE_WIDTH] == r[2 * LINE_WIDTH..] == SeparatorLine()
  {
    SeparatorLine() + HeaderLine() + SeparatorLine()
  }

  /** Lines written one after another. */
  function Concat(lines: seq<string>): string
  {
    if lines == [] then "" else Concat(lines[..|lines| - 1]) + lines[|lines| - 1]
  }

  /** Writing two runs of lines one after the other writes their texts one
      after the other. */
  lemma {:induction false} ConcatAppend(xs: seq<string>, ys: seq<string>)
    ensures Concat(xs + ys) == Concat(xs) + Concat(ys)
    decreases |ys|
  {
    if ys == [] {
      assert xs + ys == xs;
    } else {
      var init := ys[..|ys| - 1];
      assert (xs + ys)[..|xs + ys| - 1] == xs + init;
      ConcatAppend(xs, init);
    }
  }

  /** Writing the first i + 1 lines writes the first i, then line i. */
  lemma ConcatPrefix(lines: seq<string>, i: nat)
    requires i < |lines|
    ensures Concat(lines[..i + 1]) == Concat(lines[..i]) + lines[i]
  {
    assert lines[..i + 1] == lines[..i] + [lines[i]];
    ConcatAppend(lines[..i], [lines[i]]);
    assert [lines[i]][..0] == [];
  }

  /** The column positions at which a line shows a border: '+' in a
      separator, '|' in a header or row whose fields fit. */
  predicate IsBorder(i: int)
  {
    || i == 0
    || i == ID_WIDTH + 3
    || i == ID_WIDTH + NAME_WIDTH + 6
    || i == ID_WIDTH + NAME_WIDTH + STATUS_WIDTH + 9
    || i == LINE_WIDTH - 2
  }

  /** The separator is 158 characters and a newline: '+' at each border,
      '-' everywhere else. */
  lemma SeparatorShape()
    ensures |SeparatorLine()| == LINE_WIDTH == 159
    ensures SeparatorLine()[LINE_WIDTH - 1] == '\n'
    ensures forall i :: 0 <= i < LINE_WIDTH - 1 ==>
      SeparatorLine()[i] == if IsBorder(i) then '+' else '-'
  {
    var s := SeparatorLine();
    forall i | 0 <= i < LINE_WIDTH - 1
      ensures s[i] == if IsBorder(i) then '+' else '-'
    {
      if i < ID_WIDTH + 3 {
      } else if i < ID_WIDTH + NAME_WIDTH + 6 {
        assert s[i] == ("+" + Fill('-', NAME_WIDTH + 2))[i - (ID_WIDTH + 3)];
      } else if i < ID_WIDTH + NAME_WIDTH + STATUS_WIDTH + 9 {
        assert s[i] == ("+" + Fill('-', STATUS_WIDTH + 2))[i - (ID_WIDTH + NAME_WIDTH + 6)];
      } else {
        assert s[i] == ("+" + Fill('-', ASSIGNEES_WIDTH + 2) + "+")[i - (ID_WIDTH + NAME_WIDTH + STATUS_WIDTH + 9)];
      }
    }
  }

  /** A header or row line whose fields fit their columns is as long as the
      separator and has '|' exactly where the separator has '+'. */
  lemma FittingLineAligns(id: CString, name: CString, status: CString, assignees: CString)
    requires |id| <= ID_WIDTH && |name| <= NAME_WIDTH
    requires |status| <= STATUS_WIDTH && |assignees| <= ASSIGNEES_WIDTH
    ensures |FormatLine(id, name, status, assignees)| == |SeparatorLine()|
    ensures forall i :: 0 <= i < LINE_WIDTH && IsBorder(i) ==>
      FormatLine(id, name, status, assignees)[i] == '|'
  {
    SeparatorShape();
    var a, b, c, d := Pad(id, ID_WIDTH), Pad(name, NAME_WIDTH), Pad(status, STATUS_WIDTH),
                      Pad(assignees, ASSIGNEES_WIDTH);
    var line := FormatLine(id, name, status, assignees);
    assert line == "| " + a + " | " + b + " | " + c + " | " + d + " |\n";
    assert line[ID_WIDTH + 3] == (" | " + b)[1];
    assert line[ID_WIDTH + NAME_WIDTH + 6] == (" | " + c)[1];
    assert line[ID_WIDTH + NAME_WIDTH + STATUS_WIDTH + 9] == (" | " + d)[1];
    assert line[LINE_WIDTH - 2] == " |\n"[1];
  }

  /** The header line fits every column, so it lines up with the separator. */
  lemma HeaderAligns()
    ensures |HeaderLine()| == |SeparatorLine()| == LINE_WIDTH
    ensures forall i :: 0 <= i < LINE_WIDTH && IsBorder(i) ==> HeaderLine()[i] == '|'
    ensures |HeaderBlock()| == 3 * LINE_WIDTH
  {
    FittingLineAligns("ID", "Name", "Status", "Assignees");
  }

  /** A row is one separator width long plus the amount by which the id and
      the status overflow their columns; name and assignees never widen it. */
  lemma RowWidth(id: CString, name: CString, status: CString, assignees: CString)
    requires |assignees| <= ASSIGNEES_WIDTH
    ensures |RowLine(id, name, status, assignees)|
         == LINE_WIDTH + Excess(|id|, ID_WIDTH) + Excess(|status|, STATUS_WIDTH)
  {
  }

  /** Appends n dashes, one at a time, as the counting loops of
      print_table_separator do. */
  method AppendDashes(s: string, n: nat) returns (t: string)
    ensures t == s + Fill('-', n)
  {
    t := s;
    for i := 0 to n
      invariant t == s + Fill('-', i)
    {
      assert Fill('-', i + 1) == Fill('-', i) + "-";
      t := t + "-";
    }
  }

  /** print_table_separator. */
  method PrintSeparator() returns (line: string)
    ensures line == SeparatorLine()
  {
    line := "+";
    line := AppendDashes(line, ID_WIDTH + 2);
    line := line + "+";
    line := AppendDashes(line, NAME_WIDTH + 2);
    line := line + "+";
    line := AppendDashes(line, STATUS_WIDTH + 2);
    line := line + "+";
    line := AppendDashes(line, ASSIGNEES_WIDTH + 2);
    line := line + "+\n";
  }

  /** print_table_header. */
  method PrintHeader() returns (text: string)
    ensures text == HeaderBlock()
  {
    var top := PrintSeparator();
    var bottom := PrintSeparator();
    text := top + HeaderLine() + bottom;
  }
}
