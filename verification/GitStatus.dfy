/** Reading `git status --porcelain=v1 -z` (ops/github-release.py, parse_status). */
module GitStatus {
  import opened Types

  const NUL := '\0'

  datatype Error = FormatInvalid

  /** str.split on NUL. */
  function Split(s: string): (rows: seq<string>)
    ensures rows != []
  {
    if s == "" then [""] else
      var rows := Split(s[..|s| - 1]);
      var c, last := s[|s| - 1], |rows| - 1;
      if c == NUL then rows + [""] else rows[..last] + [rows[last] + [c]]
  }

  predicate Moves(row: string)
    requires |row| >= 2
  {
    row[0] == 'R' || row[1] == 'R' || row[0] == 'C' || row[1] == 'C'
  }

  /** The rows from `index` on, read into `found`. */
  function ReadRows(rows: seq<string>, index: nat, found: map<string, string>): Result<map<string, string>, Error>
    decreases |rows| - index
  {
    if index >= |rows| then Ok(found) else
      var row := rows[index];
      if row == "" then ReadRows(rows, index + 1, found)
      else if |row| < 4 || row[2] != ' ' then Err(FormatInvalid)
      else ReadRows(rows, if Moves(row) then index + 2 else index + 1, found[row[3..] := row[..2]])
  }

  method ParseStatus(payload: string) returns (r: Result<map<string, string>, Error>)
    ensures r == ReadRows(Split(payload), 0, map[])
  {
    var rows := Split(payload);
    var index, found := 0, map[];
    while index < |rows|
      invariant ReadRows(rows, 0, map[]) == ReadRows(rows, index, found)
      decreases |rows| - index
    {
      var row := rows[index];
      index := index + 1;
      if row == "" { continue; }
      if |row| < 4 || row[2] != ' ' { return Err(FormatInvalid); }
      found := found[row[3..] := row[..2]];
      if Moves(row) { index := index + 1; }
    }
    return Ok(found);
  }

  // ---- the printer

  /** A path with its two status letters; a rename or copy carries the path it came from. */
  datatype Entry = Entry(status: string, path: string, origin: Option<string>)
  {
    predicate Valid() {
      && |status| == 2 && NUL !in status && path != "" && NUL !in path
      && (origin.Some? <==> 'R' in status || 'C' in status) && (origin.Some? ==> NUL !in origin.value)
    }

    function Row(): string { status + " " + path }
    function Rows(): seq<string> { if origin.Some? then [Row(), origin.value] else [Row()] }
    function Text(): string { Row() + [NUL] + if origin.Some? then origin.value + [NUL] else "" }
  }

  function Print(entries: seq<Entry>): string {
    if entries == [] then "" else Print(entries[..|entries| - 1]) + entries[|entries| - 1].Text()
  }

  /** The status of each path, a later entry replacing an earlier one. */
  function LastWins(entries: seq<Entry>): map<string, string> {
    if entries == [] then map[] else
      var e := entries[|entries| - 1];
      LastWins(entries[..|entries| - 1])[e.path := e.status]
  }

  ghost predicate AllValid(entries: seq<Entry>) { forall e :: e in entries ==> e.Valid() }

  lemma {:induction false} SplitPlain(s: string)
    requires NUL !in s
    ensures Split(s) == [s]
  {
    if s != "" {
      SplitPlain(s[..|s| - 1]);
      assert s == s[..|s| - 1] + [s[|s| - 1]];
      assert s[|s| - 1] in s;
    }
  }

  /** A NUL ends a row. */
  lemma {:induction false} SplitAtNul(a: string, b: string)
    requires NUL !in b
    ensures Split(a + [NUL] + b) == Split(a) + [b]
  {
    var s := a + [NUL] + b;
    if b == "" {
      assert s[..|s| - 1] == a;
    } else {
      var n := |b| - 1;
      assert s[..|s| - 1] == a + [NUL] + b[..n];
      SplitAtNul(a, b[..n]);
      assert b[n] in b;
      assert b == b[..n] + [b[n]];
    }
  }

  lemma EndRow(text: string, rows: seq<string>, row: string)
    requires Split(text) == rows + [""] && NUL !in row
    ensures Split(text + (row + [NUL])) == rows + [row] + [""]
  {
    ExtendLast(text, rows, row);
    SplitAtNul(text + row, "");
    assert text + row + [NUL] + "" == text + (row + [NUL]);
  }

  /** Printing an entry adds its rows in place of the last, empty one. */
  lemma SplitAppends(text: string, rows: seq<string>, e: Entry)
    requires Split(text) == rows + [""] && e.Valid()
    ensures Split(text + e.Text()) == rows + e.Rows() + [""]
  {
    assert NUL !in e.Row();
    EndRow(text, rows, e.Row());
    if e.origin.Some? {
      EndRow(text + (e.Row() + [NUL]), rows + [e.Row()], e.origin.value);
      assert text + e.Text() == text + (e.Row() + [NUL]) + (e.origin.value + [NUL]);
      assert rows + [e.Row()] + [e.origin.value] == rows + e.Rows();
    } else {
      assert text + e.Text() == text + (e.Row() + [NUL]);
    }
  }

  lemma SplitNext(text: string, rows: seq<string>, last: string, c: char)
    requires Split(text) == rows + [last] && c != NUL
    ensures Split(text + [c]) == rows + [last + [c]]
  {
    assert (text + [c])[..|text|] == text;
    assert Split(text)[..|rows|] == rows;
  }

  /** The last character of the second part is that of the whole. */
  lemma LastOff(a: string, b: string)
    requires b != ""
    ensures a + b == a + b[..|b| - 1] + [b[|b| - 1]]
  {
    assert b == b[..|b| - 1] + [b[|b| - 1]];
  }

  lemma {:induction false} ExtendLast(text: string, rows: seq<string>, more: string)
    requires Split(text) == rows + [""] && NUL !in more
    ensures Split(text + more) == rows + [more]
  {
    if more == "" {
      assert text + more == text;
    } else {
      var n := |more| - 1;
      ExtendLast(text, rows, more[..n]);
      SplitNext(text + more[..n], rows, more[..n], more[n]);
      LastOff(text, more);
      assert more == more[..n] + [more[n]];
    }
  }

  function RowsOf(entries: seq<Entry>): seq<string> {
    if entries == [] then [] else RowsOf(entries[..|entries| - 1]) + entries[|entries| - 1].Rows()
  }

  lemma {:induction false} PrintSplits(entries: seq<Entry>)
    requires AllValid(entries)
    ensures Split(Print(entries)) == RowsOf(entries) + [""]
  {
    if entries == [] {
      assert RowsOf(entries) + [""] == [""];
    } else {
      var n := |entries| - 1;
      PrintSplits(entries[..n]);
      SplitAppends(Print(entries[..n]), RowsOf(entries[..n]), entries[n]);
    }
  }

  /** Reading on from behind the rows of some entries is reading from the start with what they hold. */
  lemma {:induction false} ReadPast(entries: seq<Entry>, later: seq<string>)
    requires AllValid(entries)
    ensures ReadRows(RowsOf(entries) + later, 0, map[]) ==
              ReadRows(RowsOf(entries) + later, |RowsOf(entries)|, LastWins(entries))
  {
    if entries != [] {
      var n := |entries| - 1;
      var e := entries[n];
      var rows := RowsOf(entries) + later;
      assert e.Valid() by { assert e in entries; }
      ReadPast(entries[..n], e.Rows() + later);
      assert RowsOf(entries[..n]) + (e.Rows() + later) == rows;
      var i := |RowsOf(entries[..n])|;
      assert rows[i] == e.Row();
      assert e.Row()[3..] == e.path && e.Row()[..2] == e.status;
      assert Moves(e.Row()) <==> e.origin.Some?;
    }
  }

  /** Reading what was printed returns every path with the status of its last entry, for renames and copies too. */
  lemma ParseInvertsPrint(entries: seq<Entry>)
    requires AllValid(entries)
    ensures ReadRows(Split(Print(entries)), 0, map[]) == Ok(LastWins(entries))
  {
    PrintSplits(entries);
    ReadPast(entries, [""]);
    var rows := RowsOf(entries) + [""];
    assert ReadRows(rows, |rows| - 1, LastWins(entries)) == ReadRows(rows, |rows|, LastWins(entries));
  }

  /** Neither a status row nor blank: too short, or without the blank between status and path. */
  predicate Malformed(row: string) { row != "" && (|row| < 4 || row[2] != ' ') }

  /** The rows when one more character is read. */
  function WithChar(rows: seq<string>, c: char): seq<string>
    requires rows != []
  {
    var last := |rows| - 1;
    if c == NUL then rows + [""] else rows[..last] + [rows[last] + [c]]
  }

  lemma SplitChar(s: string, c: char)
    ensures Split(s + [c]) == WithChar(Split(s), c)
  {
    assert (s + [c])[..|s|] == s;
  }

  lemma WithCharBehind(left: seq<string>, right: seq<string>, c: char)
    requires right != []
    ensures WithChar(left + right, c) == left + WithChar(right, c)
  {
    assert (left + right)[..|left| + |right| - 1] == left + right[..|right| - 1];
  }

  /** One more character on the right. */
  lemma ConcatNext(t: string, left: seq<string>, b: string, c: char)
    requires Split(t) == left + Split(b)
    ensures Split(t + [c]) == left + Split(b + [c])
  {
    SplitChar(t, c);
    SplitChar(b, c);
    WithCharBehind(left, Split(b), c);
  }

  lemma {:induction false} SplitConcat(a: string, b: string)
    ensures Split(a + [NUL] + b) == Split(a) + Split(b)
  {
    if b == "" {
      SplitAtNul(a, "");
    } else {
      var n, head := |b| - 1, a + [NUL];
      SplitConcat(a, b[..n]);
      ConcatNext(head + b[..n], Split(a), b[..n], b[n]);
      LastOff(head, b);
      assert b == b[..n] + [b[n]];
    }
  }

  /** A malformed row where a status row is due refuses the whole payload, whatever was read before and whatever
      follows. */
  lemma MalformedIsRefused(entries: seq<Entry>, row: string, rest: string)
    requires AllValid(entries) && NUL !in row && Malformed(row)
    ensures ReadRows(Split(Print(entries) + row + [NUL] + rest), 0, map[]) == Err(FormatInvalid)
  {
    var text, before := Print(entries) + row, RowsOf(entries);
    PrintSplits(entries);
    ExtendLast(Print(entries), before, row);
    SplitConcat(text, rest);
    StopsAt(entries, row, Split(rest));
  }

  lemma StopsAt(entries: seq<Entry>, row: string, later: seq<string>)
    requires AllValid(entries) && Malformed(row)
    ensures ReadRows(RowsOf(entries) + [row] + later, 0, map[]) == Err(FormatInvalid)
  {
    ReadPast(entries, [row] + later);
    assert RowsOf(entries) + [row] + later == RowsOf(entries) + ([row] + later);
  }

  /** A path's status is that of the last entry naming it; the path a rename came from is not reported. */
  lemma {:induction false} LastWinsIsLast(entries: seq<Entry>, path: string)
    ensures path in LastWins(entries) <==> exists i :: 0 <= i < |entries| && entries[i].path == path
    ensures forall i :: 0 <= i < |entries| && entries[i].path == path &&
                      (forall j :: i < j < |entries| ==> entries[j].path != path)
              ==> LastWins(entries)[path] == entries[i].status
  {
    if entries != [] {
      var n := |entries| - 1;
      LastWinsIsLast(entries[..n], path);
      assert forall i :: 0 <= i < n ==> entries[..n][i] == entries[i];
      if entries[n].path != path {
        forall i | 0 <= i < |entries| && entries[i].path == path &&
                   (forall j :: i < j < |entries| ==> entries[j].path != path)
          ensures LastWins(entries)[path] == entries[i].status
        {
          assert forall j :: i < j < n ==> entries[..n][j].path != path;
        }
      }
    }
  }

  /** Reading a rename skips the row after it, whatever that is. */
  lemma RenameSkipsNext(path: string, next: string)
    requires path != ""
    ensures ReadRows(["R  " + path, next, ""], 0, map[]) == Ok(map[path := "R "])
  {
    var row := "R  " + path;
    var rows, found: map<string, string> := [row, next, ""], map[path := "R "];
    assert row[3..] == path && row[..2] == "R ";
    assert ReadRows(rows, 3, found) == Ok(found);
    assert ReadRows(rows, 2, found) == Ok(found);
  }

  /** Without the origin row a rename swallows the row after it: the entry that follows is lost. */
  lemma MissingOriginLosesNext(path: string, next: Entry)
    requires path != "" && NUL !in path && next.Valid() && next.origin.None?
    ensures var text := ("R  " + path + [NUL]) + (next.Row() + [NUL]);
            ReadRows(Split(text), 0, map[]) == Ok(map[path := "R "])
  {
    var row := "R  " + path;
    EndRow("", [], row);
    assert "" + (row + [NUL]) == row + [NUL] && [] + [row] + [""] == [row] + [""];
    EndRow(row + [NUL], [row], next.Row());
    assert [row] + [next.Row()] + [""] == [row, next.Row(), ""];
    RenameSkipsNext(path, next.Row());
  }
}
