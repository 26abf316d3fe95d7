/** The row printer: each input line is stripped and split at commas, and its columns from the fifth
    on are written back, every one followed by a comma. The first blank line ends the input. */
module ParseData {
  predicate Blank(c: char) {
    c == ' ' || c == '\n' || c == '\t' || c == '\r' || c == '\U{0B}' || c == '\U{0C}'
  }

  function StripLeft(s: string): string {
    if s != "" && Blank(s[0]) then StripLeft(s[1..]) else s
  }

  function StripRight(s: string): string {
    if s != "" && Blank(s[|s| - 1]) then StripRight(s[..|s| - 1]) else s
  }

  function Strip(s: string): string {
    StripRight(StripLeft(s))
  }

  /** The fields between the commas of a line: always at least one. */
  function Split(s: string): (fields: seq<string>)
    ensures |fields| >= 1
  {
    if s == "" then [""]
    else
      var rest := Split(s[1..]);
      if s[0] == ',' then [""] + rest else [[s[0]] + rest[0]] + rest[1..]
  }

  function Join(fields: seq<string>): string {
    if |fields| == 0 then "" else if |fields| == 1 then fields[0] else fields[0] + "," + Join(fields[1..])
  }

  function From(fields: seq<string>, n: nat): seq<string> {
    if n <= |fields| then fields[n..] else []
  }

  function PrintFields(fields: seq<string>): string {
    if fields == [] then "" else fields[0] + "," + PrintFields(fields[1..])
  }

  function PrintRows(rows: seq<seq<string>>): string {
    if rows == [] then "" else PrintFields(rows[0]) + "\n" + PrintRows(rows[1..])
  }

  predicate BlankLine(line: string) {
    Strip(line) == ""
  }

  /** The fields that the printer keeps of a line. */
  function RowOf(line: string): seq<string> {
    From(Split(Strip(line)), 4)
  }

  /** The rows that the printer keeps of a file given as its lines. */
  function Kept(lines: seq<string>): seq<seq<string>> {
    if lines == [] || BlankLine(lines[0]) then [] else [RowOf(lines[0])] + Kept(lines[1..])
  }

  lemma {:induction false} PrintFieldsAppend(done: seq<string>, f: string)
    ensures PrintFields(done + [f]) == PrintFields(done) + f + ","
  {
    if done != [] {
      assert (done + [f])[1..] == done[1..] + [f];
      PrintFieldsAppend(done[1..], f);
    }
  }

  lemma {:induction false} PrintRowsAppend(done: seq<seq<string>>, row: seq<string>)
    ensures PrintRows(done + [row]) == PrintRows(done) + PrintFields(row) + "\n"
  {
    if done != [] {
      assert (done + [row])[1..] == done[1..] + [row];
      PrintRowsAppend(done[1..], row);
    }
  }

  lemma KeptStep(lines: seq<string>, n: nat)
    requires n < |lines|
    ensures Kept(lines[n..]) == if BlankLine(lines[n]) then [] else [RowOf(lines[n])] + Kept(lines[n + 1..])
  {
    assert lines[n..][1..] == lines[n + 1..];
  }

  method PrintRow(fields: seq<string>) returns (out: string)
    ensures out == PrintFields(fields) + "\n"
  {
    out := "";
    for i := 0 to |fields|
      invariant out == PrintFields(fields[..i])
    {
      PrintFieldsAppend(fields[..i], fields[i]);
      assert fields[..i + 1] == fields[..i] + [fields[i]];
      out := out + fields[i] + ",";
    }
    assert fields[..|fields|] == fields;
    out := out + "\n";
  }

  /** The script: read lines until a blank one or the end, writing as it goes. */
  method PrintFile(lines: seq<string>) returns (out: string)
    ensures out == PrintRows(Kept(lines))
  {
    out := "";
    ghost var done: seq<seq<string>> := [];
    var n := 0;
    while n < |lines| && !BlankLine(lines[n])
      invariant 0 <= n <= |lines| && out == PrintRows(done) && done + Kept(lines[n..]) == Kept(lines)
    {
      var fields := RowOf(lines[n]);
      var row := PrintRow(fields);
      out := out + row;
      PrintRowsAppend(done, fields);
      KeptGrows(lines, n, done);
      done := done + [fields];
      n := n + 1;
    }
    if n < |lines| {
      KeptStep(lines, n);
    }
    assert done == done + Kept(lines[n..]);
  }

  lemma KeptGrows(lines: seq<string>, n: nat, done: seq<seq<string>>)
    requires n < |lines| && !BlankLine(lines[n]) && done + Kept(lines[n..]) == Kept(lines)
    ensures done + [RowOf(lines[n])] + Kept(lines[n + 1..]) == Kept(lines)
  {
    KeptStep(lines, n);
    var row, rest := [RowOf(lines[n])], Kept(lines[n + 1..]);
    assert done + row + rest == done + (row + rest);
  }

  // ---- Strip and Split characterised on every string ----

  /** The characters that str.strip takes off. */
  predicate White(s: string) {
    forall i :: 0 <= i < |s| ==> s[i] in " \t\n\r\U{0B}\U{0C}"
  }

  /** A text that has nothing to strip. */
  predicate Trimmed(s: string) {
    s != "" ==> s[0] !in " \t\n\r\U{0B}\U{0C}" && s[|s| - 1] !in " \t\n\r\U{0B}\U{0C}"
  }

  lemma {:induction false} StripLeftParts(s: string) returns (a: string)
    ensures s == a + StripLeft(s) && White(a)
    ensures StripLeft(s) != "" ==> StripLeft(s)[0] !in " \t\n\r\U{0B}\U{0C}"
  {
    if s != "" && Blank(s[0]) {
      var rest := StripLeftParts(s[1..]);
      a := [s[0]] + rest;
      assert s == [s[0]] + s[1..];
    } else {
      a := "";
    }
  }

  lemma {:induction false} StripRightParts(s: string) returns (b: string)
    ensures s == StripRight(s) + b && White(b)
    ensures StripRight(s) != "" ==> StripRight(s)[|StripRight(s)| - 1] !in " \t\n\r\U{0B}\U{0C}"
  {
    if s != "" && Blank(s[|s| - 1]) {
      var rest := StripRightParts(s[..|s| - 1]);
      b := rest + [s[|s| - 1]];
      assert s == s[..|s| - 1] + [s[|s| - 1]];
    } else {
      b := "";
    }
  }

  /** Stripping takes blanks off both ends, and all of them. */
  lemma StripParts(line: string) returns (a: string, b: string)
    ensures line == a + Strip(line) + b && White(a) && White(b) && Trimmed(Strip(line))
  {
    a := StripLeftParts(line);
    b := StripRightParts(StripLeft(line));
    if Strip(line) != "" {
      assert Strip(line)[0] == StripLeft(line)[0];
    }
  }

  lemma {:induction false} StripLeftAround(a: string, s: string)
    requires White(a) && (s != "" ==> s[0] !in " \t\n\r\U{0B}\U{0C}")
    ensures StripLeft(a + s) == s
  {
    if a == "" {
      assert a + s == s;
    } else {
      assert (a + s)[1..] == a[1..] + s;
      StripLeftAround(a[1..], s);
    }
  }

  lemma {:induction false} StripRightAround(s: string, b: string)
    requires White(b) && (s != "" ==> s[|s| - 1] !in " \t\n\r\U{0B}\U{0C}")
    ensures StripRight(s + b) == s
    decreases |b|
  {
    if b == "" {
      assert s + b == s;
    } else {
      assert (s + b)[..|s + b| - 1] == s + b[..|b| - 1];
      StripRightAround(s, b[..|b| - 1]);
    }
  }

  /** Whatever blanks surround a trimmed text, stripping gives it back. */
  lemma StripAround(a: string, s: string, b: string)
    requires White(a) && White(b) && Trimmed(s)
    ensures Strip(a + s + b) == s
  {
    if s == "" {
      assert a + s + b == (a + b) + "";
      StripLeftAround(a + b, "");
    } else {
      assert a + s + b == a + (s + b);
      StripLeftAround(a, s + b);
      StripRightAround(s, b);
    }
  }

  predicate NoComma(f: string) {
    forall i :: 0 <= i < |f| ==> f[i] != ','
  }

  predicate CommaFree(row: seq<string>) {
    row != [] && forall i :: 0 <= i < |row| ==> NoComma(row[i])
  }

  /** The fields of any text hold no comma and make up the text again. */
  lemma {:induction false} JoinSplit(s: string)
    ensures Join(Split(s)) == s && CommaFree(Split(s))
  {
    if s != "" {
      JoinSplit(s[1..]);
      JoinSplitStep(s);
    }
  }

  lemma JoinSplitStep(s: string)
    requires s != "" && Join(Split(s[1..])) == s[1..] && CommaFree(Split(s[1..]))
    ensures Join(Split(s)) == s && CommaFree(Split(s))
  {
    if s[0] == ',' {
      JoinEmpty(Split(s[1..]));
      assert s == "," + s[1..];
    } else {
      JoinLonger(s[0], Split(s[1..]));
      assert s == [s[0]] + s[1..];
    }
  }

  lemma JoinEmpty(rest: seq<string>)
    requires CommaFree(rest)
    ensures CommaFree([""] + rest) && Join([""] + rest) == "," + Join(rest)
  {
    assert ([""] + rest)[1..] == rest;
  }

  lemma JoinCons(f: string, more: seq<string>)
    ensures Join([f] + more) == if more == [] then f else f + ("," + Join(more))
  {
    assert ([f] + more)[1..] == more;
    if more != [] {
      assert f + "," + Join(more) == f + ("," + Join(more));
    }
  }

  lemma JoinLonger(c: char, rest: seq<string>)
    requires CommaFree(rest) && c != ','
    ensures CommaFree([[c] + rest[0]] + rest[1..]) && Join([[c] + rest[0]] + rest[1..]) == [c] + Join(rest)
  {
    var f, more := rest[0], rest[1..];
    assert rest == [f] + more;
    JoinCons(f, more);
    JoinCons([c] + f, more);
    Prefixed(c, f, "," + Join(more));
    CommaFreeLonger(c, f, more);
  }

  lemma Prefixed(c: char, f: string, s: string)
    ensures ([c] + f) + s == [c] + (f + s)
  {
  }

  lemma CommaFreeLonger(c: char, f: string, more: seq<string>)
    requires CommaFree([f] + more) && c != ','
    ensures CommaFree([[c] + f] + more)
  {
    assert ([f] + more)[0] == f;
    forall i | 0 < i <= |more| ensures NoComma(([[c] + f] + more)[i]) {
      assert ([f] + more)[i] == more[i - 1];
    }
  }

  lemma {:induction false} SplitPlain(f: string)
    requires NoComma(f)
    ensures Split(f) == [f]
  {
    if f != "" {
      SplitPlain(f[1..]);
      assert [f[0]] + f[1..] == f;
    }
  }

  lemma {:induction false} SplitField(f: string, rest: string)
    requires NoComma(f)
    ensures Split(f + "," + rest) == [f] + Split(rest)
  {
    if f == "" {
      assert (f + "," + rest)[1..] == rest;
    } else {
      assert (f + "," + rest)[1..] == f[1..] + "," + rest;
      SplitField(f[1..], rest);
      assert [f[0]] + f[1..] == f;
    }
  }

  /** Splitting undoes joining, whatever the fields hold besides commas. */
  lemma {:induction false} SplitJoin(row: seq<string>)
    requires CommaFree(row)
    ensures Split(Join(row)) == row
  {
    if |row| == 1 {
      SplitPlain(row[0]);
    } else {
      SplitJoin(row[1..]);
      SplitField(row[0], Join(row[1..]));
    }
  }

  // ---- what a table prints ----

  /** A line of a file that holds these fields, with any blanks before and after them. */
  ghost predicate LineOf(line: string, row: seq<string>) {
    && CommaFree(row) && Join(row) != "" && Trimmed(Join(row))
    && exists a, b :: White(a) && White(b) && line == a + Join(row) + b
  }

  ghost predicate LinesOf(lines: seq<string>, table: seq<seq<string>>) {
    |lines| == |table| && forall i :: 0 <= i < |table| ==> LineOf(lines[i], table[i])
  }

  /** A file ends after its lines, or there is a line of nothing but blanks. */
  predicate Ended(after: seq<string>) {
    after == [] || White(after[0])
  }

  lemma RowOfLine(line: string, row: seq<string>)
    requires LineOf(line, row)
    ensures !BlankLine(line) && RowOf(line) == if |row| >= 4 then row[4..] else []
  {
    var a, b :| White(a) && White(b) && line == a + Join(row) + b;
    StripAround(a, Join(row), b);
    SplitJoin(row);
  }

  lemma WhiteIsBlank(line: string)
    ensures BlankLine(line) <==> White(line)
  {
    var a, b := StripParts(line);
    if BlankLine(line) {
      assert line == a + b;
    }
    if White(line) {
      assert line + "" + "" == line;
      StripAround(line, "", "");
    }
  }

  /** The columns from the fifth on. */
  predicate FromFifth(kept: seq<string>, row: seq<string>) {
    kept == if |row| >= 4 then row[4..] else []
  }

  lemma KeptFirst(lines: seq<string>, more: seq<string>, row: seq<string>)
    requires lines != [] && LineOf(lines[0], row)
    ensures Kept(lines + more) == [RowOf(lines[0])] + Kept(lines[1..] + more) && FromFifth(RowOf(lines[0]), row)
  {
    assert (lines + more)[1..] == lines[1..] + more;
    RowOfLine(lines[0], row);
  }

  lemma KeptNothing(after: seq<string>)
    requires Ended(after)
    ensures Kept([] + after) == []
  {
    assert [] + after == after;
    if after != [] {
      WhiteIsBlank(after[0]);
    }
  }

  /** Of every row, up to the end or a blank line, exactly the columns from the fifth on are kept. */
  lemma {:induction false} TableKept(table: seq<seq<string>>, lines: seq<string>, after: seq<string>)
    requires LinesOf(lines, table) && Ended(after)
    ensures |Kept(lines + after)| == |table|
    ensures forall i :: 0 <= i < |table| ==> FromFifth(Kept(lines + after)[i], table[i])
  {
    if table == [] {
      KeptNothing(after);
    } else {
      assert LineOf(lines[0], table[0]);
      TableKept(table[1..], lines[1..], after);
      KeptFirst(lines, after, table[0]);
    }
  }
}
