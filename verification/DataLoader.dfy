/**
 DataLoader: a first pass over the file counts floats and rows, a second one fills a label array and
 a data array. The file is a string and a position; fgetc at the end gives the byte of EOF as a char.
 */
module DataLoader {
  import opened ParseData
  import opened Arithmetic

  /** A float; atof is an arbitrary function from field texts to floats. */
  type Float(==, 0, !new)

  /** EOF squeezed into a char, as Peek and ReadFloat do: byte 0xFF. */
  const STOP: char := '\U{FF}'

  /** The value of an unsigned int after arithmetic that may wrap. */
  function Wrap(n: int): nat {
    n % 0x1_0000_0000
  }

  datatype Option<T> = None | Some(value: T)

  // ---- the meaning of the two passes, on what is left of the file ----

  function Peek(s: string): char {
    if s == "" then STOP else s[0]
  }

  /** Where the first comma is, |s| if there is none. */
  function Comma(s: string): (k: nat)
    ensures k <= |s| && (k < |s| ==> s[k] == ',') && forall i :: 0 <= i < k ==> s[i] != ','
  {
    if s == "" || s[0] == ',' then 0 else 1 + Comma(s[1..])
  }

  /** Without a comma ahead, ReadFloat reads the end of the file for ever. */
  predicate HasField(s: string) {
    Comma(s) < |s|
  }

  /** The text that ReadFloat hands to atof includes the comma. */
  function FieldText(s: string): string
    requires HasField(s)
  {
    s[..Comma(s) + 1]
  }

  function AfterField(s: string): string
    requires HasField(s)
  {
    s[Comma(s) + 1..]
  }

  datatype Fields = Fields(texts: seq<string>, rest: string)

  /** The do-while loop over one row: read fields until a newline is next. */
  function ReadFields(s: string): (r: Option<Fields>)
    ensures r.Some? ==> |r.value.rest| < |s| && |r.value.texts| >= 1
    decreases |s|
  {
    if !HasField(s) then None
    else if Peek(AfterField(s)) == '\n' then Some(Fields([FieldText(s)], AfterField(s)))
    else
      match ReadFields(AfterField(s))
      case None => None
      case Some(more) => Some(Fields([FieldText(s)] + more.texts, more.rest))
  }

  predicate Skipped(c: char) {
    c == ' ' || c == '\n' || c == '\t'
  }

  function Skip(s: string): (r: string)
    ensures |r| <= |s|
  {
    if s != "" && Skipped(s[0]) then Skip(s[1..]) else s
  }

  /** The rows of a file; None when a pass would never end. */
  function ReadRows(s: string): Option<seq<seq<string>>>
    decreases |s|
  {
    if Peek(s) == STOP then Some([])
    else
      match ReadFields(s)
      case None => None
      case Some(row) =>
        match ReadRows(Skip(row.rest))
        case None => None
        case Some(more) => Some([row.texts] + more)
  }

  /** The rows as the second pass sees them: a label, and then a row of data in its own right. */
  function ReadPairs(s: string): (r: Option<seq<seq<string>>>)
    ensures r.Some? ==> forall i :: 0 <= i < |r.value| ==> |r.value[i]| >= 2
    decreases |s|
  {
    if Peek(s) == STOP then Some([])
    else if !HasField(s) then None
    else
      match ReadFields(AfterField(s))
      case None => None
      case Some(data) =>
        match ReadPairs(Skip(data.rest))
        case None => None
        case Some(more) => Some([[FieldText(s)] + data.texts] + more)
  }

  function Count(rows: seq<seq<string>>): nat {
    if rows == [] then 0 else |rows[0]| + Count(rows[1..])
  }

  function Labels(rows: seq<seq<string>>): (r: seq<string>)
    requires forall i :: 0 <= i < |rows| ==> rows[i] != []
    ensures |r| == |rows| && forall i :: 0 <= i < |rows| ==> r[i] == rows[i][0]
  {
    if rows == [] then [] else [rows[0][0]] + Labels(rows[1..])
  }

  function Samples(rows: seq<seq<string>>): seq<string>
    requires forall i :: 0 <= i < |rows| ==> rows[i] != []
  {
    if rows == [] then [] else rows[0][1..] + Samples(rows[1..])
  }

  function Values(atof: string -> Float, texts: seq<string>): (r: seq<Float>)
    ensures |r| == |texts| && forall i :: 0 <= i < |r| ==> r[i] == atof(texts[i])
  {
    seq(|texts|, i requires 0 <= i < |texts| => atof(texts[i]))
  }

  // ---- the printer's output read back ----

  function Texts(row: seq<string>): (r: seq<string>)
    ensures |r| == |row| && forall i :: 0 <= i < |r| ==> r[i] == row[i] + ","
  {
    if row == [] then [] else [row[0] + ","] + Texts(row[1..])
  }

  function AllTexts(rows: seq<seq<string>>): (r: seq<seq<string>>)
    ensures |r| == |rows| && forall i :: 0 <= i < |r| ==> r[i] == Texts(rows[i])
  {
    if rows == [] then [] else [Texts(rows[0])] + AllTexts(rows[1..])
  }

  lemma {:induction false} CommaAfterPlain(f: string, rest: string)
    requires NoComma(f)
    ensures Comma(f + "," + rest) == |f|
  {
    if f == "" {
      assert (f + "," + rest)[0] == ',';
    } else {
      assert (f + "," + rest)[1..] == f[1..] + "," + rest;
      CommaAfterPlain(f[1..], rest);
    }
  }

  lemma FieldReadBack(f: string, rest: string)
    requires NoComma(f)
    ensures var s := f + "," + rest; HasField(s) && FieldText(s) == f + "," && AfterField(s) == rest
  {
    CommaAfterPlain(f, rest);
  }

  /** Both passes end exactly at the end of the file and at a byte 0xFF. */
  lemma PassesStop(s: string)
    ensures ReadRows(s) == Some([]) <==> s == "" || s[0] == '\U{FF}'
    ensures ReadPairs(s) == Some([]) <==> s == "" || s[0] == '\U{FF}'
  {
  }

  /** Skip takes off exactly the leading spaces, newlines and tabs. */
  lemma {:induction false} SkipExact(s: string) returns (k: nat)
    ensures k <= |s| && Skip(s) == s[k..] && Gap(s[..k]) && (k < |s| ==> s[k] !in " \n\t")
  {
    if s != "" && Skipped(s[0]) {
      var more := SkipExact(s[1..]);
      k := more + 1;
      assert s[..k] == [s[0]] + s[1..][..more];
    } else {
      k := 0;
    }
  }

  /** What may lie between two rows. */
  predicate Gap(s: string) {
    forall i :: 0 <= i < |s| ==> s[i] in " \n\t"
  }

  lemma {:induction false} SkipGap(gap: string, s: string)
    requires Gap(gap) && (s != "" ==> s[0] !in " \n\t")
    ensures Skip(gap + s) == s
  {
    if gap == "" {
      assert gap + s == s;
    } else {
      assert (gap + s)[1..] == gap[1..] + s;
      SkipGap(gap[1..], s);
    }
  }

  /** A row that the loader can find: not a blank or the byte 0xFF in front, and no field begins with a newline. */
  predicate GoodRow(row: seq<string>) {
    && CommaFree(row) && (row[0] != "" ==> row[0][0] !in " \n\t\U{FF}")
    && forall i :: 0 < i < |row| && row[i] != "" ==> row[i][0] != '\n'
  }

  predicate GoodRows(rows: seq<seq<string>>) {
    forall i :: 0 <= i < |rows| ==> GoodRow(rows[i])
  }

  /** The first character of a printed field. */
  lemma PeekField(f: string, rest: string)
    ensures Peek(f + "," + rest) == if f == "" then ',' else f[0]
  {
  }

  lemma RowShape(row: seq<string>, rest: string)
    requires row != []
    ensures PrintFields(row) + rest == row[0] + "," + (PrintFields(row[1..]) + rest)
  {
  }

  /** How ReadFields goes on after one field. */
  lemma ReadFieldsStep(f: string, after: string)
    requires NoComma(f)
    ensures Peek(after) == '\n' ==> ReadFields(f + "," + after) == Some(Fields([f + ","], after))
    ensures Peek(after) != '\n' && ReadFields(after).Some? ==>
              ReadFields(f + "," + after) ==
                Some(Fields([f + ","] + ReadFields(after).value.texts, ReadFields(after).value.rest))
  {
    FieldReadBack(f, after);
  }

  lemma {:induction false} RowReadBack(row: seq<string>, rest: string)
    requires CommaFree(row) && (forall i :: 0 < i < |row| && row[i] != "" ==> row[i][0] != '\n') && Peek(rest) == '\n'
    ensures ReadFields(PrintFields(row) + rest) == Some(Fields(Texts(row), rest))
  {
    var after := PrintFields(row[1..]) + rest;
    RowShape(row, rest);
    ReadFieldsStep(row[0], after);
    if |row| == 1 {
      assert after == rest && Texts(row) == [row[0] + ","];
    } else {
      RowShape(row[1..], rest);
      PeekField(row[1], PrintFields(row[1..][1..]) + rest);
      RowReadBack(row[1..], rest);
    }
  }

  /** Rows in a file, each with its commas and a newline, and any gap after that. */
  function Laid(rows: seq<seq<string>>, gaps: seq<string>): string
    requires |gaps| == |rows|
  {
    if rows == [] then "" else PrintFields(rows[0]) + ("\n" + (gaps[0] + Laid(rows[1..], gaps[1..])))
  }

  predicate Gaps(gaps: seq<string>, n: nat) {
    |gaps| == n && forall i :: 0 <= i < n ==> Gap(gaps[i])
  }

  /** The rows of a file begin with no blank and no byte 0xFF. */
  lemma RowsStart(rows: seq<seq<string>>, gaps: seq<string>)
    requires GoodRows(rows) && |gaps| == |rows|
    ensures var s := Laid(rows, gaps); if rows == [] then s == "" else s != "" && s[0] !in " \n\t\U{FF}"
  {
    if rows != [] {
      var rest := "\n" + (gaps[0] + Laid(rows[1..], gaps[1..]));
      assert GoodRow(rows[0]);
      RowShape(rows[0], rest);
      PeekField(rows[0][0], PrintFields(rows[0][1..]) + rest);
    }
  }

  lemma ReadRowsStep(row: seq<string>, gap: string, rest: string)
    requires GoodRow(row) && Gap(gap) && (rest != "" ==> rest[0] !in " \n\t") && ReadRows(rest).Some?
    ensures ReadRows(PrintFields(row) + ("\n" + (gap + rest))) == Some([Texts(row)] + ReadRows(rest).value)
  {
    var after := "\n" + (gap + rest);
    assert after == ("\n" + gap) + rest;
    RowReadBack(row, after);
    SkipGap("\n" + gap, rest);
    RowShape(row, after);
    PeekField(row[0], PrintFields(row[1..]) + after);
  }

  /** Reading rows laid out with any gaps gives back exactly the rows. */
  lemma {:induction false} RowsReadBack(rows: seq<seq<string>>, gaps: seq<string>)
    requires GoodRows(rows) && Gaps(gaps, |rows|)
    ensures ReadRows(Laid(rows, gaps)) == Some(AllTexts(rows))
  {
    if rows != [] {
      RowsReadBack(rows[1..], gaps[1..]);
      RowsStart(rows[1..], gaps[1..]);
      ReadRowsStep(rows[0], gaps[0], Laid(rows[1..], gaps[1..]));
    }
  }

  lemma {:induction false} PrintedIsLaid(rows: seq<seq<string>>, gaps: seq<string>)
    requires |gaps| == |rows| && forall i :: 0 <= i < |gaps| ==> gaps[i] == ""
    ensures PrintRows(rows) == Laid(rows, gaps)
  {
    if rows != [] {
      PrintedIsLaid(rows[1..], gaps[1..]);
      var rest := PrintRows(rows[1..]);
      assert "" + rest == rest;
      assert PrintFields(rows[0]) + "\n" + rest == PrintFields(rows[0]) + ("\n" + rest);
    }
  }

  /** Reading what the printer wrote gives back exactly its rows. */
  lemma PrintedReadBack(rows: seq<seq<string>>)
    requires GoodRows(rows)
    ensures ReadRows(PrintRows(rows)) == Some(AllTexts(rows))
  {
    var gaps := seq(|rows|, _ => "");
    PrintedIsLaid(rows, gaps);
    RowsReadBack(rows, gaps);
  }

  // ---- the loader ----

  /** What is left of a row at s: the texts still to come and the file after the row. */
  predicate Left(s: string, texts: seq<string>, rest: string) {
    if texts == [] then s == rest else ReadFields(s) == Some(Fields(texts, rest))
  }

  /** One step of ReadFields. */
  lemma FieldsStep(s: string, texts: seq<string>, rest: string)
    requires texts != [] && Left(s, texts, rest)
    ensures HasField(s) && texts[0] == FieldText(s) && Left(AfterField(s), texts[1..], rest)
    ensures Peek(AfterField(s)) == '\n' <==> texts[1..] == []
  {
    if Peek(AfterField(s)) == '\n' {
      assert texts == [FieldText(s)];
    } else {
      assert texts[1..] == ReadFields(AfterField(s)).value.texts;
    }
  }

  /** One step of ReadRows. */
  lemma RowsStep(s: string)
    requires ReadRows(s).Some? && Peek(s) != STOP
    ensures ReadFields(s).Some? && |Skip(ReadFields(s).value.rest)| < |s|
    ensures ReadRows(Skip(ReadFields(s).value.rest)).Some?
    ensures ReadRows(s).value == [ReadFields(s).value.texts] + ReadRows(Skip(ReadFields(s).value.rest)).value
  {
  }

  /** One step of ReadPairs. */
  lemma PairsStep(s: string)
    requires ReadPairs(s).Some? && Peek(s) != STOP
    ensures HasField(s) && ReadFields(AfterField(s)).Some?
    ensures var data := ReadFields(AfterField(s)).value;
            && |Skip(data.rest)| < |s| && ReadPairs(Skip(data.rest)).Some?
            && ReadPairs(s).value == [[FieldText(s)] + data.texts] + ReadPairs(Skip(data.rest)).value
  {
  }

  predicate AllWide(rows: seq<seq<string>>) {
    forall i :: 0 <= i < |rows| ==> |rows[i]| >= 2
  }

  /** How a row of at least two fields reads when its first field is taken as a label. */
  lemma WideRow(s: string)
    requires ReadFields(s).Some? && |ReadFields(s).value.texts| >= 2
    ensures HasField(s) && ReadFields(AfterField(s)).Some?
    ensures var data := ReadFields(AfterField(s)).value;
            ReadFields(s).value == Fields([FieldText(s)] + data.texts, data.rest)
  {
  }

  /** When every row has at least two fields, both passes see the same rows. */
  lemma {:induction false} WidePairs(s: string)
    requires ReadRows(s).Some? && AllWide(ReadRows(s).value)
    ensures ReadPairs(s) == ReadRows(s)
    decreases |s|
  {
    if Peek(s) != STOP {
      RowsStep(s);
      var row, rest := ReadFields(s).value, Skip(ReadFields(s).value.rest);
      var rows := ReadRows(s).value;
      assert rows[0] == row.texts && rows[1..] == ReadRows(rest).value;
      WideRow(s);
      WidePairs(rest);
    }
  }

  /** How many floats the code allocates for the data array. */
  function BufferSize(floats: nat, features: nat): int
    requires features > 0
  {
    (floats / features - 1) * features
  }

  /**
   The data array is never too large, and it has room for the floats that are not labels exactly
   when the number of rows divides the number of floats.
   */
  lemma BufferExact(floats: nat, features: nat)
    requires features > 0
    ensures BufferSize(floats, features) == floats - features - floats % features <= floats - features
    ensures BufferSize(floats, features) == floats - features <==> floats % features == 0
  {
    assert floats == floats / features * features + floats % features;
    assert BufferSize(floats, features) == floats / features * features - features;
  }

  lemma {:induction false} SamplesCount(rows: seq<seq<string>>)
    requires forall i :: 0 <= i < |rows| ==> rows[i] != []
    ensures |Samples(rows)| + |rows| == Count(rows)
  {
    if rows != [] {
      SamplesCount(rows[1..]);
    }
  }

  lemma {:induction false} UniformCount(rows: seq<seq<string>>, width: nat)
    requires forall i :: 0 <= i < |rows| ==> |rows[i]| == width
    ensures Count(rows) == |rows| * width
  {
    if rows != [] {
      UniformCount(rows[1..], width);
    }
  }

  /** Store a float after the part of the array already done. */
  method Store(a: array<Float>, v: Float, ghost front: seq<Float>, ghost done: seq<Float>, ghost back: seq<Float>, at: nat)
    requires a[..] == front + done + back && back != [] && at == |front| + |done|
    modifies a
    ensures a[..] == front + (done + [v]) + back[1..]
  {
    ghost var before := a[..];
    a[at] := v;
    assert a[..] == before[at := v];
  }

  predicate NoEmptyRow(rows: seq<seq<string>>) {
    forall i :: 0 <= i < |rows| ==> rows[i] != []
  }

  lemma {:induction false} SamplesAppend(done: seq<seq<string>>, row: seq<string>)
    requires NoEmptyRow(done) && row != []
    ensures Samples(done + [row]) == Samples(done) + row[1..]
  {
    if done == [] {
      assert done + [row] == [row];
      assert Samples([row]) == row[1..] + Samples([]);
    } else {
      assert (done + [row])[1..] == done[1..] + [row];
      SamplesAppend(done[1..], row);
    }
  }

  lemma LabelsAppend(done: seq<seq<string>>, row: seq<string>)
    requires NoEmptyRow(done) && row != []
    ensures Labels(done + [row]) == Labels(done) + [row[0]]
  {
  }

  lemma ValuesJoin(atof: string -> Float, a: seq<string>, b: seq<string>)
    ensures Values(atof, a + b) == Values(atof, a) + Values(atof, b)
  {
  }

  lemma {:induction false} SamplesGrow(done: seq<seq<string>>, more: seq<seq<string>>)
    requires NoEmptyRow(done) && NoEmptyRow(more)
    ensures |Samples(done + more)| == |Samples(done)| + |Samples(more)|
  {
    if done == [] {
      assert done + more == more;
    } else {
      assert (done + more)[1..] == done[1..] + more;
      SamplesGrow(done[1..], more);
    }
  }

  lemma PrefixGrows(s: string, i: nat)
    requires i < |s|
    ensures s[..i] + [s[i]] == s[..i + 1]
  {
  }

  lemma SuffixOfSuffix(s: string, i: nat, j: nat)
    requires i + j <= |s|
    ensures s[i..][j..] == s[i + j..]
  {
  }

  lemma MoveOver(done: seq<string>, left: seq<string>)
    requires left != []
    ensures done + [left[0]] + left[1..] == done + left
  {
  }

  lemma TailOfTail(s: seq<Float>, n: nat)
    requires n < |s|
    ensures s[n..] != [] && s[n..][1..] == s[n + 1..]
  {
  }

  lemma ValuesAppend(atof: string -> Float, done: seq<string>, text: string)
    ensures Values(atof, done + [text]) == Values(atof, done) + [atof(text)]
  {
  }

  lemma WrapAdd(a: int, b: int)
    ensures Wrap(Wrap(a) + b) == Wrap(a + b)
  {
  }

  class Loader {
    var file: string
    var pos: nat
    var numFloats: nat
    var numFeatures: nat
    ghost var floats: nat   // numFloats and numFeatures as they would be without wrapping
    ghost var rows: nat

    constructor ()
      ensures Counting()
    {
      file, pos, numFloats, numFeatures, floats, rows := "", 0, 0, 0, 0, 0;
    }

    ghost predicate Counting()
      reads this
    {
      numFloats == Wrap(floats) && numFeatures == Wrap(rows)
    }

    method AddFloat()
      requires Counting()
      modifies this`numFloats, this`floats
      ensures Counting() && floats == old(floats) + 1
    {
      WrapAdd(floats, 1);
      numFloats, floats := Wrap(numFloats + 1), floats + 1;
    }

    method AddRow()
      requires Counting()
      modifies this`numFeatures, this`rows
      ensures Counting() && rows == old(rows) + 1
    {
      WrapAdd(rows, 1);
      numFeatures, rows := Wrap(numFeatures + 1), rows + 1;
    }

    ghost function Rest(): string
      reads this
    {
      if pos <= |file| then file[pos..] else ""
    }

    /** The character that Peek sees. */
    function Next(): (c: char)
      reads this
      ensures c == Peek(Rest())
    {
      if pos < |file| then file[pos] else STOP
    }

    /** Read up to and including the next comma; the text is kept only on request. */
    method ReadField(keep: bool) returns (text: string)
      requires HasField(Rest())
      modifies this`pos
      ensures Rest() == old(AfterField(Rest())) && pos <= |file|
      ensures text == if keep then old(FieldText(Rest())) else ""
    {
      ghost var start, k := pos, Comma(Rest());
      ghost var s := Rest();
      text := "";
      var cur := ' ';
      while cur != ','
        invariant start <= pos <= start + k + 1 <= |file|
        invariant cur == ',' <==> pos == start + k + 1
        invariant text == if keep then s[..pos - start] else ""
        decreases start + k + 1 - pos
      {
        cur := Next();
        assert cur == s[pos - start];
        PrefixGrows(s, pos - start);
        pos := pos + 1;
        if keep {
          text := text + [cur];
        }
      }
      SuffixOfSuffix(file, start, k + 1);
    }

    /** Step over the blanks between rows. */
    method SkipBlanks()
      requires pos <= |file|
      modifies this`pos
      ensures Rest() == old(Skip(Rest())) && pos <= |file|
      ensures old(pos) <= pos && (forall i :: old(pos) <= i < pos ==> file[i] in " \n\t")
      ensures pos < |file| ==> file[pos] !in " \n\t"
    {
      while Skipped(Next())
        invariant old(pos) <= pos <= |file| && Skip(Rest()) == old(Skip(Rest()))
        invariant forall i :: old(pos) <= i < pos ==> file[i] in " \n\t"
        decreases |file| - pos
      {
        assert Rest()[1..] == file[pos + 1..];
        pos := pos + 1;
      }
    }

    /** One turn of the do-while loop over a row: read a field, then see whether the row goes on. */
    method ReadInRow(keep: bool, ghost left: seq<string>, ghost rest: string) returns (text: string, more: bool)
      requires left != [] && Left(Rest(), left, rest)
      modifies this`pos
      ensures Left(Rest(), left[1..], rest) && (more <==> left[1..] != []) && pos <= |file|
      ensures text == if keep then left[0] else ""
    {
      FieldsStep(Rest(), left, rest);
      text := ReadField(keep);
      more := Next() != '\n';
    }

    /** Count the fields of one row. */
    method CountRow(ghost row: Fields)
      requires ReadFields(Rest()) == Some(row) && Counting()
      modifies this`pos, this`numFloats, this`floats
      ensures Rest() == row.rest && pos <= |file|
      ensures Counting() && floats == old(floats) + |row.texts|
    {
      ghost var left := row.texts;
      var more := true;
      while more
        invariant Counting() && Left(Rest(), left, row.rest) && (more <==> left != [])
        invariant floats + |left| == old(floats) + |row.texts|
        invariant !more ==> pos <= |file|
        decreases |left|
      {
        more := CountInRow(left, row.rest);
        left := left[1..];
      }
    }

    /** One turn of the loop that counts a row. */
    method CountInRow(ghost left: seq<string>, ghost rest: string) returns (more: bool)
      requires left != [] && Left(Rest(), left, rest) && Counting()
      modifies this`pos, this`numFloats, this`floats
      ensures Left(Rest(), left[1..], rest) && (more <==> left[1..] != []) && pos <= |file|
      ensures Counting() && floats == old(floats) + 1
    {
      var text;
      text, more := ReadInRow(false, left, rest);
      AddFloat();
    }

    /** The first pass. */
    method RunThroughFile()
      requires pos == 0 && ReadRows(file).Some?
      modifies this`pos, this`numFloats, this`numFeatures, this`floats, this`rows
      ensures Counting() && rows == |ReadRows(file).value| && floats == Count(ReadRows(file).value)
      ensures numFeatures == |ReadRows(file).value| % 0x1_0000_0000 && numFloats == Count(ReadRows(file).value) % 0x1_0000_0000
    {
      numFloats, numFeatures, floats, rows := 0, 0, 0, 0;
      assert Rest() == file;
      while Next() != STOP
        invariant pos <= |file| && ReadRows(Rest()).Some? && Counting()
        invariant rows + |ReadRows(Rest()).value| == |ReadRows(file).value|
        invariant floats + Count(ReadRows(Rest()).value) == Count(ReadRows(file).value)
        decreases |Rest()|
      {
        RowsStep(Rest());
        CountRow(ReadFields(Rest()).value);
        SkipBlanks();
        AddRow();
      }
    }

    // ---- the second pass ----

    /** The array while a row is being filled from position `at`: the fields done, the rest as before. */
    static ghost predicate Filled(now: seq<Float>, orig: seq<Float>, at: nat, values: seq<Float>) {
      at + |values| <= |orig| && now == orig[..at] + values + orig[at + |values|..]
    }

    /** Store the value of a field after those of its row already done. */
    static method FillField(a: array<Float>, next: nat, v: Float, ghost orig: seq<Float>, ghost at: nat, ghost done: seq<Float>)
      requires next == at + |done| < a.Length && Filled(a[..], orig, at, done)
      modifies a
      ensures Filled(a[..], orig, at, done + [v])
    {
      TailOfTail(orig, next);
      Store(a, v, orig[..at], done, orig[next..], next);
    }

    /** Fill the data array with the remaining fields of one row. */
    method FillRow(pData: array<Float>, at: nat, atof: string -> Float, ghost row: Fields) returns (next: nat)
      requires ReadFields(Rest()) == Some(row) && at + |row.texts| <= pData.Length
      modifies this`pos, pData
      ensures Rest() == row.rest && pos <= |file| && next == at + |row.texts|
      ensures Filled(pData[..], old(pData[..]), at, Values(atof, row.texts))
    {
      ghost var orig := pData[..];
      ghost var done: seq<string>, left := [], row.texts;
      assert Filled(pData[..], orig, at, Values(atof, done));
      var more := true;
      next := at;
      while more
        invariant Left(Rest(), left, row.rest) && (more <==> left != [])
        invariant done + left == row.texts && next == at + |done|
        invariant Filled(pData[..], orig, at, Values(atof, done))
        invariant !more ==> pos <= |file|
        decreases |left|
      {
        MoveOver(done, left);
        ghost var field := left[0];
        more := FillInRow(pData, next, atof, orig, at, done, left, row.rest);
        done, left, next := done + [field], left[1..], next + 1;
      }
      assert done == row.texts;
    }

    /** One turn of the loop that fills a row. */
    method FillInRow(pData: array<Float>, next: nat, atof: string -> Float, ghost orig: seq<Float>, ghost at: nat,
                     ghost done: seq<string>, ghost left: seq<string>, ghost rest: string)
      returns (more: bool)
      requires left != [] && Left(Rest(), left, rest) && next == at + |done| < pData.Length
      requires Filled(pData[..], orig, at, Values(atof, done))
      modifies this`pos, pData
      ensures Left(Rest(), left[1..], rest) && (more <==> left[1..] != []) && pos <= |file|
      ensures Filled(pData[..], orig, at, Values(atof, done + [left[0]]))
    {
      var text;
      text, more := ReadInRow(true, left, rest);
      FillField(pData, next, atof(text), orig, at, Values(atof, done));
      ValuesAppend(atof, done, text);
    }

    /** One row of the second pass: a label, then the data. */
    method FillOne(pData: array<Float>, pLabel: array<Float>, row: nat, at: nat, atof: string -> Float, ghost data: Fields)
      returns (next: nat)
      requires HasField(Rest()) && ReadFields(AfterField(Rest())) == Some(data) && pData != pLabel
      requires row < pLabel.Length && at + |data.texts| <= pData.Length
      modifies this`pos, pData, pLabel
      ensures Rest() == Skip(data.rest) && pos <= |file| && next == at + |data.texts|
      ensures pLabel[..] == old(pLabel[..])[row := atof(old(FieldText(Rest())))]
      ensures Filled(pData[..], old(pData[..]), at, Values(atof, data.texts))
    {
      var text := ReadField(true);
      pLabel[row] := atof(text);
      next := FillRow(pData, at, atof, data);
      SkipBlanks();
    }

    /** What the two arrays hold after the rows done. */
    static ghost predicate Loaded(data: seq<Float>, labels: seq<Float>, atof: string -> Float, done: seq<seq<string>>)
      requires NoEmptyRow(done)
    {
      && |done| <= |labels| && labels[..|done|] == Values(atof, Labels(done))
      && |Samples(done)| <= |data| && data[..|Samples(done)|] == Values(atof, Samples(done))
    }

    static lemma LoadedGrows(data: seq<Float>, labels: seq<Float>, atof: string -> Float, done: seq<seq<string>>,
                             row: seq<string>, data': seq<Float>, labels': seq<Float>)
      requires NoEmptyRow(done) && Loaded(data, labels, atof, done) && row != [] && |done| < |labels|
      requires Filled(data', data, |Samples(done)|, Values(atof, row[1..]))
      requires labels' == labels[|done| := atof(row[0])]
      ensures Loaded(data', labels', atof, done + [row])
    {
      SamplesAppend(done, row);
      LabelsAppend(done, row);
      ValuesJoin(atof, Samples(done), row[1..]);
      assert labels'[..|done| + 1] == labels[..|done|] + [atof(row[0])];
    }

    /** The second pass between rows: `done` has been read and stored, the rest of `all` is ahead. */
    ghost predicate Between(pData: array<Float>, pLabel: array<Float>, atof: string -> Float,
                            all: seq<seq<string>>, done: seq<seq<string>>)
      reads this, pData, pLabel
    {
      && pos <= |file| && pData != pLabel
      && AllWide(all) && pLabel.Length >= |all| && pData.Length >= |Samples(all)|
      && ReadPairs(Rest()).Some? && done + ReadPairs(Rest()).value == all && NoEmptyRow(done)
      && Loaded(pData[..], pLabel[..], atof, done)
    }

    method FillNext(pData: array<Float>, pLabel: array<Float>, row: nat, at: nat, atof: string -> Float,
                    ghost all: seq<seq<string>>, ghost done: seq<seq<string>>)
      returns (next: nat, ghost now: seq<seq<string>>)
      requires Between(pData, pLabel, atof, all, done) && row == |done| && at == |Samples(done)| && Next() != STOP
      modifies this`pos, pData, pLabel
      ensures Between(pData, pLabel, atof, all, now) && |now| == |done| + 1 && next == |Samples(now)|
      ensures |Rest()| < |old(Rest())|
    {
      PairsStep(Rest());
      ghost var fields, data, labels := ReadFields(AfterField(Rest())).value, pData[..], pLabel[..];
      ghost var texts := [FieldText(Rest())] + fields.texts;
      RowFits(all, done, texts, ReadPairs(Skip(fields.rest)).value);
      next := FillOne(pData, pLabel, row, at, atof, fields);
      assert texts[1..] == fields.texts;
      LoadedGrows(data, labels, atof, done, texts, pData[..], pLabel[..]);
      now := done + [texts];
    }

    lemma AllRead(pData: array<Float>, pLabel: array<Float>, atof: string -> Float,
                  all: seq<seq<string>>, done: seq<seq<string>>)
      requires Between(pData, pLabel, atof, all, done) && Next() == STOP
      ensures done == all && NoEmptyRow(all) && Loaded(pData[..], pLabel[..], atof, all)
    {
      assert ReadPairs(Rest()) == Some([]);
      assert done + [] == done;
    }

    /**
     The second pass, into arrays with room for what it reads; `ok` tells whether its two closing
     assertions hold. Its counters stay below 2^32.
     */
    method AllocateData(pData: array<Float>, pLabel: array<Float>, atof: string -> Float, ghost all: seq<seq<string>>)
      returns (ok: bool)
      requires pos == 0 && ReadPairs(file) == Some(all) && Count(all) < 0x1_0000_0000 && pData != pLabel
      requires pLabel.Length >= |all| && pData.Length >= |Samples(all)|
      modifies this`pos, pData, pLabel
      ensures Loaded(pData[..], pLabel[..], atof, all)
      ensures ok <==> Agree(|Samples(all)|, |all|, numFloats, numFeatures)
    {
      assert Rest() == file;
      assert [] + all == all;
      var dataFloatCount, featureCount := FillAll(pData, pLabel, atof, all);
      ok := Agree(dataFloatCount, featureCount, numFloats, numFeatures);
    }

    /** The loop of the second pass. */
    method FillAll(pData: array<Float>, pLabel: array<Float>, atof: string -> Float, ghost all: seq<seq<string>>)
      returns (dataFloatCount: nat, featureCount: nat)
      requires Between(pData, pLabel, atof, all, [])
      modifies this`pos, pData, pLabel
      ensures NoEmptyRow(all) && Loaded(pData[..], pLabel[..], atof, all)
      ensures dataFloatCount == |Samples(all)| && featureCount == |all|
    {
      ghost var done: seq<seq<string>> := [];
      dataFloatCount, featureCount := 0, 0;
      while Next() != STOP
        invariant Between(pData, pLabel, atof, all, done)
        invariant featureCount == |done| && dataFloatCount == |Samples(done)|
        decreases |Rest()|
      {
        dataFloatCount, done := FillNext(pData, pLabel, featureCount, dataFloatCount, atof, all, done);
        featureCount := featureCount + 1;
      }
      AllRead(pData, pLabel, atof, all, done);
    }

    /** The first pass from the start, when its counts stay below 2^32. */
    method CountAll()
      requires Runs(file)
      modifies this`pos, this`numFloats, this`numFeatures, this`floats, this`rows
      ensures numFeatures == |ReadRows(file).value| && numFloats == Count(ReadRows(file).value)
    {
      pos := 0;
      RunThroughFile();
      RunSizes(file);
    }

    /**
     Both passes over a file on which they end and stay inside their arrays (Runs); `ok` tells whether
     the closing assertions hold.
     */
    method LoadData(file: string, atof: string -> Float) returns (pData: array<Float>, pLabel: array<Float>, ok: bool)
      requires Runs(file)
      modifies this
      ensures fresh(pData) && fresh(pLabel) && this.file == file
      ensures numFeatures == pLabel.Length == |ReadRows(file).value| && numFloats == Count(ReadRows(file).value)
      ensures pData.Length == BufferSize(numFloats, numFeatures)
      ensures Loaded(pData[..], pLabel[..], atof, ReadPairs(file).value)
      ensures ok <==> AssertionsHold(file)
    {
      this.file := file;
      CountAll();
      pData, pLabel := NewArrays(|Samples(ReadPairs(file).value)|);
      pos := 0;
      ok := AllocateData(pData, pLabel, atof, ReadPairs(file).value);
      OkMeans(file);
    }

    /** The allocation between the passes. */
    method NewArrays(ghost samples: nat) returns (pData: array<Float>, pLabel: array<Float>)
      requires numFeatures > 0 && samples <= BufferSize(numFloats, numFeatures)
      ensures fresh(pData) && fresh(pLabel) && pData != pLabel && samples <= pData.Length
      ensures pData.Length == BufferSize(numFloats, numFeatures) && pLabel.Length == numFeatures
    {
      pData := new Float[BufferSize(numFloats, numFeatures)];
      pLabel := new Float[numFeatures];
    }
  }

  /** Both passes end, with counts below 2^32, and the arrays have room for what the second pass stores. */
  predicate Runs(file: string) {
    && ReadRows(file).Some? && ReadRows(file).value != [] && ReadPairs(file).Some?
    && Count(ReadRows(file).value) < 0x1_0000_0000 && Count(ReadPairs(file).value) < 0x1_0000_0000
    && |ReadPairs(file).value| <= |ReadRows(file).value|
    && |Samples(ReadPairs(file).value)| <= BufferSize(Count(ReadRows(file).value), |ReadRows(file).value|)
  }

  lemma SmallWrap(n: nat)
    requires n < 0x1_0000_0000
    ensures Wrap(n) == n
  {
  }

  /** The two closing assertions of the second pass, in unsigned arithmetic. */
  predicate Agree(samples: nat, pairs: nat, floats: nat, rows: nat) {
    Wrap(samples + rows) == floats && pairs == rows
  }

  lemma AgreeMeans(samples: nat, pairs: nat, floats: nat, rows: nat)
    requires 0 < rows && floats < 0x1_0000_0000 && samples <= BufferSize(floats, rows)
    ensures Agree(samples, pairs, floats, rows) <==> samples + rows == floats && pairs == rows
  {
    BufferExact(floats, rows);
    SmallWrap(samples + rows);
  }

  lemma OkMeans(file: string)
    requires Runs(file)
    ensures Agree(|Samples(ReadPairs(file).value)|, |ReadPairs(file).value|, Count(ReadRows(file).value), |ReadRows(file).value|)
            <==> AssertionsHold(file)
  {
    AgreeMeans(|Samples(ReadPairs(file).value)|, |ReadPairs(file).value|, Count(ReadRows(file).value), |ReadRows(file).value|);
  }

  lemma RunSizes(file: string)
    requires Runs(file)
    ensures Wrap(Count(ReadRows(file).value)) == Count(ReadRows(file).value)
    ensures Wrap(|ReadRows(file).value|) == |ReadRows(file).value|
  {
    RowsNotEmpty(file);
    SamplesCount(ReadRows(file).value);
    SmallWrap(Count(ReadRows(file).value));
    SmallWrap(|ReadRows(file).value|);
  }

  lemma {:induction false} RowsNotEmpty(s: string)
    requires ReadRows(s).Some?
    ensures NoEmptyRow(ReadRows(s).value)
    decreases |s|
  {
    if Peek(s) != STOP {
      RowsStep(s);
      RowsNotEmpty(Skip(ReadFields(s).value.rest));
    }
  }

  /** What the two closing assertions of the second pass compare. */
  predicate AssertionsHold(file: string)
    requires ReadRows(file).Some? && ReadPairs(file).Some?
  {
    && |Samples(ReadPairs(file).value)| + |ReadRows(file).value| == Count(ReadRows(file).value)
    && |ReadPairs(file).value| == |ReadRows(file).value|
  }

  lemma RowFits(all: seq<seq<string>>, done: seq<seq<string>>, row: seq<string>, more: seq<seq<string>>)
    requires all == done + ([row] + more) && forall i :: 0 <= i < |all| ==> |all[i]| >= 2
    ensures |row| >= 2 && NoEmptyRow(done) && |done| < |all| && all == done + [row] + more
    ensures |Samples(done)| + |row| - 1 <= |Samples(all)| && NoEmptyRow(done + [row])
    ensures |Samples(done + [row])| == |Samples(done)| + |row| - 1
  {
    assert all[|done|] == row;
    assert forall i :: 0 <= i < |done| ==> all[i] == done[i];
    assert forall i :: 0 <= i < |more| ==> all[|done| + 1 + i] == more[i];
    assert all == done + [row] + more;
    SamplesGrow(done + [row], more);
    SamplesAppend(done, row);
  }

  // ---- the whole pipeline ----

  /** A table that the printer and the loader carry over whole: w columns, at least six of them. */
  predicate GoodTable(table: seq<seq<string>>, w: nat) {
    && w >= 6 && table != []
    && forall i :: 0 <= i < |table| ==> |table[i]| == w && GoodRow(table[i][4..])
  }

  /** The rows that the loader reads from what the printer wrote of a good table. */
  lemma TableReadBack(table: seq<seq<string>>, w: nat, lines: seq<string>, after: seq<string>)
    requires GoodTable(table, w) && LinesOf(lines, table) && Ended(after)
    ensures var r := ReadRows(PrintRows(Kept(lines + after)));
            && r.Some? && |r.value| == |table|
            && forall i :: 0 <= i < |table| ==> r.value[i] == Texts(table[i][4..])
  {
    TableKept(table, lines, after);
    KeptIsGood(table, w, Kept(lines + after));
    PrintedReadBack(Kept(lines + after));
  }

  lemma KeptIsGood(table: seq<seq<string>>, w: nat, kept: seq<seq<string>>)
    requires GoodTable(table, w) && |kept| == |table| && forall i :: 0 <= i < |table| ==> FromFifth(kept[i], table[i])
    ensures GoodRows(kept) && forall i :: 0 <= i < |table| ==> kept[i] == table[i][4..]
  {
    forall i | 0 <= i < |table| ensures kept[i] == table[i][4..] && GoodRow(kept[i]) {
      assert FromFifth(kept[i], table[i]);
    }
  }

  /** In rows of equal width the sample of row i starts at i times the sample width. */
  lemma {:induction false} SampleAt(rows: seq<seq<string>>, width: nat, i: nat, j: nat)
    requires (forall k :: 0 <= k < |rows| ==> |rows[k]| == width + 1) && i < |rows| && j < width
    ensures i * width + j < |Samples(rows)| == |rows| * width
    ensures Samples(rows)[i * width + j] == rows[i][1 + j]
  {
    SampleLength(rows, width);
    if i > 0 {
      SampleAt(rows[1..], width, i - 1, j);
      assert i * width + j == width + ((i - 1) * width + j);
    } else if |rows| > 1 {
      SampleLength(rows[1..], width);
    }
  }

  lemma {:induction false} SampleLength(rows: seq<seq<string>>, width: nat)
    requires forall k :: 0 <= k < |rows| ==> |rows[k]| == width + 1
    ensures |Samples(rows)| == |rows| * width
  {
    if rows != [] {
      SampleLength(rows[1..], width);
    }
  }

  /** Sample j of row i is the value of column 5 + j of that row. */
  predicate SampleFrom(data: seq<Float>, atof: string -> Float, table: seq<seq<string>>, w: nat, i: nat, j: nat)
    requires GoodTable(table, w) && i < |table| && j < w - 5
  {
    i * (w - 5) + j < |data| && data[i * (w - 5) + j] == atof(table[i][5 + j] + ",")
  }

  /** What loading a good table must give: labels from column 4, samples from the later ones. */
  ghost predicate TableLoaded(data: seq<Float>, labels: seq<Float>, atof: string -> Float, table: seq<seq<string>>, w: nat)
    requires GoodTable(table, w)
  {
    && |labels| == |table| && |data| == |table| * (w - 5)
    && (forall i :: 0 <= i < |table| ==> labels[i] == atof(table[i][4] + ","))
    && (forall i, j :: 0 <= i < |table| && 0 <= j < w - 5 ==> SampleFrom(data, atof, table, w, i, j))
  }

  lemma LoadedTable(table: seq<seq<string>>, w: nat, rows: seq<seq<string>>, atof: string -> Float)
    requires GoodTable(table, w) && |rows| == |table|
    requires forall i :: 0 <= i < |table| ==> rows[i] == Texts(table[i][4..])
    requires NoEmptyRow(rows)
    ensures TableLoaded(Values(atof, Samples(rows)), Values(atof, Labels(rows)), atof, table, w)
  {
    RowsOfTable(table, w, rows);
    var data := Values(atof, Samples(rows));
    forall i, j | 0 <= i < |table| && 0 <= j < w - 5 ensures SampleFrom(data, atof, table, w, i, j) {
      LoadedSample(table, w, rows, atof, i, j);
    }
    forall i | 0 <= i < |table| ensures Labels(rows)[i] == table[i][4] + "," {
      assert rows[i][0] == table[i][4..][0] + ",";
    }
  }

  lemma LoadedSample(table: seq<seq<string>>, w: nat, rows: seq<seq<string>>, atof: string -> Float, i: nat, j: nat)
    requires GoodTable(table, w) && |rows| == |table| && NoEmptyRow(rows)
    requires forall k :: 0 <= k < |rows| ==> |rows[k]| == w - 5 + 1
    requires i < |table| && j < w - 5 && rows[i] == Texts(table[i][4..])
    ensures SampleFrom(Values(atof, Samples(rows)), atof, table, w, i, j)
  {
    SampleAt(rows, w - 5, i, j);
    assert rows[i][1 + j] == table[i][4..][1 + j] + ",";
  }

  /** Print a table and load the result. */
  method PrintThenLoad(lines: seq<string>, atof: string -> Float,
                       ghost table: seq<seq<string>>, ghost w: nat, ghost written: seq<string>, ghost after: seq<string>)
    returns (pData: array<Float>, pLabel: array<Float>)
    requires GoodTable(table, w) && LinesOf(written, table) && Ended(after) && lines == written + after
    requires |table| * (w - 4) < 0x1_0000_0000
    ensures TableLoaded(pData[..], pLabel[..], atof, table, w)
  {
    var file := PrintFile(lines);
    TableReadBack(table, w, written, after);
    ghost var rows := ReadRows(file).value;
    RowsOfTable(table, w, rows);
    WidePairs(file);
    WideRuns(file);
    var loader := new Loader();
    var ok;
    pData, pLabel, ok := loader.LoadData(file, atof);
    LoadedWhole(pData[..], pLabel[..], atof, rows);
    LoadedTable(table, w, rows, atof);
    assert ok;
  }

  /** A file of rows of at least two fields whose number divides the number of fields loads well. */
  lemma WideRuns(file: string)
    requires ReadRows(file).Some? && ReadRows(file).value != [] && AllWide(ReadRows(file).value)
    requires Count(ReadRows(file).value) < 0x1_0000_0000
    requires Count(ReadRows(file).value) % |ReadRows(file).value| == 0
    ensures Runs(file) && AssertionsHold(file) && ReadPairs(file) == ReadRows(file)
    ensures var rows := ReadRows(file).value; |Samples(rows)| == BufferSize(Count(rows), |rows|)
  {
    var rows := ReadRows(file).value;
    WidePairs(file);
    SamplesCount(rows);
    BufferExact(Count(rows), |rows|);
  }

  /** Arrays filled to the end hold the labels and the samples of all rows. */
  lemma LoadedWhole(data: seq<Float>, labels: seq<Float>, atof: string -> Float, rows: seq<seq<string>>)
    requires NoEmptyRow(rows) && Loader.Loaded(data, labels, atof, rows)
    requires |data| == |Samples(rows)| && |labels| == |rows|
    ensures data == Values(atof, Samples(rows)) && labels == Values(atof, Labels(rows))
  {
    assert data[..|data|] == data && labels[..|labels|] == labels;
  }

  lemma RowsOfTable(table: seq<seq<string>>, w: nat, rows: seq<seq<string>>)
    requires GoodTable(table, w) && |rows| == |table|
    requires forall i :: 0 <= i < |table| ==> rows[i] == Texts(table[i][4..])
    ensures forall i :: 0 <= i < |rows| ==> |rows[i]| == w - 4
    ensures Count(rows) == |table| * (w - 4) && Count(rows) % |rows| == 0
    ensures |Samples(rows)| == |table| * (w - 5)
  {
    forall i | 0 <= i < |rows| ensures |rows[i]| == w - 4 {
    }
    UniformCount(rows, w - 4);
    SampleLength(rows, w - 5);
    MultipleDivides(|rows|, w - 4);
  }
}
