/** On which files DataLoader does what it should: exact conditions for its two failures. */
module LoaderLimits {
  import opened ParseData
  import opened DataLoader

  // ---- rows of one field ----

  /** Blanks before a field only lengthen its text. */
  lemma {:induction false} SkipField(s: string)
    requires HasField(Skip(s))
    ensures HasField(s) && AfterField(s) == AfterField(Skip(s))
  {
    if s != "" && Skipped(s[0]) {
      SkipField(s[1..]);
      assert Comma(s) == 1 + Comma(s[1..]);
      assert s[Comma(s) + 1..] == s[1..][Comma(s[1..]) + 1..];
    }
  }

  /** So they change neither the number of fields of a row nor where it ends. */
  lemma SkipFields(s: string)
    requires ReadFields(Skip(s)).Some?
    ensures ReadFields(s).Some?
    ensures |ReadFields(s).value.texts| == |ReadFields(Skip(s)).value.texts|
    ensures ReadFields(s).value.rest == ReadFields(Skip(s)).value.rest
  {
    SkipField(s);
  }

  /** A row of one field ends in front of a newline. */
  lemma NarrowRow(s: string)
    requires ReadFields(s).Some? && |ReadFields(s).value.texts| == 1
    ensures HasField(s) && ReadFields(s).value.rest == AfterField(s)
  {
  }

  /** How the two passes compare: the second never reads fewer fields, and if it reads as many, it makes
      fewer rows of them as soon as one row has a single field. */
  predicate Compares(rows: seq<seq<string>>, pairs: seq<seq<string>>) {
    && Count(pairs) >= Count(rows)
    && (Count(pairs) == Count(rows) ==> |pairs| <= |rows| && (|pairs| == |rows| ==> AllWide(rows)))
  }

  lemma CompareSame(row: seq<string>, rows: seq<seq<string>>, pairs: seq<seq<string>>)
    requires |row| >= 2 && Compares(rows, pairs)
    ensures Compares([row] + rows, [row] + pairs)
  {
    assert ([row] + rows)[1..] == rows && ([row] + pairs)[1..] == pairs;
    if AllWide(rows) {
      forall i | 0 <= i < |[row] + rows| ensures |([row] + rows)[i]| >= 2 {
      }
    }
  }

  lemma CompareMerged(narrow: seq<string>, row: seq<string>, pair: seq<string>, rows: seq<seq<string>>, pairs: seq<seq<string>>)
    requires |narrow| == 1 && |pair| == 1 + |row| && Compares(rows, pairs)
    ensures Compares([narrow] + ([row] + rows), [pair] + pairs)
  {
    assert ([narrow] + ([row] + rows))[1..] == [row] + rows && ([row] + rows)[1..] == rows;
    assert ([pair] + pairs)[1..] == pairs;
  }

  lemma CompareBeyond(narrow: seq<string>, pair: seq<string>, pairs: seq<seq<string>>)
    requires |narrow| == 1 && |pair| >= 2
    ensures Compares([narrow], [pair] + pairs)
  {
    assert ([pair] + pairs)[1..] == pairs && [narrow][1..] == [];
  }

  lemma {:induction false} PassesCompare(s: string)
    requires ReadRows(s).Some? && ReadPairs(s).Some?
    ensures Compares(ReadRows(s).value, ReadPairs(s).value)
    decreases |s|
  {
    if Peek(s) != STOP {
      RowsStep(s);
      PairsStep(s);
      var row := ReadFields(s).value;
      if |row.texts| >= 2 {
        WideRow(s);
        PassesCompare(Skip(row.rest));
        CompareSame(row.texts, ReadRows(Skip(row.rest)).value, ReadPairs(Skip(row.rest)).value);
      } else {
        NarrowRow(s);
        NarrowCompares(s, row.texts);
      }
    }
  }

  /** A row of one field takes the next row with it. */
  lemma NarrowCompares(s: string, narrow: seq<string>)
    requires HasField(s) && |narrow| == 1 && ReadFields(AfterField(s)).Some?
    requires var data := ReadFields(AfterField(s)).value;
             |Skip(data.rest)| < |s| && ReadPairs(Skip(data.rest)).Some? && ReadPairs(s).Some?
             && ReadPairs(s).value == [[FieldText(s)] + data.texts] + ReadPairs(Skip(data.rest)).value
    requires ReadRows(s).Some? && ReadRows(Skip(AfterField(s))).Some?
    requires ReadRows(s).value == [narrow] + ReadRows(Skip(AfterField(s))).value
    ensures Compares(ReadRows(s).value, ReadPairs(s).value)
    decreases |s|, 0
  {
    var rest, data := Skip(AfterField(s)), ReadFields(AfterField(s)).value;
    var pair := [FieldText(s)] + data.texts;
    if Peek(rest) == STOP {
      assert [narrow] + [] == [narrow];
      CompareBeyond(narrow, pair, ReadPairs(Skip(data.rest)).value);
    } else {
      RowsStep(rest);
      SkipFields(AfterField(s));
      PassesCompare(Skip(data.rest));
      CompareMerged(narrow, ReadFields(rest).value.texts, pair, ReadRows(Skip(data.rest)).value, ReadPairs(Skip(data.rest)).value);
    }
  }

  /** The second pass ends with both assertions true. */
  predicate PassesAgree(file: string)
    requires ReadRows(file).Some?
  {
    ReadPairs(file).Some? && AssertionsHold(file)
  }

  /** That is so if and only if every row has at least two fields. */
  lemma PassesAgreeExact(file: string)
    requires ReadRows(file).Some?
    ensures PassesAgree(file) <==> AllWide(ReadRows(file).value)
  {
    var rows := ReadRows(file).value;
    if AllWide(rows) {
      WidePairs(file);
      SamplesCount(rows);
    } else if ReadPairs(file).Some? {
      PassesCompare(file);
      SamplesCount(ReadPairs(file).value);
    }
  }

  lemma PrintOne(f: string)
    ensures PrintFields([f]) == f + "," && Texts([f]) == [f + ","]
  {
    assert [f][1..] == [];
  }

  lemma PrintTwo(f: string, g: string)
    ensures PrintFields([f, g]) == f + "," + (g + ",") && Texts([f, g]) == [f + ",", g + ","]
  {
    assert [f, g][1..] == [g];
    PrintOne(g);
  }

  lemma PrintThree(f: string, g: string, h: string)
    ensures PrintFields([f, g, h]) == f + "," + (g + "," + (h + ",")) && Texts([f, g, h]) == [f + ",", g + ",", h + ","]
  {
    assert [f, g, h][1..] == [g, h];
    PrintTwo(g, h);
  }

  lemma TwoRows(first: seq<string>, second: seq<string>)
    requires GoodRow(first) && GoodRow(second)
    ensures ReadRows(PrintFields(first) + "\n" + (PrintFields(second) + "\n")) == Some([Texts(first), Texts(second)])
  {
    var rows := [first, second];
    assert rows[1..] == [second] && [second][1..] == [];
    assert PrintRows([second]) == PrintFields(second) + "\n";
    assert PrintRows(rows) == PrintFields(first) + "\n" + (PrintFields(second) + "\n");
    PrintedReadBack(rows);
    assert AllTexts(rows) == [Texts(first), Texts(second)];
  }

  lemma NarrowFirst(file: string, first: seq<string>, second: seq<string>)
    requires ReadRows(file) == Some([first, second]) && |first| == 1
    ensures !PassesAgree(file)
  {
    PassesAgreeExact(file);
    assert [first, second][0] == first;
  }

  /** Two rows of plain fields, read from the very text of the file. */
  lemma NarrowText(file: string)
    requires file == "1,\n2,3,\n"
    ensures file == PrintFields(["1"]) + "\n" + (PrintFields(["2", "3"]) + "\n")
  {
    PrintOne("1");
    PrintTwo("2", "3");
  }

  /** In the file "1,\n2,3,\n" the second pass makes one row of two. */
  lemma NarrowExample(file: string)
    requires file == "1,\n2,3,\n"
    ensures ReadRows(file).Some? && !PassesAgree(file)
  {
    NarrowText(file);
    TwoRows(["1"], ["2", "3"]);
    NarrowFirst(file, Texts(["1"]), Texts(["2", "3"]));
  }

  // ---- the data array ----

  /** What the second pass stores fits the array if and only if the rows divide the fields. */
  lemma BufferFits(rows: seq<seq<string>>)
    requires rows != [] && NoEmptyRow(rows)
    ensures |Samples(rows)| <= BufferSize(Count(rows), |rows|) <==> Count(rows) % |rows| == 0
  {
    SamplesCount(rows);
    BufferExact(Count(rows), |rows|);
  }

  lemma CountTwo(a: seq<string>, b: seq<string>)
    ensures Count([a, b]) == |a| + |b|
  {
    assert [a, b][1..] == [b] && [b][1..] == [];
    assert Count([b]) == |b|;
  }

  lemma TwoAndThree(file: string, first: seq<string>, second: seq<string>)
    requires ReadRows(file) == Some([first, second]) && |first| == 2 && |second| == 3
    ensures PassesAgree(file) && !Runs(file)
  {
    CountTwo(first, second);
    PassesAgreeExact(file);
    WidePairs(file);
    BufferFits([first, second]);
  }

  lemma ShortText(file: string)
    requires file == "1,2,\n3,4,5,\n"
    ensures file == PrintFields(["1", "2"]) + "\n" + (PrintFields(["3", "4", "5"]) + "\n")
  {
    PrintTwo("1", "2");
    PrintThree("3", "4", "5");
  }

  /** The file "1,2,\n3,4,5,\n" has three samples, and gets room for two. */
  lemma ShortBufferExample(file: string)
    requires file == "1,2,\n3,4,5,\n"
    ensures ReadRows(file).Some? && PassesAgree(file) && !Runs(file)
  {
    ShortText(file);
    TwoRows(["1", "2"], ["3", "4", "5"]);
    TwoAndThree(file, Texts(["1", "2"]), Texts(["3", "4", "5"]));
  }

  /** Both together: a file whose counts stay below 2^32 is loaded without overrun and with true
      assertions if and only if its rows have at least two fields and divide the fields. */
  lemma LoadsWellExact(file: string)
    requires ReadRows(file).Some? && ReadRows(file).value != [] && Count(ReadRows(file).value) < 0x1_0000_0000
    ensures (Runs(file) && AssertionsHold(file)) <==>
            AllWide(ReadRows(file).value) && Count(ReadRows(file).value) % |ReadRows(file).value| == 0
  {
    PassesAgreeExact(file);
    var rows := ReadRows(file).value;
    if AllWide(rows) {
      WidePairs(file);
      BufferFits(rows);
    }
  }
}
