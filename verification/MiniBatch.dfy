/**
 The mini-batches of the training loop: a random window of loaded rows, as an offset into the data
 array and one into the label array. The k-th value of rand is a parameter.
 */
module MiniBatch {
  import opened DataLoader
  import opened Arithmetic

  const FEATURE_LEN: nat := 55    // hard coded by the loader
  const BATCH: nat := 100
  const MAX_ITERS: nat := 100000
  const VALIDATE_EVERY: nat := 500

  /** rand() gives values up to RAND_MAX. */
  const RAND_LIMIT: nat := 0x8000_0000

  /** Offsets of a window into the label array and the data array. */
  datatype Window = Window(ref: nat, start: nat)

  /** The unsigned arithmetic of the loop; None where it takes a remainder modulo zero. */
  function Pick(rand: nat, count: nat): Option<Window> {
    var choices := DataLoader.Wrap(count - BATCH + 1);
    if choices == 0 then None
    else
      var ref := rand % choices;
      Some(Window(ref, DataLoader.Wrap(ref * FEATURE_LEN)))
  }

  /** The window is inside the arrays of `count` rows, and its data begins at the row of its first label. */
  predicate Inside(w: Option<Window>, count: nat) {
    && w.Some? && w.value.ref + 100 <= count
    && w.value.start == w.value.ref * 55 && w.value.start + 5500 <= count * 55
  }

  lemma Unwrapped(n: int)
    requires 0 <= n < 0x1_0000_0000
    ensures DataLoader.Wrap(n) == n
  {
  }

  lemma WrappedBelow(n: int)
    requires -0x1_0000_0000 <= n < 0
    ensures DataLoader.Wrap(n) == n + 0x1_0000_0000
  {
  }

  lemma SmallRemainder(a: nat, m: nat)
    requires a < m
    ensures a % m == a
  {
  }

  lemma PickInside(rand: nat, count: nat)
    requires 100 <= count && count * 55 < 0x1_0000_0000
    ensures Inside(Pick(rand, count), count)
  {
    Unwrapped(count - BATCH + 1);
    var ref := rand % (count - BATCH + 1);
    Unwrapped(ref * FEATURE_LEN);
  }

  /** Every random window is inside the arrays exactly when there are at least as many rows as a batch has. */
  lemma WindowsInside(count: nat)
    requires count * 55 < 0x1_0000_0000
    ensures (forall rand :: 0 <= rand < RAND_LIMIT ==> Inside(Pick(rand, count), count)) <==> 100 <= count
  {
    if BATCH <= count {
      forall rand | 0 <= rand < RAND_LIMIT ensures Inside(Pick(rand, count), count) {
        PickInside(rand, count);
      }
    } else {
      assert !Inside(Pick(0, count), count);
    }
  }

  /** With one row less than a batch the remainder is modulo zero; with fewer the window overruns the labels. */
  lemma TooFewRows(rand: nat, count: nat)
    requires count < 100 && rand < RAND_LIMIT
    ensures Pick(rand, count) == None <==> count == 99
    ensures count < 99 ==> Pick(rand, count).Some? && Pick(rand, count).value.ref == rand
  {
    if count < BATCH - 1 {
      WrappedBelow(count - BATCH + 1);
      SmallRemainder(rand, count - BATCH + 1 + 0x1_0000_0000);
    } else {
      Unwrapped(count - BATCH + 1);
    }
  }

  /** Every window that fits can be drawn. */
  lemma EveryWindow(ref: nat, count: nat)
    requires ref + 100 <= count && count * 55 < 0x1_0000_0000
    ensures ref < RAND_LIMIT && Pick(ref, count) == Some(Window(ref, ref * 55))
  {
    Unwrapped(count - BATCH + 1);
    SmallRemainder(ref, count - BATCH + 1);
    Unwrapped(ref * FEATURE_LEN);
  }

  // ---- windows of samples ----

  predicate Wide(rows: seq<seq<string>>, width: nat) {
    forall k :: 0 <= k < |rows| ==> |rows[k]| == width + 1
  }

  lemma {:induction false} SamplesSplit(front: seq<seq<string>>, back: seq<seq<string>>)
    requires NoEmptyRow(front) && NoEmptyRow(back)
    ensures NoEmptyRow(front + back) && Samples(front + back) == Samples(front) + Samples(back)
  {
    if front == [] {
      assert front + back == back;
    } else {
      SamplesSplit(front[1..], back);
      assert (front + back)[1..] == front[1..] + back;
    }
  }

  lemma Middle(a: seq<string>, b: seq<string>, c: seq<string>)
    ensures (a + (b + c))[|a|..|a| + |b|] == b
  {
  }

  lemma SamplesMiddle(a: seq<seq<string>>, b: seq<seq<string>>, c: seq<seq<string>>)
    requires NoEmptyRow(a) && NoEmptyRow(b) && NoEmptyRow(c)
    ensures NoEmptyRow(a + (b + c)) && |Samples(a)| + |Samples(b)| <= |Samples(a + (b + c))|
    ensures Samples(a + (b + c))[|Samples(a)|..|Samples(a)| + |Samples(b)|] == Samples(b)
  {
    SamplesSplit(b, c);
    SamplesSplit(a, b + c);
    Middle(Samples(a), Samples(b), Samples(c));
  }

  lemma SlicesOf(rows: seq<seq<string>>, width: nat, from: nat, to: nat)
    requires Wide(rows, width) && from <= to <= |rows|
    ensures rows == rows[..from] + (rows[from..to] + rows[to..])
    ensures Wide(rows[..from], width) && Wide(rows[from..to], width) && Wide(rows[to..], width)
  {
  }

  /** A window of whole rows in the flattened samples is the samples of those rows. */
  lemma SamplesWindow(rows: seq<seq<string>>, width: nat, from: nat, to: nat)
    requires Wide(rows, width) && from <= to <= |rows|
    ensures Wide(rows[from..to], width)
    ensures 0 <= from * width <= to * width <= |Samples(rows)|
    ensures Samples(rows)[from * width..to * width] == Samples(rows[from..to])
  {
    SlicesOf(rows, width, from, to);
    var a, b, c := rows[..from], rows[from..to], rows[to..];
    SampleLength(a, width);
    SampleLength(b, width);
    assert from * width + (to - from) * width == to * width;
    SamplesMiddle(a, b, c);
  }

  // ---- the loop ----

  /** What the solver is handed: the samples and the labels of a batch. */
  datatype Batch = Batch(data: seq<Float>, labels: seq<Float>)

  datatype Call = Gradient(batch: Batch) | Validation(batch: Batch)

  /** The batch made of 100 consecutive rows of the file, each label beside its own sample. */
  predicate FromRows(b: Batch, atof: string -> Float, rows: seq<seq<string>>, ref: nat)
    requires Wide(rows, 55)
  {
    && ref + 100 <= |rows|
    && b.data == Values(atof, Samples(rows[ref..ref + 100]))
    && b.labels == Values(atof, Labels(rows[ref..ref + 100]))
  }

  /** Files that the loop can train on. */
  predicate Trainable(rows: seq<seq<string>>) {
    Wide(rows, 55) && 100 <= |rows| && |rows| * 56 < 0x1_0000_0000
  }

  /** The call works on the random window of its own file, drawn with this value of rand. */
  predicate CallOk(c: Call, rand: nat, atof: string -> Float, train: seq<seq<string>>, val: seq<seq<string>>)
    requires Trainable(train) && Trainable(val)
  {
    match c
    case Gradient(b) => FromRows(b, atof, train, rand % (|train| - 99))
    case Validation(b) => FromRows(b, atof, val, rand % (|val| - 99))
  }

  lemma SliceIsBatch(data: seq<Float>, labels: seq<Float>, atof: string -> Float, rows: seq<seq<string>>, ref: nat)
    requires Trainable(rows) && ref + BATCH <= |rows|
    requires data == Values(atof, Samples(rows)) && labels == Values(atof, Labels(rows))
    ensures ref * FEATURE_LEN + BATCH * FEATURE_LEN <= |data|
    ensures FromRows(Batch(data[ref * FEATURE_LEN..ref * FEATURE_LEN + BATCH * FEATURE_LEN], labels[ref..ref + BATCH]),
                     atof, rows, ref)
  {
    SamplesWindow(rows, FEATURE_LEN, ref, ref + BATCH);
  }

  /** One random batch of the arrays that LoadData filled. */
  method Draw(rand: nat, t: Table, ghost atof: string -> Float, ghost rows: seq<seq<string>>) returns (b: Batch)
    requires Holds(t, atof, rows)
    ensures FromRows(b, atof, rows, rand % (|rows| - 99))
  {
    PickInside(rand, t.count);
    Unwrapped(t.count - BATCH + 1);
    var w := Pick(rand, t.count).value;
    SliceIsBatch(t.data[..], t.labels[..], atof, rows, w.ref);
    b := Batch(t.data[w.start..w.start + BATCH * FEATURE_LEN], t.labels[w.ref..w.ref + BATCH]);
  }

  /** Call number k is a validation when it follows the gradient of iteration 0, 500, 1000, ... */
  predicate KindOk(c: Call, k: nat) {
    c.Validation? <==> k % 501 == 1
  }

  ghost predicate CallsOk(calls: seq<Call>, rand: nat -> nat, atof: string -> Float,
                          train: seq<seq<string>>, val: seq<seq<string>>)
    requires Trainable(train) && Trainable(val)
  {
    forall k :: 0 <= k < |calls| ==> KindOk(calls[k], k) && CallOk(calls[k], rand(k), atof, train, val)
  }

  lemma CallsGrow(calls: seq<Call>, c: Call, rand: nat -> nat, atof: string -> Float,
                  train: seq<seq<string>>, val: seq<seq<string>>)
    requires Trainable(train) && Trainable(val) && CallsOk(calls, rand, atof, train, val)
    requires KindOk(c, |calls|) && CallOk(c, rand(|calls|), atof, train, val)
    ensures CallsOk(calls + [c], rand, atof, train, val)
  {
  }

  /** Load one file that the loop can train on, with the loader that serves for both. */
  method LoadTable(loader: Loader, file: string, atof: string -> Float) returns (t: Table)
    requires ReadRows(file).Some? && Trainable(ReadRows(file).value)
    modifies loader
    ensures fresh(t.data) && fresh(t.labels) && Holds(t, atof, ReadRows(file).value)
  {
    TrainableLoads(ReadRows(file).value);
    WideRuns(file);
    var data, labels, ok := loader.LoadData(file, atof);
    LoadedWhole(data[..], labels[..], atof, ReadRows(file).value);
    t := Table(loader.numFeatures, data, labels);
  }

  /** Every call of the whole training run gets whole rows of its own file, at the random place. */
  method Train(loader: Loader, trainFile: string, valFile: string, atof: string -> Float, rand: nat -> nat)
    returns (calls: seq<Call>)
    requires ReadRows(trainFile).Some? && Trainable(ReadRows(trainFile).value)
    requires ReadRows(valFile).Some? && Trainable(ReadRows(valFile).value)
    modifies loader
    ensures |calls| == 100_200
    ensures CallsOk(calls, rand, atof, ReadRows(trainFile).value, ReadRows(valFile).value)
  {
    var trainTable := LoadTable(loader, trainFile, atof);
    var valTable := LoadTable(loader, valFile, atof);
    calls := Iterate(trainTable, valTable, rand, atof, ReadRows(trainFile).value, ReadRows(valFile).value);
  }

  lemma TrainableLoads(rows: seq<seq<string>>)
    requires Trainable(rows)
    ensures rows != [] && AllWide(rows)
    ensures Count(rows) < 0x1_0000_0000 && Count(rows) % |rows| == 0
  {
    UniformCount(rows, FEATURE_LEN + 1);
    MultipleDivides(|rows|, FEATURE_LEN + 1);
  }

  /** One file in memory: the number of rows, the samples and the labels. */
  datatype Table = Table(count: nat, data: array<Float>, labels: array<Float>)

  ghost predicate Holds(t: Table, atof: string -> Float, rows: seq<seq<string>>)
    reads t.data, t.labels
  {
    && Trainable(rows) && t.count == |rows|
    && t.data[..] == Values(atof, Samples(rows)) && t.labels[..] == Values(atof, Labels(rows))
  }

  /** The first 500 q + r iterations make this many calls. */
  function CallCount(q: nat, r: nat): nat {
    501 * q + if r == 0 then 0 else r + 1
  }

  method Iterate(trainTable: Table, valTable: Table, rand: nat -> nat,
                 ghost atof: string -> Float, ghost train: seq<seq<string>>, ghost val: seq<seq<string>>)
    returns (calls: seq<Call>)
    requires Holds(trainTable, atof, train) && Holds(valTable, atof, val)
    ensures |calls| == 100_200
    ensures CallsOk(calls, rand, atof, train, val)
  {
    calls := [];
    var iter := 0;
    ghost var q, r := 0, 0;
    while iter < MAX_ITERS
      invariant iter <= MAX_ITERS && iter == 500 * q + r && 0 <= r < 500
      invariant |calls| == CallCount(q, r)
      invariant CallsOk(calls, rand, atof, train, val)
    {
      calls := Turn(iter, calls, trainTable, valTable, rand, atof, train, val, q, r);
      iter := iter + 1;
      q, r := if r == 499 then q + 1 else q, if r == 499 then 0 else r + 1;
    }
  }

  /** One iteration: a gradient, and every 500th time a validation. */
  method Turn(iter: nat, calls: seq<Call>, trainTable: Table, valTable: Table, rand: nat -> nat,
              ghost atof: string -> Float, ghost train: seq<seq<string>>, ghost val: seq<seq<string>>, ghost q: nat, ghost r: nat)
    returns (more: seq<Call>)
    requires Holds(trainTable, atof, train) && Holds(valTable, atof, val)
    requires CallsOk(calls, rand, atof, train, val) && iter == 500 * q + r && r < 500 && |calls| == CallCount(q, r)
    ensures CallsOk(more, rand, atof, train, val) && |more| == |calls| + if r == 0 then 2 else 1
  {
    var batch := Draw(rand(|calls|), trainTable, atof, train);
    GradientPlace(q, r, batch);
    CallsGrow(calls, Gradient(batch), rand, atof, train, val);
    more := calls + [Gradient(batch)];
    if iter % VALIDATE_EVERY == 0 {
      batch := Draw(rand(|more|), valTable, atof, val);
      ValidationPlace(q, batch);
      CallsGrow(more, Validation(batch), rand, atof, train, val);
      more := more + [Validation(batch)];
    }
  }

  lemma GradientPlace(q: nat, r: nat, b: Batch)
    requires r < 500
    ensures KindOk(Gradient(b), CallCount(q, r))
    ensures (500 * q + r) % VALIDATE_EVERY == 0 <==> r == 0
  {
  }

  lemma ValidationPlace(q: nat, b: Batch)
    ensures KindOk(Validation(b), 501 * q + 1)
  {
  }
}
