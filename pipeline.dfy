/** The generation loop (generate_qr.py:38-82): for each candidate row with a token, a
    temporary file, a run of the external QR generator and a labeled image, until the
    first exception. */
module Pipeline {
  import opened Wrappers
  import opened Text
  import opened GroupPattern
  import opened Roster
  import opened Selection
  import opened Layout

  /** What one run of the external `qr` generator left behind: a non-zero exit status, a
      file the image library cannot open, or a raster of the given size. */
  datatype QrResult = QrFailed | Unreadable | QrImage(width: nat, height: nat)

  /** Everything the run learns from outside the program:
      - `tempPath(k)`: the name of the k-th temporary file created;
      - `qr(k, url)`: the k-th run of the generator, asked to encode `url`;
      - `textHeight(name)`: the height of `name` rendered in the chosen font;
      - `removalFails(path)`: whether `os.remove(path)` raises. */
  datatype World = World(
    tempPath: nat -> string,
    qr: (nat, string) -> QrResult,
    textHeight: string -> nat,
    removalFails: string -> bool)

  /** The exceptions the run lets escape. */
  datatype Failure =
    | SheetOutOfRange
    | MissingColumn(column: string)
    | GeneratorFailed(url: string)
    | UnreadableImage(path: string)

  /** The state the generation loop builds up: `tmpfiles`, `qr_images`, and the exception
      that ended it, if any. */
  datatype Progress = Progress(tmpfiles: seq<string>, images: seq<LabeledImage>,
                               failure: Option<Failure>)

  // ---------------------------------------------------------------------------------
  // The generation loop, as functions

  /** The loop body for one row: skip a row without a token; otherwise record a fresh
      temporary path, run the generator on the question URL (a non-zero exit status
      raises), read the name (a missing name column raises KeyError), open the raster (an
      unreadable file raises) and add the labeled image. */
  function Step(column: string, world: World, st: Progress, row: Row): Progress {
    var token := Token(row, column);
    if token == [] then st
    else
      var k := |st.tmpfiles|;
      var url := Url(token);
      var tmpfiles := st.tmpfiles + [world.tempPath(k)];
      var q := world.qr(k, url);
      if q.QrFailed? then Progress(tmpfiles, st.images, Some(GeneratorFailed(url)))
      else if FirstNameColumn !in row then
        Progress(tmpfiles, st.images, Some(MissingColumn(FirstNameColumn)))
      else if LastNameColumn !in row then
        Progress(tmpfiles, st.images, Some(MissingColumn(LastNameColumn)))
      else if q.Unreadable? then
        Progress(tmpfiles, st.images, Some(UnreadableImage(world.tempPath(k))))
      else
        var name := DisplayName(row);
        Progress(tmpfiles, st.images + [LabeledImage(url, name, q.width, q.height,
                                                      world.textHeight(name))], None)
  }

  /** The loop over the remaining rows, stopping at the first exception. */
  function Process(column: string, world: World, st: Progress, rows: seq<Row>): Progress
    decreases |rows|
  {
    if rows == [] || st.failure.Some? then st
    else Process(column, world, Step(column, world, st, rows[0]), rows[1..])
  }

  // ---------------------------------------------------------------------------------
  // An independent description of what the loop produces

  /** The k-th generator run, for this row, succeeds and the row has both name columns. */
  predicate Renders(column: string, world: World, k: nat, row: Row) {
    world.qr(k, Url(Token(row, column))).QrImage?
    && FirstNameColumn in row && LastNameColumn in row
  }

  /** The labeled image the k-th generator run makes for this row. */
  function LabelFor(column: string, world: World, k: nat, row: Row): LabeledImage
    requires Renders(column, world, k, row)
  {
    var url := Url(Token(row, column));
    var q := world.qr(k, url);
    var name := DisplayName(row);
    LabeledImage(url, name, q.width, q.height, world.textHeight(name))
  }

  /** The exception the k-th generator run raises for this row when it does not render. */
  function FailureFor(column: string, world: World, k: nat, row: Row): Failure
    requires !Renders(column, world, k, row)
  {
    var url := Url(Token(row, column));
    if world.qr(k, url).QrFailed? then GeneratorFailed(url)
    else if FirstNameColumn !in row then MissingColumn(FirstNameColumn)
    else if LastNameColumn !in row then MissingColumn(LastNameColumn)
    else UnreadableImage(world.tempPath(k))
  }

  /** How many of the rows, the first handled by generator run `k0`, render before the
      first one that does not. */
  function RenderedPrefix(column: string, world: World, k0: nat, sel: seq<Row>): (n: nat)
    decreases |sel|
    ensures n <= |sel|
    ensures n < |sel| ==> !Renders(column, world, k0 + n, sel[n])
  {
    if sel == [] || !Renders(column, world, k0, sel[0]) then 0
    else 1 + RenderedPrefix(column, world, k0 + 1, sel[1..])
  }

  /** The labeled images of the first `n` rows, which all render, the first by generator
      run `k0`. */
  function Labels(column: string, world: World, k0: nat, sel: seq<Row>, n: nat)
    : (imgs: seq<LabeledImage>)
    requires n <= RenderedPrefix(column, world, k0, sel)
    decreases n
    ensures |imgs| == n
  {
    if n == 0 then []
    else [LabelFor(column, world, k0, sel[0])] + Labels(column, world, k0 + 1, sel[1..], n - 1)
  }

  /** The names of `n` consecutive temporary files, starting with the `k0`-th. */
  function TempPaths(world: World, k0: nat, n: nat): (ps: seq<string>)
    decreases n
    ensures |ps| == n
  {
    if n == 0 then [] else [world.tempPath(k0)] + TempPaths(world, k0 + 1, n - 1)
  }

  /** How many generator runs the rows get, the first being run `k0`: one for each row
      up to and including the first that does not render. */
  function Attempts(column: string, world: World, k0: nat, sel: seq<Row>): nat {
    var n := RenderedPrefix(column, world, k0, sel);
    if n == |sel| then n else n + 1
  }

  /** The exception raised for the first row that does not render, if there is one. */
  function FirstFailure(column: string, world: World, k0: nat, sel: seq<Row>): Option<Failure> {
    var n := RenderedPrefix(column, world, k0, sel);
    if n == |sel| then None else Some(FailureFor(column, world, k0 + n, sel[n]))
  }

  /** What the loop leaves behind, started from a state with no exception: the rows
      with a token each get one temporary file and one generator run, in order; every
      such row before the first that fails adds its labeled image; the first failure (if
      any) is the exception, and its temporary file has already been recorded. */
  function Expected(column: string, world: World, st: Progress, rows: seq<Row>): Progress {
    var sel := Selected(rows, column);
    var k0 := |st.tmpfiles|;
    Progress(st.tmpfiles + TempPaths(world, k0, Attempts(column, world, k0, sel)),
             st.images + Labels(column, world, k0, sel, RenderedPrefix(column, world, k0, sel)),
             FirstFailure(column, world, k0, sel))
  }

  /** The loop does what `Expected` describes. */
  lemma {:induction false} ProcessSpec(column: string, world: World, st: Progress, rows: seq<Row>)
    requires st.failure.None?
    ensures Process(column, world, st, rows) == Expected(column, world, st, rows)
    decreases |rows|
  {
    if rows != [] {
      var st1 := Step(column, world, st, rows[0]);
      assert Process(column, world, st, rows) == Process(column, world, st1, rows[1..]);
      if Token(rows[0], column) == [] {
        ProcessSpec(column, world, st, rows[1..]);
        ExpectedSkips(column, world, st, rows);
      } else if !Renders(column, world, |st.tmpfiles|, rows[0]) {
        ExpectedFails(column, world, st, rows);
      } else {
        ProcessSpec(column, world, st1, rows[1..]);
        ExpectedRenders(column, world, st, rows);
      }
    }
  }

  /** A row without a token leaves the loop's state alone. */
  lemma ExpectedSkips(column: string, world: World, st: Progress, rows: seq<Row>)
    requires rows != [] && Token(rows[0], column) == []
    ensures Expected(column, world, st, rows) == Expected(column, world, st, rows[1..])
  {
    assert Selected(rows, column) == Selected(rows[1..], column);
  }

  /** A row with a token that does not render ends the loop with its exception. */
  lemma ExpectedFails(column: string, world: World, st: Progress, rows: seq<Row>)
    requires st.failure.None? && rows != [] && Token(rows[0], column) != []
    requires !Renders(column, world, |st.tmpfiles|, rows[0])
    ensures Step(column, world, st, rows[0]).failure.Some?
    ensures Expected(column, world, st, rows) == Step(column, world, st, rows[0])
  {
    var k0 := |st.tmpfiles|;
    var sel := Selected(rows, column);
    assert sel == [rows[0]] + Selected(rows[1..], column);
    FailingHead(column, world, k0, rows[0], Selected(rows[1..], column));
    StepFails(column, world, st, rows[0]);
  }

  /** A row that renders adds its temporary file and its labeled image, and the loop
      goes on with the rest. */
  lemma ExpectedRenders(column: string, world: World, st: Progress, rows: seq<Row>)
    requires st.failure.None? && rows != [] && Token(rows[0], column) != []
    requires Renders(column, world, |st.tmpfiles|, rows[0])
    ensures Step(column, world, st, rows[0]).failure.None?
    ensures Expected(column, world, st, rows)
         == Expected(column, world, Step(column, world, st, rows[0]), rows[1..])
  {
    var k0 := |st.tmpfiles|;
    var row := rows[0];
    var sel, sel' := Selected(rows, column), Selected(rows[1..], column);
    assert sel == [row] + sel';
    var path, img := world.tempPath(k0), LabelFor(column, world, k0, row);
    StepRenders(column, world, st, row);
    RenderingHead(column, world, k0, row, sel');
    AppendAssoc(st.tmpfiles, [path],
                TempPaths(world, k0 + 1, Attempts(column, world, k0 + 1, sel')));
    AppendAssoc(st.images, [img],
                Labels(column, world, k0 + 1, sel', RenderedPrefix(column, world, k0 + 1, sel')));
  }

  /** Sequence concatenation is associative; kept as a lemma so that the proof above
      sees only the instances it needs. */
  lemma AppendAssoc<T>(a: seq<T>, b: seq<T>, c: seq<T>)
    ensures a + b + c == a + (b + c)
  {
  }

  lemma StepFails(column: string, world: World, st: Progress, row: Row)
    requires st.failure.None? && Token(row, column) != []
    requires !Renders(column, world, |st.tmpfiles|, row)
    ensures Step(column, world, st, row)
         == Progress(st.tmpfiles + [world.tempPath(|st.tmpfiles|)], st.images,
                     Some(FailureFor(column, world, |st.tmpfiles|, row)))
  {
  }

  lemma StepRenders(column: string, world: World, st: Progress, row: Row)
    requires st.failure.None? && Token(row, column) != []
    requires Renders(column, world, |st.tmpfiles|, row)
    ensures Step(column, world, st, row)
         == Progress(st.tmpfiles + [world.tempPath(|st.tmpfiles|)],
                     st.images + [LabelFor(column, world, |st.tmpfiles|, row)], None)
  {
  }

  /** A first row that does not render: one attempt, no image, its own exception. */
  lemma FailingHead(column: string, world: World, k0: nat, row: Row, sel': seq<Row>)
    requires !Renders(column, world, k0, row)
    ensures var sel := [row] + sel';
            && RenderedPrefix(column, world, k0, sel) == 0
            && TempPaths(world, k0, Attempts(column, world, k0, sel)) == [world.tempPath(k0)]
            && Labels(column, world, k0, sel, 0) == []
            && FirstFailure(column, world, k0, sel) == Some(FailureFor(column, world, k0, row))
  {
  }

  /** A first row that renders: its attempt and its image come first, then those of the
      rows after it. */
  lemma RenderingHead(column: string, world: World, k0: nat, row: Row, sel': seq<Row>)
    requires Renders(column, world, k0, row)
    ensures var sel := [row] + sel';
            && TempPaths(world, k0, Attempts(column, world, k0, sel))
               == [world.tempPath(k0)] + TempPaths(world, k0 + 1, Attempts(column, world, k0 + 1, sel'))
            && Labels(column, world, k0, sel, RenderedPrefix(column, world, k0, sel))
               == [LabelFor(column, world, k0, row)]
                  + Labels(column, world, k0 + 1, sel', RenderedPrefix(column, world, k0 + 1, sel'))
            && FirstFailure(column, world, k0, sel) == FirstFailure(column, world, k0 + 1, sel')
  {
    var sel := [row] + sel';
    RenderedHead(column, world, k0, row, sel');
    assert TempPaths(world, k0, Attempts(column, world, k0, sel))
        == [world.tempPath(k0)] + TempPaths(world, k0 + 1, Attempts(column, world, k0 + 1, sel'));
    assert Labels(column, world, k0, sel, RenderedPrefix(column, world, k0, sel))
        == [LabelFor(column, world, k0, row)]
           + Labels(column, world, k0 + 1, sel', RenderedPrefix(column, world, k0 + 1, sel')) by {
      assert sel[1..] == sel';
    }
  }

  /** A first row that renders adds one to the rendered prefix and to the attempts, and
      leaves the exception to the rows after it. */
  lemma RenderedHead(column: string, world: World, k0: nat, row: Row, sel': seq<Row>)
    requires Renders(column, world, k0, row)
    ensures var sel := [row] + sel';
            && RenderedPrefix(column, world, k0, sel) == RenderedPrefix(column, world, k0 + 1, sel') + 1
            && Attempts(column, world, k0, sel) == Attempts(column, world, k0 + 1, sel') + 1
            && FirstFailure(column, world, k0, sel) == FirstFailure(column, world, k0 + 1, sel')
  {
    var sel := [row] + sel';
    assert sel[1..] == sel';
  }

  /** Every row before the rendered prefix's end renders, with its own generator run. */
  lemma RenderedBefore(column: string, world: World, k0: nat, sel: seq<Row>)
    ensures var n := RenderedPrefix(column, world, k0, sel);
            forall j :: 0 <= j < n ==> Renders(column, world, k0 + j, sel[j])
  {
    var n := RenderedPrefix(column, world, k0, sel);
    forall j | 0 <= j < n ensures Renders(column, world, k0 + j, sel[j]) {
      LabelsAt(column, world, k0, sel, n, j);
    }
  }

  /** The rendered prefix covers all the rows exactly when every row renders. */
  lemma RenderedPrefixAll(column: string, world: World, k0: nat, sel: seq<Row>)
    ensures RenderedPrefix(column, world, k0, sel) == |sel|
            <==> forall j :: 0 <= j < |sel| ==> Renders(column, world, k0 + j, sel[j])
  {
    var n := RenderedPrefix(column, world, k0, sel);
    if n == |sel| {
      RenderedBefore(column, world, k0, sel);
    } else {
      assert !Renders(column, world, k0 + n, sel[n]);
    }
  }

  /** Image `j` of `Labels` is the one generator run `k0 + j` makes for row `j`, which
      renders. */
  lemma {:induction false} LabelsAt(column: string, world: World, k0: nat, sel: seq<Row>, n: nat, j: nat)
    requires n <= RenderedPrefix(column, world, k0, sel) && j < n
    ensures Renders(column, world, k0 + j, sel[j])
    ensures Labels(column, world, k0, sel, n)[j] == LabelFor(column, world, k0 + j, sel[j])
    decreases j
  {
    if j > 0 {
      LabelsAt(column, world, k0 + 1, sel[1..], n - 1, j - 1);
      assert sel[1..][j - 1] == sel[j];
      assert k0 + 1 + (j - 1) == k0 + j;
    }
  }

  /** Temporary path `j` of `TempPaths` is the `(k0 + j)`-th. */
  lemma {:induction false} TempPathsAt(world: World, k0: nat, n: nat, j: nat)
    requires j < n
    ensures TempPaths(world, k0, n)[j] == world.tempPath(k0 + j)
    decreases j
  {
    if j > 0 {
      TempPathsAt(world, k0 + 1, n - 1, j - 1);
    }
  }

  /** The loop started with no temporary file and no image. */
  lemma FromStart(column: string, world: World, rows: seq<Row>)
    ensures var p := Process(column, world, Progress([], [], None), rows);
            var sel := Selected(rows, column);
            && p.tmpfiles == TempPaths(world, 0, Attempts(column, world, 0, sel))
            && p.images == Labels(column, world, 0, sel, RenderedPrefix(column, world, 0, sel))
            && p.failure == FirstFailure(column, world, 0, sel)
  {
    ProcessSpec(column, world, Progress([], [], None), rows);
    var sel := Selected(rows, column);
    assert [] + TempPaths(world, 0, Attempts(column, world, 0, sel))
        == TempPaths(world, 0, Attempts(column, world, 0, sel));
    assert [] + Labels(column, world, 0, sel, RenderedPrefix(column, world, 0, sel))
        == Labels(column, world, 0, sel, RenderedPrefix(column, world, 0, sel));
  }

  // ---------------------------------------------------------------------------------
  // The loop itself

  /** `for row in rows[:3]: ...` over the given rows, leaving the loop at the first
      exception with the temporary paths recorded so far. */
  method GenerateLabels(column: string, world: World, rows: seq<Row>) returns (p: Progress)
    ensures p == Process(column, world, Progress([], [], None), rows)
  {
    var tmpfiles: seq<string> := [];
    var images: seq<LabeledImage> := [];
    ghost var goal := Process(column, world, Progress([], [], None), rows);
    var i := 0;
    while i < |rows|
      invariant 0 <= i <= |rows|
      invariant Process(column, world, Progress(tmpfiles, images, None), rows[i..]) == goal
    {
      var row := rows[i];
      ghost var st := Progress(tmpfiles, images, None);
      assert Process(column, world, st, rows[i..])
          == Process(column, world, Step(column, world, st, row), rows[i + 1..]) by {
        assert rows[i..][0] == row && rows[i..][1..] == rows[i + 1..];
      }
      var token := Token(row, column);
      if token == [] {
        i := i + 1;
        continue;
      }
      var url := Url(token);
      var k := |tmpfiles|;
      var path := world.tempPath(k);
      tmpfiles := tmpfiles + [path];
      var q := world.qr(k, url);
      if q.QrFailed? {
        return Progress(tmpfiles, images, Some(GeneratorFailed(url)));
      }
      if FirstNameColumn !in row {
        return Progress(tmpfiles, images, Some(MissingColumn(FirstNameColumn)));
      }
      if LastNameColumn !in row {
        return Progress(tmpfiles, images, Some(MissingColumn(LastNameColumn)));
      }
      if q.Unreadable? {
        return Progress(tmpfiles, images, Some(UnreadableImage(path)));
      }
      var name := DisplayName(row);
      images := images + [LabeledImage(url, name, q.width, q.height, world.textHeight(name))];
      i := i + 1;
    }
    return Progress(tmpfiles, images, None);
  }
}
