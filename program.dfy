/** One run of the program (generate_qr.py:10-105): check the sheet, filter the roster,
    turn the first three rows of the group into labeled QR images, compose them on one
    canvas, and try to remove every temporary file on the way out. */
module Program {
  import opened Wrappers
  import opened Text
  import opened GroupPattern
  import opened Roster
  import opened Selection
  import opened Layout
  import opened Pipeline

  /** How a run ends: an exception, one of the two early returns, or the saved canvas. */
  datatype Outcome =
    | Raised(failure: Failure)
    | NoEntries
    | NoValidTokens
    | Saved(canvas: Canvas)

  /** The outcome of a run and the temporary paths it recorded. */
  datatype RunResult = RunResult(outcome: Outcome, tmpfiles: seq<string>)

  /** The rows that get a code: those with a token among the first three of the group. */
  function Chosen(group: int, sheet: int, table: seq<Row>): seq<Row>
    requires ValidSheet(sheet)
  {
    Selected(Candidates(Filtered(table, group)), SheetColumn(sheet))
  }

  /** The generation part of a run for the chosen rows `sel`: one temporary file and one
      generator run per row, in order, up to the first row that does not render, whose
      exception ends the run; with no chosen row it is the "no valid tokens" return, and
      otherwise the labeled images are composed on the canvas. */
  function Generate(col: string, world: World, sel: seq<Row>): RunResult {
    var n := RenderedPrefix(col, world, 0, sel);
    var tmpfiles := TempPaths(world, 0, Attempts(col, world, 0, sel));
    if n < |sel| then RunResult(Raised(FailureFor(col, world, n, sel[n])), tmpfiles)
    else if sel == [] then RunResult(NoValidTokens, tmpfiles)
    else RunResult(Saved(Compose(Labels(col, world, 0, sel, n))), tmpfiles)
  }

  /** What a run does: the sheet check (before the file is read), the `Gruppe` lookup of
      every row, the "no entries" return, then the generation for the chosen rows. */
  function Behavior(group: int, sheet: int, table: seq<Row>, world: World): RunResult {
    if !ValidSheet(sheet) then RunResult(Raised(SheetOutOfRange), [])
    else if !AllHaveGroup(table) then RunResult(Raised(MissingColumn(GroupColumn)), [])
    else if Filtered(table, group) == [] then RunResult(NoEntries, [])
    else Generate(SheetColumn(sheet), world, Chosen(group, sheet, table))
  }

  /** The generation loop over the first three rows of the group, followed by the two
      checks after it, ends the way `Behavior` says. */
  lemma LoopMeetsBehavior(group: int, sheet: int, table: seq<Row>, world: World)
    requires ValidSheet(sheet) && AllHaveGroup(table) && Filtered(table, group) != []
    ensures var p := Process(SheetColumn(sheet), world, Progress([], [], None),
                             Candidates(Filtered(table, group)));
            var b := Behavior(group, sheet, table, world);
            && p.tmpfiles == b.tmpfiles
            && (p.failure.Some? <==> b.outcome.Raised?)
            && (p.failure.Some? ==> b.outcome.failure == p.failure.value)
            && (p.failure.None? && p.images == [] <==> b.outcome == NoValidTokens)
            && (p.failure.None? && p.images != [] ==> b.outcome == Saved(Compose(p.images)))
  {
    var col, sel := SheetColumn(sheet), Chosen(group, sheet, table);
    FromStart(col, world, Candidates(Filtered(table, group)));
  }

  // ---------------------------------------------------------------------------------
  // The outcomes

  /** The sheet is checked first: a sheet outside 2..8 raises, whatever the roster, the
      group and the outside world, and no other failure is reported as a bad sheet. */
  lemma SheetCheckedFirst(group: int, sheet: int, table: seq<Row>, world: World)
    ensures Behavior(group, sheet, table, world).outcome == Raised(SheetOutOfRange)
            <==> !ValidSheet(sheet)
    ensures !ValidSheet(sheet)
            ==> Behavior(group, sheet, table, world) == RunResult(Raised(SheetOutOfRange), [])
  {
  }

  /** "No entries" is the outcome exactly when the sheet is valid, every row has a
      `Gruppe` cell and no row names the group; nothing is created then. */
  lemma NoEntriesIff(group: int, sheet: int, table: seq<Row>, world: World)
    ensures var b := Behavior(group, sheet, table, world);
            && (b.outcome == NoEntries
                <==> ValidSheet(sheet) && AllHaveGroup(table)
                     && forall r :: r in table ==> !InGroup(r, group))
            && (b.outcome == NoEntries ==> b.tmpfiles == [])
  {
    var rows := Filtered(table, group);
    FilteredMembers(table, group);
    if rows != [] {
      assert rows[0] in rows;
    }
  }

  /** "No valid tokens" is the outcome exactly when the group has rows but each of its
      first three rows has no sheet cell or a blank one; no temporary file is created and
      the generator never runs then. */
  lemma NoValidTokensIff(group: int, sheet: int, table: seq<Row>, world: World)
    ensures var b := Behavior(group, sheet, table, world);
            && (b.outcome == NoValidTokens
                <==> ValidSheet(sheet) && AllHaveGroup(table) && Filtered(table, group) != []
                     && forall r :: r in Candidates(Filtered(table, group))
                                    ==> SheetColumn(sheet) !in r || AllSpace(r[SheetColumn(sheet)]))
            && (b.outcome == NoValidTokens ==> b.tmpfiles == [])
  {
    if ValidSheet(sheet) && AllHaveGroup(table) && Filtered(table, group) != [] {
      SelectedOfCandidates(Filtered(table, group), SheetColumn(sheet));
    }
  }

  /** The generation saves a canvas exactly when there is a chosen row and every chosen
      row renders; the canvas then holds one image per chosen row, and one temporary
      path was recorded per image. */
  lemma GeneratedSaved(col: string, world: World, sel: seq<Row>)
    ensures var g := Generate(col, world, sel);
            && (g.outcome.Saved?
                <==> sel != [] && forall j :: 0 <= j < |sel| ==> Renders(col, world, j, sel[j]))
            && (g.outcome.Saved? ==>
                  && |g.outcome.canvas.images| == |sel|
                  && g.outcome.canvas == Compose(g.outcome.canvas.images)
                  && g.tmpfiles == TempPaths(world, 0, |sel|))
  {
    var g := Generate(col, world, sel);
    var n := RenderedPrefix(col, world, 0, sel);
    assert g.outcome.Saved? <==> sel != [] && n == |sel|;
    assert n == |sel| <==> forall j :: 0 <= j < |sel| ==> Renders(col, world, j, sel[j]) by {
      RenderedPrefixAll(col, world, 0, sel);
    }
    if g.outcome.Saved? {
      assert g.outcome.canvas == Compose(Labels(col, world, 0, sel, n));
    }
  }

  /** A canvas is saved exactly when some of the first three rows of the group have a
      token and every one of those renders; it then holds one image per such row, at
      most three, and one temporary file was recorded per image. */
  lemma SavedIff(group: int, sheet: int, table: seq<Row>, world: World)
    ensures var b := Behavior(group, sheet, table, world);
            && (b.outcome.Saved?
                <==> ValidSheet(sheet) && AllHaveGroup(table) && Filtered(table, group) != []
                     && var col, sel := SheetColumn(sheet), Chosen(group, sheet, table);
                        sel != [] && forall j :: 0 <= j < |sel| ==> Renders(col, world, j, sel[j]))
            && (b.outcome.Saved? ==>
                  && ValidSheet(sheet)
                  && |b.outcome.canvas.images| == |Chosen(group, sheet, table)|
                  && 1 <= |b.outcome.canvas.images| <= MaxCodes
                  && b.outcome.canvas == Compose(b.outcome.canvas.images)
                  && b.tmpfiles == TempPaths(world, 0, |b.outcome.canvas.images|))
  {
    if ValidSheet(sheet) && AllHaveGroup(table) && Filtered(table, group) != [] {
      var col := SheetColumn(sheet);
      GeneratedSaved(col, world, Chosen(group, sheet, table));
      SelectedOfCandidates(Filtered(table, group), col);
    }
  }

  /** Image `k` of a generated canvas comes from chosen row `k` and generator run `k`. */
  lemma GeneratedImage(col: string, world: World, sel: seq<Row>, k: nat)
    requires Generate(col, world, sel).outcome.Saved?
    requires k < |Generate(col, world, sel).outcome.canvas.images|
    ensures var g := Generate(col, world, sel);
            var img := g.outcome.canvas.images[k];
            && k < |sel| && k < |g.tmpfiles|
            && FirstNameColumn in sel[k] && LastNameColumn in sel[k]
            && img.url == UrlPrefix + Token(sel[k], col)
            && img.name == DisplayName(sel[k])
            && world.qr(k, img.url) == QrImage(img.qrWidth, img.qrHeight)
            && img.textHeight == world.textHeight(img.name)
            && g.tmpfiles[k] == world.tempPath(k)
  {
    var n := RenderedPrefix(col, world, 0, sel);
    assert n == |sel| && Attempts(col, world, 0, sel) == n;
    var imgs := Labels(col, world, 0, sel, n);
    assert Generate(col, world, sel).outcome.canvas.images == imgs;
    assert Renders(col, world, k, sel[k]) && imgs[k] == LabelFor(col, world, k, sel[k]) by {
      LabelsAt(col, world, 0, sel, n, k);
    }
    TempPathsAt(world, 0, n, k);
  }

  /** Image `k` of a saved canvas comes from the `k`-th chosen row and the `k`-th
      generator run: it encodes the question URL of the row's trimmed token, is labeled
      with the row's trimmed name, has the size of that run's raster, and that run's
      temporary file is the `k`-th recorded path. */
  lemma SavedImage(group: int, sheet: int, table: seq<Row>, world: World, k: nat)
    requires Behavior(group, sheet, table, world).outcome.Saved?
    requires k < |Behavior(group, sheet, table, world).outcome.canvas.images|
    ensures ValidSheet(sheet)
    ensures var b, col, sel := Behavior(group, sheet, table, world), SheetColumn(sheet),
                               Chosen(group, sheet, table);
            var img := b.outcome.canvas.images[k];
            && k < |sel| && k < |b.tmpfiles|
            && FirstNameColumn in sel[k] && LastNameColumn in sel[k]
            && img.url == UrlPrefix + Token(sel[k], col)
            && img.name == DisplayName(sel[k])
            && world.qr(k, img.url) == QrImage(img.qrWidth, img.qrHeight)
            && img.textHeight == world.textHeight(img.name)
            && b.tmpfiles[k] == world.tempPath(k)
  {
    assert ValidSheet(sheet) && AllHaveGroup(table) && Filtered(table, group) != [];
    GeneratedImage(SheetColumn(sheet), world, Chosen(group, sheet, table), k);
  }

  /** The generation records one temporary path per generator run, in creation order,
      no more than there are chosen rows; a failing generator has had its path recorded,
      and a saved canvas has one path per image. */
  lemma GeneratedTempFiles(col: string, world: World, sel: seq<Row>)
    ensures var g := Generate(col, world, sel);
            var t := g.tmpfiles;
            && |t| <= |sel|
            && (forall j :: 0 <= j < |t| ==> t[j] == world.tempPath(j))
            && (g.outcome.Saved? ==> |t| == |g.outcome.canvas.images|)
            && (g.outcome.Raised? && g.outcome.failure.GeneratorFailed? ==>
                  |t| >= 1 && world.qr(|t| - 1, g.outcome.failure.url).QrFailed?)
  {
    var g := Generate(col, world, sel);
    var n, m := RenderedPrefix(col, world, 0, sel), Attempts(col, world, 0, sel);
    assert g.tmpfiles == TempPaths(world, 0, m);
    forall j | 0 <= j < m ensures g.tmpfiles[j] == world.tempPath(j) {
      TempPathsAt(world, 0, m, j);
    }
    if g.outcome.Raised? {
      assert n < |sel| && m == n + 1 && g.outcome.failure == FailureFor(col, world, n, sel[n]);
    }
  }

  /** Temporary files are recorded one per generator run, named in creation order, at most
      three; a generator that fails has already had its file recorded, and a saved canvas
      has exactly one file per image. */
  lemma TempFilesTracked(group: int, sheet: int, table: seq<Row>, world: World)
    ensures var b := Behavior(group, sheet, table, world);
            var t := b.tmpfiles;
            && |t| <= MaxCodes
            && (forall j :: 0 <= j < |t| ==> t[j] == world.tempPath(j))
            && (b.outcome.Saved? ==> |t| == |b.outcome.canvas.images|)
            && (b.outcome.Raised? && b.outcome.failure.GeneratorFailed? ==>
                  |t| >= 1 && world.qr(|t| - 1, b.outcome.failure.url).QrFailed?)
  {
    if ValidSheet(sheet) && AllHaveGroup(table) && Filtered(table, group) != [] {
      var col := SheetColumn(sheet);
      GeneratedTempFiles(col, world, Chosen(group, sheet, table));
      SelectedOfCandidates(Filtered(table, group), col);
    }
  }

  /** Rows after the third row of the group never matter, as long as they have a
      `Gruppe` cell; a row of the first part without one raises in both runs alike. */
  lemma LaterRowsIgnored(group: int, sheet: int, t1: seq<Row>, t2: seq<Row>, world: World)
    requires AllHaveGroup(t2) && |Filtered(t1, group)| >= MaxCodes
    ensures Behavior(group, sheet, t1 + t2, world) == Behavior(group, sheet, t1, world)
  {
    if AllHaveGroup(t1) {
      assert AllHaveGroup(t1 + t2) by {
        forall i | 0 <= i < |t1 + t2| ensures GroupColumn in (t1 + t2)[i] {
          if i >= |t1| {
            assert (t1 + t2)[i] == t2[i - |t1|];
          }
        }
      }
      FilteredAppend(t1, t2, group);
      var f1 := Filtered(t1, group);
      assert Candidates(f1 + Filtered(t2, group)) == Candidates(f1) by {
        assert (f1 + Filtered(t2, group))[..MaxCodes] == f1[..MaxCodes];
      }
    } else {
      var i :| 0 <= i < |t1| && GroupColumn !in t1[i];
      assert (t1 + t2)[i] == t1[i];
    }
  }

  /** A negative group number names no row. */
  lemma NegativeGroupFindsNothing(group: int, sheet: int, table: seq<Row>, world: World)
    requires group < 0 && ValidSheet(sheet) && AllHaveGroup(table)
    ensures Behavior(group, sheet, table, world).outcome == NoEntries
  {
    NoEntriesIff(group, sheet, table, world);
    assert forall r :: r in table ==> !InGroup(r, group);
  }

  // ---------------------------------------------------------------------------------
  // The run, step by step

  /** The temporary files the `finally` block removes: each recorded path whose removal
      does not raise. */
  function Removed(paths: seq<string>, world: World): set<string> {
    set p | p in paths && !world.removalFails(p)
  }

  function Created(paths: seq<string>): set<string> {
    set p | p in paths
  }

  /** `for f in tmpfiles: try: os.remove(f) except OSError: pass`. */
  method Cleanup(paths: seq<string>, world: World, files: set<string>) returns (left: set<string>)
    ensures left == files - Removed(paths, world)
  {
    left := files;
    var i := 0;
    while i < |paths|
      invariant 0 <= i <= |paths|
      invariant left == files - Removed(paths[..i], world)
    {
      var f := paths[i];
      if !world.removalFails(f) {
        left := left - {f};
      }
      assert Removed(paths[..i + 1], world)
          == Removed(paths[..i], world) + (if world.removalFails(f) then {} else {f}) by {
        assert paths[..i + 1] == paths[..i] + [f];
      }
      i := i + 1;
    }
    assert paths[..i] == paths;
  }

  /** The output image `combined.save(args.output)` writes: only a run that saves. */
  function Written(outcome: Outcome, output: string): set<string> {
    if outcome.Saved? then {output} else {}
  }

  /** `main()`: the outcome is the one `Behavior` describes; the files that exist
      afterwards are those that existed before plus the temporary files created and
      the output image a saving run writes, less those the cleanup removed (the save
      comes before the `finally` block). */
  method Run(group: int, sheet: int, table: seq<Row>, world: World, files: set<string>,
             output: string)
    returns (outcome: Outcome, left: set<string>)
    ensures var b := Behavior(group, sheet, table, world);
            && outcome == b.outcome
            && left == (files + Created(b.tmpfiles) + Written(b.outcome, output))
                       - Removed(b.tmpfiles, world)
    ensures (forall k :: world.tempPath(k) !in files) ==> files <= left
    ensures outcome.Saved? && (forall k :: world.tempPath(k) != output) ==> output in left
  {
    TempFilesTracked(group, sheet, table, world);
    if !ValidSheet(sheet) {
      return Raised(SheetOutOfRange), files;
    }
    var column := SheetColumn(sheet);
    var filtered := FilterRows(table, group);
    if filtered.None? {
      return Raised(MissingColumn(GroupColumn)), files;
    }
    var rows := filtered.value;
    if rows == [] {
      return NoEntries, files;
    }
    var p := GenerateLabels(column, world, Candidates(rows));
    LoopMeetsBehavior(group, sheet, table, world);
    if p.failure.Some? {
      outcome := Raised(p.failure.value);
    } else if p.images == [] {
      outcome := NoValidTokens;
    } else {
      var canvas := ComposeCanvas(p.images);
      outcome := Saved(canvas);
    }
    left := Cleanup(p.tmpfiles, world, files + Created(p.tmpfiles) + Written(outcome, output));
  }

  // ---------------------------------------------------------------------------------
  // A worked example

  /** The one roster row of the example. */
  function AdaRow(): Row {
    map["Gruppe" := "Gruppe I2", "Vorname" := "Ada", "Nachname" := "Lovelace",
        "sheet4" := "tok123"]
  }

  /** The example row names group 2. */
  lemma AdaGroup()
    ensures InGroup(AdaRow(), 2)
  {
    var row := AdaRow();
    assert row[GroupColumn] == "Gruppe I2";
    assert Strip("Gruppe I2") == "Gruppe I2";
    FillerAndLeadingZero();
  }

  /** The example row's token for sheet 4 is "tok123". */
  lemma AdaToken()
    ensures SheetColumn(4) == "sheet4"
    ensures Token(AdaRow(), "sheet4") == "tok123"
  {
    assert Decimal(4) == "4";
    assert AdaRow()["sheet4"] == "tok123";
    assert Strip("tok123") == "tok123";
  }

  /** The example row's display name is "Ada Lovelace". */
  lemma AdaName()
    ensures FirstNameColumn in AdaRow() && LastNameColumn in AdaRow()
    ensures DisplayName(AdaRow()) == "Ada Lovelace"
  {
    var row := AdaRow();
    assert row[FirstNameColumn] + " " + row[LastNameColumn] == "Ada Lovelace";
    assert Strip("Ada Lovelace") == "Ada Lovelace";
  }

  /** The example run chooses the example row. */
  lemma AdaChosen()
    ensures ValidSheet(4) && AllHaveGroup([AdaRow()]) && Filtered([AdaRow()], 2) != []
    ensures Chosen(2, 4, [AdaRow()]) == [AdaRow()]
  {
    var row := AdaRow();
    assert Filtered([row], 2) == [row] by {
      AdaGroup();
      assert [row][..0] == [];
    }
    AdaToken();
    assert Selected([row], "sheet4") == [row];
  }

  /** The question URL of the example token. */
  lemma AdaUrl()
    ensures Url("tok123") == "https://judge.acps.tuhh.de/questions/tok123"
  {
  }

  /** The example row renders when the generator succeeds on its URL. */
  lemma AdaRenders(world: World)
    requires world.qr(0, Url("tok123")).QrImage?
    ensures Renders(SheetColumn(4), world, 0, AdaRow())
  {
    AdaToken();
    AdaName();
  }

  /** One row of group I2 with a token for sheet 4: when the generator succeeds, the run
      saves exactly one image, encoding the token's question URL and labeled with the
      trimmed name, and records exactly one temporary file. */
  lemma AdaLovelace(world: World)
    requires world.qr(0, "https://judge.acps.tuhh.de/questions/tok123").QrImage?
    ensures var b := Behavior(2, 4, [AdaRow()], world);
            && b.outcome.Saved?
            && |b.outcome.canvas.images| == 1
            && b.outcome.canvas.images[0].url == "https://judge.acps.tuhh.de/questions/tok123"
            && b.outcome.canvas.images[0].name == "Ada Lovelace"
            && b.tmpfiles == [world.tempPath(0)]
  {
    var b := Behavior(2, 4, [AdaRow()], world);
    AdaUrl();
    AdaChosen();
    AdaRenders(world);
    assert b.outcome.Saved? && |b.outcome.canvas.images| == 1
           && b.tmpfiles == TempPaths(world, 0, 1) by {
      SavedIff(2, 4, [AdaRow()], world);
    }
    assert TempPaths(world, 0, 1) == [world.tempPath(0)];
    assert b.outcome.canvas.images[0].url == UrlPrefix + Token(AdaRow(), SheetColumn(4))
           && b.outcome.canvas.images[0].name == DisplayName(AdaRow()) by {
      SavedImage(2, 4, [AdaRow()], world, 0);
    }
    AdaToken();
    AdaName();
  }
}
