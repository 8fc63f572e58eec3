# Group QR codes, modelled in Dafny

`generate_qr.py` makes one PNG of QR codes for one tutorial group and one exercise
sheet. It does the following:

1. It checks that the sheet number is between 2 and 8.
2. It reads the roster table and keeps the rows whose `Gruppe` cell, once stripped,
   contains `Gruppe .<digits>` with those digits naming the group.
3. It takes the first three kept rows. Each one whose `sheet<N>` cell holds a token
   (after stripping) gets three things:
   - a temporary file;
   - a run of the external `qr` generator on the question URL
     `https://judge.acps.tuhh.de/questions/<token>`;
   - a labeled image, with the student's trimmed name drawn above the QR raster.
4. It pastes the labeled images side by side on one canvas, with 20 pixels between
   neighbours.
5. On the way out it tries to remove every temporary file it recorded.

The model follows the program in seven modules:

| module | what it models |
|---|---|
| `Text` | Python's `str.strip()` |
| `GroupPattern` | the regular-expression search `Gruppe .(\d+)`, `int()` of the captured digits, and `str()` of a number |
| `Roster` | the row filter and its loop |
| `Selection` | the sheet check, the sheet column, `rows[:3]`, the token, the URL and the display name |
| `Layout` | the labeled image and the canvas geometry, with the paste loop |
| `Pipeline` | the generation loop |
| `Program` | the whole run, its four possible endings, the `finally` cleanup, and a worked example |

Everything the program learns from outside is a parameter, a value of type
`Pipeline.World`:

- the temporary file names;
- the result of each generator run (failure, unreadable file, or a raster of a given size);
- the pixel height of a rendered name;
- whether `os.remove` raises.

The loop is specified twice:

- `Pipeline.Process` folds one loop step at a time over the rows.
- `Pipeline.Expected` says directly which rows render, which files are recorded and
  which exception ends the loop.

`Pipeline.ProcessSpec` proves the two agree. `Program.Behavior` builds the outcome of
a whole run on top of that second description. `Program.Run` is proved to produce that
outcome, and to leave exactly the right files behind: those that existed before, the
temporary files and the output image of a run that saves, less those the cleanup removed.

The code differs from the pattern's plain reading in two ways, and the model follows
the code:

- The `.` in `Gruppe .(\d+)` matches any character except a newline, digits included.
  So "Gruppe 12" names group 2, not group 12 (`GroupPattern.TwoDigitsReadAsOne`), and
  "Gruppe 3" names no group at all (`GroupPattern.SingleDigitNoMatch`).
- The space after `Gruppe` is part of the pattern. So text such as "Gruppe·3", with any
  other character after `Gruppe`, never matches.

## Model

| member | source | states |
|---|---|---|
| Text.IsSpace | generate_qr.py:29 | the characters `str.strip()` removes: those for which `str.isspace()` holds (TAB to CR, FS to US, space, NEL, no-break space and the Unicode space, line and paragraph separators) |
| Text.LeadingSpace | generate_qr.py:29 | the count of leading whitespace: that many characters are all whitespace and the next one, if any, is not |
| Text.TrimEndSpec | generate_qr.py:29 | trimming the end keeps a prefix, drops only whitespace and ends on a non-space |
| Text.StripSpec | generate_qr.py:29 | `strip()` is the slice after the leading whitespace that is followed only by whitespace and neither starts nor ends with whitespace |
| Text.TrimEnd | generate_qr.py:29 | dropping the trailing whitespace; `Text.TrimEndSpec` states its meaning |
| Text.Strip | generate_qr.py:29 | `str.strip()`, also applied to the token at line 43 and to the name at line 58; its meaning is stated by `Text.StripSpec` |
| Text.StripEmptyIffAllSpace | generate_qr.py:43-44 | a cell strips to the empty string exactly when it is all whitespace |
| GroupPattern.Decimal | generate_qr.py:23 | `str(n)` is a non-empty string of digits with no leading zero |
| GroupPattern.DecimalValue | generate_qr.py:31 | `int()` of a digit string, leading zeros allowed; `GroupPattern.DecimalRoundTrip` and `GroupPattern.LeadingZeroIgnored` state its meaning |
| GroupPattern.DecimalRoundTrip | generate_qr.py:23 | `int(str(n)) == n` |
| GroupPattern.LeadingZeroIgnored | generate_qr.py:31 | `int()` of the captured digits ignores leading zeros |
| GroupPattern.RunEnd | generate_qr.py:30 | greedy `\d+`: every character up to the end index is a digit and the one at it is not |
| GroupPattern.DigitRun | generate_qr.py:30-31 | the captured group is all digits and stops before a non-digit or at the end of the text |
| GroupPattern.MatchesAt | generate_qr.py:30 | the pattern `Gruppe .(\d+)` matches at an index: the text "Gruppe ", one character other than a newline, then a digit |
| GroupPattern.GroupAt | generate_qr.py:31 | `int(match.group(1))` for a match at a given index: the value of its digit run |
| GroupPattern.FindMatch | generate_qr.py:30 | `re.search` finds nothing exactly when the pattern matches nowhere; otherwise it finds the leftmost match |
| GroupPattern.ParseGroup | generate_qr.py:30-31 | the group number a field names, or none when the pattern does not occur; `GroupPattern.ParseGroupIsLeftmostMatch` states its meaning |
| GroupPattern.ParseGroupIsLeftmostMatch | generate_qr.py:30-31 | the group number is the value of the digits of the leftmost match |
| GroupPattern.ParseGroupOfSlice | generate_qr.py:29-31 | cutting off text with no `G` on the left and no digit on the right does not change the group named |
| GroupPattern.ParseGroupOfStrip | generate_qr.py:29-31 | stripping the `Gruppe` cell never changes the group it names |
| GroupPattern.TwoDigitsReadAsOne | generate_qr.py:30-31 | "Gruppe 12" names group 2, because `.` consumes the first digit |
| GroupPattern.SingleDigitNoMatch | generate_qr.py:30-31 | "Gruppe 3" names no group |
| GroupPattern.FillerAndLeadingZero | generate_qr.py:30-31 | "Gruppe I2" and "Gruppe A02" both name group 2 |
| Roster.RowGroup | generate_qr.py:29-31 | the group number the stripped `Gruppe` cell names, or none |
| Roster.InGroup | generate_qr.py:29-31 | `match and int(match.group(1)) == group_num` on the stripped `Gruppe` cell |
| Roster.Filtered | generate_qr.py:28-32 | the kept rows are no more than the rows read |
| Roster.FilteredCounts | generate_qr.py:28-32 | each row of the group is kept as often as it occurs, and no other row is kept |
| Roster.FilteredAppend | generate_qr.py:28-32 | filtering splits over concatenation, so the kept rows keep the table's order |
| Roster.FilteredMembers | generate_qr.py:28-32 | a row is kept exactly when it is in the table and names the group |
| Roster.FilterRows | generate_qr.py:25-33 | the loop raises the `KeyError` exactly when some row lacks `Gruppe`; otherwise it returns the filtered rows |
| Selection.ValidSheet | generate_qr.py:19 | `2 <= args.sheet <= 8` |
| Selection.SheetColumn | generate_qr.py:23 | `f"sheet{args.sheet}"`; `Selection.SheetColumnsDistinct` states that it is injective |
| Selection.Candidates | generate_qr.py:42 | `rows[:3]` |
| Selection.Token | generate_qr.py:43 | `row.get(sheet_col, "").strip()`; `Selection.TokenEmptyIff` states when it is empty |
| Selection.Url | generate_qr.py:47 | the question URL of a token |
| Selection.DisplayName | generate_qr.py:58 | the first and last name joined by a space, stripped |
| Selection.Selected | generate_qr.py:42-45 | the rows with a non-empty token, never more than the rows given; `Selection.SelectedCounts`, `Selection.SelectedAppend` and `Selection.SelectedMembers` state which rows, how often and in what order |
| Selection.SheetColumnsDistinct | generate_qr.py:23 | different sheet numbers read different columns |
| Selection.TokenEmptyIff | generate_qr.py:43-45 | a row is skipped exactly when its sheet cell is absent or whitespace only |
| Selection.SelectedMembers | generate_qr.py:42-45 | the rows that get a code are exactly the rows with a non-empty token |
| Selection.SelectedCounts | generate_qr.py:42-45 | each row with a non-empty token gets a code as often as it occurs, and no other row gets one |
| Selection.SelectedAppend | generate_qr.py:42-45 | selection splits over concatenation, so the rows that get a code keep the roster's order |
| Selection.SelectedOfCandidates | generate_qr.py:42-45 | at most three codes are made, and none exactly when each of the first three rows has a blank or absent cell |
| Selection.SelectedEmptyIff | generate_qr.py:42-45 | no row has a token exactly when every sheet cell is absent or whitespace only |
| Layout.LabeledImage.Width | generate_qr.py:76 | a labeled image is as wide as its QR raster |
| Layout.LabeledImage.Height | generate_qr.py:76 | a labeled image is as tall as its QR raster plus the name's height plus 10 |
| Layout.LabeledImage.QrTop | generate_qr.py:79 | the QR raster is pasted at the name's height plus 10 |
| Layout.QrInsideCanvas | generate_qr.py:76-95 | every QR raster, pasted below its name inside its labeled image, lies inside the composed canvas |
| Layout.CanvasWidth | generate_qr.py:88 | the sum of the widths plus 20 per neighbouring pair |
| Layout.Offset | generate_qr.py:92-95 | where image k is pasted: the widths of the earlier images plus 20 for each of them |
| Layout.Compose | generate_qr.py:88-95 | the canvas: width, height, images and paste positions; `Layout.ComposeLayout` states its geometry |
| Layout.Sum | generate_qr.py:88 | `sum(...)` of the widths, added from the left |
| Layout.Max | generate_qr.py:89 | `max` is an element that no element exceeds |
| Layout.OffsetStep | generate_qr.py:92-95 | each paste position is the previous one plus that image's width plus 20 |
| Layout.OffsetMonotone | generate_qr.py:92-95 | paste positions never decrease |
| Layout.CanvasLayout | generate_qr.py:88-95 | images sit one gutter apart inside the canvas, the last one ends at its right edge, and none is taller than it |
| Layout.PasteOffsets | generate_qr.py:92-95 | the paste loop produces position k for image k |
| Layout.ComposeLayout | generate_qr.py:88-95 | the first image is at x 0, each image lies inside the canvas one gutter from the next, the last reaches the right edge, and the canvas is as tall as the tallest image |
| Layout.ComposeCanvas | generate_qr.py:88-95 | the method computes the canvas `Compose` describes |
| Pipeline.Step | generate_qr.py:42-82 | one pass of the loop body: skip a row without a token; else record a temporary path, then raise on a failing generator, a missing `Vorname`, a missing `Nachname` or an unreadable file, in that order, or add the labeled image |
| Pipeline.Process | generate_qr.py:42-82 | the loop over the rows, stopping at the first exception; `Pipeline.ProcessSpec` states what it produces |
| Pipeline.Renders | generate_qr.py:51-59 | a row gets its labeled image: the generator run produces a readable raster and both name columns are present |
| Pipeline.LabelFor | generate_qr.py:47-82 | the labeled image of a row that renders: its URL, its trimmed name, the raster size and the name's height |
| Pipeline.FailureFor | generate_qr.py:51-59 | the exception of a row that does not render: a failing generator first, then a missing `Vorname`, a missing `Nachname`, then an unreadable file |
| Pipeline.Expected | generate_qr.py:41-82 | what the loop leaves behind, described without stepping: one path per attempt, one image per row before the first failure, and that failure |
| Pipeline.RenderedPrefix | generate_qr.py:41-82 | the count of rows that render before the first that fails: it is at most the number of rows, and the row at that index, if any, does not render |
| Pipeline.RenderedBefore | generate_qr.py:41-82 | every row before the end of the rendered prefix renders, row j with generator run k0 + j |
| Pipeline.ProcessSpec | generate_qr.py:41-82 | the loop, row by row, records one path per generator run and one image per rendered row, and stops at the first failure |
| Pipeline.RenderedPrefixAll | generate_qr.py:41-82 | all rows render exactly when each row k renders with generator run k |
| Pipeline.LabelsAt | generate_qr.py:47-82 | image j comes from row j and generator run j |
| Pipeline.TempPathsAt | generate_qr.py:48-49 | the j-th recorded path is the j-th temporary file created |
| Pipeline.FromStart | generate_qr.py:38-82 | from empty lists, the loop's paths, images and exception are as `Expected` says |
| Pipeline.GenerateLabels | generate_qr.py:38-82 | the imperative loop, with `continue` and with exceptions as early returns, computes `Process` |
| Program.Chosen | generate_qr.py:42-45 | the rows that get a code: those with a token among the first three rows of the group |
| Program.Generate | generate_qr.py:41-95 | the generation part of a run: the first failure's exception, the "no valid tokens" return, or the composed canvas, with the recorded paths; `Program.GeneratedSaved`, `Program.GeneratedImage` and `Program.GeneratedTempFiles` state its meaning |
| Program.Behavior | generate_qr.py:19-95 | the outcome of a run and the paths it recorded; `Program.SheetCheckedFirst`, `Program.NoEntriesIff`, `Program.NoValidTokensIff` and `Program.SavedIff` state when each ending happens |
| Program.LoopMeetsBehavior | generate_qr.py:38-90 | the loop and the two checks after it end as `Behavior` says |
| Program.SheetCheckedFirst | generate_qr.py:19-20 | a sheet outside 2..8 raises before anything else, and only then is this error reported |
| Program.NoEntriesIff | generate_qr.py:34-36 | "no entries" happens exactly when the sheet is valid, all rows have `Gruppe` and none names the group; no file is created |
| Program.NoValidTokensIff | generate_qr.py:84-86 | "no valid tokens" happens exactly when the group has rows but the first three have no token; no file is created |
| Program.GeneratedSaved | generate_qr.py:41-95 | the generation saves a canvas exactly when there is a chosen row and every chosen row renders, with one image and one path per row |
| Program.SavedIff | generate_qr.py:19-95 | a canvas is saved exactly when some of the first three group rows have a token and all of those render; it holds 1 to 3 images, with one path recorded per image |
| Program.GeneratedImage | generate_qr.py:47-82 | image k carries the URL of row k's token, its trimmed name, the raster size from run k and that name's height; path k is temporary file k |
| Program.SavedImage | generate_qr.py:42-82 | the same, for a whole run that saves |
| Program.GeneratedTempFiles | generate_qr.py:48-56 | one recorded path per generator run, in creation order, recorded before a failing run |
| Program.TempFilesTracked | generate_qr.py:42-56 | at most three temporary files, in creation order; a failing generator's file is recorded; when the canvas is saved, one file per image |
| Program.LaterRowsIgnored | generate_qr.py:42 | once the group has three rows, later rows that have a `Gruppe` cell do not change the run, whether or not every earlier row has one |
| Program.NegativeGroupFindsNothing | generate_qr.py:30-36 | a negative group number never matches, so the result is "no entries" |
| Program.Removed | generate_qr.py:101-105 | the recorded paths whose `os.remove` does not raise |
| Program.Cleanup | generate_qr.py:100-105 | every recorded path whose removal does not raise is gone, and nothing else changes |
| Program.Run | generate_qr.py:10-105 | `main()` ends as `Behavior` says; the files left are the earlier ones plus the temporary files created plus, for a run that saves, the output image written at line 97, less those the cleanup removed; when no temporary path names an existing file, as `NamedTemporaryFile` guarantees, no existing file is removed; a saved output image survives unless a temporary path names it |
| Program.AdaLovelace | generate_qr.py:19-95 | one group-I2 row with token "tok123" on sheet 4 saves one image encoding its URL, labeled "Ada Lovelace", with one temporary file |

## Left out

- Command-line parsing (lines 11-17) is not modelled. The group and sheet are
  parameters of `Program.Run`, and so is the output path. The display flag is not modelled.
- CSV decoding is not modelled, and a row is a finished map from column to cell:
  - a file that cannot be opened or decoded is not modelled;
  - the value `None` that `csv.DictReader` gives to the missing cells of a short row is
    not modelled (a missing cell is an absent key).
- The internals of the `qr` generator and of the image library are not modelled. Each
  generator run either fails, leaves an unreadable file, or yields a raster of a given
  size, and that choice is part of `Pipeline.World`.
- Font selection and text measurement (lines 61-74) are not modelled, including the
  fall-back to the default font. The height of a rendered name is part of
  `Pipeline.World`.
- Where the name is drawn horizontally (line 78) is not modelled, because it uses
  floating point and does not affect any size.
- Pixel contents are not modelled. The canvas records its size, its images and their
  paste positions.
- The contents of the saved file (line 97) are not modelled: the `Saved` outcome
  carries the canvas, and `Program.Run` records only that the output path then exists.
  A save that raises (an unwritable path, an unknown extension) is not modelled.
- Printed messages (lines 35, 85, 98) are not modelled.
- The display opener in the `finally` block (lines 106-120) is not modelled. It runs
  after the "no valid tokens" return and after an exception, not only after a save.
- `Program.Run` adds all the run's temporary files to the file system in one step
  before the cleanup, instead of one per loop iteration. The set of files left at the
  end is the same.
- The group lookup `row["Gruppe"]` raises for the first row without that column. The
  model only records that some row lacks it, because every such row raises the same
  error.
- GroupPattern.IsDigit: `\d` and `int()` are modelled on ASCII digits only. Python
  also accepts other Unicode decimal digits.
- GroupPattern.DecimalValue: reads a digit run of any length. On Python 3.11 and later
  (and 3.10.7 and later), `int()` at line 31 raises `ValueError` for more than 4300
  digits, the default integer string-conversion limit. That error would end the CSV
  loop before the `try`. The model does not raise it, because the limit depends on the
  interpreter version and on `sys.set_int_max_str_digits`.
- Pipeline.Step: `tempfile.NamedTemporaryFile` at line 48 raising `OSError` (disk full,
  no permission) is not modelled. In the program that exception records no path for
  the row, and the `finally` block removes the earlier ones.
- Pipeline.World: `tempPath` gives some path for every generator run. The model does
  not require these paths to be new or distinct, as the files `NamedTemporaryFile`
  creates are. `Program.Run` states that existing files survive only under the
  hypothesis that no temporary path names one of them.
