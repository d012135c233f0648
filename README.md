# cwc_cartes in Dafny

A verified model of the core of `cwc_cartes`, a tool that makes playing cards
for a tabletop wargame in two steps.

The model covers the following:

- **Record extraction** (`cwc_cartes/converter.py`). A raw text export of unit
  statistics is read line by line. Every group of nine lines becomes one unit
  record.
  - The name and arm fields are disambiguated with the name pattern
    `^(.*) \((.*)\)$` and the 17-entry table of arm labels.
  - The combat field is split on `/` into attacks and range.
  - A notes value of `-` becomes empty.
- **Card generation** (`cwc_cartes/main.py`):
  - Each unit's images are rebased under the background folder.
  - Each image becomes one card, named
    `COUNTRY_Name_With_Underscores_<n>.png` in the `generated` subfolder.
  - A card is the background picture with four layers pasted over it: the
    country flag, the name box with the arm icon, the stat box (separators,
    icons and values in five bands), and the text box with the notes.
  - The pixel geometry of those layers is integer arithmetic, modelled exactly.

Files:

| file | module | what it holds |
|---|---|---|
| `wrappers.dfy` | `Wrappers` | `Option` and `Result` |
| `strings.dfy` | `Strings` | the Python `str` operations the program uses: `isspace`/`strip`, `lower`/`upper`, one-character `replace`, `in`, `split` on one character, `str` of a natural number |
| `paths.dfy` | `Paths` | pathlib paths as (absolute, components) and the `/` operator |
| `converter.dfy` | `Converter` | the extractor |
| `card_layout.dfy` | `CardLayout` | the overlay geometry and the three drawing routines |
| `cards.dfy` | `Cards` | the `Unit` class, output names, card making and writing |

How the model is built:

- **The extractor.** `Converter.Convert` is the extractor's loop, proved equal
  to the pure `Converter.ConvertSpec`, whose properties are proved as lemmas.
  - `ConvertSpec` is the records of every complete group of nine cleaned
    lines, or the first error.
  - The loop's state is also mirrored by the function `Converter.Run`. `Run`
    tests whether the buffer holds nine lines; the program tests
    `index % 9 == 0`. The two tests agree because the buffer is emptied at
    every such point.
- **Images.** An image is a `CardLayout.Image` object that records the marks
  drawn on it, in order:
  - boxes, lines, text with its anchor and font size;
  - icons pasted into a rectangle;
  - whole layers pasted at an offset.

  Each drawing routine is proved to draw exactly the marks its specification
  function lists. The geometry lemmas are about those functions.
- **Card generation.** `Cards.GenerateCard` is the per-image loop. It makes
  each card (`Cards.MakeCard`) and saves it to a `Cards.Disk`. It is proved to
  save exactly what `Cards.Generated` describes, and to stop with the same
  error.
- **Half pixels.** Text anchors sit at `.5` coordinates in the program (47.5,
  147.5). They are kept exact by giving them in half pixels
  (`CardLayout.HalfPoint`).

Three behaviours of the program that are easy to misread:

- **Combat fields with several `/`.** A combat field with two or more `/`
  cannot be unpacked into `attacks, range_`. That error ends the whole run, so
  such a field is not a harmless malformed value. See `cwc_cartes/converter.py:67-68`.
- **Stat box alignment.** The stat icons are centred at x = 62 and the values
  are centred (anchor `mm`) at x = 147.5. They are not left-aligned and
  right-aligned. See `cwc_cartes/main.py:197-237`.
- **Missing stat icons.** A missing stat icon is as fatal as a missing flag or
  arm icon: its file is opened without a check.

## Model

| member | source | states |
|---|---|---|
| Strings.StripLeftSpec | cwc_cartes/converter.py:51 | `lstrip` removes exactly a whitespace prefix, up to the first other character |
| Strings.StripRightSpec | cwc_cartes/converter.py:51 | `rstrip` removes exactly a whitespace suffix, back to the last other character |
| Strings.StripTrims | cwc_cartes/converter.py:51 | `strip()` yields the slice left when all surrounding whitespace, and nothing else, is removed |
| Strings.TrimIsUnique | cwc_cartes/converter.py:51 | there is only one such trim, so `strip()` is fully determined by it |
| Strings.TrimEmptyIff | cwc_cartes/converter.py:51 | a stripped line is empty exactly when the line is all whitespace |
| Strings.StripIdempotent | cwc_cartes/converter.py:51 | stripping twice is stripping once |
| Strings.StripKeepsOut | cwc_cartes/converter.py:51 | stripping adds no character, so a line without newlines stays without |
| Strings.Lower | cwc_cartes/converter.py:79 | `lower()` turns each upper-case letter into its lower-case letter and keeps every other character, so no upper-case letter is left |
| Strings.LowerIdempotent | cwc_cartes/converter.py:79 | lower-casing twice is lower-casing once |
| Strings.Upper | cwc_cartes/main.py:71 | `upper()` turns each lower-case letter into its upper-case letter and keeps every other character, so no lower-case letter is left |
| Strings.ReplaceChar | cwc_cartes/main.py:38 | `replace(a, b)` changes every `a` into `b` and nothing else, keeping the length |
| Strings.FirstIndexSpec | cwc_cartes/converter.py:63 | the split point of `split(",", 1)` is the first comma, and there is none exactly when there is no comma |
| Strings.SplitOnCount | cwc_cartes/converter.py:68 | `split("/")` gives one more part than there are `/` |
| Strings.SplitOnNoSeparator | cwc_cartes/converter.py:68 | no part of `split("/")` contains `/` |
| Strings.SplitOnJoin | cwc_cartes/converter.py:68 | joining the parts with `/` gives the field back |
| Strings.NatToString | cwc_cartes/main.py:305 | `str(n)` is a non-empty string of digits, one digit exactly below 10, with no leading zero |
| Strings.DecimalRoundTrip | cwc_cartes/main.py:305 | reading the digits of `str(n)` back gives `n` |
| Strings.NatToStringInjective | cwc_cartes/main.py:305 | different numbers have different decimal forms |
| Paths.JoinSpec | cwc_cartes/main.py:35 | `base / p` is `p` when `p` is absolute, otherwise `base`'s components followed by `p`'s, from which `p` can be recovered |
| Paths.JoinAssociative | cwc_cartes/main.py:301-303 | `(a / b) / c` is `a / (b / c)` |
| Paths.JoinHere | cwc_cartes/main.py:12 | the default folder `Path()` adds no component when joined |
| Converter.LookupSpec | cwc_cartes/converter.py:59-61 | a table lookup finds a value exactly for the table's keys, and the value it finds is paired with the key |
| Converter.LastSplitIsLast | cwc_cartes/converter.py:7 | no place after the chosen split point lets the pattern split the name |
| Converter.DecomposesAt | cwc_cartes/converter.py:7 | a name reads as `first (second)` exactly when the pattern can split it after `first`, with those two groups |
| Converter.MatchNameIsGreedyMatch | cwc_cartes/converter.py:56-58 | the pattern matches with groups `(first, second)` exactly when the name reads as `first (second)` and no reading has a longer `first` |
| Converter.MatchNameNone | cwc_cartes/converter.py:56-57 | the pattern fails exactly when the name cannot be read as `first (second)` |
| Converter.DisambiguateArmLabel | cwc_cartes/converter.py:56-61 | a listed label before the parentheses sets the arm from the table and keeps the full name |
| Converter.DisambiguateComma | cwc_cartes/converter.py:62-63 | otherwise a comma in the parentheses makes the arm the stripped text before the first comma and the name the stripped text after it |
| Converter.DisambiguateAnnotation | cwc_cartes/converter.py:64-65 | otherwise the name becomes the text in parentheses, unless the arm lower-cases to `command`, which leaves both unchanged |
| Converter.DisambiguateNoMatch | cwc_cartes/converter.py:56-57 | a name the pattern does not match leaves name and arm unchanged |
| Converter.ReassignNameAndArm | cwc_cartes/converter.py:56-65 | the step-by-step reassignment of `name` and `arm` ends in the disambiguated pair |
| Converter.SplitCombatSpec | cwc_cartes/converter.py:67-71 | the combat split succeeds exactly with at most one `/`. With none the range is `-`; with one, attacks and range are the slash-free text on either side; otherwise the error names the field |
| Converter.CleanLine | cwc_cartes/converter.py:51 | a cleaned line holds no newline |
| Converter.CleanLineTrims | cwc_cartes/converter.py:51 | a cleaned line is the line without newlines, with exactly its surrounding whitespace removed |
| Converter.RemoveNewlines | cwc_cartes/converter.py:51 | `replace("\n", "")` leaves no newline, and leaves a line without newlines as it is |
| Converter.RemoveNewlinesAppend | cwc_cartes/converter.py:51 | newlines are removed piece by piece, so every other character is kept, in order |
| Converter.MakeRecordFields | cwc_cartes/converter.py:54-88 | fields map by position: 1 name, 2 arm, 3 move, 4 combat, 5 hits, 6 save, 9 notes. The arm is lower-cased, notes `-` become empty, country and army are the caller's, flavour is empty and images are none. A group fails only on a combat field with two or more `/` |
| Converter.UnusedLinesIgnored | cwc_cartes/converter.py:54 | lines 7 and 8 of a group never influence its record |
| Converter.ConvertBlock | cwc_cartes/converter.py:54-88 | the loop body for a full buffer builds the group's record, or fails as it does |
| Converter.CollectErr | cwc_cartes/converter.py:50-89 | the run fails exactly when some group fails |
| Converter.CollectErrPrefix | cwc_cartes/converter.py:50-89 | the first failing group decides the error, whatever groups follow it |
| Converter.RecordsPerBlock | cwc_cartes/converter.py:50-74 | a successful run on N lines emits floor(N / 9) records, in order, the k-th made from lines 9k to 9k + 8 alone |
| Converter.RecordsFail | cwc_cartes/converter.py:67-68 | a run fails exactly when some complete group's combat field holds two or more `/` |
| Converter.TrailingLinesIgnored | cwc_cartes/converter.py:50-52 | a trailing group of fewer than nine lines neither adds a record nor makes the run fail |
| Converter.RecordArmsLowered | cwc_cartes/converter.py:79 | every emitted arm is already lower-case |
| Converter.RunIsRecords | cwc_cartes/converter.py:50-74 | the loop, run from its initial state, yields the records of the complete groups or the first error |
| Converter.Convert | cwc_cartes/converter.py:43-89 | a missing path, or one that is not a regular file (a directory, a fifo, a device), fails before any line is read; otherwise the run gives the records of the complete groups or the first error |
| CardLayout.DrawNameBox | cwc_cartes/main.py:89-146 | draws, on a fresh 1050 x 750 image, the box, the name and the arm icon. A missing arm icon is the error |
| CardLayout.NameBoxFails | cwc_cartes/main.py:122-124 | the icon lookup fails exactly when there is no file named after the lower-cased arm, and the error names the arm |
| CardLayout.NameBoxGeometry | cwc_cartes/main.py:81-142 | the name is 45 high and vertically centred in the box 200,20 to 860,75. The icon ends at (855, 70), keeps its size, and lies inside the box exactly when at most 655 wide and 50 tall |
| CardLayout.DrawStatBox | cwc_cartes/main.py:158-238 | draws, on a fresh card-sized image, the box, the separators, the icons and the values. A missing stat icon is the error |
| CardLayout.DrawSeparators | cwc_cartes/main.py:180-194 | the separator loop draws the four lines for k = 1 to 4, in order |
| CardLayout.DrawStatIcons | cwc_cartes/main.py:197-217 | the icon loop pastes the five icons in order, or stops at the first missing one |
| CardLayout.DrawStatValues | cwc_cartes/main.py:225-237 | the value loop writes the five values in order, each at its band's centre |
| CardLayout.StatIconsFound | cwc_cartes/main.py:197-205 | the icons can all be drawn exactly when all five icon files are there |
| CardLayout.StatIconsMarks | cwc_cartes/main.py:197-217 | the drawn icons are those of move, attacks, range, hits and save, in order, each pasted in its own band |
| CardLayout.StatIconsMissing | cwc_cartes/main.py:204-205 | a failed drawing names the first stat whose icon file is missing |
| CardLayout.StatBoxGeometry | cwc_cartes/main.py:149-232 | the band split of 420 / 10 is exact. The separators lie at 189, 273, 357 and 441, increasing and strictly inside 100 to 530. Each band centre lies strictly between the separators or inner edges (105, 525) around it. Icons are at x = 62 and values at three quarters of the box's width |
| CardLayout.StatIconInBand | cwc_cartes/main.py:198-217 | a stat icon keeps its size and is centred on (62, band centre) to within half a pixel. It lies within its 84-pixel band exactly when at most 85 wide and 84 tall |
| CardLayout.DrawTextBox | cwc_cartes/main.py:249-276 | draws, on a fresh card-sized image, the text box and the notes anchored at (30, 610) |
| CardLayout.TextBoxIgnoresFlavour | cwc_cartes/main.py:249-276 | the flavour text is never drawn, and the notes start 10 pixels inside the box's corner |
| CardLayout.OverlaysFitCanvas | cwc_cartes/main.py:41-286 | the name, stat and text boxes and the 64 x 64 flag at (964, 14) each lie on the 1050 x 750 card, and no two of them meet |
| Cards.Unit.constructor | cwc_cartes/main.py:16-35 | a unit keeps its deserialised fields and holds its images rebased under the background folder |
| Cards.RebasedSpec | cwc_cartes/main.py:34-35 | rebasing keeps the number and order of images. A relative image ends up under the folder, with its own components after the folder's; an absolute one is kept |
| Cards.Unit.CamelcaseName | cwc_cartes/main.py:37-38 | every space becomes `_` and nothing else changes, so the result has the name's length and no space |
| Cards.CamelcaseRoundTrip | cwc_cartes/main.py:37-38 | a name without underscores can be recovered from its camel-case form |
| Cards.OutputNamesDistinct | cwc_cartes/main.py:304-308 | two cards of one unit with the same file name have the same number |
| Cards.CardPathsDistinct | cwc_cartes/main.py:299-309 | each card goes to `<folder>/generated/<COUNTRY>_<camel name>_<n>.png`, and two numbers give the same path exactly when they are equal |
| Cards.CardMarksSpec | cwc_cartes/main.py:281-297 | a card can be made exactly when its background, flag, arm icon and five stat icons are all there. It is, bottom to top: the fitted background, unmasked; the flag at (964, 14); then the name box, stat box and text box overlays at (0, 0). Otherwise the error is the first missing file in the order background, flag, arm icon, stat icons (move, attacks, range, hits, save) |
| Cards.SaveAllStops | cwc_cartes/main.py:280-311 | saving keeps earlier files and adds one per card up to the first that cannot be made; that card's error is the outcome |
| Cards.SaveAllCards | cwc_cartes/main.py:280-311 | each file added holds its card under that card's own path |
| Cards.CardsWritten | cwc_cartes/main.py:280-311 | a run writes a prefix of the unit's cards, card `j` to the path numbered `j + 1` |
| Cards.CardsComplete | cwc_cartes/main.py:280-297 | a run writes every card exactly when every image has all the files its card needs; otherwise it stops at the first image lacking one, with that image's error |
| Cards.CardsHaveDistinctPaths | cwc_cartes/main.py:299-309 | no two cards written for a unit share a path |
| Cards.MissingFlagWritesNothing | cwc_cartes/main.py:70-73 | without a flag file for the upper-cased country, no card of the unit is written. The error is the flag's, or the first background's if that is missing |
| Cards.MissingUnitIconWritesNothing | cwc_cartes/main.py:122-124 | without an icon file for the lower-cased arm, no card of the unit is written. With the first background and the flag there, the error names the arm |
| Cards.NoImagesNoCards | cwc_cartes/main.py:280 | a unit without images gets no card and no error, whatever files are missing |
| Cards.MakeCard | cwc_cartes/main.py:281-297 | makes the five layers in turn and pastes them, in order, on a fresh 1050 x 750 card. The first layer that cannot be made is the error |
| Cards.GenerateCard | cwc_cartes/main.py:279-311 | writes exactly the files the specification lists, in order, and returns its error |

## Left out

- **Pixels.** Opening, fitting, resizing, cropping and scaling images,
  alpha compositing, colours, the font file and text rendering are left out.
  These are Pillow's work. An image is the list of marks drawn on it.
- **Icon sizes.** The size of each icon after cropping and scaling is a
  floating-point computation by Pillow, so it is given with the assets
  (`Cards.Assets`). The paste rectangles computed from it are modelled exactly.
- **Plumbing.** Command-line parsing, logging, the JSON read and write in both
  entry points, apischema deserialisation and `mkdir` are left out.
  - The extractor receives the file as an `Entry`: missing, not a regular file, or a
    regular file given by its lines.
  - The card generator receives its asset files as `Cards.Assets` and writes
    to a `Cards.Disk`.
  - The loop over all units in `main()` is not modelled; it calls
    `generate_card` once per unit.
- **Line splitting.** How `readlines()` splits the file is taken as given: the
  model starts from the list of lines. Decoding is also taken as given.
- **Strings.** `lower()` and `upper()` are modelled on ASCII letters only. The
  full Unicode case mapping (for example `ß` upper-casing to `SS`) is left out.
  `isspace()` follows Python's full whitespace list.
- **Path parsing.** Paths are modelled once parsed, as components.
  - A unit name containing `/` would make pathlib read the output file name as
    a subfolder; the model keeps the file name as one component.
  - An image entry's text is not parsed either; entries are given as paths.
- **Floating-point values.** `CARD_RATIO` and the float scale factors are left
  out. The remaining float coordinates (105.0 + 84k, 147.5, 47.5) are exact
  halves or integers, and are modelled exactly.
- **Converter.MatchName**: requires a name without newlines. The pattern's `.`
  does not match a newline, and the extractor only applies the pattern to
  cleaned lines, which contain none.
- **Other files.** The draft `main.py` at the repository root and `setup.py`
  are not part of this model.
