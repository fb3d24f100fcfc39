# cartomancer, modelled in Dafny

cartomancer is a command-line tool for tarot decks. A deck is a directory that holds:

- `deck.toml` with the deck's metadata and its card-back variants;
- image directories with the card pictures: `scalable/` and raster directories named `h<height>/`, each with `major_arcana/00..21.<ext>` and `minor_arcana/<suit>/<rank>.<ext>`;
- `card_backs/`;
- `names/<language>.toml` with card names and alternative texts;
- `ansi*/` directories of pre-rendered terminal art.

This project models three parts of the tool and proves properties of them.

- **Card display** (`cmd/show.go`, module `Show` in `show.dfy`).
  - How a card ID becomes a file path.
  - How an image becomes half-block terminal art: one `▀` cell per 2×2 pixel block, the top pixels giving the foreground colour and the bottom ones the background.
  - How ANSI escape sequences are stripped to measure a line.
  - How the alternative text is word-wrapped greedily.
  - How the art and the card information are laid out side by side.
- **Card tables** (`internal/deck/deck.go`, module `Decks` in `deck.dfy`, class `Decks.Deck`).
  - Building the 22 major and 4 × 14 minor cards.
  - Choosing and overlaying a language file, then filling in default names.
  - Looking a card up by its dotted ID.
- **The deck validator** (`internal/validator/validator.go`, module `Validation` in `validator.dfy`, class `Validation.Validator`).
  - Each check appends errors and warnings to the validator's results.
  - Each check method is proved to append exactly a specification function's issues: `results == old(results).Then(...)`.
  - Lemmas state what those issues are, rule by rule.

Supporting modules:

- `Results` (`results.dfy`): Option and Result.
- `Strings` (`strings.dfy`): the Go string functions the core uses, which are `strings.Fields`, `strings.Split`, `len` as UTF-8 bytes, `%d`, `%02d` and `strings.Title`.
- `Files` (`files.dfy`): a file-system snapshot that answers `os.Stat` and `os.ReadDir`, plus `filepath.Join` and `filepath.Ext`.
- `Cards` (`cards.dfy`): the card record of `internal/card/card.go`.

Inputs the program gets from outside are parameters of the model:

- the file system, as a `Files.FileSystem` value;
- decoded TOML files, as a map from path to the decoded record (a path missing from the map failed to decode);
- the terminal width reported by `term.GetSize`;
- the resized image, as a pixel function with bounds;
- the colour blend of two pixels;
- the `colorize` styling functions.

Two behaviours of the code are worth knowing before reading the model:

- **Line widths.** `displayCard` measures a line with Go's `len`, which counts UTF-8 bytes, although its comment calls this the visible width (`cmd/show.go:467-468`, `cmd/show.go:537-544`). A `▀` cell therefore counts as 3, and the model's `Show.VisibleWidth` counts bytes in the same way. The blank art column printed below the art is accordingly `3n + 4` spaces wide for art `n` cells wide.
- **Narrow wrap widths.** `wrapText` replaces any width below 10 with 40 before wrapping (`cmd/show.go:426-428`), and `Show.WrapWidth` does the same.

## Model

| member | source | states |
|---|---|---|
| Strings.Fields | cmd/show.go:432 | `strings.Fields`: each field is a non-empty run of non-whitespace characters |
| Strings.FieldsEmpty | cmd/show.go:432-436 | a text has no fields exactly when it is all whitespace; this is when wrapText returns `[""]` |
| Strings.Split | internal/deck/deck.go:248-250 | `strings.Split` gives at least one piece, and no piece contains the separator |
| Strings.JoinSplit | internal/deck/deck.go:248-250 | joining the pieces of a split with the separator gives back the original string |
| Strings.SplitJoin | internal/deck/deck.go:248-250 | splitting a join of separator-free pieces gives back the pieces |
| Strings.ZeroPad2 | internal/deck/deck.go:69 | `%02d` gives at least two characters, all digits |
| Strings.ZeroPad2Injective | internal/deck/deck.go:68-70 | distinct numbers below 100 get distinct two-digit keys, so the 22 major keys are all different |
| Strings.Decimal | cmd/show.go:383-384 | `%d` of a natural number is a non-empty run of digits |
| Strings.DecimalValue | cmd/show.go:383-384 | the digits written by `%d` read back as the number |
| Strings.Utf8LengthConcat | cmd/show.go:443 | Go's `len` of a concatenation is the sum of the parts' lengths |
| Strings.Utf8LengthAtLeastCount | cmd/show.go:468 | Go's `len` is never below the number of characters |
| Files.Ext | internal/deck/deck.go:126 | `filepath.Ext` is a suffix of the name; it is empty or starts with its only '.' and contains no '/' |
| Files.ExtToml | internal/deck/deck.go:126 | `filepath.Ext(name) == ".toml"` holds exactly when the name ends in ".toml", so deck.go's test and the validator's `HasSuffix` test accept the same files |
| Show.Max | cmd/show.go:576-581 | the result is one of the two arguments and is at least both |
| Show.Contains | cmd/show.go:262-269 | true exactly when the item occurs in the slice |
| Show.BuildCardPath | cmd/show.go:182-198 | a path exactly for the major/2, minor/3 and custom/3-or-4 part shapes; the path lies under the base directory and ends in the last part plus the extension; otherwise an error carrying the ID re-joined with dots |
| Show.MajorCardPath | cmd/show.go:183-185 | the ID `major_arcana.<n>` maps to `<base>/major_arcana/<n><ext>` |
| Show.MinorCardPath | cmd/show.go:186-188 | the ID `minor_arcana.<s>.<r>` maps to `<base>/minor_arcana/<s>/<r><ext>` |
| Show.WrapWidth | cmd/show.go:426-428 | the width actually wrapped to is never below 10 |
| Show.WrapText | cmd/show.go:424-459 | the lines hold exactly the words of the text in order, separated by single spaces; a text without words gives `[""]`; a line over the width holds one word; each line's first word would not have fitted on the line before |
| Show.WrapWords | cmd/show.go:438-456 | the word loop and last-line flush produce lines whose words are the input words and that fit and are greedy |
| Show.PlaceWord | cmd/show.go:439-450 | one iteration (first word, append with a space, or line break) keeps the wrapping invariant for one more word |
| Show.NoWords | cmd/show.go:434-436 | a text without words is wrapped as the single empty line |
| Show.LongLineIsOneWord | cmd/show.go:443-449 | a wrapped line longer than the width contains no space |
| Show.StripAnsi | cmd/show.go:558-573 | the loop's output is the text left after dropping every `ESC ... m` run |
| Show.NoEscapeKept | cmd/show.go:566-567 | stripped text contains no ESC |
| Show.PlainTextKept | cmd/show.go:568-570 | ESC-free text is left unchanged, and the scanner ends outside an escape |
| Show.StripAnsiIdempotent | cmd/show.go:558-573 | stripping twice is the same as stripping once |
| Show.KeptFromConcat | cmd/show.go:561-571 | the scan of a concatenation is the scan of the first part followed by the scan of the second, started in the state the first part left |
| Show.VisibleTextOfSegments | cmd/show.go:561-571 | for text made of plain pieces and `ESC ... m` runs, stripping keeps exactly the plain pieces in order |
| Show.EscapeRunDropped | cmd/show.go:562-567 | one `ESC params m` run strips to nothing and leaves the scanner outside an escape |
| Show.GetColorAt | cmd/show.go:342-348 | the pixel inside the bounds, opaque black `{0,0,0,255}` outside |
| Show.Channel | cmd/show.go:375-380 | widening a byte to 16 bits with `RGBA()` and shifting right by 8 gives back the byte |
| Show.ColorParams | cmd/show.go:383-384 | a colour sequence's parameters use only digits, '[' and ';', so they hold no 'm' that would end the escape early |
| Show.ColorParamsFields | cmd/show.go:383-384 | the parameters split on ';' into the code, "2" and the three channels in decimal |
| Show.ColorReadBack | cmd/show.go:379-384 | the three decimal fields of a colour sequence read back as the colour's channels |
| Show.CellIsSegments | cmd/show.go:382-385 | a coloured cell is a foreground run, a background run, the character and a reset run |
| Show.AnsiColorString | cmd/show.go:373-389 | with colours, the character between a foreground escape and a reset; without, the character alone; `Show.CellVisible` and `Show.ColorReadBack` state what it shows and which channels it encodes |
| Show.CellVisible | cmd/show.go:373-389 | in both colour modes, stripping a cell leaves exactly its character and closes every escape |
| Show.CellFacts | cmd/show.go:311-333 | the cell of a 2×2 block holds no newline and strips to the single `▀` |
| Show.EvenStepsCount | cmd/show.go:309-310 | a grid loop stepping by 2 from 0 below `2n` visits `Count(n)` values: n for positive n and none otherwise |
| Show.ImageToAnsi | cmd/show.go:305-338 | the grid loop writes, row by row, the cells of every 2×2 block followed by a newline per row |
| Show.WriteRow | cmd/show.go:310-334 | the inner loop appends exactly one text row of `width` cells to the buffer |
| Show.ArtTextSnoc | cmd/show.go:309-336 | one more outer iteration appends the next cell row and a newline |
| Show.ArtRows | cmd/show.go:309-336 | the art has as many text rows as outer iterations |
| Show.ArtLines | cmd/show.go:309-336 | splitting the art on newlines gives exactly `height` rows and a trailing empty line, row i being the cells of pixel rows 2i and 2i+1 |
| Show.ArtTextJoin | cmd/show.go:309-336 | the art is its rows joined by newlines with a final newline |
| Show.CellRowHasNoNewline | cmd/show.go:310-334 | a text row holds no newline |
| Show.CellRowVisible | cmd/show.go:310-334 | a text row of n cells strips to n half blocks |
| Show.RowIsLocal | cmd/show.go:310-315 | a text row depends only on the two pixel rows it covers, within the first 2n columns |
| Show.ArtIsLocal | cmd/show.go:309-315 | the art depends only on the pixels of the `2·width × 2·height` box |
| Show.WidestLineFits | cmd/show.go:465-472 | every art line's measured width is at most the widest, so no padding count is negative |
| Show.WidestLineAttained | cmd/show.go:465-472 | the widest width is 0 or the width of some art line |
| Show.MaxAnsiWidth | cmd/show.go:465-472 | the loop computes the widest measured art line |
| Show.TerminalWidth | cmd/show.go:475-478 | the reported width when positive, 80 on an error or a width of 0 or less |
| Show.InfoWidth | cmd/show.go:510-517 | `max(20, termWidth − (maxAnsiWidth + 4) − 2)`: never below 20, and exactly the remaining width when that is 20 or more |
| Show.InfoHeader | cmd/show.go:480-506 | the card, deck and ID lines come first, followed by 1 type line for a major card or type, suit and rank lines otherwise |
| Show.InfoLines | cmd/show.go:519-526 | the header, plus a blank line, the label and the wrapped lines when the card has alt text |
| Show.InfoColumn | cmd/show.go:510-511 | `infoStartCol` leaves room for every art line |
| Show.Rows | cmd/show.go:532-552 | there is one printed row per loop iteration |
| Show.DisplayCard | cmd/show.go:462-555 | the output is an empty line, `max(#art, #info)` rows and an empty line; the description is the alt text wrapped to the info width computed from the widest art line and the terminal |
| Show.BuildInfoLines | cmd/show.go:480-526 | the information lines, with the alt text wrapped to `infoWidth` |
| Show.PrintRows | cmd/show.go:532-552 | the row loop produces the rows at `infoStartCol = maxAnsiWidth + 4` |
| Show.PrintRow | cmd/show.go:534-551 | one row is the left padding, then the padded art line or blanks, then the info line if any |
| Show.ArtColumnWidth | cmd/show.go:537-544 | the art part of every row whose art line leaves no escape sequence open has measured width exactly `infoStartCol` |
| Show.RowParts | cmd/show.go:534-549 | row i starts with two spaces and art line i, and ends with info line i when there is one |
| Show.RowsIndex | cmd/show.go:532-552 | printed row i is the row the loop body prints at i |
| Decks.MajorNumberPadded | internal/deck/deck.go:68-70 | major card i gets the key `%02d` of i, "00" to "21" |
| Decks.NoDotInSuits | internal/deck/deck.go:82 | suit names are non-empty and contain no '.' |
| Decks.MajorTableBuilt | internal/deck/deck.go:68-79 | after the major loop the keys are exactly "00".."21", and each card has ID `major_arcana.<key>`, type major and number `key` |
| Decks.MinorTableBuilt | internal/deck/deck.go:81-103 | after the minor loops the keys are exactly the 4 suits and, in each, the 14 ranks; each card has ID `minor_arcana.<suit>.<rank>`, type minor, and that suit and rank |
| Decks.DefaultMajorName | internal/deck/deck.go:253-284 | never empty; "Major Arcana " + number for a number outside the table |
| Decks.MajorNamesCover | internal/deck/deck.go:254-281 | the default-name table has exactly the keys "00".."21", and its name is the one used for them |
| Decks.Capitalize | internal/deck/deck.go:289 | the first letter is upper-cased and the rest is kept |
| Decks.DefaultMinorName | internal/deck/deck.go:287-301 | the name has the length of `<rank> of <suit>` |
| Decks.DefaultMinorNameOfWords | internal/deck/deck.go:287-301 | for one-word ranks and suits, the name is the capitalised rank, " of ", and the capitalised suit |
| Decks.WithField | internal/deck/deck.go:145 | setting a name or alt text leaves the card's ID, type, number, suit and rank alone |
| Decks.Overlay | internal/deck/deck.go:143-147 | overlaying a language table adds and removes no card |
| Decks.OverlaySuits | internal/deck/deck.go:159-167 | overlaying a minor table adds and removes no suit |
| Decks.OverlaySets | internal/deck/deck.go:143-155 | a key of both the card table and the language table gets the language value; a card without a language entry is unchanged; unknown keys are ignored |
| Decks.LanguageKeepsMajorShape | internal/deck/deck.go:142-156 | the language file's major names and alt texts keep the built major table's keys and card identities |
| Decks.LanguageKeepsMinorShape | internal/deck/deck.go:158-180 | the language file's minor names and alt texts keep the built suits, ranks and card identities |
| Decks.DefaultNamesMajor | internal/deck/deck.go:203-205 | the default-name loop keeps the major keys |
| Decks.DefaultNamesMinor | internal/deck/deck.go:208-212 | the default-name loop keeps the suits |
| Decks.DefaultNamesNameAll | internal/deck/deck.go:201-213 | after setDefaultNames every card of built tables has a non-empty name and the tables keep their shape |
| Decks.FillMajor | internal/deck/deck.go:183-187 | the fill-in loop keeps the major keys |
| Decks.FillMinor | internal/deck/deck.go:189-195 | the fill-in loop keeps the suits |
| Decks.FillNamesAll | internal/deck/deck.go:182-195 | after the fill-in loops every card has a name, the shape is kept, and a card that already had a name is unchanged |
| Decks.LoadedTables | internal/deck/deck.go:66-198 | whatever the language file, the loaded tables have the built shape and every card has a name |
| Decks.FirstTomlIndex | internal/deck/deck.go:125-130 | the first directory entry that is a non-directory with extension ".toml", and no earlier one is |
| Decks.LanguageFile | internal/deck/deck.go:106-132 | the chosen language file is inside `<deck>/names/` |
| Decks.EnFallbackFails | internal/deck/deck.go:114-136 | when names/ lists entries but no .toml file and en.toml is absent, the chosen file is the absent en.toml, which cannot have decoded, so loading fails |
| Decks.SplitCardId | internal/deck/deck.go:248-250 | the parts contain no '.' and join back to the ID |
| Decks.MinorIdSplits | internal/deck/deck.go:92 | a minor card's ID splits into "minor_arcana", its suit and its rank |
| Decks.Deck.constructor | internal/deck/deck.go:45-55 | a new deck has the deck.toml metadata and empty card tables |
| Decks.Deck.GetCard | internal/deck/deck.go:216-243 | a card exactly when the ID has the major or minor shape and its number, or its suit and rank, are in the tables, and then the card stored there; "invalid card ID format" exactly for IDs of neither shape; "suit not found" exactly for a 3-part minor ID with an unknown suit; every other error carries the ID |
| Decks.Deck.GetCardFindsMajor | internal/deck/deck.go:222-228 | every major card of a loaded deck is found under its own ID |
| Decks.Deck.GetCardFindsMinor | internal/deck/deck.go:229-239 | every minor card of a loaded deck is found under its own ID |
| Decks.Deck.GetCardSound | internal/deck/deck.go:216-243 | a card GetCard returns from a loaded deck has the ID asked for |
| Decks.Deck.BuildTables | internal/deck/deck.go:67-103 | the build loops add the full major and minor tables |
| Decks.Deck.BuildMajor | internal/deck/deck.go:68-79 | the major loop adds the cards "00".."21" and leaves the minor table alone |
| Decks.Deck.BuildSuit | internal/deck/deck.go:89-102 | one suit iteration stores that suit's 14 cards and leaves the major table alone |
| Decks.Deck.WithRank | internal/deck/deck.go:91-101 | one rank iteration adds that rank's card to the suit table |
| Decks.Deck.LoadCardInfo | internal/deck/deck.go:66-198 | every card is built and named; an error is returned exactly when a language file was chosen and failed to decode; the tables are the language overlay plus fill-in names when it decoded, and the default names otherwise; when names/ has entries but neither en.toml nor another .toml file, the error names en.toml |
| Decks.Deck.ChooseLanguageFile | internal/deck/deck.go:106-132 | the language file is chosen as the spec function says: none without `names/`, `en.toml` when it may exist, otherwise the first ".toml" entry, none for an unreadable or empty listing |
| Decks.Deck.FirstTomlFile | internal/deck/deck.go:125-130 | the loop picks the first ".toml" file of the listing, or keeps the fallback |
| Decks.Deck.ApplyLanguage | internal/deck/deck.go:141-180 | the names are overlaid first, then the alt texts (only when there is a names table), for the major and the minor arcana |
| Decks.Deck.OverlayCards | internal/deck/deck.go:143-147 | the map loop, in any key order, gives the overlay |
| Decks.Deck.OverlayMinor | internal/deck/deck.go:159-167 | the nested map loop, in any order, gives the overlay of each known suit |
| Decks.Deck.SetDefaultNames | internal/deck/deck.go:201-213 | every card gets its default name |
| Decks.Deck.DefaultNameMajors | internal/deck/deck.go:203-205 | the major loop, in any order, gives every card its default name |
| Decks.Deck.DefaultNameSuits | internal/deck/deck.go:208-212 | the suit loop, in any order, gives every minor card its default name |
| Decks.Deck.DefaultNameSuit | internal/deck/deck.go:209-211 | the rank loop of one suit, in any order |
| Decks.Deck.FillMissingNames | internal/deck/deck.go:182-195 | cards with empty names get defaults and the others are unchanged |
| Decks.Deck.FillMajorNames | internal/deck/deck.go:183-187 | the major fill-in loop, in any order |
| Decks.Deck.FillSuitsNames | internal/deck/deck.go:189-195 | the minor fill-in loop, in any order |
| Decks.Deck.FillSuitNames | internal/deck/deck.go:190-194 | the fill-in loop of one suit, in any order |
| Validation.DeckTomlError | internal/validator/validator.go:44-53 | Validate stops with an error exactly when deck.toml does not exist or does not decode; a missing file is reported as "not found in <deck>" |
| Validation.FieldRequiredSpec | internal/validator/validator.go:55-68 | a "required" error for id, name, version or schema_version exactly when that field is empty |
| Validation.SchemaVersionSpec | internal/validator/validator.go:67-72 | "unsupported schema_version" exactly when it is non-empty and not "1.0"; no other kind of field error exists |
| Validation.DefaultBackRule | internal/validator/validator.go:75-79 | "card_backs.default is required" exactly when there is a card-backs section with more than one variant and an empty default |
| Validation.VariantErrorsSpec | internal/validator/validator.go:81-92 | "image is required" for a variant exactly when its image is empty; "image not found" for an image exactly when some variant names it, it is non-empty and it does not exist |
| Validation.VariantErrorsOrderFree | internal/validator/validator.go:81-92 | the variant errors are the same multiset whatever order the map loop takes |
| Validation.ScansHeight | internal/validator/validator.go:119 | `Sscanf(name, "h%d")` succeeds only on a name that starts with "h" and has more after it; the lemmas below give the accepted and rejected cases |
| Validation.HeightNameScans | internal/validator/validator.go:118-119 | "h" followed by the canonical decimal of n (no sign, blanks or leading zeros), with any trailing non-digit text, is a raster directory name when n fits in int64 |
| Validation.HeightTooLarge | internal/validator/validator.go:119 | `h<n>` with n beyond int64 does not scan |
| Validation.WordNameDoesNotScan | internal/validator/validator.go:119 | `h` followed by a letter, as in "hidden", does not scan |
| Validation.ScansHeightHasPrefix | internal/validator/validator.go:118-119 | a name that scans as `h%d` starts with "h" |
| Validation.HasImageDirSpec | internal/validator/validator.go:105-125 | the structure check finds an image directory exactly when the image-directory list of the card checks is non-empty |
| Validation.StructureIssuesSpec | internal/validator/validator.go:127-130 | the one structure error, "no image directories", is raised exactly when there is no image directory |
| Validation.CardBacksWarnedOnce | internal/validator/validator.go:99-103 | a missing `card_backs/` gives one warning and no card-back error |
| Validation.MissingImagesSpec | internal/validator/validator.go:188-206 | a card is listed missing exactly when it has no file with any of the five extensions; the list is empty exactly when all are present |
| Validation.HasSubdirSpec | internal/validator/validator.go:180-187 | the found flag is false exactly when no image directory has the subdirectory |
| Validation.MajorCardsReported | internal/validator/validator.go:179-212 | "missing major arcana cards in D" is reported exactly for image directories with `major_arcana/` and a non-empty missing list, with that list |
| Validation.MajorDirNotFoundSpec | internal/validator/validator.go:214-216 | "major_arcana directory not found" exactly when no image directory has one |
| Validation.SuitErrorsSpec | internal/validator/validator.go:256-287 | a missing suit directory gives its error; a present one gives the missing-cards error exactly when its missing list is non-empty |
| Validation.MinorDirNotFoundSpec | internal/validator/validator.go:290-292 | "minor_arcana directory not found" exactly when no image directory has one |
| Validation.GetSuit | internal/validator/validator.go:552-565 | the suit's section for one of the four suits, nothing otherwise |
| Validation.AnyAltTextSpec | internal/validator/validator.go:341-355 | a language file has alt text exactly when its major section or one of its four suit sections has an alt-text table |
| Validation.NamesIssuesSpec | internal/validator/validator.go:302-313 | an empty `names/` gives exactly one error; "no valid language files" exactly when there are entries and none is a decodable ".toml" file |
| Validation.LanguageParseErrorSpec | internal/validator/validator.go:317-325 | a ".toml" file of `names/` gets a parse error exactly when it does not decode |
| Validation.MissingAnsiSpec | internal/validator/validator.go:402-409 | an ANSI card is listed missing exactly when its `.ansi` file does not exist |
| Validation.AnsiIssuesOnlyWarn | internal/validator/validator.go:369-455 | the ANSI checks raise only warnings, except the one error for an unreadable deck directory, which comes with no warnings |
| Validation.FindImage | internal/validator/validator.go:192-201 | the extension loop finds a file exactly when one of the five extensions exists |
| Validation.MissingMajorFiles | internal/validator/validator.go:189-206 | the card loop lists the missing major numbers in ascending order |
| Validation.MissingRankFiles | internal/validator/validator.go:265-281 | the rank loop lists the missing ranks in their fixed order |
| Validation.MissingAnsiMajorFiles | internal/validator/validator.go:402-409 | the ANSI major loop lists the numbers without an `.ansi` file |
| Validation.MissingAnsiRankFiles | internal/validator/validator.go:440-446 | the ANSI rank loop lists the ranks without an `.ansi` file |
| Validation.HasAltText | internal/validator/validator.go:342-355 | the flag and the suit loop decide the alt-text test |
| Validation.Validator.constructor | internal/validator/validator.go:22-27 | a new validator has the deck path and empty results |
| Validation.Validator.Validate | internal/validator/validator.go:29-42 | the error is the deck.toml error and nothing else is checked then; otherwise every check's issues are appended in order; earlier results are never changed or removed; only files that exist can have decoded |
| Validation.Validator.ValidateDeckToml | internal/validator/validator.go:44-95 | the field and card-back errors are appended only when deck.toml exists and decodes |
| Validation.Validator.CheckDeckFields | internal/validator/validator.go:55-72 | the field errors are appended |
| Validation.Validator.CheckCardBacks | internal/validator/validator.go:75-93 | the default rule, then each variant's errors, are appended |
| Validation.Validator.CheckVariants | internal/validator/validator.go:81-92 | the variant loop appends each variant's errors in some order of the names |
| Validation.Validator.ValidateDirectoryStructure | internal/validator/validator.go:98-137 | the card_backs warning, the image-directory error and the names warning are appended |
| Validation.Validator.ValidateCardBacks | internal/validator/validator.go:140-157 | a read error or "no card backs" is appended, and nothing when `card_backs/` is missing |
| Validation.Validator.FindImageDirs | internal/validator/validator.go:161-177 | `scalable/` if it exists, then the raster directories in listing order |
| Validation.Validator.AppendRasterDirs | internal/validator/validator.go:168-177 | the listing loop appends the raster directories in order |
| Validation.Validator.ValidateMajorArcana | internal/validator/validator.go:160-217 | the major-arcana errors of all image directories are appended |
| Validation.Validator.CheckMajorDirs | internal/validator/validator.go:179-212 | the directory loop appends each directory's errors and reports whether any had `major_arcana/` |
| Validation.Validator.CheckMajorDir | internal/validator/validator.go:181-211 | one directory: skipped without `major_arcana/`, otherwise its missing-cards error if any |
| Validation.Validator.ValidateMinorArcana | internal/validator/validator.go:220-293 | the minor-arcana errors of all image directories are appended |
| Validation.Validator.CheckMinorDirs | internal/validator/validator.go:239-288 | the directory loop appends each directory's errors and reports whether any had `minor_arcana/` |
| Validation.Validator.CheckMinorDir | internal/validator/validator.go:241-287 | one directory: skipped without `minor_arcana/`, otherwise its suit errors |
| Validation.Validator.CheckSuits | internal/validator/validator.go:256-287 | the suit loop appends each suit's errors in suit order |
| Validation.Validator.ValidateNames | internal/validator/validator.go:296-367 | the names-directory errors and warnings are appended |
| Validation.Validator.CheckLanguageFiles | internal/validator/validator.go:316-362 | the entry loop appends each entry's errors and warnings and reports whether any language file decoded |
| Validation.Validator.CheckLanguageFile | internal/validator/validator.go:318-361 | one entry: a parse error, or the missing-section and missing-alt-text warnings |
| Validation.Validator.ValidateAnsiArt | internal/validator/validator.go:369-391 | the ANSI issues are appended |
| Validation.Validator.CheckAnsiDirs | internal/validator/validator.go:378-385 | the entry loop appends the warnings of every `ansi*` directory and reports whether there was one |
| Validation.Validator.CheckAnsiEntry | internal/validator/validator.go:380-384 | one entry is checked when it is an `ansi*` directory |
| Validation.Validator.ValidateAnsiDirectory | internal/validator/validator.go:394-455 | the major then the minor ANSI warnings are appended |
| Validation.Validator.CheckAnsiMajor | internal/validator/validator.go:396-416 | a missing `major_arcana/` warning, or the missing-cards warning if any |
| Validation.Validator.CheckAnsiMinor | internal/validator/validator.go:418-454 | a missing `minor_arcana/` warning, or each suit's warnings |
| Validation.Validator.CheckAnsiSuits | internal/validator/validator.go:431-453 | the suit loop appends each suit's warnings in suit order |

## Left out

- Image decoding and resizing (`resize.Resize`, Lanczos3) are not modelled. The resized image is a parameter.
- The float colour arithmetic (`colorful.MakeColor`, `averageColor`, `colorfulToColor`) is not modelled. Blending two pixels is a parameter of `Show.ImageToAnsi`.
- The card-image search, the md5-named ANSI cache, and reading or writing `.ansi` files are file I/O and are not modelled.
- `getArcanaSymbol`, `getSuitSymbol` and the `colorize` wrappers are opaque functions in `Show.Styling`.
  - The source passes the deck name, card ID and rank to `HiWhiteString` as format strings. The model does not interpret `%` in them.
- `term.GetSize` becomes the `termProbe` parameter of `Show.DisplayCard`.
- Printing becomes the returned list of lines.
- TOML decoding is not modelled. Decoded records are parameters: a map from path to record, where a missing path is a decode failure.
  - The validator's DeckConfig keeps only the fields it checks.
  - Its name sections keep only the alt-text tables. The source does not decode the names tables there (`toml:"-"`).
- `os.Stat` and `os.ReadDir` read a `Files.FileSystem` snapshot.
  - Error messages wrapped with `%v` become `Issue` or `LoadError` constructors without the wrapped error text.
- `filepath.Join` is modelled as joining with "/". Path cleaning (`filepath.Clean`) is not modelled.
- `fmt.Sscanf` is modelled only for the format `h%d`.
- Go's map iteration order is unspecified.
  - The map loops are proved for every order in `Decks.Deck`, since the key order does not change the result there.
  - The card-back variant loop of `Validation.Validator.CheckVariants` returns the order it took as a ghost value. The errors are stated for that order and proved the same multiset for any order.
- Strings are sequences of Unicode scalar values. Invalid UTF-8 in an `.ansi` file or a description is not modelled: Go's `range` reads each bad byte as U+FFFD, which `len` and `WriteRune` then count as 3 bytes.
- Cards are values in the deck's maps, not shared pointers. Aliasing of `*card.Card` is not modelled.
- Decks.Deck.LoadCardInfo: requires the empty tables `LoadDeck` creates, because that is its only caller. It also requires that every decoded language file exists, since `toml.DecodeFile` cannot read a file that `os.Stat` does not find.
- Validation.Validator.Validate: requires that a decoded deck.toml and every decoded language file exist, for the same reason.
- Decks.Deck.BuildSuit: fills a suit's table before storing it in the minor table. The source stores the empty table first and fills it in place; the result is the same.
- Decks.DefaultMinorName: its own contract states only the length. The full `Title(rank) + " of " + Capitalize(suit)` form is proved by `Decks.DefaultMinorNameOfWords` for single-word ranks and suits, which covers all fourteen ranks and four suits.
- Validation.Validator.FindImageDirs: serves both `validateMajorArcana` and `validateMinorArcana`, which each repeat the same directory search.
- `LoadDeck`'s own deck.toml checks and the `cmd/` command wiring (`cmd/deck.go`, `cmd/validate.go`, `cmd/root.go`) are not part of this model. `internal/config/config.go` and `main.go` are not part of it either.
