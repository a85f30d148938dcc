# Repertoire core in Dafny

Repertoire catalogues classical-music albums. It stores composers, works, performers, labels and recordings in SQLite, enriches recordings from the Discogs release database, and collects article paragraphs from scraped pages. This project models three pieces of it and proves properties about them:

- **The catalog store** (`repertoire/database.py`), in `store.dfy`.
  - `Tables` holds the whole database as a value. Every table is a sequence of rows in rowid order, with an AUTOINCREMENT counter.
  - The predicate `TablesValid` holds the schema's UNIQUE, PRIMARY KEY and NOT NULL constraints and the AUTOINCREMENT id order. A NULL never collides, as in SQL.
  - `TablesValid` also holds two invariants that this program's writes keep but the schema does not enforce. Every link row names a recording id that has already been issued. The track numbers of one recording's work links grow along the table. The `Database` constructor requires them of the tables it is given.
  - Each statement the store issues is a function on `Tables`: `UpsertComposer`, `UpsertWork`, `AddRecordingSpec`, `SelectedRows`, `QueryRecordings` and so on.
  - The class `Store.Database` keeps the tables as fields and performs each operation step by step. The performer loop, the work loop and the row loop of `get_recordings` are `while` loops. Every method is proved to end in the state its function describes and to keep `Valid()`.
- **The Discogs helpers** (`repertoire/discogs.py`), in `discogs.dfy`.
  - Catalog and label normalisation, and the catalog variants sent to the search.
  - The scored choice of the best search result.
  - Barcode cleaning.
  - Reading year, cover, barcode, label, artists and track list from a release. The release is a datatype whose optional keys are `Option`s.
  - The loop-based extractors are methods proved equal to reference functions.
- **The article parser** (`repertoire/parser.py`), in `htmlparser.dfy`.
  - `MusicaliefeitenParser` is a class with the parser's five fields.
  - Its handlers are proved to follow step functions on a `ParserState` value. The properties of the paragraph collector are proved on those functions.
  - `clean_text` is a function, with lemmas for its whitespace and entity behaviour.

Shared pieces:
- `wrappers.dfy`: `Option` and `Result`.
- `text.dfy`: the Python string operations the code uses, on ASCII. These are `strip`, `upper`, `lower`, `in`, `join`, `replace`, `re.sub(r"\s+", " ", …)` and `str(int)`.
- `catalog.dfy`: the record types of `repertoire/models.py`.

Where the code and its description differ, the model follows the code. Examples:
- The store reads and fills `recording.works`, which the `Recording` type does not declare. The model's `Recording` has the field, and the code as written is modelled separately under "Findings".
- `get_paragraphs` does not empty its buffer.
- In `clean_text`, `&nbsp;` is replaced only after whitespace has been collapsed.

## Model

| member | source | states |
|---|---|---|
| Text.Strip | repertoire/parser.py:51 | `str.strip()`: the result has no whitespace at either end, and it is empty exactly when the input is all whitespace |
| Text.StripSlice | repertoire/parser.py:83 | the stripped text is a slice of the input, and everything cut from either end is whitespace |
| Text.StripIdempotent | repertoire/parser.py:83 | stripping twice is the same as stripping once |
| Text.StripStripped | repertoire/parser.py:29 | a text with no whitespace at either end is left alone by `strip` |
| Text.Upper | repertoire/discogs.py:206 | `str.upper()` maps each character and keeps the length |
| Text.Lower | repertoire/discogs.py:211 | `str.lower()` maps each character and keeps the length |
| Text.JoinOfStrippedChunks | repertoire/parser.py:29-30 | joining non-empty chunks that have no whitespace at either end gives a non-empty text that the `strip` in the flush leaves unchanged, so the `if text` guard always passes |
| Text.Join | repertoire/discogs.py:333 | `sep.join(parts)`. Its properties are those of `JoinEnds` and `JoinSnoc` |
| Text.JoinSnoc | repertoire/discogs.py:333 | joining one more part appends the separator and that part |
| Text.Contains | repertoire/discogs.py:240 | `sub in s`. A pattern that occurs starts at one of the characters of `s` (`ContainsFirstChar`) |
| Text.ReplaceAllAbsent | repertoire/parser.py:80-82 | `replace` of a pattern that does not occur returns the text unchanged |
| Text.ReplaceAll | repertoire/parser.py:80-82 | `str.replace`. Its properties are those of `ReplaceAllAbsent`, `ReplaceAllSame` and `ReplaceAllAt` |
| Text.ReplaceAllSame | repertoire/parser.py:80-82 | replacing a pattern by itself changes nothing |
| Text.CollapseWhitespaceCollapsed | repertoire/parser.py:78 | after `re.sub(r"\s+", " ", …)` every whitespace character is a single space; the result is empty only for the empty text and starts as the text does |
| Text.CollapseWhitespace | repertoire/parser.py:78 | `re.sub(r"\s+", " ", s)`. Its properties are those of `CollapseWhitespaceCollapsed` |
| Text.CollapsedUnchanged | repertoire/parser.py:78 | collapsing a text whose whitespace runs are already single spaces changes nothing |
| Text.StripKeepsCollapsed | repertoire/parser.py:83 | stripping keeps both "only plain spaces" and "no two adjacent spaces" |
| Text.NatToDecimal | repertoire/discogs.py:271 | `str(n)` is a non-empty string of digits with no leading zero |
| Text.DecimalRoundTrip | repertoire/discogs.py:271 | `int(str(n)) == n` |
| Text.IntToDecimal | repertoire/discogs.py:271 | `str(i)` is never empty, and it starts with a minus sign exactly when `i` is negative |
| Text.IntDecimalRoundTrip | repertoire/discogs.py:271 | `int(str(i)) == i`: the digits after an optional sign read back as the number |
| Store.TablesValid | repertoire/database.py:35-177 | the schema's constraints as a predicate on the tables: ids in AUTOINCREMENT order up to each counter, `name` UNIQUE for composers and performers, UNIQUE(composer_id, title, catalog_number) for works under NULL semantics, UNIQUE `discogs_id` and natural key for recordings, the link tables' primary keys and `url` UNIQUE. It adds the two write invariants stated above |
| Store.EmptyTables | repertoire/database.py:35-175 | a freshly created schema satisfies every table constraint |
| Store.FindComposer | repertoire/database.py:202 | `SELECT id FROM composers WHERE name = ?` finds a row with that name exactly when one exists |
| Store.UpsertComposer | repertoire/database.py:179-209 | `add_composer` gives the composer an id. If the name is already stored, nothing is written and the stored row's id is returned. Otherwise exactly one row with the caller's columns is appended under the next id, the composer sequence advances by one, and nothing else changes |
| Store.ComposerByName | repertoire/database.py:211-230 | `get_composer` returns None exactly when no row has the name, else the values of a stored row with that name |
| Store.ComposerOfRow | repertoire/database.py:220-229 | the composer `get_composer` builds: the row's id and columns, with `musicbrainz_id` left unread |
| Store.UpsertComposerValid | repertoire/database.py:45 | `add_composer` keeps `name UNIQUE` and every other constraint |
| Store.UpsertThenGetComposer | repertoire/database.py:179-230 | after `add_composer`, `get_composer` finds the returned id. It finds the first inserted values when the name was taken, otherwise exactly the values passed in |
| Store.UpsertComposerTwice | repertoire/database.py:200-205 | two `add_composer` calls under one name return one id, and the second writes nothing |
| Store.UpsertComposerFound | repertoire/database.py:198-205 | after `add_composer`, the name lookup finds the row under the id that was returned |
| Store.FindPerformer | repertoire/database.py:363 | the name lookup finds a row with that name exactly when one exists |
| Store.UpsertPerformer | repertoire/database.py:341-370 | `add_performer` inserts a new row under the next id, or on a taken name writes nothing and returns the stored id |
| Store.UpsertPerformerValid | repertoire/database.py:83 | `add_performer` keeps `name UNIQUE` and every other constraint |
| Store.UpsertPerformerKeepsFirst | repertoire/database.py:361-366 | once a name is stored, a second `add_performer` under it changes nothing and returns the same id |
| Store.FindWork | repertoire/database.py:329-332 | the fallback `SELECT` finds a row with equal composer, title and non-NULL catalog number exactly when one exists |
| Store.UpsertWork | repertoire/database.py:304-339 | `add_work` with a NULL `composer_id` writes nothing and leaves `id` as it was. A NULL catalog number always inserts under the next id. A matching stored work is returned unchanged. With a composer and no matching row, exactly one row with the caller's columns is appended under the next id, the work sequence advances by one, and nothing else changes |
| Store.UpsertWorkValid | repertoire/database.py:60-74 | `add_work` keeps `UNIQUE(composer_id, title, catalog_number)` and every other constraint |
| Store.UpsertWorkTwice | repertoire/database.py:73 | two works with equal composer, title and non-NULL catalog number resolve to one id, and the second call writes nothing |
| Store.UpsertWorkNullCatalogAlwaysInserts | repertoire/database.py:73 | a work with a NULL catalog number never collides: adding it twice adds two rows with different ids |
| Store.LinkPerformers | repertoire/database.py:270-280 | the performer loop returns one performer for each performer passed in |
| Store.LinkWorks | repertoire/database.py:283-293 | the work loop returns one work for each work passed in |
| Store.InsertRecordingValid | repertoire/database.py:120-127 | inserting a recording that clashes on neither `discogs_id` nor the natural key keeps every constraint |
| Store.AddRecordingSpec | repertoire/database.py:232-302 | `add_recording` fails exactly when the `discogs_id` or the (title, catalog number, label) is already stored with non-NULL values. The failure is always a ValueError: a `discogs_id` clash gives the `discogs_id` reason, and otherwise the natural-key reason. On success the recording gets the next id and keeps every other field it was given, apart from its performers and works, which come back with their ids |
| Store.InsertRecording | repertoire/database.py:242-267 | the INSERT of the recording row. Its properties are those of `InsertRecordingAppends` |
| Store.RecordingRowOf | repertoire/database.py:244-265 | the thirteen columns the recording INSERT writes, taken from the recording, under the given id |
| Store.InsertRecordingAppends | repertoire/database.py:242-267 | the INSERT appends one recording row under the next id, with the given title, and keeps the rows before it |
| Store.LinkPerformer | repertoire/database.py:270-280 | one pass of the performer loop. Its properties are those of `LinkPerformerEffect` |
| Store.LinkPerformerEffect | repertoire/database.py:270-280 | a performer without an id is first added. The recording is then linked to it, and the performer is returned with its id and otherwise unchanged |
| Store.WithPerformerLink | repertoire/database.py:273-280 | the `INSERT OR IGNORE` of a performer link. Its properties are those of `WithPerformerLinkEffect` |
| Store.WithPerformerLinkEffect | repertoire/database.py:273-280 | after `INSERT OR IGNORE` the pair is linked. At most one row is appended and nothing else changes |
| Store.LinkWork | repertoire/database.py:283-293 | one pass of the work loop. Its properties are those of `LinkWorkEffect` |
| Store.LinkWorkEffect | repertoire/database.py:283-293 | a work without an id is first added. When it then has an id the recording is linked to it; with no id nothing is written. The work is returned otherwise unchanged |
| Store.WithWorkLink | repertoire/database.py:286-293 | the `INSERT OR IGNORE` of a work link. Its properties are those of `WithWorkLinkEffect` |
| Store.WithWorkLinkEffect | repertoire/database.py:286-293 | after `INSERT OR IGNORE` the pair is linked. At most one row is appended and nothing else changes |
| Store.LinkPerformersValid | repertoire/database.py:153 | the performer loop keeps every constraint: each (recording, performer) pair is linked at most once |
| Store.LinkWorksValid | repertoire/database.py:139 | the work loop keeps every constraint: each (recording, work) pair is linked at most once, with track numbers from 1 to the list length |
| Store.LinkPerformerStep | repertoire/database.py:271-280 | one pass resolves the performer to an id and links it, appending at most one row |
| Store.LinkWorkStep | repertoire/database.py:284-293 | one pass resolves the work where the upsert can. A work that still has no id is not linked |
| Store.LinkPerformersResolve | repertoire/database.py:271-272 | every performer leaves the loop with an id, and a performer that came with an id keeps it |
| Store.LinkPerformersLinked | repertoire/database.py:273-280 | every performer the loop returns is linked to the recording |
| Store.LinkPerformersOnlyListed | repertoire/database.py:273-280 | every link row the loop appends belongs to the recording and names one of its performers |
| Store.LinkWorksResolve | repertoire/database.py:284-285 | each work is resolved as `add_work` allows |
| Store.LinkWorksLinked | repertoire/database.py:286-293 | every returned work that has an id is linked to the recording |
| Store.LinkWorksFirstTrack | repertoire/database.py:283-293 | every link row the loop appends carries the 1-based position of the first occurrence of its work, and a repeated work keeps its first track number |
| Store.FreshRecordingUnlinked | repertoire/database.py:267 | the next recording id has no link rows yet |
| Store.AddRecordingValid | repertoire/database.py:232-302 | a successful `add_recording` keeps every schema constraint |
| Store.PerformersLinkedValid | repertoire/database.py:242-280 | after the insert and the performer loop the tables are valid and the new recording has no work links |
| Store.AddRecordingStores | repertoire/database.py:232-302 | on success the one new recording row is appended. Every performer is resolved and linked, and no other performer is linked. Every work with an id is linked under its first track, and no other work is linked. Earlier link rows are kept |
| Store.AddRecordingTwiceRejected | repertoire/database.py:240-298 | adding a recording with the same non-NULL title, catalog number and label a second time fails |
| Store.UrlScraped | repertoire/database.py:521 | `SELECT id FROM scraped_pages WHERE url = ?` finds a row: some stored page has exactly that url |
| Store.SaveScrapedPageSpec | repertoire/database.py:497-515 | `save_scraped_page` fails with the IntegrityError exactly when the URL is stored; otherwise the page gets the next id |
| Store.SaveScrapedPageValid | repertoire/database.py:165 | a successful save keeps `url UNIQUE` |
| Store.SavedPageIsScraped | repertoire/database.py:497-524 | after a save, `page_already_scraped` is true for the saved URL and unchanged for every other URL |
| Store.SavePageTwiceFails | repertoire/database.py:497-515 | saving the same URL again raises the uncaught IntegrityError |
| Store.Given | repertoire/database.py:387 | the truthiness test `if composer_name:` (and likewise at lines 398 and 408): a filter value that is None or empty imposes nothing |
| Store.Like | repertoire/database.py:393 | `column LIKE '%pattern%'` is a substring test on the lower-cased column and pattern |
| Store.LikeIgnoresCase | repertoire/database.py:393 | LIKE gives the same answer when the column or the pattern is upper-cased |
| Store.ComposerFilter | repertoire/database.py:387-396 | the composer filter holds when one of the recording's linked works has a composer whose name is LIKE the value |
| Store.WorkTitleFilter | repertoire/database.py:398-406 | the title filter holds when one of the recording's linked works has a title LIKE the value |
| Store.LabelFilter | repertoire/database.py:408-414 | the label filter holds when the recording has a label whose name is LIKE the value; a NULL label never matches |
| Store.RowMatches | repertoire/database.py:384-418 | a row matches when it passes every filter that was given, combined with AND |
| Store.MatchingRows | repertoire/database.py:384-419 | the WHERE clause keeps exactly the rows that satisfy every given filter, and never more rows than it was given |
| Store.SelectedRows | repertoire/database.py:384-424 | at most `limit` rows, every one satisfying every given filter, and all matching rows when fewer than `limit` are returned. Under a label filter every row has a label; under `in_library` every row has that flag |
| Store.MatchingAllRows | repertoire/database.py:384-419 | a WHERE clause that holds on every row keeps the whole table |
| Store.NoFilterSelectsFirst | repertoire/database.py:384-421 | without filters the query returns the first `limit` recordings |
| Store.MatchingSameRows | repertoire/database.py:384-419 | two WHERE clauses that agree on every row select the same rows |
| Store.EmptyFiltersIgnored | repertoire/database.py:387-414 | an empty text filter selects the same rows as no filter |
| Store.AddedRecordingListed | repertoire/database.py:384-424 | a recording just added is listed by an unfiltered query whose limit exceeds the earlier row count |
| Store.PerformerRowsWithId | repertoire/database.py:451 | the join keeps exactly the performer rows with the linked id |
| Store.LinkedPerformerRows | repertoire/database.py:448-455 | the performer join in link-table order. Its meaning is given by `LinkedPerformerRowsMembers` |
| Store.LinkedPerformerRowsMembers | repertoire/database.py:448-455 | the joined rows are exactly the stored performers linked to the recording |
| Store.WorkRowsWithId | repertoire/database.py:471 | the join keeps exactly the work rows with the linked id |
| Store.TracksOf | repertoire/database.py:470-473 | the joined works of one link row carry its track number |
| Store.LinkedTracks | repertoire/database.py:468-476 | every joined work is stored and linked to the recording under its track number |
| Store.LinkedTracksComplete | repertoire/database.py:468-476 | every link row of the recording whose work is stored appears among the joined works |
| Store.LinkedTracksInTrackOrder | repertoire/database.py:473 | the joined works come out in `track_number` order, given the write invariant that one recording's track numbers grow along the link table |
| Store.PerformerOfRow | repertoire/database.py:458-464 | the performer built from a joined row: its id, name, type, instrument and biography |
| Store.WorkOfRow | repertoire/database.py:479-489 | the work built from a joined row: its id, composer id, title, catalog number, key, opus, duration, notes and `musicbrainz_id` |
| Store.RecordingOfRow | repertoire/database.py:428-445 | the recording built from a selected row: its id and the stored columns, with no performers or works yet |
| Store.PerformersOfRows | repertoire/database.py:456-465 | one performer is built from each joined row, in order |
| Store.WorksOfTracks | repertoire/database.py:477-490 | one work is built from each joined row, in order |
| Store.HydratedPerformers | repertoire/database.py:448-465 | the performers of a listed recording are exactly the stored performers linked to it |
| Store.Hydrate | repertoire/database.py:428-490 | a listed recording carries its row's id and columns, with the linked performers and works added |
| Store.HydratedWorks | repertoire/database.py:468-490 | every work of a listed recording is a stored work linked to it, every linked stored work is present, and they are in track order |
| Store.QueryRecordings | repertoire/database.py:372-495 | `get_recordings` returns one recording for each selected row, in order, and no more than `limit` |
| Store.AddRecordingAsWritten | repertoire/database.py:283 | as written, `add_recording` fails whenever the caller has not attached a `works` attribute |
| Store.AddRecordingAsWrittenRefusesPlainRecording | repertoire/database.py:282-298 | the recording of `test_add_recording` is refused as written on a new database, and the corrected store gives it id 1 |
| Store.QueryRecordingsAsWritten | repertoire/database.py:477-490 | as written, `get_recordings` fails exactly when a selected recording has a linked stored work; otherwise it returns what the corrected query returns |
| Store.OneLinkedRecordingValid | repertoire/database.py:35-175 | the one-composer, one-work, one-recording database satisfies the schema |
| Store.OneLinkedRecordingTracks | repertoire/database.py:468-476 | its recording is linked to its work as track 1 |
| Store.OneLinkedRecordingSelected | repertoire/database.py:384-424 | an unfiltered query selects its one recording |
| Store.QueryRecordingsAsWrittenFails | repertoire/database.py:477-490 | listing that database fails as written, while the corrected query lists the recording with its one work |
| Store.Database.constructor | repertoire/database.py:24-35 | opening a database keeps the existing tables, which must satisfy the schema constraints and the two invariants that this program's writes keep |
| Store.Database.Valid | repertoire/database.py:35-177 | the object invariant of every method: the tables held in the fields satisfy `TablesValid` |
| Store.Database.AddComposer | repertoire/database.py:179-209 | the new state and the returned composer are those of `UpsertComposer`, and the constraints still hold |
| Store.Database.GetComposer | repertoire/database.py:211-230 | returns `ComposerByName`, which is None exactly when no stored composer has the name |
| Store.Database.AddPerformer | repertoire/database.py:341-370 | the new state and the returned performer are those of `UpsertPerformer`, and the constraints still hold |
| Store.Database.AddWork | repertoire/database.py:304-339 | the new state and the returned work are those of `UpsertWork`, and the constraints still hold |
| Store.Database.AddRecording | repertoire/database.py:232-302 | on a clash nothing changes and a ValueError is returned: the `discogs_id` reason when that clashes, otherwise the natural-key reason. Otherwise the new state and the returned recording are those of `AddRecordingSpec`. The invariants hold either way |
| Store.Database.LinkRecordingPerformers | repertoire/database.py:270-280 | the loop ends in the state of `LinkPerformers` and keeps the constraints |
| Store.Database.LinkRecordingPerformer | repertoire/database.py:271-280 | one pass ends in the state of `LinkPerformer` |
| Store.Database.InsertPerformerLink | repertoire/database.py:273-280 | `INSERT OR IGNORE` adds the link row only when the pair is not linked yet |
| Store.Database.LinkRecordingWorks | repertoire/database.py:283-293 | the loop ends in the state of `LinkWorks` and keeps the constraints, with track numbers counted from 1 |
| Store.Database.LinkRecordingWork | repertoire/database.py:284-293 | one pass ends in the state of `LinkWork`, with no track number larger than its own |
| Store.Database.InsertWorkLink | repertoire/database.py:286-293 | `INSERT OR IGNORE` adds the link row only when the pair is not linked yet |
| Store.Database.GetRecordings | repertoire/database.py:372-495 | returns `QueryRecordings` for the given filters and limit |
| Store.Database.ReadRecording | repertoire/database.py:427-492 | one pass of the row loop builds the hydrated recording |
| Store.Database.ReadPerformers | repertoire/database.py:448-465 | reads the performers of the joined rows, in order |
| Store.Database.ReadWorks | repertoire/database.py:468-490 | reads the works of the joined rows, in track order |
| Store.Database.SaveScrapedPage | repertoire/database.py:497-515 | on a stored URL nothing changes and the IntegrityError is returned; otherwise the state is that of `SaveScrapedPageSpec` |
| Store.Database.PageAlreadyScraped | repertoire/database.py:517-524 | true exactly when a stored page has the URL |
| Discogs.KeepAlnum | repertoire/discogs.py:206 | keeps only alphanumeric characters and is never longer than its input |
| Discogs.NormalizeCatalog | repertoire/discogs.py:204-206 | the normalised catalog number holds only digits and capitals and is no longer than the input |
| Discogs.NormalizeCatalogUpperThenKeep | repertoire/discogs.py:206 | the definition equals Python's order: upper-case, then keep the alphanumerics |
| Discogs.NormalizeCatalogConcat | repertoire/discogs.py:206 | normalising a concatenation normalises each part |
| Discogs.NormalizeCatalogIdempotent | repertoire/discogs.py:204-206 | `_normalize_catalog` is idempotent |
| Discogs.NormalizeCatalogIgnoresDeleted | repertoire/discogs.py:150 | deleting a pattern without alphanumerics does not change the normalised value |
| Discogs.CatalogVariants | repertoire/discogs.py:146-152 | one or two variants, the first the normalised catalog number |
| Discogs.CatalogVariantsAgree | repertoire/discogs.py:146-152 | the second variant always normalises to the same string as the first, so every search sends the same `catno` |
| Discogs.NormalizeCatalogPlain | repertoire/discogs.py:206 | digits and capitals normalise to themselves |
| Discogs.NormalizeCatalogDropped | repertoire/discogs.py:206 | punctuation normalises to nothing |
| Discogs.NormalizeCatalogSpaced | tests/test_discogs.py:96-100 | "DGG 439-947-2" normalises to "DGG4399472" |
| Discogs.NormalizeCatalogDotted | tests/test_discogs.py:96-100 | "439.947.2" normalises to "4399472" |
| Discogs.NormalizeCatalogDashed | tests/test_discogs.py:96-100 | two pieces of digits and capitals joined by a dash lose the dash |
| Discogs.NormalizeLabel | repertoire/discogs.py:209-211 | the normalised label has no capitals and no whitespace at either end |
| Discogs.NormalizeLabelSlice | repertoire/discogs.py:211 | the normalised label is a middle slice of the value, lower-cased character by character, and what is cut from either end is whitespace only |
| Discogs.CatalogHint | repertoire/discogs.py:224 | the catalog hint is only digits and capitals, and it is empty when no catalog number was given |
| Discogs.LabelHint | repertoire/discogs.py:223 | the label hint has no whitespace at either end, and it is empty when no label was given |
| Discogs.NormalizeLabelIdempotent | repertoire/discogs.py:209-211 | `_normalize_label` is idempotent |
| Discogs.CountryScore | repertoire/discogs.py:239-240 | 0 exactly when the lower-cased country contains "netherlands"; 1 exactly when it contains "europe" and not "netherlands"; otherwise 2 |
| Discogs.NormalizedLabels | repertoire/discogs.py:229-232 | each label of a result is normalised, in order |
| Discogs.ScoreOf | repertoire/discogs.py:226-242 | the catalog key is 0 exactly against a non-empty hint equal to the normalised `catno`, and the label key exactly when a non-empty hint is among the result's normalised labels. The country key is the country score |
| Discogs.CountryOutranksLabel | repertoire/discogs.py:235-242 | with equal catalog keys, the better country sorts first even against a label match |
| Discogs.NoHintsOnlyCountry | repertoire/discogs.py:223-224 | with no catalog number and no label, or both empty, every result scores 1 on both keys |
| Discogs.BestIndex | repertoire/discogs.py:245 | the position of a smallest score, every earlier score being strictly larger |
| Discogs.ScoresOf | repertoire/discogs.py:245 | one score per result, in order |
| Discogs.ChooseBestResult | repertoire/discogs.py:214-246 | None exactly for no results, otherwise the result with the lexicographically smallest score, the earliest on ties |
| Discogs.ContainsLength | repertoire/discogs.py:240 | a text holds only patterns no longer than itself |
| Discogs.ChooseBestResultExample | tests/test_discogs.py:128-143 | of the three results of the test, the Dutch one that matches catalog and label is chosen |
| Discogs.BestOfThree | tests/test_discogs.py:128-143 | the score pattern of that test selects the third result |
| Discogs.Digits | repertoire/discogs.py:308 | the result is only digits and no longer than the input, and a digit string is kept whole |
| Discogs.DigitsSingle | repertoire/discogs.py:308 | one character is kept when it is a digit and dropped otherwise |
| Discogs.DigitsConcat | repertoire/discogs.py:308 | the digit filter keeps their order: it distributes over concatenation |
| Discogs.DigitsOfSpaces | repertoire/discogs.py:308 | whitespace contributes no digits |
| Discogs.SanitizeStripped | repertoire/discogs.py:289-299 | stripping a value before `_sanitize_ean` changes nothing, since the cut whitespace holds no digits |
| Discogs.SanitizeEan | repertoire/discogs.py:306-309 | the digits of the value when there are at least 12, otherwise None |
| Discogs.SanitizeEanIdempotent | repertoire/discogs.py:306-309 | a sanitised code sanitises to itself |
| Discogs.LowerIsLower | repertoire/discogs.py:292 | the character-wise case test agrees with `lower()` |
| Discogs.FirstSomeAt | repertoire/discogs.py:288-301 | the early return finds the first present code |
| Discogs.FirstSomeNone | repertoire/discogs.py:303 | nothing is found exactly when no candidate yields a code |
| Discogs.FirstSomeFound | repertoire/discogs.py:288-301 | a found code comes from a candidate with no code before it |
| Discogs.FirstSome | repertoire/discogs.py:288-301 | the early-return search over candidate codes. Its meaning is given by `FirstSomeAt`, `FirstSomeNone` and `FirstSomeFound` |
| Discogs.BarcodeType | repertoire/discogs.py:292-293 | the identifier type, lower-cased, with None read as "", is barcode, ean or upc |
| Discogs.IdentifierEan | repertoire/discogs.py:289-296 | the code of one identifier, as the identifier loop computes it. Its properties are those of `IdentifierEanWhole` and `OtherTypesIgnored` |
| Discogs.IdentifierEanWhole | repertoire/discogs.py:289-296 | an identifier of a barcode type gives `_sanitize_ean` of its whole value, and any other identifier gives nothing |
| Discogs.BarcodeEan | repertoire/discogs.py:299 | the code of one barcode string. Its properties are those of `BarcodeEanWhole` |
| Discogs.BarcodeEanWhole | repertoire/discogs.py:299 | a barcode gives `_sanitize_ean` of the whole string |
| Discogs.EanOf | repertoire/discogs.py:285-303 | the first identifier code, else the first barcode code. Its properties are those of `EanOfShape` |
| Discogs.IdentifierEans | repertoire/discogs.py:288-296 | one candidate code per identifier |
| Discogs.BarcodeEans | repertoire/discogs.py:298-301 | one candidate code per barcode |
| Discogs.EanOfShape | repertoire/discogs.py:285-303 | a found code has at least 12 digits. There is none exactly when no identifier and no barcode yields one. An identifier code wins over the barcodes |
| Discogs.OtherTypesIgnored | repertoire/discogs.py:292-293 | an identifier whose type is not barcode, ean or upc never contributes |
| Discogs.ScanIdentifiers | repertoire/discogs.py:287-296 | the identifier loop returns the first identifier code |
| Discogs.ScanBarcodes | repertoire/discogs.py:298-301 | the barcode loop returns the first barcode code |
| Discogs.ExtractEan | repertoire/discogs.py:285-303 | `_extract_ean` returns `EanOf`: identifiers first, then barcodes |
| Discogs.EanExample | tests/test_discogs.py:102-110 | a 12-digit barcode identifier is returned as it is |
| Discogs.EanTooShort | tests/test_discogs.py:112-120 | three digits give no barcode |
| Discogs.ExtractYear | repertoire/discogs.py:266-271 | a non-empty `released` gives its first four characters (fewer if it is shorter). Without one, there is a year exactly when `year` is present and non-zero |
| Discogs.ExtractYearReadsBack | repertoire/discogs.py:270-271 | without `released`, the year text is digits that read back as `year` |
| Discogs.ExtractYearExamples | tests/test_discogs.py:122-126 | "1992-01-15" gives "1992", year 2020 gives "2020", nothing gives None |
| Discogs.PrimaryUris | repertoire/discogs.py:276-278 | the candidate uri of each image in the first loop |
| Discogs.AnyUris | repertoire/discogs.py:279-281 | the candidate uri of each image in the second loop |
| Discogs.CoverOfShape | repertoire/discogs.py:274-282 | a cover is a non-empty uri of some image. There is none exactly when no image has a uri. A primary image with a uri wins |
| Discogs.CoverOf | repertoire/discogs.py:274-282 | the first primary image uri, else the first uri. Its properties are those of `CoverOfShape` |
| Discogs.ExtractCover | repertoire/discogs.py:274-282 | the two loops return `CoverOf` |
| Discogs.ExtractLabel | repertoire/discogs.py:312-318 | the first label's name and catalog number, or (None, None) for no labels |
| Discogs.ArtistNames | repertoire/discogs.py:324 | only non-empty names, and none exactly when no artist has a name |
| Discogs.Credit | repertoire/discogs.py:331 | an extra artist with a role is credited "name (role)", and one without a role by the bare name |
| Discogs.ExtraCredits | repertoire/discogs.py:327-331 | at most one credit per extra artist |
| Discogs.ArtistsOf | repertoire/discogs.py:321-333 | the names are None exactly when no artist has a name. Otherwise they are the names joined with "; ". The extra credits are those of `ExtraCredits` |
| Discogs.ArtistsJoined | repertoire/discogs.py:333 | the joined names start with the first name, and a single name is returned as it is |
| Discogs.ArtistNamesConcat | repertoire/discogs.py:324 | the names keep the release's order |
| Discogs.ExtraCreditsConcat | repertoire/discogs.py:327-331 | the credits keep the release's order |
| Discogs.ArtistNamesSingle | repertoire/discogs.py:324 | an artist gives its name when it has one, and nothing otherwise |
| Discogs.ExtraCreditsSingle | repertoire/discogs.py:327-331 | an extra artist gives its credit when it has a name, and nothing otherwise |
| Discogs.ArtistsOfSnoc | repertoire/discogs.py:333 | a named artist added after the others extends the joined names by "; " and its name |
| Discogs.ExtractArtists | repertoire/discogs.py:321-333 | the loops return `ArtistsOf` |
| Discogs.TitledTracks | repertoire/discogs.py:339-346 | every kept track has a title, and when all tracks have one, all are kept |
| Discogs.TitledTracksConcat | repertoire/discogs.py:339-346 | the track list keeps the release's order |
| Discogs.TitledTrackSingle | repertoire/discogs.py:340-346 | a track without a title is dropped, and one with a title is kept with its position and duration |
| Discogs.ExtractTracklist | repertoire/discogs.py:336-347 | the loop returns `TitledTracks` |
| Parser.LongParagraphsFilter | repertoire/parser.py:61 | exactly the paragraphs longer than 10 characters are kept |
| Parser.LongParagraphsConcat | repertoire/parser.py:61 | the filter keeps document order |
| Parser.LongParagraphs | repertoire/parser.py:61 | the kept paragraphs are no more than the given ones, and each is longer than 10 characters |
| Parser.Extract | repertoire/parser.py:64-72 | every paragraph `extract_text_from_html` returns is longer than 10 characters |
| Parser.LongSingle | repertoire/parser.py:61 | a single paragraph is kept exactly when it is longer than 10 characters |
| Parser.FlushJoins | repertoire/parser.py:28-32 | a flush with buffered chunks appends their join with single spaces |
| Parser.Flush | repertoire/parser.py:28-32 | a flush empties the buffer and adds at most one paragraph at the end. It leaves the three flags alone |
| Parser.Flushed | repertoire/parser.py:28-31 | the paragraphs after a flush: the buffered chunks joined by single spaces and stripped are added when the result is not empty. Its properties are those of `FlushJoins` and `FlushedValid` |
| Parser.StartTagStep | repertoire/parser.py:20-32 | a start tag never removes a paragraph. Only `p` and `div` change the buffer or the paragraphs, and `article` opens the article |
| Parser.EndTagStep | repertoire/parser.py:34-46 | an end tag never removes a paragraph. Only `p` and `div` change the buffer or the paragraphs. `article` closes the article, and `script` or `style` clears both flags |
| Parser.DataStep | repertoire/parser.py:48-53 | text never changes the paragraphs or the flags and adds at most one chunk at the end of the buffer. Outside a collecting state it changes nothing |
| Parser.Step | repertoire/parser.py:20-53 | the dispatch of one tokenizer event to `handle_starttag`, `handle_endtag` or `handle_data` |
| Parser.AfterGet | repertoire/parser.py:57-60 | `get_paragraphs` keeps the buffer and the flags and adds at most one paragraph at the end |
| Parser.Paragraphs | repertoire/parser.py:57-61 | what `get_paragraphs` returns: the paragraphs after a flush that are longer than 10 characters. Its properties are those of `LongParagraphsFilter` and `SecondGetRepeats` |
| Parser.FlushedValid | repertoire/parser.py:28-32 | every flushed paragraph is non-empty and has no whitespace at either end |
| Parser.StateValid | repertoire/parser.py:12-53 | the invariant the handlers keep: every buffered chunk and paragraph is non-empty and has no whitespace at either end, and a script and a style are never open at once |
| Parser.StepValid | repertoire/parser.py:20-53 | every handler keeps the buffer and the paragraphs stripped and non-empty, and never opens a script and a style at once |
| Parser.RunValid | repertoire/parser.py:20-53 | so does any sequence of events |
| Parser.ExtractShape | repertoire/parser.py:55-72 | everything returned is a flushed paragraph, longer than 10 characters, with no whitespace at either end |
| Parser.OnlyBlocksFlush | repertoire/parser.py:20-46 | only a `p` or `div` tag adds a paragraph or empties the buffer; other tags and text only add to the buffer |
| Parser.DataOutsideIgnored | repertoire/parser.py:50 | text outside an article, or inside a script or style, changes nothing |
| Parser.BlankDataIgnored | repertoire/parser.py:51-53 | blank text changes nothing |
| Parser.ScriptStyleFlags | repertoire/parser.py:20-38 | opening a script clears the style flag and the other way round; closing either clears both; nothing else changes |
| Parser.ArticleEnd | repertoire/parser.py:39-40 | closing an article stops collection whatever the nesting, and keeps the buffer and the paragraphs |
| Parser.RunConcat | repertoire/parser.py:64-72 | feeding two batches of events is feeding them one after the other |
| Parser.Run | repertoire/parser.py:64-72 | feeding events never removes a collected paragraph |
| Parser.RunQuiet | repertoire/parser.py:48-53 | before an article starts nothing is buffered or flushed |
| Parser.NoArticleNoParagraphs | tests/test_parser.py:53-56 | a page without an `article` start tag yields no paragraphs |
| Parser.SecondGetRepeats | repertoire/parser.py:57-60 | `get_paragraphs` does not empty the buffer, so a second call appends the pending paragraph again |
| Parser.ParagraphElement | repertoire/parser.py:41-53 | a `<p>text</p>` inside an article adds `text` as a paragraph |
| Parser.HiddenElement | repertoire/parser.py:20-53 | a script or style element changes nothing, whatever it contains |
| Parser.ParagraphEvents | repertoire/parser.py:20-53 | three events per paragraph element |
| Parser.RunParagraphs | repertoire/parser.py:20-53 | paragraph elements inside an article add their texts in order |
| Parser.ArticleParagraphs | tests/test_parser.py:10-35 | an article of paragraph elements yields its texts longer than 10 characters, in page order |
| Parser.RunArticle | repertoire/parser.py:25-40 | wrapping the elements in an article only toggles the article flag |
| Parser.HiddenPair | tests/test_parser.py:37-51 | a script element followed by a style element changes nothing |
| Parser.ScriptAndStyleIgnored | tests/test_parser.py:37-51 | two paragraphs with a script and a style between them give exactly the two paragraphs |
| Parser.ShortParagraphsIgnored | tests/test_parser.py:23-35 | paragraphs of at most 10 characters are left out |
| Parser.UnclosedParagraph | tests/test_parser.py:58-64 | text left in an unclosed paragraph is still returned |
| Parser.MusicaliefeitenParser.constructor | repertoire/parser.py:12-18 | all fields start empty or false |
| Parser.MusicaliefeitenParser.FlushText | repertoire/parser.py:28-32 | the fields end as `Flush` describes |
| Parser.MusicaliefeitenParser.HandleStartTag | repertoire/parser.py:20-32 | the fields end as `StartTagStep` describes |
| Parser.MusicaliefeitenParser.HandleEndTag | repertoire/parser.py:34-46 | the fields end as `EndTagStep` describes |
| Parser.MusicaliefeitenParser.HandleData | repertoire/parser.py:48-53 | the fields end as `DataStep` describes |
| Parser.MusicaliefeitenParser.GetParagraphs | repertoire/parser.py:55-61 | returns the long paragraphs including the pending one, and leaves the buffer in place |
| Parser.ExtractTextFromEvents | repertoire/parser.py:64-72 | feeding the events to a new parser and getting its paragraphs gives `Extract` |
| Parser.CleanText | repertoire/parser.py:75-83 | the result has no whitespace at either end |
| Parser.CleanTextPlainSpaces | repertoire/parser.py:78-83 | the only whitespace left is the plain space |
| Parser.CollapseAddsOnlySpaces | repertoire/parser.py:78 | collapsing adds no character other than the space |
| Parser.CleanTextWithoutEntities | repertoire/parser.py:78-83 | text without `&` is only collapsed and stripped, and no two spaces are adjacent |
| Parser.CleanTextSpacedWords | tests/test_parser.py:70-91 | words padded and separated by whitespace come out joined by single spaces |
| Parser.AmpersandDecodedOnce | repertoire/parser.py:80-82 | each entity is replaced in a single pass: `&amp;quot;` becomes `&quot;` |
| Parser.NbspAfterCollapse | repertoire/parser.py:78-80 | `&nbsp;` becomes a space after the collapse, so next to a space it leaves a double space |
| Parser.EntitiesDecoded | tests/test_parser.py:78-84 | `&amp;` and `&quot;` among ordinary text become `&` and `"`, and nothing else changes |

## Left out

- Network and time: the HTTP, throttle and search calls of the Discogs client (`_get`, `_throttle`, `get_release`, `find_release`, `_search_by_query`, and the requests in `_search_by_catalog`). Only the variant list of `_search_by_catalog` is modelled.
- `_build_release`: it only calls the modelled extractors and converts the id to a string.
- The `extract_release_id` regular expression: its behaviour is that of the regex engine.
- `repertoire/musicbrainz.py`, `repertoire/scraper.py`, `repertoire/cli.py`, `webui/app.py`, `repertoire/llm.py` and `repertoire/__init__.py` are not part of this model. They are network clients, front ends and start-up code.
- The `html.parser` tokenizer, its character-reference conversion, and the exception fallback of `extract_text_from_html`: the model starts from the sequence of tag and text events. Tag attributes are ignored by every handler and are not modelled.
- SQLite connection handling, commits and closing. Each operation is one atomic step on the tables.
- The second connection that `add_performer` and `add_work` open inside `add_recording`. `sqlite3.connect` is called with its defaults (repertoire/database.py:29-33): an implicit transaction and a 5-second busy timeout. The uncommitted recording INSERT holds the write lock, so the performer or work INSERT on the new connection waits out the timeout. It then raises an uncaught `sqlite3.OperationalError` (database is locked), and the recording row is rolled back. This happens on every `add_recording` with a performer or work that has no id. The model runs those calls in sequence on the same tables, which is what the code evidently intends.
- Store.LinkWorks: works are values, so the model cannot tell one `Work` object listed twice from two equal objects. `add_work` writes the new id back into the object (repertoire/database.py:325), so on a later pass the source sees that id and only re-issues the ignored link. The model gives the result for two equal objects instead: an id-less work with a NULL catalog number is added once per position and linked under each position. `LinkWorksFirstTrack`, `AddRecordingStores`, `AddRecordingSpec`, `Database.AddRecording` and `Database.LinkRecordingWorks` inherit this.
- `created_at` and `updated_at` timestamps, and `datetime.fromisoformat`.
- Foreign keys are not enforced by SQLite by default, so `label_id`, `work_id` and `composer_id` are plain optional numbers with no referential constraint.
- There is no operation that inserts a label. The labels table starts as the caller provides it.
- The order of rows of `SELECT * FROM recordings`, which has no ORDER BY. The model uses rowid order.
- The order of the performer join of `get_recordings`, which has no ORDER BY. The model lists a recording's performers in the order of the link table.
- A JSON null under `catno`, `country` or `label` of a search result, or in place of one of its label strings, or under `value` of an identifier, or in place of a barcode string: the code iterates over it or calls a string method on it, and raises (for `label`, at discogs.py:229-231). The release and search-result datatypes hold plain strings and a list of strings there, so that case cannot be expressed.
- The `musicbrainz_id` columns: no operation writes them, and `get_composer` does not read them.
- `Store.Like`: LIKE wildcards (`%` and `_` inside a filter value) are not interpreted, and case folding is ASCII only. A filter is a case-insensitive substring test.
- `Store.SelectedRows`: a negative LIMIT (no limit in SQLite) is not modelled; `limit` is a natural number.
- `Text.IsSpace`, `Text.IsAlnum`, `Text.IsDigit`, `Text.Upper` and `Text.Lower` are ASCII only: Python's Unicode classes and case mappings beyond ASCII are not modelled. This includes `\s` in `clean_text`.
- Integers are unbounded: SQLite's 64-bit rowids do not overflow in the model.
- The `work` and `label` fields of a recording: `get_recordings` never fills them, and the model leaves them empty.

## Findings

| source | as written | input that shows it | evidently intended | confidence | as-written member | corrected member |
|---|---|---|---|---|---|---|
| repertoire/database.py:283 | the work loop of `add_recording` reads `recording.works`, but the `Recording` type (repertoire/models.py:82-105) has no such field, so the read raises AttributeError. That happens after the INSERT and before the commit, so nothing is stored | the recording of `test_add_recording` (a title, a catalog number and a release year) on a new database | store the recording and link the works of its track list; a recording without works gets no work links | not executed | Store.AddRecordingAsWritten, Store.AddRecordingAsWrittenRefusesPlainRecording | Store.AddRecordingSpec, Store.AddRecordingStores |
| repertoire/database.py:477-490 | `get_recordings` appends to `recording.works`, which the built `Recording` lacks, and calls `.get` on a `sqlite3.Row`, which has no such method. Either fails as soon as a selected recording has a linked work | a database with one composer, one work by that composer, and one recording linked to it as track 1, listed without filters | return each recording with its linked works in track order | not executed | Store.QueryRecordingsAsWritten, Store.QueryRecordingsAsWrittenFails | Store.QueryRecordings, Store.HydratedWorks |

