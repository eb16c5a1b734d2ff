# AIE importer, modelled in Dafny

The AIE importer is a WordPress plugin. It turns one spreadsheet of
recordings into WordPress posts: a `fonograma` post for an album, or a
`sencillo` post for a single. Each post gets a few top-level fields and a
repeater of songs. Each song carries a nested repeater of performers, and
every performer is linked, when possible, to the WordPress user whose
`numero_de_identificacion` meta holds the performer's cédula (national
identifier).

The plugin does this along two code paths, and both are modelled here.

* **The service**, `ImporterService::import()`. It does the following:
  * refuses a missing file or a non-`.xlsx` path;
  * parses every sheet row after the header into a row of 13 trimmed
    fields through a column map;
  * groups the rows by album id; a row without one goes to a
    `single-<work code>` group, or to a `single-<position>` group when the
    work code is falsy;
  * for each group in first-seen order, inserts a `fonograma` post when the
    first row has an album id and a `sencillo` post otherwise, then writes
    three top-level fields;
  * writes the song repeater; rows share a song when their
    `track_title|obra_code` keys are equal, and every row adds one
    performer to its song;
  * counts albums, singles, songs and performers;
  * collects every warning, in the order it was raised.
* **The WP-CLI command** `wp aie import <file>`. It does the following:
  * halts when the file is missing;
  * skips sheet row 1;
  * drops each row whose trimmed album id (column L) is falsy, with a
    warning naming its sheet row;
  * for each group of rows sharing an album id:
    * picks the post type from the album-title column;
    * picks the title from the first row, falling back to the first
      non-empty track title;
    * looks up the owner by cédula and inserts the post;
    * on a WordPress error, warns and skips the group (a branch that cannot
      run in practice, as explained below);
    * otherwise writes four top-level fields keyed by ACF field keys, plus
      a track repeater with one track per row whose cédula matches a user;
      rows without a match are warned about and skipped;
    * prints a success line.

### How the model is laid out

| File | Module | What it holds |
|---|---|---|
| `Strings.dfy` | `Strings` | PHP `trim()` over its six blank characters; PHP string truthiness (`""` and `"0"` are falsy); decimal rendering of ids, proved to read back; `pathinfo()` extension and ASCII `strtolower()`. |
| `Grouping.dfy` | `Grouping` | PHP's insertion-ordered "append to the array under this key", as a first-seen key order (`Distinct`) plus an order-preserving filter (`Select`). Proved to be a partition. Both grouping loops and the song de-duplication use it. |
| `Records.dfy` | `Records` | Sheet cells, parsed rows, songs, performers and CLI tracks. |
| `WordPress.dfy` | `WordPress` | The WordPress side as a `Backend` object (described below). |
| `ServiceSpec.dfy`, `ImporterService.dfy` | `ServiceSpec`, `Importer` | What the service does, as functions, and the `ImporterService` class. The class's methods are proved to do exactly that. |
| `CliSpec.dfy`, `CliImporter.dfy` | `CliSpec`, `Cli` | The same for the WP-CLI command. |

The `Backend` object in `WordPress.dfy` has these parts:

* `users`: the user directory, keyed by cédula.
* `answer`: what `wp_insert_post()` returns to its n-th call. This may be a
  post id, including 0, or an error.
* `calls` and `writes`: logs of every post inserted and every field written.

The import loops are stated as runs over the groups. Each group's step is
given the reply to its own insert call. The methods' postconditions say
three things:

* the warnings or printed lines equal those of the run;
* the inserts equal those of the run;
* the field writes equal those of the run.

Lemmas then count what a run amounts to.

The functions of `ServiceSpec` and `CliSpec` are reference definitions. They
meet the source through the methods proved equal to them and the lemmas
about them, and those members carry the source citations in the table
below. For example:
`FindUserByCedula` and `PerformerOf` sit behind `FindUserByCedulaSpec` and
`BuildArtistNestedRepeater`; `FailedGroup`, `CreatedGroup` and `GroupEffects`
behind `ImportGroup`; `PostArgsOf` and `GroupEffect` behind `ProcessGroup`;
and `CommandEffects` behind `AieImport`.

### Behaviour of the code worth knowing

The model follows the code in each of these cases:

* **Work-code groups are not always singletons.** A row without an album id
  is not always alone in its group. Rows sharing a truthy work code share
  the group `single-<code>`. A work code of `"1"` collides with the
  row at 0-based position 1 (`SinglesWithSameWorkCodeShareGroup`,
  `WorkCodeCollidesWithPosition`).
* **Song keys can collide.** The song key is a plain concatenation, so
  the title `a|b` without a work code and the title `a` with work code `b|` become one song (`SongKeysCollide`).
* **A blank cédula still warns in the service.** A performer row with a
  blank cédula gets the "No user found" warning. So does a row whose user
  id is 0 (`EmptyCedulaWarns`, `EmptyUserIdIffWarned`).
* **The service's post type and title come from the first row only.** The
  service chooses the post type from the first row's album id. A
  fonograma's title is the first row's album title, or else the first
  row's track title. Only the CLI scans the whole group for an album title
  and a track title.
* **A failed insert gives two warnings in the service.** One comes from the
  builder and one from `import()`.
* **The CLI's `$repeater_key` is never reset between groups.** A created
  group none of whose rows matched a user saves its empty track list under
  the key set by the last group that set one. That key may belong to the other post
  type. If no group set one, the variable was never assigned.
  `RunRepeaterKey` and `StaleRepeaterKey` state this.
* **The CLI accepts post id 0.** The CLI checks only `is_wp_error()`, so a
  post id of 0 is written to like any other. The service treats 0 as a
  failure. The service passes `true` as `wp_insert_post()`'s `$wp_error`
  argument (src/Services/ImporterService.php:191 and :223), so it does get
  a `WP_Error` on failure, and its `is_wp_error()` tests run. The CLI leaves
  that argument out (aie-importer.php:106). WordPress then reports a failed
  insert as 0, never as a `WP_Error`, so the CLI's error branch
  (aie-importer.php:107-110) does not run in practice: every failed insert
  goes on to write its five fields to post 0. The `answer` oracle may reply
  `WpError` to any call. That is exact for the service's two builders, and
  covers more replies than WordPress gives for the CLI's insert.

## Model

| member | source | states |
|---|---|---|
| Strings.Trim | src/Services/ImporterService.php:344 | the result has no leading or trailing PHP blank (space, tab, LF, CR, NUL, vertical tab) and is no longer than the input |
| Strings.TrimLeftSpec | src/Services/ImporterService.php:344 | the left trim removes a prefix made only of blanks, and what is left is empty or starts with a non-blank |
| Strings.TrimRightSpec | src/Services/ImporterService.php:344 | the right trim removes a suffix made only of blanks, and what is left is empty or ends with a non-blank |
| Strings.TrimOfPadded | src/Services/ImporterService.php:344 | trimming a trimmed text padded with blanks on both sides gives back exactly that text |
| Strings.TrimTrimmed | src/Services/ImporterService.php:344 | trimming an already trimmed text changes nothing |
| Strings.TrimIdempotent | src/Services/ImporterService.php:344 | trimming twice is the same as trimming once |
| Strings.NatToString | src/Services/ImporterService.php:302 | the string form of a user id is made of decimal digits only |
| Strings.NatToStringCanonical | src/Services/ImporterService.php:302 | the string form of an id is never empty and has no leading zero |
| Strings.NatToStringRoundTrip | src/Services/ImporterService.php:302 | reading the digits of an id's string form back gives the id |
| Strings.NatToStringInjective | src/Services/ImporterService.php:302 | two ids with the same string form are equal |
| Strings.Extension | src/Services/ImporterService.php:59 | the extension holds no dot and no slash; when not empty, it is exactly what follows the last dot of the path once its trailing slashes are dropped |
| Strings.ExtensionIgnoresTrailingSlashes | src/Services/ImporterService.php:59 | trailing slashes do not change the extension, as basename() drops them |
| Strings.ExtensionOfDirectoryPath | src/Services/ImporterService.php:59 | `stem.e/` has extension `e`, so the path `d/a.xlsx/` has extension `xlsx` |
| Strings.ExtensionOfSuffix | src/Services/ImporterService.php:59 | the extension of `stem.e` is `e` whenever `e` has no dot or slash |
| Strings.ExtensionWithoutDot | src/Services/ImporterService.php:59 | a path without a dot has an empty extension |
| Grouping.Distinct | src/Services/ImporterService.php:155-172 | the group keys in first-seen order hold exactly the keys that occur, and are no more than the rows |
| Grouping.DistinctNoDup | src/Services/ImporterService.php:164-166 | no group key appears twice in the group order |
| Grouping.DistinctSnoc | src/Services/ImporterService.php:164-166 | a row with a new key adds that key at the end of the order; a row with a known key leaves the order as it was |
| Grouping.Select | src/Services/ImporterService.php:155-172 | a key's group holds only rows of the input; it is non-empty exactly when some row has that key |
| Grouping.SelectSnoc | src/Services/ImporterService.php:168 | appending a row extends its own key's group by that row and leaves every other group unchanged |
| Grouping.SelectHead | src/Services/ImporterService.php:164-170 | the first row carrying a key is the first member of that key's group |
| Grouping.SelectContains | src/Services/ImporterService.php:168 | every row is in the group of its own key |
| Grouping.SelectOrigin | src/Services/ImporterService.php:168 | every member of a group is a row of the input whose key is the group's key |
| Grouping.SelectSize | src/Services/ImporterService.php:168 | a group has as many members as there are rows with its key |
| Grouping.GroupsPartition | src/Services/ImporterService.php:155-172 | the sizes of the groups, taken in key order, add up to the number of rows |
| Grouping.GroupingIsPartition | src/Services/ImporterService.php:155-172 | the groups together hold as many rows as the input, each row lies in its key's group, and no group is empty |
| Grouping.DistinctGroupsNonEmpty | src/Services/ImporterService.php:164-170 | every group in the key order is non-empty |
| Grouping.GroupedSnoc | src/Services/ImporterService.php:164-170 | opening a key's group when it is new and appending the row to it keeps the key order and the map equal to the grouping of the longer input |
| WordPress.Backend.InsertPost | src/Services/ImporterService.php:184-192 | the reply is the oracle's answer for this call's number; the insert is logged and no field is written |
| WordPress.Backend.UpdateField | src/Services/ImporterService.php:356-363 | exactly one field write (post, key, value) is logged, and nothing is inserted |
| ServiceSpec.FileGuard | src/Services/ImporterService.php:55-62 | a missing file fails with "File not found: <path>"; an existing one fails with the .xlsx message exactly when its lower-cased extension is not `xlsx` |
| ServiceSpec.UpperCaseXlsxAccepted | src/Services/ImporterService.php:59-62 | an existing `name.XLSX` passes the guard, since the extension is lower-cased first |
| ServiceSpec.PathWithoutDotRefused | src/Services/ImporterService.php:59-62 | an existing path without a dot is refused as not .xlsx |
| ServiceSpec.Cell | src/Services/ImporterService.php:340-345 | every value `cell()` returns is trimmed |
| ServiceSpec.CellReads | src/Services/ImporterService.php:340-345 | a mapped, present, scalar cell reads as its trimmed text; an unmapped or falsy column, a missing cell or a non-scalar value reads as "" |
| ServiceSpec.RowOf | src/Services/ImporterService.php:129-143 | all 13 fields of a parsed row are trimmed |
| ServiceSpec.DefaultColumnsRead | src/Services/ImporterService.php:23-37 | with the service's own column map, each of the 13 fields is the trimmed scalar of its lettered column (B, C, E, G, H, I, K, L, M, N, Q, R, A), or "" when that cell is missing or not a scalar |
| ServiceSpec.SheetRows | src/Services/ImporterService.php:118-147 | one parsed row per sheet row after the header, each with all fields trimmed |
| ServiceSpec.ParsedFieldsRetrimStable | src/Services/ImporterService.php:129-143 | trimming any field of a parsed row again changes nothing |
| ServiceSpec.GroupKeys | src/Services/ImporterService.php:157-162 | each row's group key is its album id, or `single-` with its work code, or `single-` with its 0-based position when the work code is falsy |
| ServiceSpec.ServiceGroups | src/Services/ImporterService.php:155-172 | no group handed to the import loop is empty |
| ServiceSpec.ServiceGroupsPartition | src/Services/ImporterService.php:155-172 | the groups hold every row once: their sizes add up to the row count, there are no more groups than rows, and each row is in its key's group |
| ServiceSpec.TwoRowsOneGroup | src/Services/ImporterService.php:164-170 | two rows with equal group keys form one group, in row order |
| ServiceSpec.SinglesWithSameWorkCodeShareGroup | src/Services/ImporterService.php:158-161 | two rows without album id but with the same truthy work code share one group |
| ServiceSpec.WorkCodeCollidesWithPosition | src/Services/ImporterService.php:158-161 | a row with work code "1" and a row at position 1 without work code share the group `single-1` |
| ServiceSpec.FindUserByCedulaSpec | src/Services/ImporterService.php:315-331 | a blank cédula finds no one; otherwise a user is found exactly when one is registered under the trimmed cédula, and it is that user's id |
| ServiceSpec.PaddedCedulaFindsSameUser | src/Services/ImporterService.php:316 | blanks around a cédula do not change which user it finds |
| ServiceSpec.EmptyUserIdIffWarned | src/Services/ImporterService.php:289-307 | a performer's user id is "" exactly when the row gets the one "No user found" warning, and otherwise the row gets none |
| ServiceSpec.LinkedUserIdReadsBack | src/Services/ImporterService.php:302 | a linked performer's user id is a digit string that reads back as the found user's id |
| ServiceSpec.EmptyCedulaWarns | src/Services/ImporterService.php:290-297 | a blank cédula yields an empty user id and exactly one warning |
| ServiceSpec.PerformerWarningsCount | src/Services/ImporterService.php:263-268 | a group gets as many performer warnings as it has rows without a linked user |
| ServiceSpec.SongKeys | src/Services/ImporterService.php:250 | each row's song key is its track title, a bar, and its work code |
| ServiceSpec.Performers | src/Services/ImporterService.php:263-268 | one performer entry per row, in row order |
| ServiceSpec.SongsOf | src/Services/ImporterService.php:273-277 | there is one song per distinct song key |
| ServiceSpec.FirstRowSuppliesSong | src/Services/ImporterService.php:252-261 | a song's title, ISRC, BMAT, duration and work code are those of the first row with its key |
| ServiceSpec.EveryRowAddsItsPerformer | src/Services/ImporterService.php:263-268 | every row's performer entry is in the song of its key |
| ServiceSpec.SongsHoldEveryPerformer | src/Services/ImporterService.php:270-279 | the songs hold one performer per row; there are no more songs than rows, and at least one when there is a row |
| ServiceSpec.SongKeysCollide | src/Services/ImporterService.php:250 | a row titled `a`, bar, `b` without a work code and a row titled `a` with work code `b`, bar, get the same key and merge into one song holding both performers |
| ServiceSpec.CreatedGroupCounts | src/Services/ImporterService.php:96-104 | a created group counts one album or one single, one performer per row, between 1 and row-count songs, one insert and four writes |
| ServiceSpec.GroupEffectsCounts | src/Services/ImporterService.php:82-105 | a failed group counts nothing, writes nothing and adds at least two warnings; a created group counts as in CreatedGroupCounts |
| ServiceSpec.RunGroupsCounts | src/Services/ImporterService.php:82-105 | over the groups, albums plus singles equals the created groups, performers equals the rows of created groups, songs never exceed performers, there is one insert per group and four writes per created group, and at least two warnings per failed group |
| ServiceSpec.CreatedCountBound | src/Services/ImporterService.php:82-105 | no more posts are created than there are groups |
| Importer.ImportSummaryCounts | src/Services/ImporterService.php:74-109 | in the summary of a whole import, albums plus singles equal the created posts and never exceed the groups, performers equal the rows of the created groups, songs never exceed performers, and every group not created leaves at least two warnings |
| Importer.MergeOpensSong | src/Services/ImporterService.php:252-261 | a row with a new song key opens a song seeded from that row and holding its performer |
| Importer.MergeExtendsSong | src/Services/ImporterService.php:265-268 | a row with a known song key appends its performer, and the song stays the one of the rows seen so far with that key |
| Importer.MergeKeepsOtherSong | src/Services/ImporterService.php:265-268 | a row leaves every song of another key as it was |
| Importer.MergeRowKeeps | src/Services/ImporterService.php:249-271 | one loop iteration keeps `$songs_by_key` equal to the songs of the rows seen so far, keyed in first-seen order |
| Importer.MergeRowsSpec | src/Services/ImporterService.php:249-271 | after the loop, `$songs_by_key` holds, in first-seen key order, the song of every distinct key |
| Importer.MergedByIndex | src/Services/ImporterService.php:273 | the j-th key of the map holds the j-th song of SongsOf |
| Importer.MergedInOrder | src/Services/ImporterService.php:273 | `array_values($songs_by_key)` is exactly SongsOf |
| Importer.GroupedInKeyOrder | src/Services/ImporterService.php:82 | walking the grouped map in key order visits exactly ServiceGroups |
| Importer.ImporterService.constructor | src/Services/ImporterService.php:44 | a new service has no warnings |
| Importer.ImporterService.Import | src/Services/ImporterService.php:52-110 | a refused path fails with FileGuard's message, leaving no warnings and nothing inserted or written; otherwise the summary, the warnings, the inserts and the writes are those of ImportEffects |
| Importer.ImporterService.ImportGroups | src/Services/ImporterService.php:82-105 | the loop over the groups in key order appends the run's warnings, inserts and writes, and returns its counters |
| Importer.ImporterService.ImportGroup | src/Services/ImporterService.php:83-104 | one loop iteration makes one insert and adds exactly that group's counters, warnings and writes |
| Importer.ImporterService.ParseExcelRows | src/Services/ImporterService.php:118-147 | row k of the result is the parsed sheet row k+1, and the header row is skipped |
| Importer.ImporterService.GroupRowsByAlbumId | src/Services/ImporterService.php:155-172 | the keys come in first-seen order, and each key maps to its rows in row order |
| Importer.ImporterService.BuildFonograma | src/Services/ImporterService.php:180-204 | inserts the fonograma post (album title, or track title, and the found owner or 0); on an error or id 0 it returns 0 with one warning and no writes; otherwise it returns the id and writes the three top-level fields |
| Importer.ImporterService.BuildSencillo | src/Services/ImporterService.php:212-236 | the same for a sencillo titled by the first row's track title |
| Importer.ImporterService.WriteTopLevelFields | src/Services/ImporterService.php:199-201 | writes year, artist and album id from the first row, in that order |
| Importer.ImporterService.BuildSongRepeater | src/Services/ImporterService.php:245-280 | counts the distinct song keys and the rows, appends the performer warnings, and writes SongsOf once |
| Importer.ImporterService.BuildArtistNestedRepeater | src/Services/ImporterService.php:289-307 | returns the row's single performer entry and appends its warning, if any |
| CliSpec.At | aie-importer.php:53 | every column value the command reads is trimmed |
| CliSpec.AlbumIds | aie-importer.php:53 | one album id per kept row |
| CliSpec.CliGroups | aie-importer.php:50-59 | there is one group per distinct album id |
| CliSpec.KeptRowsHaveIds | aie-importer.php:53-58 | every grouped row has a truthy album id |
| CliSpec.KeptOrWarned | aie-importer.php:51-57 | the grouped rows and the dropped-row warnings together number the sheet rows after the header |
| CliSpec.KeptPrefix | aie-importer.php:51-59 | processing more rows only extends the kept rows and the warnings |
| CliSpec.DroppedOrKept | aie-importer.php:53-58 | a row with a falsy album id gets the warning naming its sheet row; any other row is grouped |
| CliSpec.HeaderIgnored | aie-importer.php:52 | whatever sheet row 1 holds changes neither the groups nor the warnings |
| CliSpec.CliGroupingIsPartition | aie-importer.php:50-59 | the groups hold every kept row once, none is empty, and each row is in its id's group |
| CliSpec.GroupMembersCarryId | aie-importer.php:58 | every member of group j carries that group's album id |
| CliSpec.FirstTrackTitleSpec | aie-importer.php:88-96 | the fallback title is "" exactly when no row has a track title, and otherwise the track title of the first row that has one |
| CliSpec.FonogramaTitledByTrack | aie-importer.php:66-96 | a group whose album title is only on a later row is a fonograma titled by the first row's track title |
| CliSpec.RowsAccounted | aie-importer.php:134-185 | each matched row adds its track, each unmatched row adds its warning, and the tracks plus the warnings number the rows |
| CliSpec.RowsCounted | aie-importer.php:134-185 | the tracks plus the unmatched-cédula warnings number the rows of the group |
| CliSpec.TracksShape | aie-importer.php:134-185 | every track has one performer, and there are no tracks exactly when no row's cédula matches a user |
| CliSpec.TrackLinesAreWarnings | aie-importer.php:143-146 | the per-row loop prints warnings only |
| CliSpec.GroupRepeaterKey | aie-importer.php:165-188 | a group leaves `$repeater_key` as its post type's repeater key when it was created and a row matched, and as it was otherwise; a created group with no match saves its empty track list under the inherited key |
| CliSpec.StepRepeaterKey | aie-importer.php:165-188 | a step of the run leaves the repeater key exactly as GroupRepeaterKey says |
| CliSpec.LastFiller | aie-importer.php:62-192 | picks the last group that set the repeater key, or none exactly when no group did |
| CliSpec.RunRepeaterKey | aie-importer.php:62-192 | after n groups `$repeater_key` is unassigned when no group set it, and otherwise it is the repeater key of the last group that did |
| CliSpec.StaleRepeaterKey | aie-importer.php:188 | when a created group with a match is followed by a created group without one, the second post's repeater is written under the first group's post-type key |
| CliSpec.CreatedLines | aie-importer.php:191 | a created group prints exactly one success line |
| CliSpec.CreatedWrites | aie-importer.php:128-188 | a created group writes five fields, all to its own post |
| CliSpec.SimpleWritesTo | aie-importer.php:128-131 | the top-level writes are four, all to the new post |
| CliSpec.GroupEffectCounts | aie-importer.php:106-191 | a group makes one insert; a failed one writes nothing and prints no success; a created one writes five fields and prints one success line |
| CliSpec.RunGroupsCounts | aie-importer.php:62-192 | over non-empty groups: one insert per group, and five writes and one success line per created group |
| CliSpec.CommandCounts | aie-importer.php:18-193 | one insert per album id, five writes and one success line per created post, and the dropped-row warnings printed first |
| CliSpec.DropLinesAreWarnings | aie-importer.php:55 | the grouping loop prints warnings only |
| Cli.AieImport | aie-importer.php:18-193 | a missing file halts with "File not found: <file>" and touches nothing; otherwise the printed lines, inserts and writes are those of CommandEffects |
| Cli.GroupByAlbumId | aie-importer.php:49-59 | the ids come in first-seen order, each id maps to its rows in sheet order, and the warnings are exactly the dropped-row warnings |
| Cli.GroupsInIdOrder | aie-importer.php:62 | walking the grouped map in id order visits exactly CliGroups |
| Cli.ProcessGroups | aie-importer.php:62-192 | the loop over the groups, carrying `$repeater_key` from group to group, prints, inserts and writes exactly what Run describes |
| Cli.ProcessGroup | aie-importer.php:63-191 | one group makes one insert, its printed lines and writes are those of GroupEffect, and it leaves `$repeater_key` as GroupEffect says |
| Cli.WriteSimpleFields | aie-importer.php:112-131 | writes label, year, artist and publication type from the first row under the post type's field keys |
| Cli.ScanAlbumTitles | aie-importer.php:65-75 | reports an empty album column exactly when no row of the group has an album title |
| Cli.ScanTrackTitles | aie-importer.php:87-96 | returns the first non-empty track title of the group, or "" |
| Cli.BuildTracks | aie-importer.php:133-185 | builds the tracks of the matched rows and warns about the others; the repeater key is the post type's once a row matched, and the incoming one otherwise |

## Left out

- Reading the spreadsheet through PhpSpreadsheet (`IOFactory::load`, `toArray`) is not modelled. The active sheet is a parameter, a sequence of rows keyed by column letter. Load exceptions for an unreadable or corrupt file are not modelled.
- `file_exists()` is not modelled as a file-system call. Whether the file exists is a boolean parameter.
- The autoloader fallback (`class_exists`, `require_once`) is not modelled. It has no effect on the import's result.
- `get_users()` is a lookup in a directory keyed by cédula that returns the one user registered under it. WordPress's own meta query is not modelled. That includes what an empty `meta_value` matches in the CLI, and which of several users with the same cédula comes first.
- `wp_insert_post()` is an oracle: the reply to the n-th call is fixed in advance. Post creation inside WordPress is not modelled. `PostArgs` does not record the `$wp_error` flag, which is `true` in the service and absent in the CLI. The oracle may reply `WpError` to the CLI's insert too, which WordPress does not do when the flag is absent.
- PHP strings are byte strings; the model uses Dafny's Unicode `string` (for example the literal "cédula" in warnings). Every string operation modelled (`trim()`, `strtolower()`, `ucfirst()`, `pathinfo()`, the truthiness test) looks only at ASCII characters, and a multi-byte UTF-8 sequence contains no ASCII byte, so the byte-level encoding is not modelled.
- `update_field()` is modelled as one logged (post, key, value) write, and both of its branches count as that one logical write. Their storage differs and is not modelled: ACF stores a repeater as a row count under the field name, one meta entry per sub-field of each row and a `_<name>` entry pointing to the field key, while `update_post_meta()` stores one serialized array under the name.
- `(string)` casts of non-string scalars (numbers, booleans) in `cell()` are not modelled. A scalar cell carries its text already rendered. Null and non-scalar cells are modelled; both read as "".
- PHP's conversion of decimal-looking array keys to integers is not modelled. It changes no output here, because iteration order is insertion order and distinct strings never share a key.
- The CLI's missing-argument case (`list($file) = $args` with no argument) is not modelled. The file name is always given.
- The `WP_CLI::error()` call is modelled as a halt that carries its message. Terminal output formatting (colours, prefixes) is not modelled.
- `$repeater_key` before any group assigns it is an undefined variable in PHP. It is modelled as a distinct "unset" key, and the notice PHP raises is not modelled.
- The service's `LoggerService`, the admin screen and the plugin bootstrap outside the `aie import` command are not modelled.
- Some model methods have no PHP counterpart of their own: `ImportGroups`, `ImportGroup`, `WriteTopLevelFields`, `ProcessGroups`, `ProcessGroup`, `WriteSimpleFields`, `ScanAlbumTitles`, `ScanTrackTitles` and `BuildTracks`. Each is a loop or a run of statements of the PHP code, cut out so that it can be proved on its own. The statements keep their order.
- The CLI column map `$col` is modelled as an enumeration of the 15 keys with their column letters (`CliSpec.Letter`), not as a runtime array.
