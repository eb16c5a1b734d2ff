/** What the import service computes, as pure functions of its inputs: the
    sheet (rows of cells), the column map, the user directory and the
    replies of wp_insert_post(). The class in ImporterService.dfy is proved
    to do exactly this; the lemmas here state what it amounts to. */
module ServiceSpec {
  import opened Strings
  import opened Records
  import opened WordPress
  import opened Grouping

  /** The service's column map for the official sheet. */
  const DefaultColumnMap: ColumnMap := map[
    "obra_code" := "A", "track_title" := "B", "artist_name" := "C",
    "bmat" := "E", "performer_name" := "G", "cedula" := "H",
    "performer_role" := "I", "performer_instr" := "K", "album_title" := "L",
    "id_album" := "M", "track_isrc" := "N", "year" := "Q", "duration" := "R"]

  const NotXlsx := "Only .xlsx files are supported."

  /** The text a sheet row holds in a column: trimmed when it is a scalar,
      "" when the column is absent or not a scalar. */
  function ColumnText(raw: RawRow, column: string): string {
    if column in raw && raw[column].Scalar? then Trim(raw[column].text) else ""
  }

  /** With the service's own column map, each field of a parsed row is read
      from its lettered column of the official sheet. */
  lemma {:induction false} DefaultColumnsRead(raw: RawRow)
    ensures RowOf(DefaultColumnMap, raw) == Row(
      trackTitle := ColumnText(raw, "B"), artistName := ColumnText(raw, "C"),
      bmat := ColumnText(raw, "E"), performerName := ColumnText(raw, "G"),
      cedula := ColumnText(raw, "H"), performerRole := ColumnText(raw, "I"),
      performerInstr := ColumnText(raw, "K"), albumTitle := ColumnText(raw, "L"),
      idAlbum := ColumnText(raw, "M"), trackIsrc := ColumnText(raw, "N"),
      year := ColumnText(raw, "Q"), duration := ColumnText(raw, "R"),
      obraCode := ColumnText(raw, "A"))
  {
    var cm := DefaultColumnMap;
    CellOfColumn(cm, raw, "track_title", "B");
    CellOfColumn(cm, raw, "artist_name", "C");
    CellOfColumn(cm, raw, "bmat", "E");
    CellOfColumn(cm, raw, "performer_name", "G");
    CellOfColumn(cm, raw, "cedula", "H");
    CellOfColumn(cm, raw, "performer_role", "I");
    CellOfColumn(cm, raw, "performer_instr", "K");
    CellOfColumn(cm, raw, "album_title", "L");
    CellOfColumn(cm, raw, "id_album", "M");
    CellOfColumn(cm, raw, "track_isrc", "N");
    CellOfColumn(cm, raw, "year", "Q");
    CellOfColumn(cm, raw, "duration", "R");
    CellOfColumn(cm, raw, "obra_code", "A");
  }

  lemma {:induction false} CellOfColumn(cm: ColumnMap, raw: RawRow, key: string, column: string)
    requires key in cm && cm[key] == column && |column| == 1 && column != "0"
    ensures Cell(cm, raw, key) == ColumnText(raw, column)
  {
  }

  // ---------------------------------------------------------------------
  // File guards

  /** The two checks import() makes before reading anything, in order:
      the file must exist, and its lower-cased extension must be `xlsx`. */
  function FileGuard(path: string, fileExists: bool): (r: Option<string>)
    ensures !fileExists ==> r == Some("File not found: " + path)
    ensures fileExists ==> (r == None <==> Lower(Extension(path)) == "xlsx")
    ensures fileExists && r.Some? ==> r.value == NotXlsx
  {
    if !fileExists then Some("File not found: " + path)
    else if Lower(Extension(path)) != "xlsx" then Some(NotXlsx)
    else None
  }

  /** The extension check ignores case: `anything.XLSX` is accepted. */
  lemma {:induction false} UpperCaseXlsxAccepted(stem: string)
    ensures FileGuard(stem + ".XLSX", true) == None
  {
    ExtensionOfSuffix(stem, "XLSX");
    assert stem + ".XLSX" == stem + "." + "XLSX";
    LowerXlsx();
  }

  lemma {:induction false} LowerXlsx()
    ensures Lower("XLSX") == "xlsx"
  {
    var x := "XLSX";
    assert x[..4] == x;
    assert Lower(x[..1]) == "x" by { assert x[..1][..0] == []; }
    assert Lower(x[..2]) == "xl" by { assert x[..2][..1] == x[..1]; }
    assert Lower(x[..3]) == "xls" by { assert x[..3][..2] == x[..2]; }
    assert Lower(x[..4]) == "xlsx" by { assert x[..4][..3] == x[..3]; }
  }

  /** A path with no '.' anywhere is refused as not being xlsx. */
  lemma {:induction false} PathWithoutDotRefused(path: string)
    requires '.' !in path
    ensures FileGuard(path, true) == Some(NotXlsx)
  {
    ExtensionWithoutDot(path);
  }

  // ---------------------------------------------------------------------
  // Parsing

  /** The column `cell()` reads for `key` holds a scalar value: the key is
      mapped to a (truthy) column letter, the row has that cell, and it is
      scalar. */
  predicate Readable(cm: ColumnMap, raw: RawRow, key: string) {
    key in cm && Truthy(cm[key]) && cm[key] in raw && raw[cm[key]].Scalar?
  }

  /** cell(): the trimmed text of the cell mapped to `key`; "" when the key
      is unmapped, the cell is missing, or its value is not scalar. */
  function Cell(cm: ColumnMap, raw: RawRow, key: string): (r: string)
    ensures IsTrimmed(r)
  {
    var column := if key in cm then cm[key] else "";
    var value := if Truthy(column) && column in raw then raw[column] else Scalar("");
    match value
    case Scalar(t) => Trim(t)
    case NonScalar => ""
  }

  /** What cell() reads: the trimmed scalar when the column is readable,
      and "" in each of the three other cases. */
  lemma {:induction false} CellReads(cm: ColumnMap, raw: RawRow, key: string)
    ensures Readable(cm, raw, key) ==> Cell(cm, raw, key) == Trim(raw[cm[key]].text)
    ensures !Readable(cm, raw, key) ==> Cell(cm, raw, key) == ""
    ensures key !in cm || !Truthy(cm[key]) ==> Cell(cm, raw, key) == ""
  {
  }

  predicate RowTrimmed(row: Row) {
    && IsTrimmed(row.trackTitle) && IsTrimmed(row.artistName) && IsTrimmed(row.bmat)
    && IsTrimmed(row.performerName) && IsTrimmed(row.cedula) && IsTrimmed(row.performerRole)
    && IsTrimmed(row.performerInstr) && IsTrimmed(row.albumTitle) && IsTrimmed(row.idAlbum)
    && IsTrimmed(row.trackIsrc) && IsTrimmed(row.year) && IsTrimmed(row.duration)
    && IsTrimmed(row.obraCode)
  }

  /** One parsed record: every field read through cell(). */
  function RowOf(cm: ColumnMap, raw: RawRow): (row: Row)
    ensures RowTrimmed(row)
  {
    Row(
      trackTitle := Cell(cm, raw, "track_title"),
      artistName := Cell(cm, raw, "artist_name"),
      bmat := Cell(cm, raw, "bmat"),
      performerName := Cell(cm, raw, "performer_name"),
      cedula := Cell(cm, raw, "cedula"),
      performerRole := Cell(cm, raw, "performer_role"),
      performerInstr := Cell(cm, raw, "performer_instr"),
      albumTitle := Cell(cm, raw, "album_title"),
      idAlbum := Cell(cm, raw, "id_album"),
      trackIsrc := Cell(cm, raw, "track_isrc"),
      year := Cell(cm, raw, "year"),
      duration := Cell(cm, raw, "duration"),
      obraCode := Cell(cm, raw, "obra_code"))
  }

  /** The records of a sheet whose k-th element is sheet row k + 1: sheet
      row 1, the header, yields none; every other row yields one, read from
      that row alone. */
  function SheetRows(cm: ColumnMap, sheet: seq<RawRow>): (rows: seq<Row>)
    ensures |rows| == if sheet == [] then 0 else |sheet| - 1
    ensures forall k :: 0 <= k < |rows| ==> RowTrimmed(rows[k])
  {
    if sheet == [] then []
    else seq(|sheet| - 1, k requires 0 <= k < |sheet| - 1 => RowOf(cm, sheet[k + 1]))
  }

  /** Parsing is stable: trimming any field of a parsed record again
      changes nothing. */
  lemma {:induction false} ParsedFieldsRetrimStable(row: Row)
    requires RowTrimmed(row)
    ensures && Trim(row.trackTitle) == row.trackTitle && Trim(row.artistName) == row.artistName
            && Trim(row.bmat) == row.bmat && Trim(row.performerName) == row.performerName
            && Trim(row.cedula) == row.cedula && Trim(row.performerRole) == row.performerRole
            && Trim(row.performerInstr) == row.performerInstr && Trim(row.albumTitle) == row.albumTitle
            && Trim(row.idAlbum) == row.idAlbum && Trim(row.trackIsrc) == row.trackIsrc
            && Trim(row.year) == row.year && Trim(row.duration) == row.duration
            && Trim(row.obraCode) == row.obraCode
  {
    TrimTrimmed(row.trackTitle);
    TrimTrimmed(row.artistName);
    TrimTrimmed(row.bmat);
    TrimTrimmed(row.performerName);
    TrimTrimmed(row.cedula);
    TrimTrimmed(row.performerRole);
    TrimTrimmed(row.performerInstr);
    TrimTrimmed(row.albumTitle);
    TrimTrimmed(row.idAlbum);
    TrimTrimmed(row.trackIsrc);
    TrimTrimmed(row.year);
    TrimTrimmed(row.duration);
    TrimTrimmed(row.obraCode);
  }

  // ---------------------------------------------------------------------
  // Grouping

  /** The group key of the row at 0-based position `idx`: its album id, or
      for a row without one `single-` followed by its work code, or by its
      position when the work code is falsy. */
  function GroupKey(row: Row, idx: nat): string {
    if row.idAlbum != "" then row.idAlbum
    else "single-" + (if Truthy(row.obraCode) then row.obraCode else NatToString(idx))
  }

  function GroupKeys(rows: seq<Row>): (ks: seq<string>)
    ensures |ks| == |rows|
    ensures forall i :: 0 <= i < |rows| ==> ks[i] == GroupKey(rows[i], i)
  {
    if rows == [] then [] else GroupKeys(rows[..|rows| - 1]) + [GroupKey(rows[|rows| - 1], |rows| - 1)]
  }

  /** The groups of group_rows_by_album_id(), in first-seen key order. */
  function ServiceGroups(rows: seq<Row>): (gs: seq<seq<Row>>)
    ensures NonEmptyGroups(gs)
  {
    DistinctGroupsNonEmpty(rows, GroupKeys(rows));
    GroupsOf(rows, GroupKeys(rows), Distinct(GroupKeys(rows)))
  }

  /** The service's grouping is a partition of the parsed rows. */
  lemma {:induction false} ServiceGroupsPartition(rows: seq<Row>)
    ensures TotalSize(ServiceGroups(rows)) == |rows|
    ensures |ServiceGroups(rows)| <= |rows|
    ensures forall i :: 0 <= i < |rows| ==> rows[i] in Select(rows, GroupKeys(rows), GroupKey(rows[i], i))
  {
    GroupingIsPartition(rows, GroupKeys(rows));
  }

  /** Two rows whose keys coincide form a single group. */
  lemma {:induction false} TwoRowsOneGroup(a: Row, b: Row)
    requires GroupKey(a, 0) == GroupKey(b, 1)
    ensures ServiceGroups([a, b]) == [[a, b]]
  {
    var ks := GroupKeys([a, b]);
    assert ks == [GroupKey(a, 0), GroupKey(b, 1)];
    assert ks[..1] == [ks[0]];
    assert Distinct(ks[..1]) == [ks[0]];
    assert Distinct(ks) == [ks[0]];
    assert [a, b][..1] == [a];
    assert Select([a, b], ks, ks[0]) == [a, b];
  }

  /** Rows without album id that share a work code form one group, not
      one singleton group per row. */
  lemma {:induction false} SinglesWithSameWorkCodeShareGroup(a: Row, b: Row)
    requires a.idAlbum == "" && b.idAlbum == ""
    requires Truthy(a.obraCode) && a.obraCode == b.obraCode
    ensures ServiceGroups([a, b]) == [[a, b]]
  {
    TwoRowsOneGroup(a, b);
  }

  /** A work code that reads like a row position collides with the key the
      row at that position gets when its own work code is empty. */
  lemma {:induction false} WorkCodeCollidesWithPosition(a: Row, b: Row)
    requires a.idAlbum == "" && a.obraCode == "1"
    requires b.idAlbum == "" && b.obraCode == ""
    ensures ServiceGroups([a, b]) == [[a, b]]
  {
    assert NatToString(1) == "1";
    TwoRowsOneGroup(a, b);
  }

  // ---------------------------------------------------------------------
  // Users and performers

  /** find_user_by_cedula(): the trimmed value is looked up only when it is
      not empty. */
  function FindUserByCedula(users: Directory, cedula: string): Option<nat> {
    var c := Trim(cedula);
    if c == "" then None
    else match GetUsers(users, c)
      case None => None
      case Some(u) => Some(u.id)
  }

  /** A blank c\U{E9}dula finds nobody without asking; any other finds the
      user registered under its trimmed form. */
  lemma {:induction false} FindUserByCedulaSpec(users: Directory, cedula: string)
    ensures Trim(cedula) == "" ==> FindUserByCedula(users, cedula) == None
    ensures Trim(cedula) != "" ==> (FindUserByCedula(users, cedula).Some? <==> Trim(cedula) in users)
    ensures FindUserByCedula(users, cedula).Some? ==> FindUserByCedula(users, cedula).value == users[Trim(cedula)].id
  {
  }

  /** Blanks around a c\U{E9}dula in the sheet do not change who it finds. */
  lemma {:induction false} PaddedCedulaFindsSameUser(users: Directory, p: string, c: string, q: string)
    requires AllTrimSpace(p) && AllTrimSpace(q) && IsTrimmed(c)
    ensures FindUserByCedula(users, p + c + q) == FindUserByCedula(users, c)
  {
    TrimOfPadded(p, c, q);
    TrimTrimmed(c);
  }

  /** `$user_id` is truthy: a user was found and its id is not 0. */
  predicate Linked(users: Directory, cedula: string) {
    var u := FindUserByCedula(users, cedula);
    u.Some? && u.value != 0
  }

  /** The one entry build_artist_nested_repeater() returns for a row. */
  function PerformerOf(row: Row, users: Directory): Performer {
    var u := FindUserByCedula(users, row.cedula);
    Performer(
      nombreCompleto := if Truthy(row.performerName) then row.performerName else "",
      idDeUsuario := if u.Some? && u.value != 0 then NatToString(u.value) else "",
      instrumento := row.performerInstr,
      role := row.performerRole)
  }

  function NoUserWarning(cedula: string, rowNumber: nat): string {
    "No user found for c\U{E9}dula \"" + cedula + "\" (row " + NatToString(rowNumber)
    + "). Performer will be saved without user ID."
  }

  /** The warnings build_artist_nested_repeater() appends for a row. */
  function RowWarnings(row: Row, rowNumber: nat, users: Directory): seq<string> {
    if Linked(users, row.cedula) then [] else [NoUserWarning(row.cedula, rowNumber)]
  }

  /** The performer warnings of a group, the row number being the 1-based
      position within the group. */
  function PerformerWarnings(rows: seq<Row>, users: Directory): seq<string> {
    if rows == [] then []
    else PerformerWarnings(rows[..|rows| - 1], users) + RowWarnings(rows[|rows| - 1], |rows|, users)
  }

  /** A performer's user id is empty exactly when a warning is emitted for
      its row, and never more than one warning is. */
  lemma {:induction false} EmptyUserIdIffWarned(row: Row, rowNumber: nat, users: Directory)
    ensures PerformerOf(row, users).idDeUsuario == ""
        <==> RowWarnings(row, rowNumber, users) == [NoUserWarning(row.cedula, rowNumber)]
    ensures PerformerOf(row, users).idDeUsuario != "" <==> RowWarnings(row, rowNumber, users) == []
  {
  }

  /** A linked performer's user id is the decimal text of the user's id. */
  lemma {:induction false} LinkedUserIdReadsBack(row: Row, users: Directory)
    requires Linked(users, row.cedula)
    ensures IsDigits(PerformerOf(row, users).idDeUsuario)
    ensures DigitsValue(PerformerOf(row, users).idDeUsuario) == users[Trim(row.cedula)].id
  {
    NatToStringRoundTrip(users[Trim(row.cedula)].id);
  }

  /** An empty c\U{E9}dula is never looked up, yet its row is still warned
      about, even when the directory has an entry for "". */
  lemma {:induction false} EmptyCedulaWarns(row: Row, rowNumber: nat, users: Directory)
    requires Trim(row.cedula) == ""
    ensures RowWarnings(row, rowNumber, users) == [NoUserWarning(row.cedula, rowNumber)]
    ensures PerformerOf(row, users).idDeUsuario == ""
  {
  }

  /** One warning per unlinked row of a group. */
  function UnlinkedCount(rows: seq<Row>, users: Directory): nat {
    if rows == [] then 0
    else UnlinkedCount(rows[..|rows| - 1], users) + (if Linked(users, rows[|rows| - 1].cedula) then 0 else 1)
  }

  lemma {:induction false} PerformerWarningsCount(rows: seq<Row>, users: Directory)
    ensures |PerformerWarnings(rows, users)| == UnlinkedCount(rows, users)
  {
    if rows != [] {
      PerformerWarningsCount(rows[..|rows| - 1], users);
    }
  }

  // ---------------------------------------------------------------------
  // Songs

  /** The de-duplication key of build_song_repeater(): a plain
      concatenation, so different (title, work code) pairs can collide. */
  function SongKey(row: Row): string {
    row.trackTitle + "|" + row.obraCode
  }

  function SongKeys(rows: seq<Row>): (ks: seq<string>)
    ensures |ks| == |rows|
    ensures forall i :: 0 <= i < |rows| ==> ks[i] == SongKey(rows[i])
  {
    if rows == [] then [] else SongKeys(rows[..|rows| - 1]) + [SongKey(rows[|rows| - 1])]
  }

  /** build_artist_nested_repeater()'s entry for each row, as a function. */
  function EntryOf(users: Directory): Row -> Performer {
    row => PerformerOf(row, users)
  }

  /** The performer entries of some rows, one per row in row order; `perf`
      gives a row's entry (EntryOf(users) in the service). */
  function Performers(rs: seq<Row>, perf: Row -> Performer): (ps: seq<Performer>)
    ensures |ps| == |rs|
    ensures forall i :: 0 <= i < |rs| ==> ps[i] == perf(rs[i])
  {
    if rs == [] then [] else Performers(rs[..|rs| - 1], perf) + [perf(rs[|rs| - 1])]
  }

  /** A song: scalar fields from the first of its rows, one performer per
      row, in row order. */
  function SongOf(rs: seq<Row>, perf: Row -> Performer): Song
    requires rs != []
  {
    Song(
      tituloDeLaCancion := rs[0].trackTitle,
      isrc := rs[0].trackIsrc,
      bmat := rs[0].bmat,
      duracionEnSegundos := rs[0].duration,
      codigoDeObra := rs[0].obraCode,
      interpretesYEjecutantes := Performers(rs, perf))
  }

  predicate NonEmptyGroups(gs: seq<seq<Row>>) {
    forall j :: 0 <= j < |gs| ==> gs[j] != []
  }

  function SongsFrom(gs: seq<seq<Row>>, perf: Row -> Performer): (songs: seq<Song>)
    requires NonEmptyGroups(gs)
    ensures |songs| == |gs|
    ensures forall j :: 0 <= j < |gs| ==> songs[j] == SongOf(gs[j], perf)
  {
    if gs == [] then [] else SongsFrom(gs[..|gs| - 1], perf) + [SongOf(gs[|gs| - 1], perf)]
  }

  /** The song repeater of a group: one song per distinct song key, in
      first-occurrence order. */
  function SongsOf(rows: seq<Row>, perf: Row -> Performer): (songs: seq<Song>)
    ensures |songs| == |Distinct(SongKeys(rows))|
  {
    DistinctGroupsNonEmpty(rows, SongKeys(rows));
    SongsFrom(GroupsOf(rows, SongKeys(rows), Distinct(SongKeys(rows))), perf)
  }

  /** The first row with a given song key supplies that song's scalar
      fields; later rows with the key never overwrite them. */
  lemma {:induction false} FirstRowSuppliesSong(rows: seq<Row>, perf: Row -> Performer, f: nat, t: nat)
    requires f < |rows| && forall j :: 0 <= j < f ==> SongKey(rows[j]) != SongKey(rows[f])
    requires t < |Distinct(SongKeys(rows))| && Distinct(SongKeys(rows))[t] == SongKey(rows[f])
    ensures var s := SongsOf(rows, perf)[t];
      && s.tituloDeLaCancion == rows[f].trackTitle && s.isrc == rows[f].trackIsrc
      && s.bmat == rows[f].bmat && s.duracionEnSegundos == rows[f].duration
      && s.codigoDeObra == rows[f].obraCode
  {
    var ks := SongKeys(rows);
    assert forall j :: 0 <= j < f ==> ks[j] != ks[f];
    SelectHead(rows, ks, f);
  }

  /** Every row contributes its performer to the song of its key. */
  lemma {:induction false} EveryRowAddsItsPerformer(rows: seq<Row>, perf: Row -> Performer, i: nat, t: nat)
    requires i < |rows|
    requires t < |Distinct(SongKeys(rows))| && Distinct(SongKeys(rows))[t] == SongKey(rows[i])
    ensures perf(rows[i]) in SongsOf(rows, perf)[t].interpretesYEjecutantes
  {
    var ks := SongKeys(rows);
    SelectContains(rows, ks, i);
    var rs := Select(rows, ks, ks[i]);
    var k :| 0 <= k < |rs| && rs[k] == rows[i];
    assert Performers(rs, perf)[k] == perf(rows[i]);
  }

  function PerformerCount(songs: seq<Song>): nat {
    if songs == [] then 0
    else PerformerCount(songs[..|songs| - 1]) + |songs[|songs| - 1].interpretesYEjecutantes|
  }

  lemma {:induction false} PerformerCountOfSongs(gs: seq<seq<Row>>, perf: Row -> Performer)
    requires NonEmptyGroups(gs)
    ensures PerformerCount(SongsFrom(gs, perf)) == TotalSize(gs)
  {
    if gs != [] {
      var m := |gs| - 1;
      PerformerCountOfSongs(gs[..m], perf);
      assert SongsFrom(gs, perf)[..m] == SongsFrom(gs[..m], perf);
    }
  }

  /** Merging rows into songs loses no performer: the songs of a group hold
      one performer per row, and there are at most as many songs as rows. */
  lemma {:induction false} SongsHoldEveryPerformer(rows: seq<Row>, perf: Row -> Performer)
    ensures PerformerCount(SongsOf(rows, perf)) == |rows|
    ensures |SongsOf(rows, perf)| <= |rows|
    ensures rows != [] ==> |SongsOf(rows, perf)| >= 1
  {
    var ks := SongKeys(rows);
    assert PerformerCount(SongsOf(rows, perf)) == |rows| by {
      var ds := Distinct(ks);
      var gs := GroupsOf(rows, ks, ds);
      DistinctGroupsNonEmpty(rows, ks);
      assert SongsOf(rows, perf) == SongsFrom(gs, perf);
      TotalSizeOfGroups(rows, ks, ds);
      GroupsPartition(rows, ks);
      PerformerCountOfSongs(gs, perf);
    }
    if rows != [] {
      assert ks[0] in Distinct(ks);
    }
  }

  /** Because the key is a plain concatenation, the title "a|b" with no
      work code and the title "a" with work code "b|" become one song. */
  lemma {:induction false} SongKeysCollide(a: Row, b: Row, perf: Row -> Performer)
    requires a.trackTitle == "a|b" && a.obraCode == ""
    requires b.trackTitle == "a" && b.obraCode == "b|"
    ensures |SongsOf([a, b], perf)| == 1
    ensures SongsOf([a, b], perf)[0].interpretesYEjecutantes
         == [perf(a), perf(b)]
  {
    var ks := SongKeys([a, b]);
    assert SongKey(a) == "a|b|" == SongKey(b);
    assert ks == [SongKey(a), SongKey(a)];
    assert ks[..1] == [ks[0]];
    assert Distinct(ks[..1]) == [ks[0]];
    assert Distinct(ks) == [ks[0]];
    assert [a, b][..1] == [a];
    assert Select([a, b], ks, ks[0]) == [a, b];
  }

  // ---------------------------------------------------------------------
  // Releases

  /** wp_insert_post() succeeded: `is_wp_error($post_id) || ! $post_id`
      does not hold. */
  predicate Created(reply: Reply) {
    reply.PostId? && reply.id != 0
  }

  /** import() builds a fonograma exactly when the group's first row has a
      non-empty album id. */
  predicate IsAlbum(rows: seq<Row>)
    requires rows != []
  {
    rows[0].idAlbum != ""
  }

  function FonogramaTitle(first: Row): string {
    if Truthy(first.albumTitle) then first.albumTitle else first.trackTitle
  }

  /** `find_user_by_cedula(...) ?: 0`. */
  function Author(users: Directory, first: Row): nat {
    match FindUserByCedula(users, first.cedula)
    case Some(id) => id
    case None => 0
  }

  function FonogramaArgs(first: Row, users: Directory): PostArgs {
    PostArgs("fonograma", FonogramaTitle(first), "publish", Some(Author(users, first)))
  }

  function SencilloArgs(first: Row, users: Directory): PostArgs {
    PostArgs("sencillo", first.trackTitle, "publish", Some(Author(users, first)))
  }

  function FonogramaWarning(title: string): string {
    "Could not insert fonograma for album \"" + title + "\"."
  }

  function SencilloWarning(title: string): string {
    "Could not insert sencillo for track \"" + title + "\"."
  }

  /** import()'s own warning for a failed group; a falsy album id ("" or
      "0") is reported as "single". */
  function GroupWarning(first: Row): string {
    "Could not create post for group \"" + (if Truthy(first.idAlbum) then first.idAlbum else "single") + "\"."
  }

  /** The three top-level fields both builders set on a created post. */
  function TopLevelWrites(postId: nat, first: Row): seq<FieldWrite> {
    [ FieldWrite(postId, Key("ano_de_publicacion"), Text(first.year)),
      FieldWrite(postId, Key("nombre_del_artista_solista_o_agrupacion"), Text(first.artistName)),
      FieldWrite(postId, Key("numero_album_o_single"), Text(first.idAlbum)) ]
  }

  const SongsField := "nombre_de_cada_tema_del_album_o_sencillo"

  datatype Tally = Tally(albums: nat, singles: nat, songs: nat, performers: nat)

  /** Everything a stretch of the import does: counter increments, the
      warnings it appends, and the backend calls it makes, in order. */
  datatype Effects = Effects(tally: Tally, warnings: seq<string>, calls: seq<PostArgs>, writes: seq<FieldWrite>)

  const NoEffects := Effects(Tally(0, 0, 0, 0), [], [], [])

  /** Counter by counter sum, as `$summary[...] += ...` does. */
  function Plus(a: Tally, b: Tally): Tally {
    Tally(a.albums + b.albums, a.singles + b.singles, a.songs + b.songs, a.performers + b.performers)
  }

  function Then(a: Effects, b: Effects): Effects {
    Effects(Plus(a.tally, b.tally), a.warnings + b.warnings, a.calls + b.calls, a.writes + b.writes)
  }

  /** The post a group's builder inserts: build_fonograma() for a group
      whose first row has an album id, build_sencillo() otherwise. */
  function GroupArgs(rows: seq<Row>, users: Directory): PostArgs
    requires rows != []
  {
    if IsAlbum(rows) then FonogramaArgs(rows[0], users) else SencilloArgs(rows[0], users)
  }

  /** A group whose insert failed: the builder's warning and import()'s,
      and nothing else. */
  function FailedGroup(rows: seq<Row>, users: Directory): Effects
    requires rows != []
  {
    var title := GroupArgs(rows, users).title;
    var builderWarning := if IsAlbum(rows) then FonogramaWarning(title) else SencilloWarning(title);
    Effects(Tally(0, 0, 0, 0), [builderWarning, GroupWarning(rows[0])], [GroupArgs(rows, users)], [])
  }

  /** A group created as post `id`: one album or single, its songs and
      performers counted, the performer warnings, the top-level fields and
      the song repeater written. */
  function CreatedGroup(rows: seq<Row>, users: Directory, id: nat): Effects
    requires rows != []
  {
    var album := IsAlbum(rows);
    var songs := SongsOf(rows, EntryOf(users));
    Effects(
      Tally(if album then 1 else 0, if album then 0 else 1, |songs|, |rows|),
      PerformerWarnings(rows, users),
      [GroupArgs(rows, users)],
      TopLevelWrites(id, rows[0]) + [FieldWrite(id, Key(SongsField), SongRows(songs))])
  }

  /** One iteration of import()'s loop, given what wp_insert_post() answers. */
  function GroupEffects(rows: seq<Row>, users: Directory, reply: Reply): Effects
    requires rows != []
  {
    if Created(reply) then CreatedGroup(rows, users, reply.id) else FailedGroup(rows, users)
  }

  /** One iteration of import()'s loop as a step function: group `rows`
      gets the reply to insert call `c`. Groups are never empty; the empty
      case only makes the step total. */
  function Step(users: Directory, answer: nat -> Reply): (seq<Row>, nat) -> Effects {
    (rows: seq<Row>, c: nat) => if rows == [] then NoEffects else GroupEffects(rows, users, ReplyAt(answer, c))
  }

  /** `step` is import()'s loop body for these users and replies. Its
      instances are only taken where GroupEffects is mentioned. */
  ghost predicate IsStep(step: (seq<Row>, nat) -> Effects, users: Directory, answer: nat -> Reply) {
    forall rows: seq<Row>, c: nat {:trigger GroupEffects(rows, users, ReplyAt(answer, c))} ::
      rows != [] ==> step(rows, c) == GroupEffects(rows, users, ReplyAt(answer, c))
  }

  lemma {:induction false} StepIsStep(users: Directory, answer: nat -> Reply)
    ensures IsStep(Step(users, answer), users, answer)
  {
  }

  /** import()'s loop over the first `n` groups; group j is handled by
      `step` with insert call number c0 + j. */
  function Run(gs: seq<seq<Row>>, n: nat, step: (seq<Row>, nat) -> Effects, c0: nat): Effects
    requires n <= |gs|
  {
    if n == 0 then NoEffects else Then(Run(gs, n - 1, step, c0), step(gs[n - 1], c0 + n - 1))
  }

  /** One more group extends a run by that group's step. */
  lemma {:induction false} RunSnoc(gs: seq<seq<Row>>, n: nat, step: (seq<Row>, nat) -> Effects, c0: nat)
    requires n < |gs|
    ensures Run(gs, n + 1, step, c0) == Then(Run(gs, n, step, c0), step(gs[n], c0 + n))
  {
  }

  /** The whole of a successful import(). */
  function ImportEffects(cm: ColumnMap, sheet: seq<RawRow>, users: Directory, answer: nat -> Reply, c0: nat): Effects {
    var gs := ServiceGroups(SheetRows(cm, sheet));
    Run(gs, |gs|, Step(users, answer), c0)
  }

  /** How many of the first `n` groups were created. */
  function CreatedCount(answer: nat -> Reply, c0: nat, n: nat): nat {
    if n == 0 then 0
    else CreatedCount(answer, c0, n - 1) + (if Created(ReplyAt(answer, c0 + n - 1)) then 1 else 0)
  }

  /** How many rows the created groups among the first `n` hold. */
  function CreatedRows(gs: seq<seq<Row>>, answer: nat -> Reply, c0: nat, n: nat): nat
    requires n <= |gs|
  {
    if n == 0 then 0
    else CreatedRows(gs, answer, c0, n - 1) + (if Created(ReplyAt(answer, c0 + n - 1)) then |gs[n - 1]| else 0)
  }

  /** What one group's effects amount to, given its row count and whether
      its post was created. */
  predicate CountsOf(e: Effects, rowCount: nat, created: bool) {
    && e.tally.albums + e.tally.singles == (if created then 1 else 0)
    && e.tally.performers == (if created then rowCount else 0)
    && e.tally.songs <= e.tally.performers
    && |e.calls| == 1
    && |e.writes| == (if created then 4 else 0)
    && |e.warnings| >= (if created then 0 else 2)
  }

  /** A created group counts once, as album or as single, and counts one
      performer per row and at least one, at most one per row, song. */
  lemma {:induction false} CreatedGroupCounts(rows: seq<Row>, users: Directory, id: nat)
    requires rows != []
    ensures var e := CreatedGroup(rows, users, id);
      && e.tally.albums + e.tally.singles == 1
      && e.tally.performers == |rows| && 1 <= e.tally.songs <= |rows|
      && |e.calls| == 1 && |e.writes| == 4
  {
    SongsHoldEveryPerformer(rows, EntryOf(users));
  }

  /** The counters and traffic of one group. */
  lemma {:induction false} GroupEffectsCounts(rows: seq<Row>, users: Directory, reply: Reply)
    requires rows != []
    ensures CountsOf(GroupEffects(rows, users, reply), |rows|, Created(reply))
  {
    if Created(reply) {
      CreatedGroupCounts(rows, users, reply.id);
    }
  }

  /** What a run of the first `n` groups amounts to. */
  predicate RunCounts(e: Effects, gs: seq<seq<Row>>, answer: nat -> Reply, c0: nat, n: nat)
    requires n <= |gs|
  {
    && e.tally.albums + e.tally.singles == CreatedCount(answer, c0, n)
    && e.tally.performers == CreatedRows(gs, answer, c0, n)
    && e.tally.songs <= e.tally.performers
    && |e.calls| == n
    && |e.writes| == 4 * CreatedCount(answer, c0, n)
    && |e.warnings| >= 2 * (n - CreatedCount(answer, c0, n))
  }

  /** A run followed by one more group is a run one group longer. */
  lemma {:induction false} ThenCounts(a: Effects, b: Effects, gs: seq<seq<Row>>, answer: nat -> Reply, c0: nat, n: nat)
    requires n < |gs|
    requires RunCounts(a, gs, answer, c0, n)
    requires CountsOf(b, |gs[n]|, Created(ReplyAt(answer, c0 + n)))
    ensures RunCounts(Then(a, b), gs, answer, c0, n + 1)
  {
    CreatedCountBound(answer, c0, n);
  }

  /** A run of steps that each satisfy CountsOf amounts to RunCounts. */
  lemma {:induction false} RunCountsOfSteps(gs: seq<seq<Row>>, n: nat, step: (seq<Row>, nat) -> Effects, answer: nat -> Reply, c0: nat)
    requires n <= |gs|
    requires forall j :: 0 <= j < n ==> CountsOf(step(gs[j], c0 + j), |gs[j]|, Created(ReplyAt(answer, c0 + j)))
    ensures RunCounts(Run(gs, n, step, c0), gs, answer, c0, n)
  {
    if n > 0 {
      RunCountsOfSteps(gs, n - 1, step, answer, c0);
      ThenCounts(Run(gs, n - 1, step, c0), step(gs[n - 1], c0 + n - 1), gs, answer, c0, n - 1);
    }
  }

  /** The counters and traffic of import()'s loop: every created group
      counts once as album or single and contributes one performer per row;
      there is one insert call per group, four writes per created group and
      none for a failed one, which instead leaves at least two warnings. */
  lemma {:induction false} RunGroupsCounts(gs: seq<seq<Row>>, n: nat, users: Directory, answer: nat -> Reply, c0: nat)
    requires NonEmptyGroups(gs) && n <= |gs|
    ensures RunCounts(Run(gs, n, Step(users, answer), c0), gs, answer, c0, n)
  {
    var step := Step(users, answer);
    forall j | 0 <= j < n
      ensures CountsOf(step(gs[j], c0 + j), |gs[j]|, Created(ReplyAt(answer, c0 + j)))
    {
      GroupEffectsCounts(gs[j], users, ReplyAt(answer, c0 + j));
    }
    RunCountsOfSteps(gs, n, step, answer, c0);
  }

  lemma {:induction false} CreatedCountBound(answer: nat -> Reply, c0: nat, n: nat)
    ensures CreatedCount(answer, c0, n) <= n
  {
    if n > 0 {
      CreatedCountBound(answer, c0, n - 1);
    }
  }
}
