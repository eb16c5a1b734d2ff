/** The import service: one object holding the column map, the backend it
    writes to, and the list of warnings that every import() starts afresh.
    Each method is proved to do what the functions of ServiceSpec say. */
module Importer {
  import opened Strings
  import opened Records
  import opened WordPress
  import opened Grouping
  import opened ServiceSpec

  /** The array import() returns. */
  datatype Summary = Summary(
    albumsCreated: nat,
    singlesCreated: nat,
    songsCreated: nat,
    performersCreated: nat,
    warnings: seq<string>)

  /** The summary a successful import() returns for the given effects. */
  function SummaryOf(e: Effects): Summary {
    Summary(e.tally.albums, e.tally.singles, e.tally.songs, e.tally.performers, e.warnings)
  }

  /** What the summary of a whole import reports: one album or single per
      created post and never more than there are groups, one performer per
      row of a created group, no more songs than performers, and at least
      two warnings for every group whose post was not created. */
  lemma {:induction false} ImportSummaryCounts(cm: ColumnMap, sheet: seq<RawRow>, users: Directory, answer: nat -> Reply, c0: nat)
    ensures var gs := ServiceGroups(SheetRows(cm, sheet));
      var s := SummaryOf(ImportEffects(cm, sheet, users, answer, c0));
      && s.albumsCreated + s.singlesCreated == CreatedCount(answer, c0, |gs|)
      && s.albumsCreated + s.singlesCreated <= |gs|
      && s.performersCreated == CreatedRows(gs, answer, c0, |gs|)
      && s.songsCreated <= s.performersCreated
      && |s.warnings| >= 2 * (|gs| - CreatedCount(answer, c0, |gs|))
  {
    var gs := ServiceGroups(SheetRows(cm, sheet));
    RunGroupsCounts(gs, |gs|, users, answer, c0);
    CreatedCountBound(answer, c0, |gs|);
  }

  // ---------------------------------------------------------------------
  // Facts about one more row, used by the loops below

  lemma {:induction false} GroupKeysSnoc(rows: seq<Row>, i: nat)
    requires i < |rows|
    ensures rows[..i + 1] == rows[..i] + [rows[i]]
    ensures GroupKeys(rows[..i + 1]) == GroupKeys(rows[..i]) + [GroupKey(rows[i], i)]
  {
    assert rows[..i + 1] == rows[..i] + [rows[i]];
  }

  lemma {:induction false} SongKeysSnoc(rows: seq<Row>, i: nat)
    requires i < |rows|
    ensures rows[..i + 1] == rows[..i] + [rows[i]]
    ensures SongKeys(rows[..i + 1]) == SongKeys(rows[..i]) + [SongKey(rows[i])]
  {
    assert rows[..i + 1] == rows[..i] + [rows[i]];
  }

  lemma {:induction false} PerformerWarningsSnoc(rows: seq<Row>, i: nat, users: Directory)
    requires i < |rows|
    ensures PerformerWarnings(rows[..i + 1], users)
         == PerformerWarnings(rows[..i], users) + RowWarnings(rows[i], i + 1, users)
  {
    assert rows[..i + 1][..i] == rows[..i];
  }

  /** A further row with the key of an existing song adds its performer to
      that song and changes nothing else in it. */
  lemma {:induction false} SongOfSnoc(rs: seq<Row>, row: Row, perf: Row -> Performer)
    requires rs != []
    ensures SongOf(rs + [row], perf)
         == SongOf(rs, perf).(interpretesYEjecutantes := SongOf(rs, perf).interpretesYEjecutantes + [perf(row)])
  {
    assert (rs + [row])[..|rs|] == rs;
  }

  /** The state of build_song_repeater()'s loop: the song keys in the
      order they were first seen, and the song merged so far for each. */
  datatype Merge = Merge(order: seq<string>, byKey: map<string, Song>)

  /** One iteration of that loop: a row whose key is new opens a song with
      the row's scalar fields and no performers; the row's performer entry
      `p` is then appended to the song of its key. */
  function MergeRow(m: Merge, row: Row, p: Performer): Merge {
    var k := SongKey(row);
    var m1 := if k in m.byKey then m
      else Merge(m.order + [k], m.byKey[k := Song(row.trackTitle, row.trackIsrc, row.bmat, row.duration, row.obraCode, [])]);
    var song := m1.byKey[k];
    Merge(m1.order, m1.byKey[k := song.(interpretesYEjecutantes := song.interpretesYEjecutantes + [p])])
  }

  /** The loop run over `rows`. */
  function MergeRows(rows: seq<Row>, perf: Row -> Performer): Merge {
    if rows == [] then Merge([], map[])
    else MergeRow(MergeRows(rows[..|rows| - 1], perf), rows[|rows| - 1], perf(rows[|rows| - 1]))
  }

  lemma {:induction false} MergeRowsSnoc(rows: seq<Row>, i: nat, perf: Row -> Performer)
    requires i < |rows|
    ensures MergeRows(rows[..i + 1], perf) == MergeRow(MergeRows(rows[..i], perf), rows[i], perf(rows[i]))
  {
    assert rows[..i + 1][..i] == rows[..i];
  }

  /** What the merge holds after `rows`: one song per distinct song key,
      in first-seen order, each the SongOf the rows carrying its key. */
  ghost predicate MergedSongs(rows: seq<Row>, perf: Row -> Performer, m: Merge) {
    && m.order == Distinct(SongKeys(rows))
    && (forall k :: k in m.byKey <==> k in m.order)
    && (forall k :: k in m.byKey ==> m.byKey[k] == SongOf(Select(rows, SongKeys(rows), k), perf))
  }

  /** A row leaves the songs of other keys as they were. */
  lemma {:induction false} MergeKeepsOtherSong(rs: seq<Row>, row: Row, perf: Row -> Performer, m: Merge, j: string)
    requires MergedSongs(rs, perf, m)
    requires j in MergeRow(m, row, perf(row)).byKey && j != SongKey(row)
    ensures MergeRow(m, row, perf(row)).byKey[j] == SongOf(Select(rs + [row], SongKeys(rs) + [SongKey(row)], j), perf)
  {
    SelectSnoc(rs, SongKeys(rs), row, SongKey(row), j);
  }

  /** A row of a song already seen appends its performer to that song. */
  lemma {:induction false} MergeExtendsSong(rs: seq<Row>, row: Row, perf: Row -> Performer, m: Merge)
    requires MergedSongs(rs, perf, m)
    requires SongKey(row) in m.byKey
    ensures MergeRow(m, row, perf(row)).byKey[SongKey(row)] == SongOf(Select(rs + [row], SongKeys(rs) + [SongKey(row)], SongKey(row)), perf)
  {
    var ks := SongKeys(rs);
    var k := SongKey(row);
    SelectSnoc(rs, ks, row, k, k);
    SongOfSnoc(Select(rs, ks, k), row, perf);
  }

  /** A row of a new song opens it with the row's track fields and its
      performer. */
  lemma {:induction false} MergeOpensSong(rs: seq<Row>, row: Row, perf: Row -> Performer, m: Merge)
    requires MergedSongs(rs, perf, m)
    requires SongKey(row) !in m.byKey
    ensures MergeRow(m, row, perf(row)).byKey[SongKey(row)] == SongOf(Select(rs + [row], SongKeys(rs) + [SongKey(row)], SongKey(row)), perf)
  {
    var ks := SongKeys(rs);
    var k := SongKey(row);
    SelectSnoc(rs, ks, row, k, k);
    assert Performers([row], perf) == [perf(row)];
  }

  /** One more row keeps MergedSongs. */
  lemma {:induction false} MergeRowKeeps(rs: seq<Row>, row: Row, perf: Row -> Performer, m: Merge)
    requires MergedSongs(rs, perf, m)
    ensures MergedSongs(rs + [row], perf, MergeRow(m, row, perf(row)))
  {
    var ks := SongKeys(rs);
    var k := SongKey(row);
    var rows := rs + [row];
    var m' := MergeRow(m, row, perf(row));
    assert SongKeys(rows) == ks + [k] by {
      assert rows[..|rs|] == rs;
    }
    DistinctSnoc(ks, k);
    assert m'.order == Distinct(ks + [k]);
    assert forall j :: j in m'.byKey <==> j in m'.order;
    forall j | j in m'.byKey
      ensures m'.byKey[j] == SongOf(Select(rows, ks + [k], j), perf)
    {
      if j != k {
        MergeKeepsOtherSong(rs, row, perf, m, j);
      } else if k in m.byKey {
        MergeExtendsSong(rs, row, perf, m);
      } else {
        MergeOpensSong(rs, row, perf, m);
      }
    }
  }

  /** The merge loop computes exactly the songs SongsOf describes. */
  lemma {:induction false} MergeRowsSpec(rows: seq<Row>, perf: Row -> Performer)
    ensures MergedSongs(rows, perf, MergeRows(rows, perf))
  {
    if rows != [] {
      var n := |rows| - 1;
      var rs := rows[..n];
      assert rs + [rows[n]] == rows;
      MergeRowsSpec(rs, perf);
      MergeRowKeeps(rs, rows[n], perf, MergeRows(rs, perf));
    }
  }

  /** The merged songs in key order: array_values() of the `$songs` map. */
  function ReadOut(m: Merge): seq<Song>
    requires forall k :: k in m.order ==> k in m.byKey
  {
    seq(|m.order|, j requires 0 <= j < |m.order| => m.byKey[m.order[j]])
  }

  /** Song by song, the merged songs in key order are SongsOf. */
  lemma {:induction false} MergedByIndex(rows: seq<Row>, perf: Row -> Performer, m: Merge)
    requires MergedSongs(rows, perf, m)
    ensures |m.order| == |SongsOf(rows, perf)|
    ensures forall j :: 0 <= j < |m.order| ==> m.order[j] in m.byKey && m.byKey[m.order[j]] == SongsOf(rows, perf)[j]
  {
    var ks := SongKeys(rows);
    var gs := GroupsOf(rows, ks, m.order);
    forall j | 0 <= j < |gs|
      ensures m.order[j] in m.byKey && gs[j] != [] && m.byKey[m.order[j]] == SongOf(gs[j], perf)
    {
      assert m.order[j] in m.order;
    }
    var songs := SongsFrom(gs, perf);
    assert SongsOf(rows, perf) == songs;
  }

  /** Reading the merged songs out in key order gives SongsOf. */
  lemma {:induction false} MergedInOrder(rows: seq<Row>, perf: Row -> Performer, m: Merge)
    requires MergedSongs(rows, perf, m)
    ensures forall k :: k in m.order ==> k in m.byKey
    ensures ReadOut(m) == SongsOf(rows, perf)
  {
    MergedByIndex(rows, perf, m);
    var songs := SongsOf(rows, perf);
    forall k | k in m.order
      ensures k in m.byKey
    {
    }
    var r := ReadOut(m);
    forall j | 0 <= j < |r|
      ensures r[j] == songs[j]
    {
    }
  }

  /** The keys and members of group_rows_by_album_id(), read in key order,
      are ServiceGroups. */
  lemma {:induction false} GroupedInKeyOrder(rows: seq<Row>, keys: seq<string>, members: map<string, seq<Row>>)
    requires keys == Distinct(GroupKeys(rows))
    requires forall k :: k in members <==> k in keys
    requires forall k :: k in members ==> members[k] == Select(rows, GroupKeys(rows), k)
    ensures |keys| == |ServiceGroups(rows)|
    ensures forall j :: 0 <= j < |keys| ==> keys[j] in members && members[keys[j]] == ServiceGroups(rows)[j]
  {
    var gs := ServiceGroups(rows);
    forall j | 0 <= j < |keys|
      ensures keys[j] in members && members[keys[j]] == gs[j]
    {
      assert keys[j] in keys;
    }
  }

  class ImporterService {
    /** Logical field name to column letter. */
    const columnMap: ColumnMap
    /** The WordPress installation the posts and fields go to. */
    const wp: Backend
    /** The non-fatal warnings of the current import. */
    var warnings: seq<string>

    constructor (columnMap: ColumnMap, wp: Backend)
      ensures this.columnMap == columnMap && this.wp == wp
      ensures warnings == []
    {
      this.columnMap := columnMap;
      this.wp := wp;
      warnings := [];
    }

    /** import(): the two file checks, then parse, group, and build one
        post per group, skipping a group whose insert fails. A failed
        check changes nothing but the (emptied) warnings; otherwise the
        summary, the warnings and the backend traffic are exactly those of
        ImportEffects. */
    method Import(filePath: string, fileExists: bool, sheet: seq<RawRow>) returns (r: Result<Summary>)
      modifies this, wp
      ensures FileGuard(filePath, fileExists).Some? ==>
        && r == Failure(FileGuard(filePath, fileExists).value)
        && warnings == []
        && wp.calls == old(wp.calls) && wp.writes == old(wp.writes)
      ensures FileGuard(filePath, fileExists).None? ==>
        var e := ImportEffects(columnMap, sheet, wp.users, wp.answer, |old(wp.calls)|);
        && r == Success(SummaryOf(e))
        && warnings == e.warnings
        && wp.calls == old(wp.calls) + e.calls
        && wp.writes == old(wp.writes) + e.writes
    {
      warnings := [];
      if !fileExists {
        return Failure("File not found: " + filePath);
      }
      var extension := Lower(Extension(filePath));
      if extension != "xlsx" {
        return Failure(NotXlsx);
      }

      var rows := ParseExcelRows(sheet);
      var keys, members := GroupRowsByAlbumId(rows);
      GroupedInKeyOrder(rows, keys, members);
      ghost var gs := ServiceGroups(rows);
      ghost var step := Step(wp.users, wp.answer);
      StepIsStep(wp.users, wp.answer);
      ghost var e := ImportEffects(columnMap, sheet, wp.users, wp.answer, |wp.calls|);
      assert e == Run(gs, |gs|, step, |wp.calls|);
      var t := ImportGroups(keys, members, gs, step);
      assert t == e.tally;
      assert warnings == e.warnings;
      assert Summary(t.albums, t.singles, t.songs, t.performers, warnings) == SummaryOf(e);
      assert e == ImportEffects(columnMap, sheet, wp.users, wp.answer, |old(wp.calls)|);
      r := Success(Summary(t.albums, t.singles, t.songs, t.performers, warnings));
    }

    /** import()'s loop over the groups, in key order: each group is
        handled by ImportGroup and its counts added to the running totals.
        The totals, the warnings and the backend traffic are those of Run
        over the groups. */
    method ImportGroups(keys: seq<string>, members: map<string, seq<Row>>, ghost gs: seq<seq<Row>>, ghost step: (seq<Row>, nat) -> Effects) returns (t: Tally)
      requires |keys| == |gs| && NonEmptyGroups(gs)
      requires forall j :: 0 <= j < |keys| ==> keys[j] in members && members[keys[j]] == gs[j]
      requires IsStep(step, wp.users, wp.answer)
      modifies this, wp
      ensures var e := Run(gs, |gs|, step, |old(wp.calls)|);
        && t == e.tally && warnings == old(warnings) + e.warnings
        && wp.calls == old(wp.calls) + e.calls && wp.writes == old(wp.writes) + e.writes
    {
      ghost var c0 := |wp.calls|;
      t := Tally(0, 0, 0, 0);
      for j := 0 to |keys|
        invariant |wp.calls| == c0 + j
        invariant var e := Run(gs, j, step, c0);
          && t == e.tally
          && warnings == old(warnings) + e.warnings
          && wp.calls == old(wp.calls) + e.calls
          && wp.writes == old(wp.writes) + e.writes
      {
        var groupRows := members[keys[j]];
        ghost var e := Run(gs, j, step, c0);
        ghost var g := step(gs[j], c0 + j);
        RunSnoc(gs, j, step, c0);
        var u := ImportGroup(groupRows, step);
        AppendAssoc(old(warnings), e.warnings, g.warnings);
        AppendAssoc(old(wp.calls), e.calls, g.calls);
        AppendAssoc(old(wp.writes), e.writes, g.writes);
        t := Plus(t, u);
      }
    }

    /** The body of import()'s loop for one group: build the post its
        first row's album id calls for; when the insert fails, warn and
        skip the group; otherwise count the album or single and build the
        song repeater. Its effects are exactly GroupEffects. */
    method ImportGroup(groupRows: seq<Row>, ghost step: (seq<Row>, nat) -> Effects) returns (t: Tally)
      requires groupRows != [] && IsStep(step, wp.users, wp.answer)
      modifies this, wp
      ensures |wp.calls| == |old(wp.calls)| + 1
      ensures var g := step(groupRows, |old(wp.calls)|);
        && t == g.tally && warnings == old(warnings) + g.warnings
        && wp.calls == old(wp.calls) + g.calls && wp.writes == old(wp.writes) + g.writes
    {
      ghost var g := GroupEffects(groupRows, wp.users, ReplyAt(wp.answer, |wp.calls|));
      var isAlbum := groupRows[0].idAlbum != "";
      var postId: nat;
      if isAlbum {
        postId := BuildFonograma(groupRows);
      } else {
        postId := BuildSencillo(groupRows);
      }
      if postId == 0 {
        AppendAssoc(old(warnings), warnings[|old(warnings)|..], [GroupWarning(groupRows[0])]);
        warnings := warnings + [GroupWarning(groupRows[0])];
        return Tally(0, 0, 0, 0);
      }
      AppendAssoc(old(wp.writes), wp.writes[|old(wp.writes)|..], [FieldWrite(postId, Key(SongsField), SongRows(SongsOf(groupRows, EntryOf(wp.users))))]);
      var s, p := BuildSongRepeater(groupRows, postId);
      t := Tally(if isAlbum then 1 else 0, if isAlbum then 0 else 1, s, p);
    }

    /** parse_excel_rows(): every sheet row but row 1 becomes one record,
        in sheet order, read from that row alone. */
    method ParseExcelRows(sheet: seq<RawRow>) returns (rows: seq<Row>)
      ensures rows == SheetRows(columnMap, sheet)
      ensures |rows| == if sheet == [] then 0 else |sheet| - 1
      ensures forall k :: 0 <= k < |rows| ==> rows[k] == RowOf(columnMap, sheet[k + 1])
    {
      rows := [];
      for index := 0 to |sheet|
        invariant |rows| == if index == 0 then 0 else index - 1
        invariant forall k :: 0 <= k < |rows| ==> rows[k] == RowOf(columnMap, sheet[k + 1])
      {
        if index + 1 == 1 {
          // sheet row 1 is the header
          continue;
        }
        rows := rows + [RowOf(columnMap, sheet[index])];
      }
    }

    /** group_rows_by_album_id(): the keys in first-seen order, and for each
        key the rows that carry it, in their original order. */
    method GroupRowsByAlbumId(rows: seq<Row>) returns (keys: seq<string>, members: map<string, seq<Row>>)
      ensures keys == Distinct(GroupKeys(rows))
      ensures forall k :: k in members <==> k in keys
      ensures forall k :: k in members ==> members[k] == Select(rows, GroupKeys(rows), k)
    {
      keys, members := [], map[];
      ghost var ks := GroupKeys(rows);
      for idx := 0 to |rows|
        invariant GroupedPrefix(rows, ks, idx, keys, members)
      {
        var row := rows[idx];
        var albumId := row.idAlbum;
        if albumId == "" {
          var singleKey := if Truthy(row.obraCode) then row.obraCode else NatToString(idx);
          albumId := "single-" + singleKey;
        }
        assert albumId == ks[idx];
        GroupedStep(rows, ks, idx, keys, members);
        if albumId !in members {
          members := members[albumId := []];
          keys := keys + [albumId];
        }
        members := members[albumId := members[albumId] + [row]];
      }
      GroupedAll(rows, ks, keys, members);
    }

    /** build_fonograma(): insert a fonograma titled by the first row's album
        title (its track title when that is falsy), owned by the first
        row's performer or by 0; on success write the three top-level
        fields and return the id, on failure warn and return 0. */
    method BuildFonograma(rows: seq<Row>) returns (postId: nat)
      requires rows != []
      modifies this, wp
      ensures wp.calls == old(wp.calls) + [FonogramaArgs(rows[0], wp.users)]
      ensures var reply := ReplyAt(wp.answer, |old(wp.calls)|);
        && postId == (if Created(reply) then reply.id else 0)
        && (Created(reply) ==> warnings == old(warnings) && wp.writes == old(wp.writes) + TopLevelWrites(reply.id, rows[0]))
        && (!Created(reply) ==> warnings == old(warnings) + [FonogramaWarning(FonogramaTitle(rows[0]))] && wp.writes == old(wp.writes))
    {
      var first := rows[0];
      var postTitle := if Truthy(first.albumTitle) then first.albumTitle else first.trackTitle;
      var author := FindUserByCedula(wp.users, first.cedula);
      var reply := wp.InsertPost(PostArgs("fonograma", postTitle, "publish", Some(if author.Some? then author.value else 0)));
      if reply.WpError? || reply.id == 0 {
        warnings := warnings + [FonogramaWarning(postTitle)];
        return 0;
      }
      WriteTopLevelFields(reply.id, first);
      postId := reply.id;
    }

    /** build_sencillo(): as build_fonograma(), with the first row's track
        title as the title and the sencillo post type and warning. */
    method BuildSencillo(rows: seq<Row>) returns (postId: nat)
      requires rows != []
      modifies this, wp
      ensures wp.calls == old(wp.calls) + [SencilloArgs(rows[0], wp.users)]
      ensures var reply := ReplyAt(wp.answer, |old(wp.calls)|);
        && postId == (if Created(reply) then reply.id else 0)
        && (Created(reply) ==> warnings == old(warnings) && wp.writes == old(wp.writes) + TopLevelWrites(reply.id, rows[0]))
        && (!Created(reply) ==> warnings == old(warnings) + [SencilloWarning(rows[0].trackTitle)] && wp.writes == old(wp.writes))
    {
      var first := rows[0];
      var postTitle := first.trackTitle;
      var author := FindUserByCedula(wp.users, first.cedula);
      var reply := wp.InsertPost(PostArgs("sencillo", postTitle, "publish", Some(if author.Some? then author.value else 0)));
      if reply.WpError? || reply.id == 0 {
        warnings := warnings + [SencilloWarning(postTitle)];
        return 0;
      }
      WriteTopLevelFields(reply.id, first);
      postId := reply.id;
    }

    /** The three top-level writes that build_fonograma() and
        build_sencillo() share, all taken from the group's first row. */
    method WriteTopLevelFields(postId: nat, first: Row)
      modifies wp
      ensures wp.writes == old(wp.writes) + TopLevelWrites(postId, first)
      ensures wp.calls == old(wp.calls)
    {
      wp.UpdateField(Key("ano_de_publicacion"), Text(first.year), postId);
      wp.UpdateField(Key("nombre_del_artista_solista_o_agrupacion"), Text(first.artistName), postId);
      wp.UpdateField(Key("numero_album_o_single"), Text(first.idAlbum), postId);
    }

    /** build_song_repeater(): merge the rows into one song per song key,
        write the songs as the post's song repeater, and count songs and
        performers. */
    method BuildSongRepeater(rows: seq<Row>, postId: nat) returns (songs: nat, performers: nat)
      modifies this, wp
      ensures songs == |Distinct(SongKeys(rows))| && performers == |rows|
      ensures warnings == old(warnings) + PerformerWarnings(rows, wp.users)
      ensures wp.writes == old(wp.writes) + [FieldWrite(postId, Key(SongsField), SongRows(SongsOf(rows, EntryOf(wp.users))))]
      ensures wp.calls == old(wp.calls)
    {
      var order: seq<string> := [];
      var byKey: map<string, Song> := map[];
      ghost var perf := EntryOf(wp.users);
      var performersTotal := 0;
      for index := 0 to |rows|
        invariant Merge(order, byKey) == MergeRows(rows[..index], perf)
        invariant performersTotal == index
        invariant warnings == old(warnings) + PerformerWarnings(rows[..index], wp.users)
        invariant wp.calls == old(wp.calls) && wp.writes == old(wp.writes)
      {
        var row := rows[index];
        var songKey := row.trackTitle + "|" + row.obraCode;
        MergeRowsSnoc(rows, index, perf);
        PerformerWarningsSnoc(rows, index, wp.users);
        if songKey !in byKey {
          byKey := byKey[songKey := Song(row.trackTitle, row.trackIsrc, row.bmat, row.duration, row.obraCode, [])];
          order := order + [songKey];
        }
        AppendAssoc(old(warnings), PerformerWarnings(rows[..index], wp.users), RowWarnings(row, index + 1, wp.users));
        var ps := BuildArtistNestedRepeater(row, index + 1);
        var song := byKey[songKey];
        byKey := byKey[songKey := song.(interpretesYEjecutantes := song.interpretesYEjecutantes + ps)];
        performersTotal := performersTotal + |ps|;
      }
      assert rows[..|rows|] == rows;
      MergeRowsSpec(rows, perf);
      MergedInOrder(rows, perf, Merge(order, byKey));
      var repeaterRows := ReadOut(Merge(order, byKey));
      wp.UpdateField(Key(SongsField), SongRows(repeaterRows), postId);
      songs, performers := |repeaterRows|, performersTotal;
    }

    /** build_artist_nested_repeater(): exactly one performer entry for the
        row, plus a warning when its c\U{E9}dula resolves to no user. */
    method BuildArtistNestedRepeater(row: Row, rowNumber: nat) returns (performers: seq<Performer>)
      modifies this
      ensures performers == [PerformerOf(row, wp.users)]
      ensures warnings == old(warnings) + RowWarnings(row, rowNumber, wp.users)
    {
      var userId := FindUserByCedula(wp.users, row.cedula);
      var linked := userId.Some? && userId.value != 0;
      if !linked {
        warnings := warnings + [NoUserWarning(row.cedula, rowNumber)];
      }
      performers := [Performer(
        nombreCompleto := if Truthy(row.performerName) then row.performerName else "",
        idDeUsuario := if linked then NatToString(userId.value) else "",
        instrumento := row.performerInstr,
        role := row.performerRole)];
    }
  }
}
