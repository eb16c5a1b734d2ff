/** The WP-CLI command `wp aie import <file>`, step by step: group the
    sheet's rows by album id, then create one post per group with its
    top-level fields and its track repeater. Each method is proved to do
    what the functions of CliSpec describe. */
module Cli {
  import opened Strings
  import opened Records
  import opened WordPress
  import opened Grouping
  import opened CliSpec

  /** The command: halt when the file is missing; otherwise group the rows
      and process the groups in first-seen order. Its output and backend
      traffic are exactly those of CommandOutcome and CommandEffects. */
  method AieImport(file: string, fileExists: bool, sheet: seq<RawRow>, wp: Backend) returns (r: Outcome)
    modifies wp
    ensures r == CommandOutcome(file, fileExists, sheet, wp.users, wp.answer, |old(wp.calls)|)
    ensures !fileExists ==> wp.calls == old(wp.calls) && wp.writes == old(wp.writes)
    ensures fileExists ==>
      var e := CommandEffects(sheet, wp.users, wp.answer, |old(wp.calls)|);
      wp.calls == old(wp.calls) + e.calls && wp.writes == old(wp.writes) + e.writes
  {
    if !fileExists {
      return Halted("File not found: " + file);
    }
    var ids, groups, dropLines := GroupByAlbumId(sheet);
    ghost var gs := CliGroups(sheet);
    GroupsInIdOrder(sheet, ids, groups);
    ghost var step := Step(wp.users, wp.answer);
    StepIsStep(wp.users, wp.answer);
    GroupsNonEmpty(sheet);
    ghost var c0 := |wp.calls|;
    var lines := ProcessGroups(ids, groups, gs, step, wp);
    ghost var run := Run(ids, gs, |ids|, step, c0).effects;
    LinesFirst(DropLines(sheet), run);
    r := Finished(dropLines + lines);
  }

  /** The groups of GroupByAlbumId, read out in key order, are CliGroups. */
  lemma {:induction false} GroupsInIdOrder(sheet: seq<RawRow>, ids: seq<string>, groups: map<string, seq<RawRow>>)
    requires ids == GroupIds(sheet)
    requires forall k :: k in groups <==> k in ids
    requires forall k :: k in groups ==> groups[k] == Select(Kept(sheet), AlbumIds(Kept(sheet)), k)
    ensures forall j :: 0 <= j < |ids| ==> ids[j] in groups && groups[ids[j]] == CliGroups(sheet)[j]
  {
    forall j | 0 <= j < |ids|
      ensures ids[j] in groups && groups[ids[j]] == CliGroups(sheet)[j]
    {
      assert ids[j] in ids;
    }
  }

  /** The grouping loop: skip sheet row 1, drop each row whose trimmed
      album id is falsy with a warning naming its sheet row, and append
      every other row to the group of its id. */
  method GroupByAlbumId(sheet: seq<RawRow>) returns (ids: seq<string>, groups: map<string, seq<RawRow>>, lines: seq<Line>)
    ensures ids == GroupIds(sheet)
    ensures forall k :: k in groups <==> k in ids
    ensures forall k :: k in groups ==> groups[k] == Select(Kept(sheet), AlbumIds(Kept(sheet)), k)
    ensures lines == DropLines(sheet)
  {
    ids, groups, lines := [], map[], [];
    ghost var kept: seq<RawRow> := [];
    ghost var keptIds: seq<string> := [];
    for k := 0 to |sheet|
      invariant kept == Kept(sheet[..k]) && keptIds == AlbumIds(kept)
      invariant Grouped(kept, keptIds, ids, groups)
      invariant lines == DropLines(sheet[..k])
    {
      SheetSnoc(sheet, k);
      if k + 1 == 1 {
        // sheet row 1 is the header
        continue;
      }
      var r := sheet[k];
      var aid := At(r, IdAlbum);
      if !Truthy(aid) {
        lines := lines + [EmptyIdWarning(k + 1)];
        continue;
      }
      GroupedSnoc(kept, keptIds, r, aid, ids, groups);
      if aid !in groups {
        groups := groups[aid := []];
        ids := ids + [aid];
      }
      groups := groups[aid := groups[aid] + [r]];
      AlbumIdsSnoc(kept, r);
      kept, keptIds := kept + [r], keptIds + [aid];
    }
    assert sheet[..|sheet|] == sheet;
  }

  /** The loop over the groups, in key order. `repeaterKey` is the
      command's `$repeater_key`, which no group resets. The lines printed
      and the backend traffic are those of Run over the groups. */
  method ProcessGroups(ids: seq<string>, groups: map<string, seq<RawRow>>, ghost gs: seq<seq<RawRow>>,
                       ghost step: (string, seq<RawRow>, nat, FieldKey) -> Progress, wp: Backend) returns (lines: seq<Line>)
    requires |ids| == |gs| && forall j :: 0 <= j < |gs| ==> gs[j] != []
    requires forall j :: 0 <= j < |ids| ==> ids[j] in groups && groups[ids[j]] == gs[j]
    requires IsStep(step, wp.users, wp.answer)
    modifies wp
    ensures var e := Run(ids, gs, |ids|, step, |old(wp.calls)|).effects;
      && lines == e.lines
      && wp.calls == old(wp.calls) + e.calls && wp.writes == old(wp.writes) + e.writes
  {
    ghost var c0 := |wp.calls|;
    lines := [];
    var repeaterKey := UnsetKey;
    for j := 0 to |ids|
      invariant |wp.calls| == c0 + j
      invariant var p := Run(ids, gs, j, step, c0);
        && repeaterKey == p.repeaterKey
        && lines == p.effects.lines
        && wp.calls == old(wp.calls) + p.effects.calls
        && wp.writes == old(wp.writes) + p.effects.writes
    {
      var aid := ids[j];
      var items := groups[aid];
      ghost var e := Run(ids, gs, j, step, c0).effects;
      ghost var g := step(ids[j], gs[j], c0 + j, repeaterKey).effects;
      RunSnoc(ids, gs, j, step, c0);
      var groupLines;
      groupLines, repeaterKey := ProcessGroup(aid, items, step, repeaterKey, wp);
      AppendAssoc(old(wp.calls), e.calls, g.calls);
      AppendAssoc(old(wp.writes), e.writes, g.writes);
      lines := lines + groupLines;
    }
  }

  /** The body of the group loop for one group: choose the post type and
      title, look up the owner, insert the post; on an error warn and skip
      the group; otherwise write the four top-level fields and the track
      repeater and print the success line. Its effects, and the
      `$repeater_key` it leaves, are exactly GroupEffect. */
  method ProcessGroup(aid: string, items: seq<RawRow>, ghost step: (string, seq<RawRow>, nat, FieldKey) -> Progress,
                      prevKey: FieldKey, wp: Backend)
    returns (lines: seq<Line>, repeaterKey: FieldKey)
    requires items != [] && IsStep(step, wp.users, wp.answer)
    modifies wp
    ensures |wp.calls| == |old(wp.calls)| + 1
    ensures var g := step(aid, items, |old(wp.calls)|, prevKey);
      && lines == g.effects.lines && repeaterKey == g.repeaterKey
      && wp.calls == old(wp.calls) + g.effects.calls && wp.writes == old(wp.writes) + g.effects.writes
  {
    ghost var g := GroupEffect(aid, items, wp.users, ReplyAt(wp.answer, |wp.calls|), prevKey);
    var first := items[0];

    var albumEmptyInGroup := ScanAlbumTitles(items);
    var postType := if albumEmptyInGroup then "sencillo" else "fonograma";

    var ced := At(first, Cedula);
    var found := GetUsers(wp.users, ced);

    var postTitle := At(first, Title);
    if postTitle == "" {
      postTitle := ScanTrackTitles(items);
    }
    var author := if found.Some? then Some(found.value.id) else None;
    var reply := wp.InsertPost(PostArgs(postType, postTitle, "publish", author));
    if reply.WpError? {
      return [FailedLine(aid)], prevKey;
    }
    var postId := reply.id;

    WriteSimpleFields(postId, first, postType, wp);

    var tracks, rowLines;
    tracks, rowLines, repeaterKey := BuildTracks(aid, items, postType, wp.users, prevKey);
    ghost var repeaterWrite := FieldWrite(postId, repeaterKey, TrackRows(LayoutFor(postType), tracks));
    AppendAssoc(old(wp.writes), SimpleWrites(postId, first, postType), [repeaterWrite]);
    wp.UpdateField(repeaterKey, TrackRows(LayoutFor(postType), tracks), postId);
    lines := rowLines + [SuccessLine(postType, postTitle, postId)];
  }

  /** The four top-level writes, keyed by the post type's field keys. */
  method WriteSimpleFields(postId: nat, first: RawRow, postType: string, wp: Backend)
    modifies wp
    ensures wp.writes == old(wp.writes) + SimpleWrites(postId, first, postType)
    ensures wp.calls == old(wp.calls)
  {
    var keys := KeysFor(postType);
    wp.UpdateField(Key(keys.labelField), Text(At(first, Label)), postId);
    wp.UpdateField(Key(keys.yearField), Text(At(first, Year)), postId);
    wp.UpdateField(Key(keys.artistField), Text(At(first, ArtistName)), postId);
    wp.UpdateField(Key(keys.pubtypeField), Text(At(first, Tipo)), postId);
  }

  /** The kind scan: true iff no row has a non-empty trimmed album title;
      it stops at the first row that has one. */
  method ScanAlbumTitles(items: seq<RawRow>) returns (albumEmptyInGroup: bool)
    ensures albumEmptyInGroup <==> forall j :: 0 <= j < |items| ==> At(items[j], Title) == ""
  {
    albumEmptyInGroup := true;
    var j := 0;
    while j < |items|
      invariant 0 <= j <= |items|
      invariant albumEmptyInGroup
      invariant forall i :: 0 <= i < j ==> At(items[i], Title) == ""
    {
      var albumVal := At(items[j], Title);
      if albumVal != "" {
        albumEmptyInGroup := false;
        break;
      }
      j := j + 1;
    }
  }

  /** The title fallback: the first non-empty trimmed track title, or ""
      when there is none. */
  method ScanTrackTitles(items: seq<RawRow>) returns (title: string)
    ensures title == FirstTrackTitle(items)
  {
    title := "";
    var j := 0;
    while j < |items|
      invariant 0 <= j <= |items|
      invariant title == ""
      invariant FirstTrackTitle(items) == FirstTrackTitle(items[j..])
    {
      var candidate := At(items[j], TrackTitle);
      if candidate != "" {
        title := candidate;
        break;
      }
      assert items[j..][1..] == items[j + 1..];
      j := j + 1;
    }
  }

  /** The per-row loop: a row whose cédula matches no user is warned about
      and skipped; every other row becomes one track with one performer.
      Each kept row assigns the repeater key; when there is none it keeps
      the value `prevKey` it had before the loop. */
  method BuildTracks(aid: string, items: seq<RawRow>, postType: string, users: Directory, prevKey: FieldKey)
    returns (tracks: seq<CliTrack>, lines: seq<Line>, repeaterKey: FieldKey)
    ensures tracks == Tracks(items, users)
    ensures lines == TrackLines(aid, items, users)
    ensures repeaterKey == RepeaterTarget(items, users, postType, prevKey)
  {
    tracks, lines, repeaterKey := [], [], prevKey;
    for idx := 0 to |items|
      invariant tracks == Tracks(items[..idx], users)
      invariant lines == TrackLines(aid, items[..idx], users)
      invariant repeaterKey == RepeaterTarget(items[..idx], users, postType, prevKey)
    {
      assert items[..idx + 1][..idx] == items[..idx];
      var r := items[idx];
      var c := At(r, Cedula);
      var u := GetUsers(users, c);
      if u.None? {
        lines := lines + [NotFoundLine(aid, idx, c)];
        continue;
      }
      var user := u.value;
      var track := CliTrack(At(r, TrackTitle), At(r, TrackIsrc), At(r, TrackNumber), At(r, TrackDuration), At(r, Bmat),
        [CliPerformer(user.displayName, user.id, At(r, PerformerInstrument), At(r, PerformerRole))]);
      repeaterKey := Key(RepeaterFor(postType));
      tracks := tracks + [track];
    }
    assert items[..|items|] == items;
  }
}
