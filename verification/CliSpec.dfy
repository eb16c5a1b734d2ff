/** What the WP-CLI command `wp aie import <file>` computes, as pure
    functions of the sheet, the user directory and the replies of
    wp_insert_post(). It is an older variant of the import service with
    policies of its own: rows without an album id are dropped, the kind
    follows the album-title column, the title falls back to the first track
    title, and rows whose cédula matches no user are left out of the
    track repeater. The methods in CliImporter.dfy are proved to do exactly
    this; the lemmas here state what it amounts to. */
module CliSpec {
  import opened Strings
  import opened Records
  import opened WordPress
  import opened Grouping

  /** The keys of the command's column map (`$col`). */
  datatype Column =
    | IdAlbum | Title | Tipo | Label | Year | ArtistName | TrackTitle | TrackNumber
    | TrackIsrc | TrackDuration | Bmat | Cedula | PerformerName | PerformerInstrument | PerformerRole

  /** `$col`: the sheet column letter each key reads. */
  function Letter(c: Column): string {
    match c
    case IdAlbum => "L"
    case Title => "K"
    case Tipo => "I"
    case Label => "C"
    case Year => "P"
    case ArtistName => "N"
    case TrackTitle => "B"
    case TrackNumber => "A"
    case TrackIsrc => "M"
    case TrackDuration => "R"
    case Bmat => "E"
    case Cedula => "G"
    case PerformerName => "F"
    case PerformerInstrument => "J"
    case PerformerRole => "H"
  }

  /** `trim($r[$col[name]])`: the trimmed text of the named column, and ""
      for a cell that is missing or null. */
  function At(r: RawRow, c: Column): (s: string)
    ensures IsTrimmed(s)
  {
    if Letter(c) in r && r[Letter(c)].Scalar? then Trim(r[Letter(c)].text) else ""
  }

  /** A line printed through WP_CLI::warning() or WP_CLI::success(). */
  datatype Line = Warning(text: string) | Success(text: string)

  /** How a run ends: WP_CLI::error() halts it with a message; otherwise
      it finishes, having printed `lines`. */
  datatype Outcome = Halted(error: string) | Finished(lines: seq<Line>)

  // ---------------------------------------------------------------------
  // Grouping

  function AlbumIdOf(r: RawRow): string {
    At(r, IdAlbum)
  }

  /** The rows the grouping loop keeps, in sheet order: every row after
      sheet row 1 (the header) whose trimmed album id is truthy. Sheet row
      k + 1 is `sheet[k]`. */
  function Kept(sheet: seq<RawRow>): seq<RawRow> {
    if |sheet| <= 1 then []
    else
      var k := |sheet| - 1;
      Kept(sheet[..k]) + (if Truthy(AlbumIdOf(sheet[k])) then [sheet[k]] else [])
  }

  function EmptyIdWarning(rowNumber: nat): Line {
    Warning("Row " + NatToString(rowNumber) + ": empty ID_ALBUM")
  }

  /** The warnings of the grouping loop: one per dropped row, naming its
      sheet row number. */
  function DropLines(sheet: seq<RawRow>): seq<Line> {
    if |sheet| <= 1 then []
    else
      var k := |sheet| - 1;
      DropLines(sheet[..k]) + (if Truthy(AlbumIdOf(sheet[k])) then [] else [EmptyIdWarning(k + 1)])
  }

  /** One more sheet row: the header adds nothing, a row with a falsy id
      adds one warning, any other row is kept. */
  lemma {:induction false} SheetSnoc(sheet: seq<RawRow>, k: nat)
    requires k < |sheet|
    ensures k == 0 ==> Kept(sheet[..k + 1]) == [] && DropLines(sheet[..k + 1]) == []
    ensures k > 0 && !Truthy(AlbumIdOf(sheet[k])) ==>
      Kept(sheet[..k + 1]) == Kept(sheet[..k]) && DropLines(sheet[..k + 1]) == DropLines(sheet[..k]) + [EmptyIdWarning(k + 1)]
    ensures k > 0 && Truthy(AlbumIdOf(sheet[k])) ==>
      Kept(sheet[..k + 1]) == Kept(sheet[..k]) + [sheet[k]] && DropLines(sheet[..k + 1]) == DropLines(sheet[..k])
  {
    assert sheet[..k + 1][..k] == sheet[..k];
  }

  function AlbumIds(rs: seq<RawRow>): (ids: seq<string>)
    ensures |ids| == |rs|
  {
    seq(|rs|, j requires 0 <= j < |rs| => AlbumIdOf(rs[j]))
  }

  lemma {:induction false} AlbumIdsSnoc(rs: seq<RawRow>, r: RawRow)
    ensures AlbumIds(rs + [r]) == AlbumIds(rs) + [AlbumIdOf(r)]
  {
  }

  /** The keys of `$groups`, in first-seen order. */
  function GroupIds(sheet: seq<RawRow>): seq<string> {
    Distinct(AlbumIds(Kept(sheet)))
  }

  /** The groups, in the order of GroupIds. */
  function CliGroups(sheet: seq<RawRow>): (gs: seq<seq<RawRow>>)
    ensures |gs| == |GroupIds(sheet)|
  {
    var kept := Kept(sheet);
    GroupsOf(kept, AlbumIds(kept), GroupIds(sheet))
  }

  /** Every kept row has a truthy album id. */
  lemma {:induction false} KeptRowsHaveIds(sheet: seq<RawRow>)
    ensures forall j :: 0 <= j < |Kept(sheet)| ==> Truthy(AlbumIdOf(Kept(sheet)[j]))
  {
    if |sheet| > 1 {
      KeptRowsHaveIds(sheet[..|sheet| - 1]);
    }
  }

  /** Every row after the header is either kept or warned about, never
      both: the kept rows and the warnings together number one less than
      the rows of the sheet. */
  lemma {:induction false} KeptOrWarned(sheet: seq<RawRow>)
    ensures |Kept(sheet)| + |DropLines(sheet)| == if sheet == [] then 0 else |sheet| - 1
  {
    if |sheet| > 1 {
      KeptOrWarned(sheet[..|sheet| - 1]);
    }
  }

  /** Extending the sheet keeps what its prefix kept. */
  lemma {:induction false} KeptPrefix(sheet: seq<RawRow>, n: nat)
    requires n <= |sheet|
    ensures Kept(sheet[..n]) <= Kept(sheet)
    ensures DropLines(sheet[..n]) <= DropLines(sheet)
  {
    if n < |sheet| {
      var k := |sheet| - 1;
      assert sheet[..k][..n] == sheet[..n];
      KeptPrefix(sheet[..k], n);
      SheetSnoc(sheet, k);
      assert sheet[..k + 1] == sheet;
    } else {
      assert sheet[..n] == sheet;
    }
  }

  /** A row after the header with a falsy album id is warned about under
      its sheet row number; one with a truthy id is kept. */
  lemma {:induction false} DroppedOrKept(sheet: seq<RawRow>, k: nat)
    requires 1 <= k < |sheet|
    ensures !Truthy(AlbumIdOf(sheet[k])) ==> EmptyIdWarning(k + 1) in DropLines(sheet)
    ensures Truthy(AlbumIdOf(sheet[k])) ==> sheet[k] in Kept(sheet)
  {
    var p := sheet[..k + 1];
    KeptPrefix(sheet, k + 1);
    assert p[..k] == sheet[..k] && p[k] == sheet[k];
    var d, kp := DropLines(p), Kept(p);
    if Truthy(AlbumIdOf(sheet[k])) {
      assert kp[|kp| - 1] == sheet[k];
      assert Kept(sheet)[|kp| - 1] == sheet[k];
    } else {
      assert d[|d| - 1] == EmptyIdWarning(k + 1);
      assert DropLines(sheet)[|d| - 1] == EmptyIdWarning(k + 1);
    }
  }

  /** The header row is never read: replacing it changes neither the kept
      rows nor the warnings. */
  lemma {:induction false} HeaderIgnored(sheet: seq<RawRow>, header: RawRow)
    requires sheet != []
    ensures Kept(sheet[0 := header]) == Kept(sheet)
    ensures DropLines(sheet[0 := header]) == DropLines(sheet)
  {
    if |sheet| > 1 {
      var k := |sheet| - 1;
      assert sheet[0 := header][..k] == sheet[..k][0 := header];
      HeaderIgnored(sheet[..k], header);
    }
  }

  /** The grouping is a partition of the kept rows: the groups hold as many
      rows as were kept, none is empty, and every kept row is in the group
      of its id. */
  lemma {:induction false} CliGroupingIsPartition(sheet: seq<RawRow>)
    ensures var kept := Kept(sheet);
      && TotalSize(CliGroups(sheet)) == |kept|
      && (forall g :: g in CliGroups(sheet) ==> g != [])
      && (forall i :: 0 <= i < |kept| ==> kept[i] in Select(kept, AlbumIds(kept), AlbumIdOf(kept[i])))
  {
    var kept := Kept(sheet);
    GroupingIsPartition(kept, AlbumIds(kept));
  }

  /** Every row of a group carries the group's album id. */
  lemma {:induction false} GroupMembersCarryId(sheet: seq<RawRow>, j: nat, r: RawRow)
    requires j < |CliGroups(sheet)| && r in CliGroups(sheet)[j]
    ensures AlbumIdOf(r) == GroupIds(sheet)[j]
  {
    var kept := Kept(sheet);
    SelectOrigin(kept, AlbumIds(kept), GroupIds(sheet)[j], r);
  }

  // ---------------------------------------------------------------------
  // One group

  /** The kind scan's flag: no row of the group has an album title. */
  predicate AlbumEmptyInGroup(items: seq<RawRow>) {
    forall j :: 0 <= j < |items| ==> At(items[j], Title) == ""
  }

  function PostType(items: seq<RawRow>): string {
    if AlbumEmptyInGroup(items) then "sencillo" else "fonograma"
  }

  /** The first non-empty trimmed track title of the group, or "". */
  function FirstTrackTitle(items: seq<RawRow>): string {
    if items == [] then ""
    else if At(items[0], TrackTitle) != "" then At(items[0], TrackTitle)
    else FirstTrackTitle(items[1..])
  }

  /** The post title: the first row's album title, or else the fallback
      scan's result. */
  function PostTitle(items: seq<RawRow>): string
    requires items != []
  {
    if At(items[0], Title) != "" then At(items[0], Title) else FirstTrackTitle(items)
  }

  /** The fallback title is the track title of the first row that has one,
      and "" exactly when no row has one. */
  lemma {:induction false} FirstTrackTitleSpec(items: seq<RawRow>)
    ensures var t := FirstTrackTitle(items);
      && (t == "" <==> forall j :: 0 <= j < |items| ==> At(items[j], TrackTitle) == "")
      && (t != "" ==> exists f :: (0 <= f < |items| && t == At(items[f], TrackTitle)
            && forall j :: 0 <= j < f ==> At(items[j], TrackTitle) == ""))
  {
    if items != [] && At(items[0], TrackTitle) == "" {
      var rest := items[1..];
      FirstTrackTitleSpec(rest);
      if FirstTrackTitle(rest) != "" {
        var f :| 0 <= f < |rest| && FirstTrackTitle(rest) == At(rest[f], TrackTitle)
          && forall j :: 0 <= j < f ==> At(rest[j], TrackTitle) == "";
        assert items[f + 1] == rest[f];
        forall j | 0 <= j < f + 1
          ensures At(items[j], TrackTitle) == ""
        {
          if j > 0 {
            assert items[j] == rest[j - 1];
          }
        }
      }
      forall j | 0 <= j < |items| && FirstTrackTitle(rest) == "" && j > 0
        ensures At(items[j], TrackTitle) == ""
      {
        assert items[j] == rest[j - 1];
      }
    }
  }

  /** A group whose first row has no album title but a later row has one
      is a fonograma titled by a track title. */
  lemma {:induction false} FonogramaTitledByTrack(a: RawRow, b: RawRow)
    requires At(a, Title) == "" && At(b, Title) != "" && At(a, TrackTitle) != ""
    ensures PostType([a, b]) == "fonograma" && PostTitle([a, b]) == At(a, TrackTitle)
  {
    assert At([a, b][1], Title) != "";
  }

  /** The post array: `post_author` is present only when the lookup on the
      first row's cédula finds a user. */
  function PostArgsOf(items: seq<RawRow>, users: Directory): PostArgs
    requires items != []
  {
    var mainUser := GetUsers(users, At(items[0], Cedula));
    PostArgs(PostType(items), PostTitle(items), "publish", if mainUser.Some? then Some(mainUser.value.id) else None)
  }

  /** The field keys of the four top-level fields. */
  datatype SimpleKeys = SimpleKeys(labelField: string, yearField: string, artistField: string, pubtypeField: string)

  const FonogramaKeys := SimpleKeys("field_64f512aa8521e", "field_64f52628b2990", "field_64f512828521d", "field_64f5263cb2991")
  const SencilloKeys := SimpleKeys("field_65fb86103e5db", "field_65fb86103e5df", "field_65fb86103e5d8", "field_65fb86103e5e3")

  function KeysFor(postType: string): SimpleKeys {
    if postType == "fonograma" then FonogramaKeys else SencilloKeys
  }

  const FonogramaTracks := TrackLayout(
    "field_65f31861a7ebf", "field_65f31871a7ec0", "field_65f3189ca7ec1", "field_65f318b5a7ec2", "field_652bf4845b32a",
    "field_65f318d3a7ec3", "field_65f318f0a7ec4", "field_65f31903a7ec5", "field_65f3191da7ec6", "field_65f31927a7ec7")
  const SencilloTracks := TrackLayout(
    "field_65fb8610410b9", "field_65fb8610410bd", "field_65fb8610410c0", "field_65fb8610410c2", "field_652bf4845b32a",
    "field_65fb8610410c5", "field_65fb861042707", "field_65fb86104270a", "field_65fb86104270d", "field_65fb861042711")

  function LayoutFor(postType: string): TrackLayout {
    if postType == "fonograma" then FonogramaTracks else SencilloTracks
  }

  const FonogramaRepeater := "field_64f5266bb2994"
  const SencilloRepeater := "field_65fb86103e5ed"

  function RepeaterFor(postType: string): string {
    if postType == "fonograma" then FonogramaRepeater else SencilloRepeater
  }

  /** The four top-level writes, from the group's first row. */
  function SimpleWrites(id: nat, first: RawRow, postType: string): seq<FieldWrite> {
    var k := KeysFor(postType);
    [FieldWrite(id, Key(k.labelField), Text(At(first, Label))),
     FieldWrite(id, Key(k.yearField), Text(At(first, Year))),
     FieldWrite(id, Key(k.artistField), Text(At(first, ArtistName))),
     FieldWrite(id, Key(k.pubtypeField), Text(At(first, Tipo)))]
  }

  /** The track of a row whose cédula matched `u`: one performer, named
      and identified by the user. */
  function TrackOf(r: RawRow, u: User): CliTrack {
    CliTrack(At(r, TrackTitle), At(r, TrackIsrc), At(r, TrackNumber), At(r, TrackDuration), At(r, Bmat),
      [CliPerformer(u.displayName, u.id, At(r, PerformerInstrument), At(r, PerformerRole))])
  }

  predicate Resolved(r: RawRow, users: Directory) {
    At(r, Cedula) in users
  }

  function NotFoundLine(aid: string, idx: nat, cedula: string): Line {
    Warning("ID_ALBUM " + aid + ", row " + NatToString(idx) + ": cedula " + cedula + " not found")
  }

  /** The tracks of the group's resolved rows, in row order. */
  function Tracks(items: seq<RawRow>, users: Directory): seq<CliTrack> {
    if items == [] then []
    else
      var n := |items| - 1;
      var r := items[n];
      Tracks(items[..n], users) + (if Resolved(r, users) then [TrackOf(r, users[At(r, Cedula)])] else [])
  }

  /** The warnings of the per-row loop: one per unresolved row, naming its
      0-based index in the group. */
  function TrackLines(aid: string, items: seq<RawRow>, users: Directory): seq<Line> {
    if items == [] then []
    else
      var n := |items| - 1;
      var r := items[n];
      TrackLines(aid, items[..n], users) + (if Resolved(r, users) then [] else [NotFoundLine(aid, n, At(r, Cedula))])
  }

  /** Every row of a group is either a track or a warning: a resolved row
      yields the track of its user, an unresolved one the warning naming it,
      and the two together number the group's rows. */
  lemma {:induction false} RowsAccounted(aid: string, items: seq<RawRow>, users: Directory, j: nat)
    requires j < |items|
    ensures Resolved(items[j], users) ==> TrackOf(items[j], users[At(items[j], Cedula)]) in Tracks(items, users)
    ensures !Resolved(items[j], users) ==> NotFoundLine(aid, j, At(items[j], Cedula)) in TrackLines(aid, items, users)
    ensures |Tracks(items, users)| + |TrackLines(aid, items, users)| == |items|
  {
    RowsCounted(aid, items, users);
    var n := |items| - 1;
    var prefix := items[..n];
    if j < n {
      RowsAccounted(aid, prefix, users, j);
      assert prefix[j] == items[j];
      assert Tracks(items, users)[..|Tracks(prefix, users)|] == Tracks(prefix, users);
      assert TrackLines(aid, items, users)[..|TrackLines(aid, prefix, users)|] == TrackLines(aid, prefix, users);
    }
  }

  /** The tracks and the warnings of a group number its rows. */
  lemma {:induction false} RowsCounted(aid: string, items: seq<RawRow>, users: Directory)
    ensures |Tracks(items, users)| + |TrackLines(aid, items, users)| == |items|
  {
    if items != [] {
      RowsCounted(aid, items[..|items| - 1], users);
    }
  }

  /** Every track has exactly one performer, and there is no track when no
      row is resolved. */
  lemma {:induction false} TracksShape(items: seq<RawRow>, users: Directory)
    ensures forall t :: t in Tracks(items, users) ==> |t.performers| == 1
    ensures Tracks(items, users) == [] <==> forall j :: 0 <= j < |items| ==> !Resolved(items[j], users)
  {
    if items != [] {
      var n := |items| - 1;
      TracksShape(items[..n], users);
      assert forall j :: 0 <= j < n ==> items[..n][j] == items[j];
    }
  }

  /** The per-row loop only warns. */
  lemma {:induction false} TrackLinesAreWarnings(aid: string, items: seq<RawRow>, users: Directory)
    ensures forall l :: l in TrackLines(aid, items, users) ==> l.Warning?
  {
    if items != [] {
      TrackLinesAreWarnings(aid, items[..|items| - 1], users);
    }
  }

  /** `$repeater_key` after the per-row loop: the post type's repeater key
      once a row of the group was resolved; otherwise it still holds
      `prev`, whatever an earlier group left in it. */
  function RepeaterTarget(items: seq<RawRow>, users: Directory, postType: string, prev: FieldKey): FieldKey {
    if Tracks(items, users) == [] then prev else Key(RepeaterFor(postType))
  }

  /** PHP ucfirst() on ASCII. */
  function Ucfirst(s: string): string {
    if s == [] then s
    else if 'a' <= s[0] <= 'z' then [(s[0] as int - 32) as char] + s[1..]
    else s
  }

  function FailedLine(aid: string): Line {
    Warning("ID_ALBUM " + aid + ": failed to create post")
  }

  function SuccessLine(postType: string, title: string, id: nat): Line {
    Line.Success(Ucfirst(postType) + " \"" + title + "\" imported as post #" + NatToString(id))
  }

  /** What a stretch of the command prints and the backend calls it makes,
      in order. */
  datatype CliEffects = CliEffects(lines: seq<Line>, calls: seq<PostArgs>, writes: seq<FieldWrite>)

  const Nothing := CliEffects([], [], [])

  /** What a stretch of the group loop does, and the value `$repeater_key`
      holds after it; the variable lives as long as the command does. */
  datatype Progress = Progress(effects: CliEffects, repeaterKey: FieldKey)

  function Then(a: CliEffects, b: CliEffects): CliEffects {
    CliEffects(a.lines + b.lines, a.calls + b.calls, a.writes + b.writes)
  }

  /** One iteration of the group loop, given what wp_insert_post() answers
      and the value `prev` of `$repeater_key` on entry: an error skips the
      group with a warning; any post id, 0 included, gets the four
      top-level fields, the track repeater and a success line. */
  function GroupEffect(aid: string, items: seq<RawRow>, users: Directory, reply: Reply, prev: FieldKey): Progress
    requires items != []
  {
    var args := PostArgsOf(items, users);
    match reply
    case WpError => Progress(CliEffects([FailedLine(aid)], [args], []), prev)
    case PostId(id) =>
      var postType := args.postType;
      var target := RepeaterTarget(items, users, postType, prev);
      Progress(
        CliEffects(
          TrackLines(aid, items, users) + [SuccessLine(postType, args.title, id)],
          [args],
          SimpleWrites(id, items[0], postType) + [FieldWrite(id, target, TrackRows(LayoutFor(postType), Tracks(items, users)))]),
        target)
  }

  /** The group loop's body as a step function: group `items` under `aid`
      gets the reply to insert call `c` and finds `prev` in
      `$repeater_key`. Groups are never empty; the empty case only makes
      the step total. */
  function Step(users: Directory, answer: nat -> Reply): (string, seq<RawRow>, nat, FieldKey) -> Progress {
    (aid: string, items: seq<RawRow>, c: nat, prev: FieldKey) =>
      if items == [] then Progress(Nothing, prev) else GroupEffect(aid, items, users, ReplyAt(answer, c), prev)
  }

  /** `step` is the group loop's body for these users and replies. Its
      instances are only taken where GroupEffect is mentioned. */
  ghost predicate IsStep(step: (string, seq<RawRow>, nat, FieldKey) -> Progress, users: Directory, answer: nat -> Reply) {
    forall aid: string, items: seq<RawRow>, c: nat, prev: FieldKey {:trigger GroupEffect(aid, items, users, ReplyAt(answer, c), prev)} ::
      items != [] ==> step(aid, items, c, prev) == GroupEffect(aid, items, users, ReplyAt(answer, c), prev)
  }

  lemma {:induction false} StepIsStep(users: Directory, answer: nat -> Reply)
    ensures IsStep(Step(users, answer), users, answer)
  {
  }

  /** Lines printed before a stretch change none of its backend traffic. */
  lemma {:induction false} LinesFirst(lines: seq<Line>, b: CliEffects)
    ensures Then(CliEffects(lines, [], []), b) == CliEffects(lines + b.lines, b.calls, b.writes)
  {
    assert [] + b.calls == b.calls;
    assert [] + b.writes == b.writes;
  }

  /** The group loop over the first `n` groups; group j is handled by
      `step` with insert call number c0 + j and the `$repeater_key` the
      groups before it left. Before the first group the variable was
      never assigned. */
  function Run(ids: seq<string>, gs: seq<seq<RawRow>>, n: nat, step: (string, seq<RawRow>, nat, FieldKey) -> Progress, c0: nat): Progress
    requires n <= |ids| == |gs|
  {
    if n == 0 then Progress(Nothing, UnsetKey)
    else
      var p := Run(ids, gs, n - 1, step, c0);
      var g := step(ids[n - 1], gs[n - 1], c0 + n - 1, p.repeaterKey);
      Progress(Then(p.effects, g.effects), g.repeaterKey)
  }

  /** One more group extends a run by that group's step. */
  lemma {:induction false} RunSnoc(ids: seq<string>, gs: seq<seq<RawRow>>, n: nat, step: (string, seq<RawRow>, nat, FieldKey) -> Progress, c0: nat)
    requires n < |ids| == |gs|
    ensures var p := Run(ids, gs, n, step, c0);
      var g := step(ids[n], gs[n], c0 + n, p.repeaterKey);
      Run(ids, gs, n + 1, step, c0) == Progress(Then(p.effects, g.effects), g.repeaterKey)
  {
  }

  /** Group j of a run sets `$repeater_key`: its insert returned a post id
      and at least one of its rows was resolved. */
  predicate FillsRepeater(gs: seq<seq<RawRow>>, j: nat, users: Directory, answer: nat -> Reply, c0: nat)
    requires j < |gs|
  {
    ReplyAt(answer, c0 + j).PostId? && Tracks(gs[j], users) != []
  }

  /** The `$repeater_key` one group leaves, and the repeater write of a
      created group none of whose rows resolved. */
  lemma {:induction false} GroupRepeaterKey(aid: string, items: seq<RawRow>, users: Directory, reply: Reply, prev: FieldKey)
    requires items != []
    ensures var g := GroupEffect(aid, items, users, reply, prev);
      && g.repeaterKey == (if reply.PostId? && Tracks(items, users) != [] then Key(RepeaterFor(PostType(items))) else prev)
      && (reply.PostId? && Tracks(items, users) == [] ==>
            g.effects.writes == SimpleWrites(reply.id, items[0], PostType(items)) + [FieldWrite(reply.id, prev, TrackRows(LayoutFor(PostType(items)), []))])
  {
  }

  /** The `$repeater_key` group j of a run leaves behind. */
  lemma {:induction false} StepRepeaterKey(ids: seq<string>, gs: seq<seq<RawRow>>, j: nat, prev: FieldKey,
                                           step: (string, seq<RawRow>, nat, FieldKey) -> Progress, users: Directory, answer: nat -> Reply, c0: nat)
    requires j < |ids| == |gs| && gs[j] != []
    requires IsStep(step, users, answer)
    ensures step(ids[j], gs[j], c0 + j, prev).repeaterKey
      == if FillsRepeater(gs, j, users, answer, c0) then Key(RepeaterFor(PostType(gs[j]))) else prev
  {
    var g := GroupEffect(ids[j], gs[j], users, ReplyAt(answer, c0 + j), prev);
    GroupRepeaterKey(ids[j], gs[j], users, ReplyAt(answer, c0 + j), prev);
  }

  /** The last of the first n groups that sets `$repeater_key`, if any. */
  function LastFiller(gs: seq<seq<RawRow>>, n: nat, users: Directory, answer: nat -> Reply, c0: nat): (r: Option<nat>)
    requires n <= |gs|
    ensures r.None? <==> forall j :: 0 <= j < n ==> !FillsRepeater(gs, j, users, answer, c0)
    ensures r.Some? ==>
      && r.value < n && FillsRepeater(gs, r.value, users, answer, c0)
      && forall i :: r.value < i < n ==> !FillsRepeater(gs, i, users, answer, c0)
  {
    if n == 0 then None
    else if FillsRepeater(gs, n - 1, users, answer, c0) then Some(n - 1)
    else LastFiller(gs, n - 1, users, answer, c0)
  }

  /** `$repeater_key` after the first n groups is still unassigned exactly
      when no group set it, and is otherwise the repeater key of the post
      type of the last group that did. */
  lemma {:induction false} RunRepeaterKey(ids: seq<string>, gs: seq<seq<RawRow>>, n: nat,
                                          step: (string, seq<RawRow>, nat, FieldKey) -> Progress, users: Directory, answer: nat -> Reply, c0: nat)
    requires n <= |ids| == |gs|
    requires forall j :: 0 <= j < |gs| ==> gs[j] != []
    requires IsStep(step, users, answer)
    ensures Run(ids, gs, n, step, c0).repeaterKey
      == match LastFiller(gs, n, users, answer, c0)
         case None => UnsetKey
         case Some(j) => Key(RepeaterFor(PostType(gs[j])))
  {
    if n > 0 {
      var m := n - 1;
      RunRepeaterKey(ids, gs, m, step, users, answer, c0);
      var p := Run(ids, gs, m, step, c0);
      assert Run(ids, gs, n, step, c0).repeaterKey == step(ids[m], gs[m], c0 + m, p.repeaterKey).repeaterKey;
      StepRepeaterKey(ids, gs, m, p.repeaterKey, step, users, answer, c0);
    }
  }

  /** Two created groups in a row, the first with a resolved row and the
      second with none: the second post's track rows, laid out for its own
      post type, are saved under the repeater key of the first group's post
      type, which is another post type's field when the kinds differ. */
  lemma {:induction false} StaleRepeaterKey(ids: seq<string>, gs: seq<seq<RawRow>>,
                                            step: (string, seq<RawRow>, nat, FieldKey) -> Progress, users: Directory, answer: nat -> Reply, c0: nat)
    requires |ids| == |gs| == 2 && gs[0] != [] && gs[1] != []
    requires IsStep(step, users, answer)
    requires FillsRepeater(gs, 0, users, answer, c0)
    requires ReplyAt(answer, c0 + 1).PostId? && Tracks(gs[1], users) == []
    ensures var e := Run(ids, gs, 2, step, c0).effects;
      && |e.writes| == 10
      && e.writes[9] == FieldWrite(ReplyAt(answer, c0 + 1).id, Key(RepeaterFor(PostType(gs[0]))), TrackRows(LayoutFor(PostType(gs[1])), []))
  {
    var key := Key(RepeaterFor(PostType(gs[0])));
    var g0 := GroupEffect(ids[0], gs[0], users, ReplyAt(answer, c0), UnsetKey);
    var w0 := g0.effects.writes;
    assert step(ids[0], gs[0], c0, UnsetKey) == g0;
    GroupRepeaterKey(ids[0], gs[0], users, ReplyAt(answer, c0), UnsetKey);
    CreatedWrites(ids[0], gs[0], users, ReplyAt(answer, c0).id, UnsetKey);
    RunSnoc(ids, gs, 0, step, c0);
    var p1 := Run(ids, gs, 1, step, c0);
    assert p1.repeaterKey == key && p1.effects.writes == [] + w0;
    var id := ReplyAt(answer, c0 + 1).id;
    var g1 := GroupEffect(ids[1], gs[1], users, ReplyAt(answer, c0 + 1), key);
    var w1 := g1.effects.writes;
    assert step(ids[1], gs[1], c0 + 1, key) == g1;
    GroupRepeaterKey(ids[1], gs[1], users, ReplyAt(answer, c0 + 1), key);
    assert w1 == SimpleWrites(id, gs[1][0], PostType(gs[1])) + [FieldWrite(id, key, TrackRows(LayoutFor(PostType(gs[1])), []))];
    RunSnoc(ids, gs, 1, step, c0);
    assert Run(ids, gs, 2, step, c0).effects.writes == p1.effects.writes + w1;
  }

  /** The whole of a run whose file exists: the grouping warnings, then
      every group in first-seen order. */
  function CommandEffects(sheet: seq<RawRow>, users: Directory, answer: nat -> Reply, c0: nat): CliEffects {
    var ids := GroupIds(sheet);
    Then(CliEffects(DropLines(sheet), [], []), Run(ids, CliGroups(sheet), |ids|, Step(users, answer), c0).effects)
  }

  // ---------------------------------------------------------------------
  // Counts

  /** How many of the first `n` insert calls, from call c0 on, returned a
      post id rather than an error. */
  function Landed(answer: nat -> Reply, c0: nat, n: nat): nat {
    if n == 0 then 0 else Landed(answer, c0, n - 1) + (if ReplyAt(answer, c0 + n - 1).PostId? then 1 else 0)
  }

  function SuccessCount(lines: seq<Line>): nat {
    if lines == [] then 0 else SuccessCount(lines[..|lines| - 1]) + (if lines[|lines| - 1].Success? then 1 else 0)
  }

  lemma {:induction false} SuccessCountAppend(a: seq<Line>, b: seq<Line>)
    ensures SuccessCount(a + b) == SuccessCount(a) + SuccessCount(b)
  {
    if b != [] {
      var n := |b| - 1;
      assert (a + b)[..|a + b| - 1] == a + b[..n];
      SuccessCountAppend(a, b[..n]);
    } else {
      assert a + b == a;
    }
  }

  lemma {:induction false} WarningsOnly(lines: seq<Line>)
    requires forall l :: l in lines ==> l.Warning?
    ensures SuccessCount(lines) == 0
  {
    if lines != [] {
      assert lines[|lines| - 1] in lines;
      WarningsOnly(lines[..|lines| - 1]);
    }
  }

  /** What one group amounts to: one insert call; on an error one warning
      and no write; on a post id five writes, all to that post, the four
      top-level ones keyed by the post type, and exactly one success line. */
  predicate GroupCounts(e: CliEffects, reply: Reply) {
    && |e.calls| == 1
    && (reply.WpError? ==> e.writes == [] && |e.lines| == 1 && SuccessCount(e.lines) == 0)
    && (reply.PostId? ==>
          && |e.writes| == 5 && SuccessCount(e.lines) == 1
          && forall j :: 0 <= j < |e.writes| ==> e.writes[j].postId == reply.id)
  }

  lemma {:induction false} GroupEffectCounts(aid: string, items: seq<RawRow>, users: Directory, reply: Reply, prev: FieldKey)
    requires items != []
    ensures GroupCounts(GroupEffect(aid, items, users, reply, prev).effects, reply)
  {
    if reply.PostId? {
      CreatedLines(aid, items, users, reply.id, prev);
      CreatedWrites(aid, items, users, reply.id, prev);
    }
  }

  /** A created group prints exactly one success line. */
  lemma {:induction false} CreatedLines(aid: string, items: seq<RawRow>, users: Directory, id: nat, prev: FieldKey)
    requires items != []
    ensures SuccessCount(GroupEffect(aid, items, users, PostId(id), prev).effects.lines) == 1
  {
    var args := PostArgsOf(items, users);
    var warned := TrackLines(aid, items, users);
    var success := SuccessLine(args.postType, args.title, id);
    TrackLinesAreWarnings(aid, items, users);
    WarningsOnly(warned);
    SuccessCountAppend(warned, [success]);
    assert SuccessCount([success]) == 1 by {
      assert [success][..0] == [];
    }
  }

  /** A created group gets five writes, all to its own post. */
  lemma {:induction false} CreatedWrites(aid: string, items: seq<RawRow>, users: Directory, id: nat, prev: FieldKey)
    requires items != []
    ensures var w := GroupEffect(aid, items, users, PostId(id), prev).effects.writes;
      |w| == 5 && forall j :: 0 <= j < |w| ==> w[j].postId == id
  {
    var postType := PostArgsOf(items, users).postType;
    var simple := SimpleWrites(id, items[0], postType);
    var repeater := FieldWrite(id, RepeaterTarget(items, users, postType, prev), TrackRows(LayoutFor(postType), Tracks(items, users)));
    assert GroupEffect(aid, items, users, PostId(id), prev).effects.writes == simple + [repeater];
    SimpleWritesTo(id, items[0], postType);
  }

  lemma {:induction false} SimpleWritesTo(id: nat, first: RawRow, postType: string)
    ensures var w := SimpleWrites(id, first, postType);
      |w| == 4 && forall j :: 0 <= j < |w| ==> w[j].postId == id
  {
  }

  /** What a run of the first `n` groups amounts to. */
  predicate RunCounts(e: CliEffects, answer: nat -> Reply, c0: nat, n: nat) {
    && |e.calls| == n
    && |e.writes| == 5 * Landed(answer, c0, n)
    && SuccessCount(e.lines) == Landed(answer, c0, n)
  }

  /** Whatever `$repeater_key` holds on entry, one step with insert call
      `c` amounts to GroupCounts. */
  ghost predicate StepCounts(step: (string, seq<RawRow>, nat, FieldKey) -> Progress, aid: string, items: seq<RawRow>, c: nat, answer: nat -> Reply) {
    forall k: FieldKey :: GroupCounts(step(aid, items, c, k).effects, ReplyAt(answer, c))
  }

  lemma {:induction false} StepCountsOf(users: Directory, answer: nat -> Reply, aid: string, items: seq<RawRow>, c: nat)
    requires items != []
    ensures StepCounts(Step(users, answer), aid, items, c, answer)
  {
    forall k: FieldKey
      ensures GroupCounts(Step(users, answer)(aid, items, c, k).effects, ReplyAt(answer, c))
    {
      GroupEffectCounts(aid, items, users, ReplyAt(answer, c), k);
    }
  }

  lemma {:induction false} RunCountsOfSteps(ids: seq<string>, gs: seq<seq<RawRow>>, n: nat, step: (string, seq<RawRow>, nat, FieldKey) -> Progress, answer: nat -> Reply, c0: nat)
    requires n <= |ids| == |gs|
    requires forall j :: 0 <= j < n ==> StepCounts(step, ids[j], gs[j], c0 + j, answer)
    ensures RunCounts(Run(ids, gs, n, step, c0).effects, answer, c0, n)
  {
    if n > 0 {
      RunCountsOfSteps(ids, gs, n - 1, step, answer, c0);
      var a := Run(ids, gs, n - 1, step, c0);
      var b := step(ids[n - 1], gs[n - 1], c0 + n - 1, a.repeaterKey);
      SuccessCountAppend(a.effects.lines, b.effects.lines);
    }
  }

  /** No group is empty. */
  lemma {:induction false} GroupsNonEmpty(sheet: seq<RawRow>)
    ensures forall j :: 0 <= j < |CliGroups(sheet)| ==> CliGroups(sheet)[j] != []
  {
    var kept := Kept(sheet);
    var ids := GroupIds(sheet);
    forall j | 0 <= j < |ids|
      ensures CliGroups(sheet)[j] != []
    {
      assert ids[j] in ids;
    }
  }

  /** The group loop over non-empty groups: one insert call per group, one
      success line and five writes per group whose insert returned a post
      id. */
  lemma {:induction false} RunGroupsCounts(ids: seq<string>, gs: seq<seq<RawRow>>, users: Directory, answer: nat -> Reply, c0: nat)
    requires |ids| == |gs|
    requires forall j :: 0 <= j < |gs| ==> gs[j] != []
    ensures RunCounts(Run(ids, gs, |ids|, Step(users, answer), c0).effects, answer, c0, |ids|)
  {
    var step := Step(users, answer);
    forall j | 0 <= j < |ids|
      ensures StepCounts(step, ids[j], gs[j], c0 + j, answer)
    {
      StepCountsOf(users, answer, ids[j], gs[j], c0 + j);
    }
    RunCountsOfSteps(ids, gs, |ids|, step, answer, c0);
  }

  /** Over a whole run of the command: the grouping warnings come first,
      then one insert call per group, one success line and five writes per
      group whose insert returned a post id. */
  lemma {:induction false} CommandCounts(sheet: seq<RawRow>, users: Directory, answer: nat -> Reply, c0: nat)
    ensures var e := CommandEffects(sheet, users, answer, c0);
      && |e.calls| == |GroupIds(sheet)|
      && |e.writes| == 5 * Landed(answer, c0, |GroupIds(sheet)|)
      && SuccessCount(e.lines) == Landed(answer, c0, |GroupIds(sheet)|)
      && e.lines[..|DropLines(sheet)|] == DropLines(sheet)
  {
    var ids, gs := GroupIds(sheet), CliGroups(sheet);
    GroupsNonEmpty(sheet);
    RunGroupsCounts(ids, gs, users, answer, c0);
    var r := Run(ids, gs, |ids|, Step(users, answer), c0).effects;
    DropLinesAreWarnings(sheet);
    WarningsOnly(DropLines(sheet));
    SuccessCountAppend(DropLines(sheet), r.lines);
  }

  lemma {:induction false} DropLinesAreWarnings(sheet: seq<RawRow>)
    ensures forall l :: l in DropLines(sheet) ==> l.Warning?
  {
    if |sheet| > 1 {
      DropLinesAreWarnings(sheet[..|sheet| - 1]);
    }
  }

  /** The command as a whole: a missing file halts it before anything is
      read; otherwise it prints the lines of CommandEffects. */
  function CommandOutcome(file: string, fileExists: bool, sheet: seq<RawRow>, users: Directory, answer: nat -> Reply, c0: nat): Outcome {
    if !fileExists then Halted("File not found: " + file)
    else Finished(CommandEffects(sheet, users, answer, c0).lines)
  }
}
