/** The values the importer reads and writes: spreadsheet cells and rows,
    the parsed row record, and the repeater rows it stores in the content
    backend. */
module Records {

  /** A cell as PhpSpreadsheet's toArray() hands it over: a scalar, already
      in the text form PHP's `(string)` cast gives it, or a null/non-scalar
      value. */
  datatype Cell = Scalar(text: string) | NonScalar

  /** One sheet row, keyed by column letter; a letter that is absent is a
      cell the row does not have. */
  type RawRow = map<string, Cell>

  /** A column map: logical field name to column letter. */
  type ColumnMap = map<string, string>

  /** One parsed, non-header spreadsheet row of the service: thirteen named
      fields, each trimmed. */
  datatype Row = Row(
    trackTitle: string,
    artistName: string,
    bmat: string,
    performerName: string,
    cedula: string,
    performerRole: string,
    performerInstr: string,
    albumTitle: string,
    idAlbum: string,
    trackIsrc: string,
    year: string,
    duration: string,
    obraCode: string)

  /** An entry of the nested `interpretes_y_ejecutantes` repeater. */
  datatype Performer = Performer(
    nombreCompleto: string,
    idDeUsuario: string,
    instrumento: string,
    role: string)

  /** An entry of the `nombre_de_cada_tema_del_album_o_sencillo` repeater. */
  datatype Song = Song(
    tituloDeLaCancion: string,
    isrc: string,
    bmat: string,
    duracionEnSegundos: string,
    codigoDeObra: string,
    interpretesYEjecutantes: seq<Performer>)

  /** A performer entry of the WP-CLI command: taken from the matched
      WordPress user, not from the sheet's name column. */
  datatype CliPerformer = CliPerformer(
    displayName: string,
    userId: nat,
    instrument: string,
    role: string)

  /** A track entry of the WP-CLI command. */
  datatype CliTrack = CliTrack(
    title: string,
    isrc: string,
    number: string,
    duration: string,
    bmat: string,
    performers: seq<CliPerformer>)

  /** The literal ACF field keys the WP-CLI command stores a track under;
      fonograma and sencillo posts use different keys. */
  datatype TrackLayout = TrackLayout(
    title: string,
    isrc: string,
    number: string,
    duration: string,
    bmat: string,
    performers: string,
    name: string,
    userId: string,
    instrument: string,
    role: string)
}
