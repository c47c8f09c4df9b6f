/** The incremental CSV sink `escrever_csv`: a record becomes an ordered list
    of (field, value) pairs, enum values become their labels and datetimes
    their ISO text, and the result is appended as one row to a file, after a
    header row when the file did not exist. The filesystem is a map from file
    name to the rows the file holds. */
module CsvSink {
  import opened Results
  import opened Domain

  /** A field value as `dataclasses.asdict` yields it, plus the ISO-8601 text
      of an instant (`IsoTextV(t)` stands for `t.isoformat()`; its exact
      characters are not modelled). A float price is held in cents. */
  datatype Value =
    | IntV(i: int)
    | StrV(s: string)
    | FloatV(centavos: int)
    | UnidadeV(u: Unidade)
    | NomeUnidadeV(n: NomeUnidade)
    | DateTimeV(t: Time)
    | IsoTextV(t: Time)

  datatype Field = Field(key: string, value: Value)

  /** One CSV line, as the cells `csv.DictWriter` writes. */
  type Row = seq<Value>

  /** The filesystem: which files exist and the rows each one holds. */
  type Files = map<string, seq<Row>>

  /** The five record types, as the objects handed to the sink. */
  datatype Record =
    | MedicamentoRecord(medicamento: Medicamento)
    | AtaRecord(ata: Ata)
    | EmpenhoRecord(empenho: Empenho)
    | LoteRecord(lote: Lote)
    | FluxoRecord(fluxo: Fluxo)

  /** Field names of each record type, in declaration order. */
  function FieldNames(r: Record): seq<string> {
    match r
    case MedicamentoRecord(_) => ["id_medicamento", "nome_medicamento", "descricao"]
    case AtaRecord(_) =>
      ["id", "id_medicamento", "especificacao", "nome_fornecedor", "cnpj", "unidade",
       "quantidade_maxima", "quantidade_minima", "valor_unitario", "data_abertura", "prazo"]
    case EmpenhoRecord(_) => ["id", "id_ata", "unidade", "quantidade", "data_abertura", "prazo_entrega"]
    case LoteRecord(_) => ["id", "tipo_medicamento", "prazo_validade"]
    case FluxoRecord(_) => ["id", "id_lote", "nome_unidade", "timestamp", "variacao"]
  }

  function Keys(d: seq<Field>): (ks: seq<string>)
    ensures |ks| == |d|
    ensures forall i :: 0 <= i < |d| ==> ks[i] == d[i].key
  {
    seq(|d|, i requires 0 <= i < |d| => d[i].key)
  }

  function Values(d: seq<Field>): (vs: Row)
    ensures |vs| == |d|
    ensures forall i :: 0 <= i < |d| ==> vs[i] == d[i].value
  {
    seq(|d|, i requires 0 <= i < |d| => d[i].value)
  }

  /** `dataclasses.asdict`: the record's fields, in declaration order. */
  function AsDict(r: Record): seq<Field> {
    match r
    case MedicamentoRecord(m) =>
      [Field("id_medicamento", IntV(m.idMedicamento)),
       Field("nome_medicamento", StrV(m.nomeMedicamento)),
       Field("descricao", StrV(m.descricao))]
    case AtaRecord(a) =>
      [Field("id", IntV(a.id)),
       Field("id_medicamento", IntV(a.idMedicamento)),
       Field("especificacao", StrV(a.especificacao)),
       Field("nome_fornecedor", StrV(a.nomeFornecedor)),
       Field("cnpj", StrV(a.cnpj)),
       Field("unidade", UnidadeV(a.unidade)),
       Field("quantidade_maxima", IntV(a.quantidadeMaxima)),
       Field("quantidade_minima", IntV(a.quantidadeMinima)),
       Field("valor_unitario", FloatV(a.valorUnitario)),
       Field("data_abertura", DateTimeV(a.dataAbertura)),
       Field("prazo", DateTimeV(a.prazo))]
    case EmpenhoRecord(e) =>
      [Field("id", IntV(e.id)),
       Field("id_ata", IntV(e.idAta)),
       Field("unidade", UnidadeV(e.unidade)),
       Field("quantidade", IntV(e.quantidade)),
       Field("data_abertura", DateTimeV(e.dataAbertura)),
       Field("prazo_entrega", DateTimeV(e.prazoEntrega))]
    case LoteRecord(l) =>
      [Field("id", IntV(l.id)),
       Field("tipo_medicamento", StrV(l.tipoMedicamento)),
       Field("prazo_validade", DateTimeV(l.prazoValidade))]
    case FluxoRecord(f) =>
      [Field("id", IntV(f.id)),
       Field("id_lote", IntV(f.idLote)),
       Field("nome_unidade", NomeUnidadeV(f.nomeUnidade)),
       Field("timestamp", DateTimeV(f.timestamp)),
       Field("variacao", IntV(f.variacao))]
  }

  /** `asdict` lists the fields under their declared names, in declaration
      order. */
  lemma AsDictKeys(r: Record)
    ensures Keys(AsDict(r)) == FieldNames(r)
  {
  }

  /** A value the CSV writer can take as it is: no enum and no datetime left. */
  predicate IsScalar(v: Value) {
    v.IntV? || v.StrV? || v.FloatV? || v.IsoTextV?
  }

  /** The per-field rewrite of `escrever_csv`: an enum becomes its label, a
      datetime its ISO text, and a scalar stays as it is. */
  function NormalizeValue(v: Value): (w: Value)
    ensures IsScalar(w)
    ensures IsScalar(v) ==> w == v
    ensures v.UnidadeV? ==> w == StrV(UnidadeLabel(v.u))
    ensures v.NomeUnidadeV? ==> w == StrV(NomeUnidadeLabel(v.n))
    ensures v.DateTimeV? ==> w == IsoTextV(v.t)
  {
    match v
    case UnidadeV(u) => StrV(UnidadeLabel(u))
    case NomeUnidadeV(n) => StrV(NomeUnidadeLabel(n))
    case DateTimeV(t) => IsoTextV(t)
    case _ => v
  }

  /** The loop that rewrites the dictionary in place: keys and their order
      are kept, and every value is normalised. */
  method Normalize(data: seq<Field>) returns (out: seq<Field>)
    ensures Keys(out) == Keys(data)
    ensures forall i :: 0 <= i < |data| ==> out[i].value == NormalizeValue(data[i].value)
    ensures forall i :: 0 <= i < |out| ==> IsScalar(out[i].value)
  {
    out := data;
    var i := 0;
    while i < |out|
      invariant 0 <= i <= |out| == |data|
      invariant forall k :: 0 <= k < |out| ==> out[k].key == data[k].key
      invariant forall k :: 0 <= k < i ==> out[k].value == NormalizeValue(data[k].value)
      invariant forall k :: i <= k < |out| ==> out[k].value == data[k].value
    {
      out := out[i := Field(out[i].key, NormalizeValue(out[i].value))];
      i := i + 1;
    }
  }

  /** The header line: the field names, as `writeheader` writes them. */
  function HeaderRow(r: Record): Row {
    var names := FieldNames(r);
    seq(|names|, i requires 0 <= i < |names| => StrV(names[i]))
  }

  /** The data line: the record's normalised values in field order. */
  function DataRow(r: Record): Row {
    var d := AsDict(r);
    seq(|d|, i requires 0 <= i < |d| => NormalizeValue(d[i].value))
  }

  /** A data line has one cell per declared field, each cell is the
      normalised value of that field, and no enum or datetime is left. */
  lemma DataRowCells(r: Record)
    ensures |DataRow(r)| == |FieldNames(r)|
    ensures forall i :: 0 <= i < |DataRow(r)| ==> IsScalar(DataRow(r)[i])
    ensures forall i :: 0 <= i < |DataRow(r)| ==> DataRow(r)[i] == NormalizeValue(AsDict(r)[i].value)
  {
    AsDictKeys(r);
  }

  /** A record's data line never looks like its header: every record type
      starts with an integer id, where the header starts with a name. */
  lemma DataRowIsNotHeader(r: Record)
    ensures DataRow(r) != HeaderRow(r)
  {
    assert DataRow(r)[0].IntV?;
  }

  // ------------------------------------------------ appending to files

  /** One append to a file of lines of any kind: when the file does not
      exist it is created with `header` first; then `line` is added. */
  function AppendLine<L>(files: map<string, seq<L>>, name: string, header: L, line: L): map<string, seq<L>> {
    files[name := if name in files then files[name] + [line] else [header, line]]
  }

  /** The file system after a run of appends to the same file, the k-th
      offering `headers[k]` and `lines[k]`: the target file keeps its old
      lines (or, if it did not exist, gets the first header), then every
      line; no other file changes. */
  function AppendLines<L>(files: map<string, seq<L>>, name: string, headers: seq<L>, lines: seq<L>): map<string, seq<L>>
    requires |headers| == |lines|
  {
    if lines == [] then files
    else files[name := (if name in files then files[name] else [headers[0]]) + lines]
  }

  /** A run of appends followed by one more append is a longer run: so N
      successive single appends produce `AppendLines` of the N lines, with
      at most one header, written by the first append. */
  lemma AppendLinesSnoc<L>(files: map<string, seq<L>>, name: string, headers: seq<L>, lines: seq<L>, header: L, line: L)
    requires |headers| == |lines|
    ensures AppendLines(files, name, headers + [header], lines + [line])
         == AppendLine(AppendLines(files, name, headers, lines), name, header, line)
  {
    if lines == [] {
      assert headers + [header] == [header] && lines + [line] == [line];
      assert [header] + [line] == [header, line];
    } else {
      var prefix := if name in files then files[name] else [headers[0]];
      assert (headers + [header])[0] == headers[0];
      assert prefix + lines + [line] == prefix + (lines + [line]);
    }
  }

  /** Appending in two runs is the same as appending in one. */
  lemma AppendLinesConcat<L>(files: map<string, seq<L>>, name: string, h1: seq<L>, l1: seq<L>, h2: seq<L>, l2: seq<L>)
    requires |h1| == |l1| && |h2| == |l2|
    ensures AppendLines(AppendLines(files, name, h1, l1), name, h2, l2) == AppendLines(files, name, h1 + h2, l1 + l2)
  {
    if l2 == [] {
      assert h1 + h2 == h1 && l1 + l2 == l1;
    } else if l1 == [] {
      assert h1 + h2 == h2 && l1 + l2 == l2;
    } else {
      var prefix := if name in files then files[name] else [h1[0]];
      assert (h1 + h2)[0] == h1[0];
      assert prefix + l1 + l2 == prefix + (l1 + l2);
    }
  }

  // ------------------------------------------- appending CSV records

  /** The filesystem after one `escrever_csv(r, name)`: a header line only
      if the file did not exist, then the record's data line. */
  function AppendRow(files: Files, name: string, r: Record): Files {
    AppendLine(files, name, HeaderRow(r), DataRow(r))
  }

  function HeaderRows(rs: seq<Record>): (rows: seq<Row>)
    ensures |rows| == |rs|
  {
    seq(|rs|, i requires 0 <= i < |rs| => HeaderRow(rs[i]))
  }

  /** The data lines of `rs`, in order. */
  function DataRows(rs: seq<Record>): (rows: seq<Row>)
    ensures |rows| == |rs|
  {
    seq(|rs|, i requires 0 <= i < |rs| => DataRow(rs[i]))
  }

  lemma HeaderRowsConcat(a: seq<Record>, b: seq<Record>)
    ensures HeaderRows(a + b) == HeaderRows(a) + HeaderRows(b)
  {
    forall i | 0 <= i < |a| + |b|
      ensures HeaderRows(a + b)[i] == (HeaderRows(a) + HeaderRows(b))[i]
    {
      if i < |a| {
        assert (a + b)[i] == a[i];
      } else {
        assert (a + b)[i] == b[i - |a|];
      }
    }
  }

  lemma DataRowsConcat(a: seq<Record>, b: seq<Record>)
    ensures DataRows(a + b) == DataRows(a) + DataRows(b)
  {
    forall i | 0 <= i < |a| + |b|
      ensures DataRows(a + b)[i] == (DataRows(a) + DataRows(b))[i]
    {
      if i < |a| {
        assert (a + b)[i] == a[i];
      } else {
        assert (a + b)[i] == b[i - |a|];
      }
    }
  }

  /** The filesystem after `escrever_csv(r, name)` for each `r` of `rs`, in order. */
  function AppendRows(files: Files, name: string, rs: seq<Record>): Files {
    AppendLines(files, name, HeaderRows(rs), DataRows(rs))
  }

  /** One more `escrever_csv` call after a run is a longer run. */
  lemma AppendRowsSnoc(files: Files, name: string, rs: seq<Record>, r: Record)
    ensures AppendRows(files, name, rs + [r]) == AppendRow(AppendRows(files, name, rs), name, r)
  {
    var all := rs + [r];
    assert HeaderRows(all) == HeaderRows(rs) + [HeaderRow(r)];
    assert DataRows(all) == DataRows(rs) + [DataRow(r)];
    AppendLinesSnoc(files, name, HeaderRows(rs), DataRows(rs), HeaderRow(r), DataRow(r));
  }

  /** N appends to a file that does not exist give exactly one header line
      followed by the N data lines, in order. */
  lemma FreshFileAppends(files: Files, name: string, rs: seq<Record>)
    requires name !in files && rs != []
    ensures name in AppendRows(files, name, rs)
    ensures var f := AppendRows(files, name, rs)[name];
      && |f| == 1 + |rs|
      && f[0] == HeaderRow(rs[0])
      && forall i :: 0 <= i < |rs| ==> f[i + 1] == DataRow(rs[i])
  {
  }

  /** Appending to an existing file leaves its rows untouched, adds no
      header and one data line per record. */
  lemma ExistingFileAppends(files: Files, name: string, rs: seq<Record>)
    requires name in files
    ensures name in AppendRows(files, name, rs)
    ensures var f := AppendRows(files, name, rs)[name];
      && |f| == |files[name]| + |rs|
      && f[..|files[name]|] == files[name]
      && forall i :: 0 <= i < |rs| ==> f[|files[name]| + i] == DataRow(rs[i])
  {
  }

  /** Appends to one file leave every other file as it was. */
  lemma OtherFilesUnchanged(files: Files, name: string, rs: seq<Record>, other: string)
    requires other != name
    ensures other in AppendRows(files, name, rs) <==> other in files
    ensures other in files ==> AppendRows(files, name, rs)[other] == files[other]
  {
  }

  /** Appending in two runs is the same as appending in one: the header is
      never written twice. */
  lemma AppendRowsConcat(files: Files, name: string, a: seq<Record>, b: seq<Record>)
    ensures AppendRows(AppendRows(files, name, a), name, b) == AppendRows(files, name, a + b)
  {
    AppendLinesConcat(files, name, HeaderRows(a), DataRows(a), HeaderRows(b), DataRows(b));
    HeaderRowsConcat(a, b);
    DataRowsConcat(a, b);
  }

  /** Existence is all that decides the header: a file that exists but is
      empty receives a data line with no header before it. */
  lemma EmptyExistingFileGetsNoHeader(files: Files, name: string, r: Record)
    requires name in files && files[name] == []
    ensures AppendRow(files, name, r)[name] == [DataRow(r)]
    ensures AppendRow(files, name, r)[name][0] != HeaderRow(r)
  {
    DataRowIsNotHeader(r);
  }

  // ------------------------------------------------------- reading back

  function ParseUnidade(v: Value): Option<Unidade> {
    if v.StrV? then UnidadeFromLabel(v.s) else None
  }

  function ParseNomeUnidade(v: Value): Option<NomeUnidade> {
    if v.StrV? then NomeUnidadeFromLabel(v.s) else None
  }

  /** Rebuilds a record of the same type as `like` from a data line: integer
      cells, string cells, labels read back as enum members and ISO text read
      back as instants. */
  function ParseRow(like: Record, row: Row): Option<Record> {
    match like
    case MedicamentoRecord(_) =>
      if |row| == 3 && row[0].IntV? && row[1].StrV? && row[2].StrV? then
        Some(MedicamentoRecord(Medicamento(row[0].i, row[1].s, row[2].s)))
      else None
    case AtaRecord(_) =>
      if && |row| == 11 && row[0].IntV? && row[1].IntV? && row[2].StrV? && row[3].StrV?
         && row[4].StrV? && ParseUnidade(row[5]).Some? && row[6].IntV? && row[7].IntV?
         && row[8].FloatV? && row[9].IsoTextV? && row[10].IsoTextV?
      then
        Some(AtaRecord(Ata(row[0].i, row[1].i, row[2].s, row[3].s, row[4].s,
                           ParseUnidade(row[5]).value, row[6].i, row[7].i,
                           row[8].centavos, row[9].t, row[10].t)))
      else None
    case EmpenhoRecord(_) =>
      if && |row| == 6 && row[0].IntV? && row[1].IntV? && ParseUnidade(row[2]).Some?
         && row[3].IntV? && row[4].IsoTextV? && row[5].IsoTextV?
      then
        Some(EmpenhoRecord(Empenho(row[0].i, row[1].i, ParseUnidade(row[2]).value,
                                   row[3].i, row[4].t, row[5].t)))
      else None
    case LoteRecord(_) =>
      if |row| == 3 && row[0].IntV? && row[1].StrV? && row[2].IsoTextV? then
        Some(LoteRecord(Lote(row[0].i, row[1].s, row[2].t)))
      else None
    case FluxoRecord(_) =>
      if && |row| == 5 && row[0].IntV? && row[1].IntV? && ParseNomeUnidade(row[2]).Some?
         && row[3].IsoTextV? && row[4].IntV?
      then
        Some(FluxoRecord(Fluxo(row[0].i, row[1].i, ParseNomeUnidade(row[2]).value,
                               row[3].t, row[4].i)))
      else None
  }

  /** Every data line reads back as the record it was written from: the
      normalisation loses nothing. */
  lemma DataRowRoundTrip(r: Record)
    ensures ParseRow(r, DataRow(r)) == Some(r)
  {
    match r
    case MedicamentoRecord(_) =>
    case AtaRecord(a) => AtaRowRoundTrip(a);
    case EmpenhoRecord(e) => EmpenhoRowRoundTrip(e);
    case LoteRecord(_) =>
    case FluxoRecord(f) => FluxoRowRoundTrip(f);
  }

  lemma AtaRowRoundTrip(a: Ata)
    ensures ParseRow(AtaRecord(a), DataRow(AtaRecord(a))) == Some(AtaRecord(a))
  {
    LabelsRoundTrip(a.unidade, Almoxarifado);
  }

  lemma EmpenhoRowRoundTrip(e: Empenho)
    ensures ParseRow(EmpenhoRecord(e), DataRow(EmpenhoRecord(e))) == Some(EmpenhoRecord(e))
  {
    LabelsRoundTrip(e.unidade, Almoxarifado);
  }

  lemma FluxoRowRoundTrip(f: Fluxo)
    ensures ParseRow(FluxoRecord(f), DataRow(FluxoRecord(f))) == Some(FluxoRecord(f))
  {
    LabelsRoundTrip(Comprimidos, f.nomeUnidade);
  }

  /** The filesystem as `escrever_csv` sees it. */
  class FileSystem {
    var files: Files

    constructor (initial: Files)
      ensures files == initial
    {
      files := initial;
    }

    /** `escrever_csv(r, filename)`. Existence is tested the way the source
        does, by whether the file can be opened for reading, so an existing
        empty file gets no header. */
    method EscreverCsv(r: Record, filename: string)
      modifies this
      ensures files == AppendRow(old(files), filename, r)
    {
      var data := AsDict(r);
      data := Normalize(data);

      var fileExists := filename in files;

      var contents := if fileExists then files[filename] else [];
      var header := seq(|data|, i requires 0 <= i < |data| => StrV(data[i].key));
      assert header == HeaderRow(r);
      assert Values(data) == DataRow(r);
      assert files == old(files);
      if !fileExists {
        contents := contents + [header];
      }
      contents := contents + [Values(data)];
      assert contents == if fileExists then files[filename] + [DataRow(r)] else [HeaderRow(r), DataRow(r)];
      files := files[filename := contents];
    }
  }
}
