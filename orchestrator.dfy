/** The orchestrator `main`: builds the fixed-shape dataset with nested
    loops, then drains each collection through the CSV sink. */
module Orchestrator {
  import opened Results
  import opened Domain
  import opened Generators
  import opened CsvSink

  const MedicamentosCsv: string := "medicamentos.csv"
  const AtasCsv: string := "atas_registro_precos.csv"
  const EmpenhosCsv: string := "empenhos.csv"
  const LotesCsv: string := "lotes.csv"
  const FluxosCsv: string := "fluxos.csv"

  const TipoLote: string := "Tipo X"

  /** Everything one run consumes from the random source and the clock, in
      the order of the generator calls that consume it. `fluxoAgora[k]` is
      the clock reading from which the k-th flow's `inicio` (that reading
      minus 50 days) is computed: the source reads the clock anew for every
      flow. */
  datatype Inputs = Inputs(
    atas: seq<AtaDraws>,
    empenhos: seq<EmpenhoDraws>,
    lotes: seq<(int, Time)>,
    fluxoAgora: seq<Time>,
    fluxos: seq<FluxoDraws>)

  /** The draws `random` can produce for one run: three agreements, six
      commitments whose quantities lie in their agreement's bounds, six lots
      and six hundred flows. */
  predicate ValidInputs(inp: Inputs) {
    && |inp.atas| == 3
    && (forall k :: 0 <= k < 3 ==> ValidAtaDraws(inp.atas[k]))
    && |inp.empenhos| == 6
    && (forall k :: 0 <= k < 6 ==>
          && 7 <= inp.empenhos[k].diasEntrega <= 60
          && inp.atas[k / 2].quantidadeMinima <= inp.empenhos[k].quantidade <= inp.atas[k / 2].quantidadeMaxima)
    && |inp.lotes| == 6
    && (forall k :: 0 <= k < 6 ==> 180 <= inp.lotes[k].0 <= 730)
    && |inp.fluxoAgora| == 600
    && |inp.fluxos| == 600
    && (forall k :: 0 <= k < 600 ==> ValidFluxoDraws(inp.fluxos[k]))
  }

  /** `[gerar_medicamento(i) for i in range(1, 4)]` */
  method GerarMedicamentos() returns (medicamentos: seq<Medicamento>)
    ensures |medicamentos| == 3
    ensures forall k :: 0 <= k < 3 ==> medicamentos[k] == GerarMedicamento(k + 1)
  {
    medicamentos := [];
    var i := 1;
    while i < 4
      invariant 1 <= i <= 4 && |medicamentos| == i - 1
      invariant forall k :: 0 <= k < |medicamentos| ==> medicamentos[k] == GerarMedicamento(k + 1)
    {
      medicamentos := medicamentos + [GerarMedicamento(i)];
      i := i + 1;
    }
  }

  /** `[gerar_ata(i, medicamentos[i - 1].id_medicamento) for i in range(1, 4)]`:
      agreement k belongs to medication k. */
  method GerarAtas(medicamentos: seq<Medicamento>, draws: seq<AtaDraws>) returns (atas: seq<Ata>)
    requires |medicamentos| == 3 && |draws| == 3
    requires forall k :: 0 <= k < 3 ==> ValidAtaDraws(draws[k])
    ensures |atas| == 3
    ensures forall k :: 0 <= k < 3 ==> atas[k] == GerarAta(k + 1, medicamentos[k].idMedicamento, draws[k])
  {
    atas := [];
    var i := 1;
    while i < 4
      invariant 1 <= i <= 4 && |atas| == i - 1
      invariant forall k :: 0 <= k < |atas| ==>
                  atas[k] == GerarAta(k + 1, medicamentos[k].idMedicamento, draws[k])
    {
      atas := atas + [GerarAta(i, medicamentos[i - 1].idMedicamento, draws[i - 1])];
      i := i + 1;
    }
  }

  /** `[gerar_empenho(i, ata) for ata in atas for i in range(ata.id * 2 - 1, ata.id * 2 + 1)]`:
      two commitments per agreement, ids 2a-1 and 2a for agreement a, each
      drawn against its agreement. Every agreement `main` builds has
      minimum below maximum, so no draw fails. */
  method GerarEmpenhos(atas: seq<Ata>, draws: seq<EmpenhoDraws>) returns (empenhos: seq<Empenho>)
    requires forall a :: 0 <= a < |atas| ==> atas[a].id == a + 1
    requires forall a :: 0 <= a < |atas| ==> atas[a].quantidadeMinima <= atas[a].quantidadeMaxima
    requires |draws| == 2 * |atas|
    requires forall k :: 0 <= k < |draws| ==> ValidEmpenhoDraws(draws[k], atas[k / 2])
    ensures |empenhos| == 2 * |atas|
    ensures forall k :: 0 <= k < |empenhos| ==> GerarEmpenho(k + 1, atas[k / 2], draws[k]) == Success(empenhos[k])
    ensures forall k :: 0 <= k < |empenhos| ==>
              && empenhos[k].id == k + 1
              && 2 * empenhos[k].idAta - 1 <= empenhos[k].id <= 2 * empenhos[k].idAta
              && DrawnAgainst(empenhos[k], atas[k / 2])
  {
    empenhos := [];
    var j := 0;
    while j < |atas|
      invariant 0 <= j <= |atas| && |empenhos| == 2 * j
      invariant forall k :: 0 <= k < |empenhos| ==>
                  GerarEmpenho(k + 1, atas[k / 2], draws[k]) == Success(empenhos[k])
    {
      var ata := atas[j];
      var i := ata.id * 2 - 1;
      while i < ata.id * 2 + 1
        invariant 2 * j + 1 <= i <= 2 * j + 3 && |empenhos| == i - 1
        invariant forall k :: 0 <= k < |empenhos| ==>
                    GerarEmpenho(k + 1, atas[k / 2], draws[k]) == Success(empenhos[k])
      {
        var r := GerarEmpenho(i, ata, draws[i - 1]);
        empenhos := empenhos + [r.value];
        i := i + 1;
      }
      j := j + 1;
    }
  }

  /** `[gerar_lote(i, "Tipo X") for i in range(1, n + 1)]`, one lot per
      commitment. */
  method GerarLotes(n: nat, draws: seq<(int, Time)>) returns (lotes: seq<Lote>)
    requires |draws| == n
    requires forall k :: 0 <= k < n ==> 180 <= draws[k].0 <= 730
    ensures |lotes| == n
    ensures forall k :: 0 <= k < n ==> lotes[k] == GerarLote(k + 1, TipoLote, draws[k].0, draws[k].1)
  {
    lotes := [];
    var i := 1;
    while i < n + 1
      invariant 1 <= i <= n + 1 && |lotes| == i - 1
      invariant forall k :: 0 <= k < |lotes| ==> lotes[k] == GerarLote(k + 1, TipoLote, draws[k].0, draws[k].1)
    {
      lotes := lotes + [GerarLote(i, TipoLote, draws[i - 1].0, draws[i - 1].1)];
      i := i + 1;
    }
  }

  /** `[gerar_fluxo(i, lote.id, now() - 50 days) for lote in lotes for i in
      range(lote.id * 100 - 99, lote.id * 100 + 1)]`: a hundred flows per
      lot, ids 100b-99..100b for lot b, each dated within the 50 days before
      its own clock reading. */
  method GerarFluxos(lotes: seq<Lote>, agora: seq<Time>, draws: seq<FluxoDraws>) returns (fluxos: seq<Fluxo>)
    requires forall b :: 0 <= b < |lotes| ==> lotes[b].id == b + 1
    requires |agora| == 100 * |lotes| && |draws| == 100 * |lotes|
    requires forall k :: 0 <= k < |draws| ==> ValidFluxoDraws(draws[k])
    ensures |fluxos| == 100 * |lotes|
    ensures forall k :: 0 <= k < |fluxos| ==>
              fluxos[k] == GerarFluxo(k + 1, lotes[k / 100].id, agora[k] - 50 * DAY, draws[k])
    ensures forall k :: 0 <= k < |fluxos| ==>
              && fluxos[k].id == k + 1
              && 100 * fluxos[k].idLote - 99 <= fluxos[k].id <= 100 * fluxos[k].idLote
              && agora[k] - 50 * DAY <= fluxos[k].timestamp <= agora[k]
  {
    fluxos := [];
    var j := 0;
    while j < |lotes|
      invariant 0 <= j <= |lotes| && |fluxos| == 100 * j
      invariant forall k :: 0 <= k < |fluxos| ==>
                  fluxos[k] == GerarFluxo(k + 1, lotes[k / 100].id, agora[k] - 50 * DAY, draws[k])
    {
      var lote := lotes[j];
      var i := lote.id * 100 - 99;
      while i < lote.id * 100 + 1
        invariant 100 * j + 1 <= i <= 100 * j + 101 && |fluxos| == i - 1
        invariant forall k :: 0 <= k < |fluxos| ==>
                    fluxos[k] == GerarFluxo(k + 1, lotes[k / 100].id, agora[k] - 50 * DAY, draws[k])
      {
        fluxos := fluxos + [GerarFluxo(i, lote.id, agora[i - 1] - 50 * DAY, draws[i - 1])];
        i := i + 1;
      }
      j := j + 1;
    }
  }

  // ------------------------------------------------------------- writing

  function MedicamentoRecords(ms: seq<Medicamento>): seq<Record> {
    seq(|ms|, i requires 0 <= i < |ms| => MedicamentoRecord(ms[i]))
  }

  function AtaRecords(as_: seq<Ata>): seq<Record> {
    seq(|as_|, i requires 0 <= i < |as_| => AtaRecord(as_[i]))
  }

  function EmpenhoRecords(es: seq<Empenho>): seq<Record> {
    seq(|es|, i requires 0 <= i < |es| => EmpenhoRecord(es[i]))
  }

  function LoteRecords(ls: seq<Lote>): seq<Record> {
    seq(|ls|, i requires 0 <= i < |ls| => LoteRecord(ls[i]))
  }

  function FluxoRecords(fs: seq<Fluxo>): seq<Record> {
    seq(|fs|, i requires 0 <= i < |fs| => FluxoRecord(fs[i]))
  }

  /** `for r in rs: escrever_csv(r, name)` */
  method EscreverTodos(fs: FileSystem, rs: seq<Record>, name: string)
    modifies fs
    ensures fs.files == AppendRows(old(fs.files), name, rs)
  {
    var i := 0;
    while i < |rs|
      invariant 0 <= i <= |rs|
      invariant fs.files == AppendRows(old(fs.files), name, rs[..i])
    {
      AppendRowsSnoc(old(fs.files), name, rs[..i], rs[i]);
      fs.EscreverCsv(rs[i], name);
      assert rs[..i + 1] == rs[..i] + [rs[i]];
      i := i + 1;
    }
    assert rs[..i] == rs;
  }

  /** The filesystem after `main`'s five write loops, in the source's order. */
  function WriteAll(files: Files, medicamentos: seq<Medicamento>, atas: seq<Ata>, empenhos: seq<Empenho>,
                    lotes: seq<Lote>, fluxos: seq<Fluxo>): Files
  {
    var f1 := AppendRows(files, MedicamentosCsv, MedicamentoRecords(medicamentos));
    var f2 := AppendRows(f1, AtasCsv, AtaRecords(atas));
    var f3 := AppendRows(f2, EmpenhosCsv, EmpenhoRecords(empenhos));
    var f4 := AppendRows(f3, LotesCsv, LoteRecords(lotes));
    AppendRows(f4, FluxosCsv, FluxoRecords(fluxos))
  }

  /** What `main` generates from one run's draws: three medications, each
      with its agreement, two commitments per agreement, one lot per
      commitment and a hundred flows per lot, numbered from 1 and linked by
      position. */
  predicate Dataset(inp: Inputs, medicamentos: seq<Medicamento>, atas: seq<Ata>, empenhos: seq<Empenho>,
                    lotes: seq<Lote>, fluxos: seq<Fluxo>)
  {
    && |inp.atas| == 3 && |inp.empenhos| == 6 && |inp.lotes| == 6
    && |inp.fluxoAgora| == 600 && |inp.fluxos| == 600
    && |medicamentos| == 3 && |atas| == 3 && |empenhos| == 6 && |lotes| == 6 && |fluxos| == 600
    && (forall k :: 0 <= k < 3 ==> medicamentos[k] == GerarMedicamento(k + 1))
    && (forall k :: 0 <= k < 3 ==>
          ValidAtaDraws(inp.atas[k]) && atas[k] == GerarAta(k + 1, k + 1, inp.atas[k]))
    && (forall k :: 0 <= k < 6 ==>
          && ValidEmpenhoDraws(inp.empenhos[k], atas[k / 2])
          && GerarEmpenho(k + 1, atas[k / 2], inp.empenhos[k]) == Success(empenhos[k]))
    && (forall k :: 0 <= k < 6 ==>
          180 <= inp.lotes[k].0 <= 730 && lotes[k] == GerarLote(k + 1, TipoLote, inp.lotes[k].0, inp.lotes[k].1))
    && (forall k :: 0 <= k < 600 ==>
          && ValidFluxoDraws(inp.fluxos[k])
          && fluxos[k] == GerarFluxo(k + 1, k / 100 + 1, inp.fluxoAgora[k] - 50 * DAY, inp.fluxos[k]))
  }

  /** The links the dataset keeps: ids run from 1 without gaps, agreement k
      belongs to medication k, commitments 2a-1 and 2a are drawn against
      agreement a, lot k is of type "Tipo X", flows 100b-99..100b belong to
      lot b and each flow lies within the 50 days before its clock reading. */
  lemma DatasetLinks(inp: Inputs, medicamentos: seq<Medicamento>, atas: seq<Ata>, empenhos: seq<Empenho>,
                     lotes: seq<Lote>, fluxos: seq<Fluxo>)
    requires Dataset(inp, medicamentos, atas, empenhos, lotes, fluxos)
    ensures forall k :: 0 <= k < 3 ==>
              && medicamentos[k].idMedicamento == k + 1
              && atas[k].id == k + 1
              && atas[k].idMedicamento == medicamentos[k].idMedicamento
    ensures forall k :: 0 <= k < 6 ==>
              && empenhos[k].id == k + 1
              && 1 <= empenhos[k].idAta <= 3
              && 2 * empenhos[k].idAta - 1 <= empenhos[k].id <= 2 * empenhos[k].idAta
              && DrawnAgainst(empenhos[k], atas[empenhos[k].idAta - 1])
    ensures forall k :: 0 <= k < 6 ==> lotes[k].id == k + 1 && lotes[k].tipoMedicamento == TipoLote
    ensures forall k :: 0 <= k < 600 ==>
              && fluxos[k].id == k + 1
              && 1 <= fluxos[k].idLote <= 6
              && 100 * fluxos[k].idLote - 99 <= fluxos[k].id <= 100 * fluxos[k].idLote
              && inp.fluxoAgora[k] - 50 * DAY <= fluxos[k].timestamp <= inp.fluxoAgora[k]
  {
    forall k | 0 <= k < 6
      ensures && empenhos[k].id == k + 1
              && 1 <= empenhos[k].idAta <= 3
              && 2 * empenhos[k].idAta - 1 <= empenhos[k].id <= 2 * empenhos[k].idAta
              && DrawnAgainst(empenhos[k], atas[empenhos[k].idAta - 1])
    {
      assert atas[k / 2].id == k / 2 + 1;
    }
  }

  /** `main`'s five comprehensions, in order. */
  method GerarDados(inp: Inputs)
    returns (medicamentos: seq<Medicamento>, atas: seq<Ata>, empenhos: seq<Empenho>, lotes: seq<Lote>, fluxos: seq<Fluxo>)
    requires ValidInputs(inp)
    ensures Dataset(inp, medicamentos, atas, empenhos, lotes, fluxos)
  {
    medicamentos := GerarMedicamentos();
    atas := GerarAtas(medicamentos, inp.atas);
    empenhos := GerarEmpenhos(atas, inp.empenhos);
    lotes := GerarLotes(|empenhos|, inp.lotes);
    fluxos := GerarFluxos(lotes, inp.fluxoAgora, inp.fluxos);
  }

  /** `main`: generate the dataset, then append every record to its file. */
  method RunMain(fs: FileSystem, inp: Inputs)
    returns (medicamentos: seq<Medicamento>, atas: seq<Ata>, empenhos: seq<Empenho>, lotes: seq<Lote>, fluxos: seq<Fluxo>)
    requires ValidInputs(inp)
    modifies fs
    ensures Dataset(inp, medicamentos, atas, empenhos, lotes, fluxos)
    ensures fs.files == WriteAll(old(fs.files), medicamentos, atas, empenhos, lotes, fluxos)
  {
    medicamentos, atas, empenhos, lotes, fluxos := GerarDados(inp);
    EscreverTodos(fs, MedicamentoRecords(medicamentos), MedicamentosCsv);
    EscreverTodos(fs, AtaRecords(atas), AtasCsv);
    EscreverTodos(fs, EmpenhoRecords(empenhos), EmpenhosCsv);
    EscreverTodos(fs, LoteRecords(lotes), LotesCsv);
    EscreverTodos(fs, FluxoRecords(fluxos), FluxosCsv);
  }

  /** On a filesystem holding none of the five files, `main` creates each
      with one header line and 3, 3, 6, 6 and 600 data lines, and touches no
      other file. */
  lemma WriteAllRowCounts(files: Files, medicamentos: seq<Medicamento>, atas: seq<Ata>,
                                             empenhos: seq<Empenho>, lotes: seq<Lote>, fluxos: seq<Fluxo>, other: string)
    requires |medicamentos| == 3 && |atas| == 3 && |empenhos| == 6 && |lotes| == 6 && |fluxos| == 600
    requires MedicamentosCsv !in files && AtasCsv !in files && EmpenhosCsv !in files
    requires LotesCsv !in files && FluxosCsv !in files
    requires other !in {MedicamentosCsv, AtasCsv, EmpenhosCsv, LotesCsv, FluxosCsv}
    ensures var out := WriteAll(files, medicamentos, atas, empenhos, lotes, fluxos);
      && MedicamentosCsv in out && |out[MedicamentosCsv]| == 1 + 3
      && AtasCsv in out && |out[AtasCsv]| == 1 + 3
      && EmpenhosCsv in out && |out[EmpenhosCsv]| == 1 + 6
      && LotesCsv in out && |out[LotesCsv]| == 1 + 6
      && FluxosCsv in out && |out[FluxosCsv]| == 1 + 600
      && (other in out <==> other in files)
      && (other in files ==> out[other] == files[other])
  {
  }
}
