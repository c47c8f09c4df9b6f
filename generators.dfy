/** The record generators. Each random draw and each reading of the clock
    that a generator makes is a parameter; a `requires` gives each draw the
    range `random.randint` (or `random.choice`) guarantees. */
module Generators {
  import opened Results
  import opened Decimal
  import opened Domain

  // ---------------------------------------------------------------- tax id

  /** The five `randint` draws of one tax id, in the order they are made. */
  datatype CnpjDraws = CnpjDraws(g1: int, g2: int, g3: int, g4: int, g5: int)

  predicate ValidCnpjDraws(d: CnpjDraws) {
    && 10 <= d.g1 <= 99
    && 100 <= d.g2 <= 999
    && 100 <= d.g3 <= 999
    && 1000 <= d.g4 <= 9999
    && 10 <= d.g5 <= 99
  }

  /** `gerar_cnpj`: the draws written as `NN.NNN.NNN/NNNN-NN`. */
  function GerarCnpj(d: CnpjDraws): string
    requires ValidCnpjDraws(d)
  {
    Digits(d.g1) + "." + Digits(d.g2) + "." + Digits(d.g3) + "/" + Digits(d.g4) + "-" + Digits(d.g5)
  }

  /** A generated tax id has digit groups of lengths 2, 3, 3, 4 and 2,
      separated by '.', '.', '/' and '-', and each group reads back as the
      draw it was written from. */
  lemma CnpjFormat(d: CnpjDraws)
    requires ValidCnpjDraws(d)
    ensures var s := GerarCnpj(d);
      && |s| == 18
      && s[2] == '.' && s[6] == '.' && s[10] == '/' && s[15] == '-'
      && AllDigits(s[0..2]) && AllDigits(s[3..6]) && AllDigits(s[7..10])
      && AllDigits(s[11..15]) && AllDigits(s[16..18])
      && DecimalValue(s[0..2]) == d.g1 && DecimalValue(s[3..6]) == d.g2
      && DecimalValue(s[7..10]) == d.g3 && DecimalValue(s[11..15]) == d.g4
      && DecimalValue(s[16..18]) == d.g5
  {
    DecimalValueOfDigits(d.g1);
    DecimalValueOfDigits(d.g2);
    DecimalValueOfDigits(d.g3);
    DecimalValueOfDigits(d.g4);
    DecimalValueOfDigits(d.g5);
    CnpjPieces(d);
  }

  /** Where each piece of a generated tax id sits. */
  lemma CnpjPieces(d: CnpjDraws)
    requires ValidCnpjDraws(d)
    ensures var s := GerarCnpj(d);
      && |s| == 18
      && s[2] == '.' && s[6] == '.' && s[10] == '/' && s[15] == '-'
      && s[0..2] == Digits(d.g1) && s[3..6] == Digits(d.g2) && s[7..10] == Digits(d.g3)
      && s[11..15] == Digits(d.g4) && s[16..18] == Digits(d.g5)
  {
    DigitsLength(d.g1, 2);
    DigitsLength(d.g2, 3);
    DigitsLength(d.g3, 3);
    DigitsLength(d.g4, 4);
    DigitsLength(d.g5, 2);
    var s := GerarCnpj(d);
    var head := Digits(d.g1) + "." + Digits(d.g2) + "." + Digits(d.g3) + "/";
    assert s == head + Digits(d.g4) + "-" + Digits(d.g5);
    assert |head| == 11;
    assert s[0..2] == Digits(d.g1);
    assert s[3..6] == Digits(d.g2);
    assert s[7..10] == Digits(d.g3);
    assert s[11..15] == Digits(d.g4);
    assert s[16..18] == Digits(d.g5);
  }

  // ------------------------------------------------------------ agreement

  /** What one `gerar_ata` call consumes: the tax-id draws, the index that
      `random.choice(list(Unidade))` picks, the quantity and price draws
      (price in cents), the two day offsets, and the two clock readings
      (`datetime.now()` is read once for the opening date and once more for
      the deadline). */
  datatype AtaDraws = AtaDraws(
    cnpj: CnpjDraws,
    unidade: int,
    quantidadeMaxima: int,
    quantidadeMinima: int,
    valorCentavos: int,
    diasAbertura: int,
    diasPrazo: int,
    agoraAbertura: Time,
    agoraPrazo: Time)

  predicate ValidAtaDraws(d: AtaDraws) {
    && ValidCnpjDraws(d.cnpj)
    && 0 <= d.unidade < |Unidades|
    && 100 <= d.quantidadeMaxima <= 500
    && 10 <= d.quantidadeMinima <= 50
    && 100 <= d.valorCentavos <= 10000
    && 1 <= d.diasAbertura <= 365
    && 30 <= d.diasPrazo <= 365
  }

  const Especificacao: string := "Medicamento genérico de alta qualidade"

  /** `gerar_ata`. The quantity bounds come from disjoint ranges, so the
      minimum never exceeds the maximum; the opening date lies 1 to 365 days
      before its clock reading and the deadline 30 to 365 days after its
      own, so the deadline is at least 31 days after the opening whenever the
      clock did not go backwards between the two readings. */
  function GerarAta(id: int, idMedicamento: int, d: AtaDraws): (a: Ata)
    requires ValidAtaDraws(d)
    ensures a.id == id && a.idMedicamento == idMedicamento
    ensures a.especificacao == Especificacao
    ensures |a.nomeFornecedor| > |"Fornecedor "|
    ensures a.nomeFornecedor[..|"Fornecedor "|] == "Fornecedor "
    ensures ParseInt(a.nomeFornecedor[|"Fornecedor "|..]) == Some(id)
    ensures a.unidade in Unidades
    ensures 10 <= a.quantidadeMinima <= 50 && 100 <= a.quantidadeMaxima <= 500
    ensures a.quantidadeMinima < a.quantidadeMaxima
    ensures 100 <= a.valorUnitario <= 10000
    ensures d.agoraAbertura - 365 * DAY <= a.dataAbertura <= d.agoraAbertura - DAY
    ensures d.agoraPrazo + 30 * DAY <= a.prazo <= d.agoraPrazo + 365 * DAY
    ensures d.agoraAbertura <= d.agoraPrazo ==> a.dataAbertura + 31 * DAY <= a.prazo
  {
    IntToStringRoundTrip(id);
    var fornecedor := "Fornecedor " + IntToString(id);
    assert fornecedor[|"Fornecedor "|..] == IntToString(id);
    Ata(
      id,
      idMedicamento,
      Especificacao,
      fornecedor,
      GerarCnpj(d.cnpj),
      Unidades[d.unidade],
      d.quantidadeMaxima,
      d.quantidadeMinima,
      d.valorCentavos,
      d.agoraAbertura - d.diasAbertura * DAY,
      d.agoraPrazo + d.diasPrazo * DAY)
  }

  // ----------------------------------------------------------- commitment

  /** What one `gerar_empenho` call consumes: the quantity draw, the day
      offset of the delivery deadline and two clock readings. */
  datatype EmpenhoDraws = EmpenhoDraws(
    quantidade: int,
    diasEntrega: int,
    agoraAbertura: Time,
    agoraEntrega: Time)

  /** The ranges of `gerar_empenho`'s draws: 7 to 60 days, and a quantity
      between the agreement's bounds whenever those bounds form a range. */
  predicate ValidEmpenhoDraws(d: EmpenhoDraws, ata: Ata) {
    && 7 <= d.diasEntrega <= 60
    && (ata.quantidadeMinima <= ata.quantidadeMaxima ==>
          ata.quantidadeMinima <= d.quantidade <= ata.quantidadeMaxima)
  }

  /** `random.randint(a, b)` with `a > b` raises `ValueError` (empty range). */
  datatype RangeError = EmptyRange(lo: int, hi: int)

  /** A commitment is drawn against `ata`: same agreement id and unit, and a
      quantity inside the agreement's bounds. */
  predicate DrawnAgainst(e: Empenho, ata: Ata) {
    && e.idAta == ata.id
    && e.unidade == ata.unidade
    && ata.quantidadeMinima <= e.quantidade <= ata.quantidadeMaxima
  }

  /** `gerar_empenho`. It fails exactly when the agreement's bounds form an
      empty range; otherwise the commitment is drawn against the agreement,
      opens at its clock reading and is due 7 to 60 days after the second. */
  function GerarEmpenho(id: int, ata: Ata, d: EmpenhoDraws): (r: Result<Empenho, RangeError>)
    requires ValidEmpenhoDraws(d, ata)
    ensures r.Failure? <==> ata.quantidadeMinima > ata.quantidadeMaxima
    ensures r.Failure? ==> r.error == EmptyRange(ata.quantidadeMinima, ata.quantidadeMaxima)
    ensures r.Success? ==>
      && r.value.id == id
      && DrawnAgainst(r.value, ata)
      && r.value.dataAbertura == d.agoraAbertura
      && d.agoraEntrega + 7 * DAY <= r.value.prazoEntrega <= d.agoraEntrega + 60 * DAY
      && (d.agoraAbertura <= d.agoraEntrega ==> r.value.prazoEntrega > r.value.dataAbertura)
  {
    if ata.quantidadeMinima > ata.quantidadeMaxima then
      Failure(EmptyRange(ata.quantidadeMinima, ata.quantidadeMaxima))
    else
      Success(Empenho(
        id,
        ata.id,
        ata.unidade,
        d.quantidade,
        d.agoraAbertura,
        d.agoraEntrega + d.diasEntrega * DAY))
  }

  // ----------------------------------------------------------- medication

  const DescricaoMedicamento: string := "Descrição do medicamento genérico."

  /** `gerar_medicamento`: no randomness. The name is "Medicamento " followed
      by the id's decimal text, and the description is a fixed sentence. */
  function GerarMedicamento(id: int): (m: Medicamento)
    ensures m.idMedicamento == id
    ensures |m.nomeMedicamento| > |"Medicamento "|
    ensures m.nomeMedicamento[..|"Medicamento "|] == "Medicamento "
    ensures ParseInt(m.nomeMedicamento[|"Medicamento "|..]) == Some(id)
    ensures m.descricao == DescricaoMedicamento
  {
    IntToStringRoundTrip(id);
    var nome := "Medicamento " + IntToString(id);
    assert nome[|"Medicamento "|..] == IntToString(id);
    Medicamento(id, nome, DescricaoMedicamento)
  }

  /** Medication 1 is always named "Medicamento 1". */
  lemma FirstMedicamento()
    ensures GerarMedicamento(1) == Medicamento(1, "Medicamento 1", "Descrição do medicamento genérico.")
  {
    assert Digits(1) == "1";
  }

  // ------------------------------------------------------------------ lot

  /** `gerar_lote`: the expiry lies 180 to 730 days after the clock reading
      `agora`, so it is always in the future of that reading. */
  function GerarLote(id: int, tipo: string, diasValidade: int, agora: Time): (l: Lote)
    requires 180 <= diasValidade <= 730
    ensures l.id == id && l.tipoMedicamento == tipo
    ensures agora + 180 * DAY <= l.prazoValidade <= agora + 730 * DAY
    ensures l.prazoValidade > agora
  {
    Lote(id, tipo, agora + diasValidade * DAY)
  }

  // ----------------------------------------------------------------- flow

  /** What one `gerar_fluxo` call consumes: the facility index picked by
      `random.choice(list(NomeUnidade))`, the day offset and the delta. */
  datatype FluxoDraws = FluxoDraws(nomeUnidade: int, dias: int, variacao: int)

  predicate ValidFluxoDraws(d: FluxoDraws) {
    && 0 <= d.nomeUnidade < |NomesUnidade|
    && 0 <= d.dias <= 50
    && -50 <= d.variacao <= 50
  }

  /** `gerar_fluxo`: the movement happens 0 to 50 days after `inicio` and
      changes stock by at most 50 units either way. */
  function GerarFluxo(id: int, idLote: int, inicio: Time, d: FluxoDraws): (f: Fluxo)
    requires ValidFluxoDraws(d)
    ensures f.id == id && f.idLote == idLote
    ensures f.nomeUnidade in NomesUnidade
    ensures inicio <= f.timestamp <= inicio + 50 * DAY
    ensures -50 <= f.variacao <= 50
  {
    Fluxo(id, idLote, NomesUnidade[d.nomeUnidade], inicio + d.dias * DAY, d.variacao)
  }
}
