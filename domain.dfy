/** The entities of the supply dataset: the two enumerations and the five
    record types, with field names and order as declared in gen.py. */
module Domain {
  import opened Results

  /** An instant, in microseconds since a fixed epoch (the resolution of
      Python's `datetime`). */
  type Time = int

  /** One day, as `timedelta(days=1)`, in microseconds. */
  const DAY: int := 86_400_000_000

  /** Unit of measure of an agreement or commitment (`Unidade`). */
  datatype Unidade = Comprimidos | Caixa | Frascos | Gramas

  /** The enumeration's members in declaration order, as `list(Unidade)` lists them. */
  const Unidades: seq<Unidade> := [Comprimidos, Caixa, Frascos, Gramas]

  function UnidadeLabel(u: Unidade): string {
    match u
    case Comprimidos => "comprimidos"
    case Caixa => "caixa"
    case Frascos => "frascos"
    case Gramas => "gramas"
  }

  /** The member whose label is `s`, as `Unidade(s)` looks it up. */
  function UnidadeFromLabel(s: string): Option<Unidade> {
    if s == "comprimidos" then Some(Comprimidos)
    else if s == "caixa" then Some(Caixa)
    else if s == "frascos" then Some(Frascos)
    else if s == "gramas" then Some(Gramas)
    else None
  }

  /** Facility where a stock movement happens (`NomeUnidade`). */
  datatype NomeUnidade = Almoxarifado | FarmaciaCentral | BlocoCirurgico

  const NomesUnidade: seq<NomeUnidade> := [Almoxarifado, FarmaciaCentral, BlocoCirurgico]

  function NomeUnidadeLabel(n: NomeUnidade): string {
    match n
    case Almoxarifado => "almoxarifado"
    case FarmaciaCentral => "farmacia central"
    case BlocoCirurgico => "bloco cirurgico"
  }

  function NomeUnidadeFromLabel(s: string): Option<NomeUnidade> {
    if s == "almoxarifado" then Some(Almoxarifado)
    else if s == "farmacia central" then Some(FarmaciaCentral)
    else if s == "bloco cirurgico" then Some(BlocoCirurgico)
    else None
  }

  /** Labels identify their members: reading a label back gives the member. */
  lemma LabelsRoundTrip(u: Unidade, n: NomeUnidade)
    ensures UnidadeFromLabel(UnidadeLabel(u)) == Some(u)
    ensures NomeUnidadeFromLabel(NomeUnidadeLabel(n)) == Some(n)
  {
  }

  /** Price-registration agreement (`AtaRegistroPrecos`); the unit price is
      held in cents. */
  datatype Ata = Ata(
    id: int,
    idMedicamento: int,
    especificacao: string,
    nomeFornecedor: string,
    cnpj: string,
    unidade: Unidade,
    quantidadeMaxima: int,
    quantidadeMinima: int,
    valorUnitario: int,
    dataAbertura: Time,
    prazo: Time)

  /** Purchase commitment drawn against an agreement (`Empenho`). */
  datatype Empenho = Empenho(
    id: int,
    idAta: int,
    unidade: Unidade,
    quantidade: int,
    dataAbertura: Time,
    prazoEntrega: Time)

  datatype Medicamento = Medicamento(
    idMedicamento: int,
    nomeMedicamento: string,
    descricao: string)

  /** Inventory lot of a medication type (`Lote`). */
  datatype Lote = Lote(
    id: int,
    tipoMedicamento: string,
    prazoValidade: Time)

  /** Stock movement against a lot at a facility (`Fluxo`). */
  datatype Fluxo = Fluxo(
    id: int,
    idLote: int,
    nomeUnidade: NomeUnidade,
    timestamp: Time,
    variacao: int)
}
