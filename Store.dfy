/**
 * The tenant data of the car-wash backend as an in-memory store: one map per
 * table, keyed by record id. Every record that belongs to a company carries
 * its `empresaId`; the handlers filter on it the way the controllers' `where`
 * clauses do.
 */
module Store {
  import opened Common

  /** Order lifecycle: PENDENTE -> EM_ANDAMENTO -> FINALIZADO, or -> CANCELADO. */
  datatype OrdemStatus = Pendente | EmAndamento | Finalizado | Cancelado

  function OrdemStatusName(s: OrdemStatus): string {
    match s
    case Pendente => "PENDENTE"
    case EmAndamento => "EM_ANDAMENTO"
    case Finalizado => "FINALIZADO"
    case Cancelado => "CANCELADO"
  }

  /** The enum check the database applies to a status string. */
  function ParseOrdemStatus(s: string): (r: Option<OrdemStatus>)
    ensures r.Some? ==> OrdemStatusName(r.value) == s
  {
    if s == "PENDENTE" then Some(Pendente)
    else if s == "EM_ANDAMENTO" then Some(EmAndamento)
    else if s == "FINALIZADO" then Some(Finalizado)
    else if s == "CANCELADO" then Some(Cancelado)
    else None
  }

  lemma ParseOrdemStatusName(s: OrdemStatus)
    ensures ParseOrdemStatus(OrdemStatusName(s)) == Some(s)
  {
  }

  /** PENDENTE and EM_ANDAMENTO orders are the "active" ones. */
  predicate Active(s: OrdemStatus) {
    s == Pendente || s == EmAndamento
  }

  datatype ItemKind = ServicoItem | AdicionalItem

  /** One order line, with the unit price snapshot taken when the order was priced. */
  datatype Line = Line(tipo: ItemKind, itemId: Id, quantidade: int, precoUnit: Money, subtotal: Money)

  /** A service order. Its line items are kept inside it (the item table holds only them). */
  datatype Ordem = Ordem(
    empresaId: Id,
    numeroOrdem: Option<nat>,
    clienteId: Id,
    veiculoId: Id,
    lavadorId: Option<Id>,
    status: OrdemStatus,
    valorTotal: Money,
    comissao: Money,
    pago: bool,
    dataFim: Option<int>,
    observacoes: Option<string>,
    items: seq<Line>)

  /** Payment methods; `MetodoPendente` is the source's 'PENDENTE' ("to be paid"). */
  datatype Metodo = Dinheiro | Pix | Cartao | MetodoPendente

  /** Payment states PENDENTE, PAGO and CANCELADO. */
  datatype StatusPagamento = PagamentoPendente | Pago | PagamentoCancelado

  datatype Pagamento = Pagamento(
    ordemId: Id,
    empresaId: Id,
    metodo: Metodo,
    valor: Money,
    observacoes: Option<string>,
    status: StatusPagamento,
    pagoEm: Option<int>)

  datatype Cliente = Cliente(empresaId: Id, nome: string, telefone: Option<string>, email: Option<string>, ativo: bool)

  /** A vehicle; its plate is unique across all companies. */
  datatype Veiculo = Veiculo(clienteId: Id, placa: string, modelo: Option<string>, cor: Option<string>, categoriaId: Option<Id>)

  /** A washer with a commission percentage. */
  datatype Lavador = Lavador(empresaId: Id, nome: string, comissao: real, ativo: bool)

  /** A per-vehicle-category price (the compiled variant's price tables). */
  datatype PriceRow = PriceRow(categoriaId: Id, preco: Money)

  /** A service. `preco`/`tipoVeiculoId` are the flat-price schema, `precos` the per-category one. */
  datatype Servico = Servico(
    empresaId: Id,
    nome: string,
    descricao: Option<string>,
    duracao: Option<int>,
    preco: Money,
    tipoVeiculoId: Option<Id>,
    ativo: bool,
    precos: seq<PriceRow>)

  datatype Adicional = Adicional(
    empresaId: Id,
    nome: string,
    descricao: Option<string>,
    preco: Money,
    ativo: bool,
    precos: seq<PriceRow>)

  datatype TipoVeiculo = TipoVeiculo(empresaId: Id, nome: string, categoria: Option<string>, descricao: Option<string>, ativo: bool)

  datatype Categoria = Categoria(empresaId: Id, nome: string)

  /** A JSON column (the company's `config` and `notificationPreferences`). */
  datatype Json =
    | JNull
    | JBool(b: bool)
    | JNumber(n: real)
    | JString(s: string)
    | JArray(elems: seq<Json>)
    | JObject(fields: map<string, Json>)
  {
    /** JavaScript truthiness of a JSON value. */
    predicate Truthy() {
      match this
      case JNull => false
      case JBool(b) => b
      case JNumber(n) => n != 0.0
      case JString(s) => s != ""
      case _ => true
    }
  }

  datatype Empresa = Empresa(
    nome: string,
    usuarioId: Id,
    ativo: bool,
    config: Json,
    horarioAbertura: Option<string>,
    horarioFechamento: Option<string>,
    finalizacaoAutomatica: bool,
    exigirLavadorParaFinalizar: bool,
    paginaInicialPadrao: Option<string>,
    notificationPreferences: Json)

  /** The four notification kinds a company can switch on or off. */
  datatype NotificationType = OrdemCriada | OrdemEditada | OrdemDeletada | FinalizacaoAutomatica

  function NotificationTypeName(t: NotificationType): string {
    match t
    case OrdemCriada => "ordemCriada"
    case OrdemEditada => "ordemEditada"
    case OrdemDeletada => "ordemDeletada"
    case FinalizacaoAutomatica => "finalizacaoAutomatica"
  }

  datatype Notificacao = Notificacao(empresaId: Id, mensagem: string, link: Option<string>, tipo: NotificationType, lida: bool)

  /** The tables that referential integrity is about, as one value. */
  datatype Tables = Tables(
    clientes: map<Id, Cliente>,
    veiculos: map<Id, Veiculo>,
    lavadores: map<Id, Lavador>,
    servicos: map<Id, Servico>,
    adicionais: map<Id, Adicional>,
    tiposVeiculo: map<Id, TipoVeiculo>,
    ordens: map<Id, Ordem>,
    pagamentos: map<Id, Pagamento>)

  /** Every line of an order names a service or add-on that exists. */
  ghost predicate LinesResolve(t: Tables, items: seq<Line>) {
    forall i :: 0 <= i < |items| ==>
      (items[i].tipo == ServicoItem ==> items[i].itemId in t.servicos) &&
      (items[i].tipo == AdicionalItem ==> items[i].itemId in t.adicionais)
  }

  /** The references of an order point at existing records. */
  ghost predicate OrdemResolves(t: Tables, o: Ordem) {
    && o.clienteId in t.clientes
    && o.veiculoId in t.veiculos
    && (o.lavadorId.Some? ==> o.lavadorId.value in t.lavadores)
    && LinesResolve(t, o.items)
  }

  /** The plate column is unique across all companies. */
  predicate PlatesUnique(veiculos: map<Id, Veiculo>) {
    forall a, b :: a in veiculos && b in veiculos && veiculos[a].placa == veiculos[b].placa ==> a == b
  }

  /** Referential integrity (the foreign keys that the delete guards protect) and unique plates. */
  ghost predicate ValidTables(t: Tables) {
    && (forall k :: k in t.ordens ==> OrdemResolves(t, t.ordens[k]))
    && (forall k :: k in t.veiculos ==> t.veiculos[k].clienteId in t.clientes)
    && PlatesUnique(t.veiculos)
    && (forall k :: k in t.servicos && t.servicos[k].tipoVeiculoId.Some? ==> t.servicos[k].tipoVeiculoId.value in t.tiposVeiculo)
    && (forall k :: k in t.pagamentos ==> t.pagamentos[k].ordemId in t.ordens)
  }

  /** Writing an order whose references resolve keeps the tables valid. */
  lemma ValidAfterOrdemWrite(t: Tables, id: Id, o: Ordem)
    requires ValidTables(t) && OrdemResolves(t, o)
    ensures ValidTables(t.(ordens := t.ordens[id := o]))
  {
    var t' := t.(ordens := t.ordens[id := o]);
    forall k | k in t'.ordens ensures OrdemResolves(t', t'.ordens[k]) {
      assert OrdemResolves(t, t'.ordens[k]);
    }
  }

  /** Storing a payment of an existing order keeps the tables valid. */
  lemma ValidAfterPagamentoWrite(t: Tables, id: Id, p: Pagamento)
    requires ValidTables(t) && p.ordemId in t.ordens
    ensures ValidTables(t.(pagamentos := t.pagamentos[id := p]))
  {
    var t' := t.(pagamentos := t.pagamentos[id := p]);
    forall k | k in t'.ordens ensures OrdemResolves(t', t'.ordens[k]) {
      assert OrdemResolves(t, t.ordens[k]);
    }
  }

  /** Removing a payment keeps the tables valid. */
  lemma ValidAfterPagamentoRemove(t: Tables, id: Id)
    requires ValidTables(t)
    ensures ValidTables(t.(pagamentos := t.pagamentos - {id}))
  {
    var t' := t.(pagamentos := t.pagamentos - {id});
    forall k | k in t'.ordens ensures OrdemResolves(t', t'.ordens[k]) {
      assert OrdemResolves(t, t.ordens[k]);
    }
  }

  /** The database: one map per table. */
  class Db {
    var empresas: map<Id, Empresa>
    var clientes: map<Id, Cliente>
    var veiculos: map<Id, Veiculo>
    var lavadores: map<Id, Lavador>
    var servicos: map<Id, Servico>
    var adicionais: map<Id, Adicional>
    var tiposVeiculo: map<Id, TipoVeiculo>
    var categorias: map<Id, Categoria>
    var ordens: map<Id, Ordem>
    var pagamentos: map<Id, Pagamento>
    var notificacoes: map<Id, Notificacao>

    ghost function Snapshot(): Tables
      reads this`clientes, this`veiculos, this`lavadores, this`servicos, this`adicionais, this`tiposVeiculo, this`ordens, this`pagamentos
    {
      Tables(clientes, veiculos, lavadores, servicos, adicionais, tiposVeiculo, ordens, pagamentos)
    }

    ghost predicate Valid()
      reads this`clientes, this`veiculos, this`lavadores, this`servicos, this`adicionais, this`tiposVeiculo, this`ordens, this`pagamentos
    {
      ValidTables(Snapshot())
    }

    /** An empty database. */
    constructor ()
      ensures Valid()
      ensures empresas == map[] && clientes == map[] && veiculos == map[] && lavadores == map[]
      ensures servicos == map[] && adicionais == map[] && tiposVeiculo == map[] && categorias == map[]
      ensures ordens == map[] && pagamentos == map[] && notificacoes == map[]
    {
      empresas, clientes, veiculos, lavadores := map[], map[], map[], map[];
      servicos, adicionais, tiposVeiculo, categorias := map[], map[], map[], map[];
      ordens, pagamentos, notificacoes := map[], map[], map[];
    }
  }
}
