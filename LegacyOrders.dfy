/**
 * The older compiled order handlers (backend/dist/controllers/ordemController.js).
 * createOrdem checks the customer, the vehicle and the washer, then prices every
 * item from the price row of the vehicle's category. updateOrdem validates the
 * status enum and, without a status, derives it from the washer field. Its
 * cancelOrdem has the same rule as the newer one, Orders.CancelOrdem.
 */
module LegacyOrders {
  import opened Common
  import opened Store
  import opened OrderPricing
  import opened Orders

  /** The index of the first price row of a category, or |precos| when there is none. */
  function FirstRowOf(precos: seq<PriceRow>, categoriaId: Id): (i: nat)
    ensures i <= |precos|
    ensures i < |precos| ==> precos[i].categoriaId == categoriaId
    ensures forall j :: 0 <= j < i ==> precos[j].categoriaId != categoriaId
    decreases |precos|
  {
    if |precos| == 0 || precos[0].categoriaId == categoriaId then 0
    else
      var i := FirstRowOf(precos[1..], categoriaId);
      assert forall j :: 1 <= j < i + 1 ==> precos[j] == precos[1..][j - 1];
      1 + i
  }

  /** `precos: { where: { categoriaId } }` followed by `precos[0].preco`. */
  function CategoryPrice(precos: seq<PriceRow>, categoriaId: Id): (p: Option<Money>)
    ensures p.None? <==> forall j :: 0 <= j < |precos| ==> precos[j].categoriaId != categoriaId
    ensures p.Some? ==> p.value == precos[FirstRowOf(precos, categoriaId)].preco
  {
    var i := FirstRowOf(precos, categoriaId);
    if i < |precos| then Some(precos[i].preco) else None
  }

  /** `findUnique({ where: { id, empresaId, ativo: true } })`: an active service or add-on of the company. */
  predicate Offered(servicos: map<Id, Servico>, adicionais: map<Id, Adicional>, empresaId: Id, kind: ItemKind, id: Id) {
    match kind
    case ServicoItem => id in servicos && servicos[id].empresaId == empresaId && servicos[id].ativo
    case AdicionalItem => id in adicionais && adicionais[id].empresaId == empresaId && adicionais[id].ativo
  }

  /** The price rows of an offered service or add-on. */
  function PriceRowsOf(servicos: map<Id, Servico>, adicionais: map<Id, Adicional>, kind: ItemKind, id: Id): seq<PriceRow>
    requires kind == ServicoItem ==> id in servicos
    requires kind == AdicionalItem ==> id in adicionais
  {
    match kind
    case ServicoItem => servicos[id].precos
    case AdicionalItem => adicionais[id].precos
  }

  /** The unit price of one item: 404 unless it is offered, 400 without a row for the category. */
  function LookupPrice(servicos: map<Id, Servico>, adicionais: map<Id, Adicional>, empresaId: Id, categoriaId: Id,
                       kind: ItemKind, id: Id): (r: Result<Money>)
    ensures r == Err(NotFound) <==> !Offered(servicos, adicionais, empresaId, kind, id)
    ensures r == Err(BadRequest) <==>
      Offered(servicos, adicionais, empresaId, kind, id) &&
      CategoryPrice(PriceRowsOf(servicos, adicionais, kind, id), categoriaId).None?
    ensures r.Ok? ==>
      Offered(servicos, adicionais, empresaId, kind, id) &&
      Some(r.value) == CategoryPrice(PriceRowsOf(servicos, adicionais, kind, id), categoriaId)
  {
    if !Offered(servicos, adicionais, empresaId, kind, id) then Err(NotFound)
    else
      match CategoryPrice(PriceRowsOf(servicos, adicionais, kind, id), categoriaId)
      case None => Err(BadRequest)
      case Some(p) => Ok(p)
  }

  /** An item of this createOrdem. The quantity keeps JavaScript's difference between a
      missing field and `null`, which the item check below treats differently. */
  datatype LegacyItemRequest = LegacyItemRequest(tipo: Option<string>, itemId: Option<Id>, quantidade: Input<int>)

  /** `!tipo || !itemId || quantidade <= 0` rejects the item. `null <= 0` holds in JavaScript,
      so a null quantity is rejected; `undefined <= 0` does not, so a missing one passes. */
  predicate ItemChecked(item: LegacyItemRequest) {
    && Truthy(item.tipo) && item.itemId.Some?
    && !item.quantidade.Null?
    && !(item.quantidade.Value? && item.quantidade.value <= 0)
  }

  /** What the item loop looks items up in: the company's services and add-ons and the
      category of the order's vehicle. */
  datatype Catalog = Catalog(servicos: map<Id, Servico>, adicionais: map<Id, Adicional>, empresaId: Id, categoriaId: Id)

  /** What one pass of the item loop makes of an item. A missing quantity passes every check
      but leaves the line without a quantity, which the final insert refuses. */
  datatype ItemOutcome = Priced(line: Line) | QuantityMissing | Rejected(failure: Failure)

  function LegacyItem(c: Catalog, item: LegacyItemRequest): ItemOutcome {
    if !ItemChecked(item) then Rejected(BadRequest)
    else match ItemKindOf(item.tipo)
      case None => Rejected(BadRequest)
      case Some(kind) =>
        match LookupPrice(c.servicos, c.adicionais, c.empresaId, c.categoriaId, kind, item.itemId.value)
        case Err(f) => Rejected(f)
        case Ok(p) =>
          if item.quantidade.Undefined? then QuantityMissing
          else Priced(Line(kind, item.itemId.value, item.quantidade.value, p, p * (item.quantidade.value as real)))
  }

  /** One item: 400 when a field fails its check or the type is unknown, 404 when the
      company does not offer it, 400 without a price for the category; a priced line
      carries the request's type, id and quantity and the category row's price. */
  lemma LegacyItemOutcome(c: Catalog, item: LegacyItemRequest)
    ensures var o := LegacyItem(c, item);
      && (o.Rejected? ==> o.failure == BadRequest || o.failure == NotFound)
      && (!ItemChecked(item) || ItemKindOf(item.tipo).None? ==> o == Rejected(BadRequest))
      && (o == Rejected(NotFound) <==>
           ItemChecked(item) && ItemKindOf(item.tipo).Some? &&
           !Offered(c.servicos, c.adicionais, c.empresaId, ItemKindOf(item.tipo).value, item.itemId.value))
      && (item.quantidade.Null? ==> o == Rejected(BadRequest))
      && (o.QuantityMissing? ==> item.quantidade.Undefined?)
      && (o.Priced? ==>
           && Some(o.line.tipo) == ItemKindOf(item.tipo)
           && Some(o.line.itemId) == item.itemId
           && item.quantidade == Value(o.line.quantidade) && o.line.quantidade > 0
           && LookupPrice(c.servicos, c.adicionais, c.empresaId, c.categoriaId, o.line.tipo, o.line.itemId) == Ok(o.line.precoUnit)
           && o.line.subtotal == o.line.precoUnit * (o.line.quantidade as real))
  {
  }

  /** The item loop as a function: the first rejected item ends it with that item's error;
      otherwise the priced lines in order, and whether some item had no quantity. */
  function ScanItems(c: Catalog, items: seq<LegacyItemRequest>): Result<(seq<Line>, bool)>
    decreases |items|
  {
    if |items| == 0 then Ok(([], false))
    else
      match ScanItems(c, items[..|items| - 1])
      case Err(f) => Err(f)
      case Ok(acc) =>
        match LegacyItem(c, items[|items| - 1])
        case Rejected(f) => Err(f)
        case QuantityMissing => Ok((acc.0, true))
        case Priced(l) => Ok((acc.0 + [l], acc.1))
  }

  /** Item `i` is the first one the loop rejects. */
  predicate FirstRejection(c: Catalog, items: seq<LegacyItemRequest>, i: int) {
    && 0 <= i < |items|
    && LegacyItem(c, items[i]).Rejected?
    && forall j :: 0 <= j < i ==> !LegacyItem(c, items[j]).Rejected?
  }

  /** The loop fails exactly when some item is rejected. */
  lemma {:induction false} ScanFailsIffRejected(c: Catalog, items: seq<LegacyItemRequest>)
    ensures ScanItems(c, items).Err? <==> exists i :: 0 <= i < |items| && LegacyItem(c, items[i]).Rejected?
    decreases |items|
  {
    if |items| > 0 {
      var p := items[..|items| - 1];
      ScanFailsIffRejected(c, p);
      if exists i :: 0 <= i < |items| && LegacyItem(c, items[i]).Rejected? {
        var i :| 0 <= i < |items| && LegacyItem(c, items[i]).Rejected?;
        if i < |p| {
          assert p[i] == items[i];
        }
      }
      if ScanItems(c, p).Err? {
        var w :| 0 <= w < |p| && LegacyItem(c, p[w]).Rejected?;
        assert items[w] == p[w];
      }
    }
  }

  /** A failing loop fails with the error of the first rejected item. */
  lemma {:induction false} ScanFailsAtFirstRejection(c: Catalog, items: seq<LegacyItemRequest>, i: int)
    requires FirstRejection(c, items, i)
    ensures ScanItems(c, items) == Err(LegacyItem(c, items[i]).failure)
    decreases |items|
  {
    var p := items[..|items| - 1];
    if i < |p| {
      assert forall j :: 0 <= j <= i ==> p[j] == items[j];
      assert FirstRejection(c, p, i);
      ScanFailsAtFirstRejection(c, p, i);
    } else {
      assert forall j :: 0 <= j < |p| ==> p[j] == items[j];
      ScanFailsIffRejected(c, p);
    }
  }

  /** Without a rejection the loop notes a missing quantity exactly when some item has none. */
  lemma {:induction false} ScanNotesMissingQuantity(c: Catalog, items: seq<LegacyItemRequest>)
    requires ScanItems(c, items).Ok?
    ensures ScanItems(c, items).value.1 <==> exists i :: 0 <= i < |items| && LegacyItem(c, items[i]).QuantityMissing?
    decreases |items|
  {
    if |items| > 0 {
      var p := items[..|items| - 1];
      var last := LegacyItem(c, items[|items| - 1]);
      assert ScanItems(c, p).Ok? && !last.Rejected?;
      ScanNotesMissingQuantity(c, p);
      var sp := ScanItems(c, p).value;
      assert ScanItems(c, items).value.1 == (sp.1 || last.QuantityMissing?);
      assert forall j :: 0 <= j < |p| ==> p[j] == items[j];
      if sp.1 {
        var w :| 0 <= w < |p| && LegacyItem(c, p[w]).QuantityMissing?;
        assert LegacyItem(c, items[w]).QuantityMissing?;
      }
    }
  }

  /** With neither a rejection nor a missing quantity, every item is priced, in order. */
  lemma {:induction false} ScanPricesEveryItem(c: Catalog, items: seq<LegacyItemRequest>)
    requires ScanItems(c, items).Ok? && !ScanItems(c, items).value.1
    ensures var lines := ScanItems(c, items).value.0;
      |lines| == |items| && forall i :: 0 <= i < |items| ==> LegacyItem(c, items[i]) == Priced(lines[i])
    decreases |items|
  {
    if |items| > 0 {
      var p := items[..|items| - 1];
      ScanPricesEveryItem(c, p);
      var sp := ScanItems(c, p).value;
      var last := LegacyItem(c, items[|items| - 1]);
      var lines := sp.0 + [last.line];
      assert ScanItems(c, items).value.0 == lines;
      forall i | 0 <= i < |items|
        ensures LegacyItem(c, items[i]) == Priced(lines[i])
      {
        if i < |p| {
          assert lines[i] == sp.0[i] && items[i] == p[i];
        }
      }
    }
  }

  /** Once an item is rejected, the items after it change nothing. */
  lemma {:induction false} ScanErrorSticks(c: Catalog, items: seq<LegacyItemRequest>, n: nat)
    requires n <= |items|
    requires ScanItems(c, items[..n]).Err?
    ensures ScanItems(c, items) == ScanItems(c, items[..n])
    decreases |items| - n
  {
    if n < |items| {
      assert items[..n + 1][..n] == items[..n];
      ScanErrorSticks(c, items, n + 1);
    } else {
      assert items[..n] == items;
    }
  }

  /** The `for (const item of itens)` loop of createOrdem: accumulate `itensData` and
      `valorTotal`, returning at the first bad item. A line without a quantity makes the
      final insert fail (500). */
  method PriceItemsByCategory(c: Catalog, items: seq<LegacyItemRequest>) returns (r: Result<(seq<Line>, Money)>)
    ensures match ScanItems(c, items)
      case Err(f) => r == Err(f)
      case Ok(acc) => r == if acc.1 then Err(ServerError) else Ok((acc.0, SumSubtotals(acc.0)))
  {
    var lines: seq<Line> := [];
    var valorTotal: Money := 0.0;
    var missing := false;
    var i := 0;
    while i < |items|
      invariant 0 <= i <= |items|
      invariant ScanItems(c, items[..i]) == Ok((lines, missing))
      invariant valorTotal == SumSubtotals(lines)
    {
      assert items[..i + 1][..i] == items[..i];
      var outcome := LegacyItem(c, items[i]);
      match outcome {
        case Rejected(f) =>
          ScanErrorSticks(c, items, i + 1);
          return Err(f);
        case QuantityMissing =>
          missing := true;
        case Priced(line) =>
          SumSubtotalsAppend(lines, [line]);
          lines := lines + [line];
          valorTotal := valorTotal + line.subtotal;
      }
      i := i + 1;
    }
    assert items[..i] == items;
    if missing {
      return Err(ServerError);
    }
    r := Ok((lines, valorTotal));
  }

  /** The body of POST /ordens in this variant. */
  datatype LegacyCreateRequest = LegacyCreateRequest(
    clienteId: Option<Id>, veiculoId: Option<Id>, lavadorId: Option<Id>,
    itens: Option<seq<LegacyItemRequest>>, observacoes: Option<string>)

  /** `!clienteId || !veiculoId || !itens || !Array.isArray(itens) || itens.length === 0` fails. */
  predicate LegacyFieldsPresent(req: LegacyCreateRequest) {
    req.clienteId.Some? && req.veiculoId.Some? && req.itens.Some? && |req.itens.value| > 0
  }

  predicate ClienteInTenant(clientes: map<Id, Cliente>, empresaId: Id, id: Id) {
    id in clientes && clientes[id].empresaId == empresaId
  }

  /** `veiculo.findFirst({ where: { id: veiculoId, clienteId } })`. */
  predicate VeiculoOfCliente(veiculos: map<Id, Veiculo>, clienteId: Id, id: Id) {
    id in veiculos && veiculos[id].clienteId == clienteId
  }

  /** `lavador.findFirst({ where: { id, empresaId, ativo: true } })`. */
  predicate ActiveWasherOf(lavadores: map<Id, Lavador>, empresaId: Id, id: Id) {
    id in lavadores && lavadores[id].empresaId == empresaId && lavadores[id].ativo
  }

  /** Every check that comes before the items passes. */
  predicate PrechecksPass(t: Tables, empresaId: Id, req: LegacyCreateRequest) {
    && LegacyFieldsPresent(req)
    && ClienteInTenant(t.clientes, empresaId, req.clienteId.value)
    && VeiculoOfCliente(t.veiculos, req.clienteId.value, req.veiculoId.value)
    && t.veiculos[req.veiculoId.value].categoriaId.Some?
    && (req.lavadorId.Some? ==> ActiveWasherOf(t.lavadores, empresaId, req.lavadorId.value))
  }

  /** The category whose price rows the items use. */
  function VehicleCategory(t: Tables, empresaId: Id, req: LegacyCreateRequest): Id
    requires PrechecksPass(t, empresaId, req)
  {
    t.veiculos[req.veiculoId.value].categoriaId.value
  }

  /** The catalog the order's items are priced from. */
  function OrderCatalog(t: Tables, empresaId: Id, req: LegacyCreateRequest): Catalog
    requires PrechecksPass(t, empresaId, req)
  {
    Catalog(t.servicos, t.adicionais, empresaId, VehicleCategory(t, empresaId, req))
  }

  function LegacyScan(t: Tables, empresaId: Id, req: LegacyCreateRequest): Result<(seq<Line>, bool)>
    requires PrechecksPass(t, empresaId, req)
  {
    ScanItems(OrderCatalog(t, empresaId, req), req.itens.value)
  }

  /** The order this variant inserts: no number, no commission, and a status that
      follows the washer. */
  function LegacyNewOrdem(empresaId: Id, req: LegacyCreateRequest, lines: seq<Line>): Ordem
    requires LegacyFieldsPresent(req)
  {
    Ordem(empresaId, None, req.clienteId.value, req.veiculoId.value, req.lavadorId,
          InitialStatus(req.lavadorId), SumSubtotals(lines), 0.0, false, None, req.observacoes, lines)
  }

  /** The transaction of createOrdem on the tables as values: the checks in source order, then the items. */
  method PlanLegacyCreate(t: Tables, empresaId: Id, req: LegacyCreateRequest) returns (r: Result<Ordem>)
    ensures !LegacyFieldsPresent(req) ==> r == Err(BadRequest)
    ensures LegacyFieldsPresent(req) && !ClienteInTenant(t.clientes, empresaId, req.clienteId.value) ==> r == Err(NotFound)
    ensures (LegacyFieldsPresent(req) && ClienteInTenant(t.clientes, empresaId, req.clienteId.value) &&
             !VeiculoOfCliente(t.veiculos, req.clienteId.value, req.veiculoId.value)) ==> r == Err(NotFound)
    ensures (LegacyFieldsPresent(req) && ClienteInTenant(t.clientes, empresaId, req.clienteId.value) &&
             VeiculoOfCliente(t.veiculos, req.clienteId.value, req.veiculoId.value) &&
             t.veiculos[req.veiculoId.value].categoriaId.None?) ==> r == Err(BadRequest)
    ensures (LegacyFieldsPresent(req) && ClienteInTenant(t.clientes, empresaId, req.clienteId.value) &&
             VeiculoOfCliente(t.veiculos, req.clienteId.value, req.veiculoId.value) &&
             t.veiculos[req.veiculoId.value].categoriaId.Some? &&
             req.lavadorId.Some? && !ActiveWasherOf(t.lavadores, empresaId, req.lavadorId.value)) ==> r == Err(NotFound)
    ensures PrechecksPass(t, empresaId, req) ==>
      match LegacyScan(t, empresaId, req)
      case Err(f) => r == Err(f)
      case Ok(acc) => r == if acc.1 then Err(ServerError) else Ok(LegacyNewOrdem(empresaId, req, acc.0))
  {
    if !LegacyFieldsPresent(req) {
      return Err(BadRequest);
    }
    var clienteId, veiculoId := req.clienteId.value, req.veiculoId.value;
    if !ClienteInTenant(t.clientes, empresaId, clienteId) {
      return Err(NotFound);
    }
    if !VeiculoOfCliente(t.veiculos, clienteId, veiculoId) {
      return Err(NotFound);
    }
    var categoriaId := t.veiculos[veiculoId].categoriaId;
    if categoriaId.None? {
      return Err(BadRequest);
    }
    if req.lavadorId.Some? && !ActiveWasherOf(t.lavadores, empresaId, req.lavadorId.value) {
      return Err(NotFound);
    }
    var priced := PriceItemsByCategory(Catalog(t.servicos, t.adicionais, empresaId, categoriaId.value), req.itens.value);
    if priced.Err? {
      return Err(priced.failure);
    }
    r := Ok(LegacyNewOrdem(empresaId, req, priced.value.0));
  }

  /** What a successful createOrdem of this variant stores: every item priced from its
      category row, in request order. */
  ghost predicate LegacyCreated(t: Tables, empresaId: Id, req: LegacyCreateRequest, o: Ordem) {
    && PrechecksPass(t, empresaId, req)
    && LegacyScan(t, empresaId, req) == Ok((o.items, false))
    && o == LegacyNewOrdem(empresaId, req, o.items)
  }

  /** The stored order: status EM_ANDAMENTO iff a washer is given, the total is the sum of
      the subtotals, and line i is item i priced at its category row. */
  lemma LegacyCreatedOrdem(t: Tables, empresaId: Id, req: LegacyCreateRequest, o: Ordem)
    requires LegacyCreated(t, empresaId, req, o)
    ensures (o.status == EmAndamento <==> req.lavadorId.Some?) && Active(o.status)
    ensures o.valorTotal == SumSubtotals(o.items)
    ensures |o.items| == |req.itens.value|
    ensures forall i :: 0 <= i < |o.items| ==>
      LegacyItem(OrderCatalog(t, empresaId, req), req.itens.value[i]) == Priced(o.items[i])
    ensures o.clienteId == req.clienteId.value && o.veiculoId == req.veiculoId.value && o.lavadorId == req.lavadorId
    ensures o.empresaId == empresaId && !o.pago && o.comissao == 0.0
  {
    ScanPricesEveryItem(OrderCatalog(t, empresaId, req), req.itens.value);
  }

  /** The references of a created order resolve. */
  lemma LegacyCreatedResolves(t: Tables, empresaId: Id, req: LegacyCreateRequest, o: Ordem)
    requires LegacyCreated(t, empresaId, req, o)
    ensures OrdemResolves(t, o)
  {
    LegacyCreatedOrdem(t, empresaId, req, o);
    forall i | 0 <= i < |o.items|
      ensures o.items[i].tipo == ServicoItem ==> o.items[i].itemId in t.servicos
      ensures o.items[i].tipo == AdicionalItem ==> o.items[i].itemId in t.adicionais
    {
      var line := o.items[i];
      LegacyItemOutcome(OrderCatalog(t, empresaId, req), req.itens.value[i]);
      assert Offered(t.servicos, t.adicionais, empresaId, line.tipo, line.itemId);
    }
  }

  /** A plan that succeeds is what LegacyCreated describes. */
  lemma PlanIsCreated(t: Tables, empresaId: Id, req: LegacyCreateRequest, o: Ordem)
    requires PrechecksPass(t, empresaId, req)
    requires LegacyScan(t, empresaId, req).Ok? && !LegacyScan(t, empresaId, req).value.1
    requires o == LegacyNewOrdem(empresaId, req, LegacyScan(t, empresaId, req).value.0)
    ensures LegacyCreated(t, empresaId, req, o)
  {
  }

  /** createOrdem of this variant: the order is stored under a fresh id, or nothing changes. */
  method LegacyCreateOrdem(db: Db, empresaId: Id, req: LegacyCreateRequest) returns (r: Result<Id>)
    requires db.Valid()
    modifies db`ordens
    ensures db.Valid()
    ensures !LegacyFieldsPresent(req) ==> r == Err(BadRequest)
    ensures r.Err? ==> db.ordens == old(db.ordens)
    ensures r.Ok? <==>
      PrechecksPass(old(db.Snapshot()), empresaId, req) && LegacyScan(old(db.Snapshot()), empresaId, req).Ok? &&
      !LegacyScan(old(db.Snapshot()), empresaId, req).value.1
    ensures r.Ok? ==>
      && r.value !in old(db.ordens) && r.value in db.ordens
      && db.ordens == old(db.ordens)[r.value := db.ordens[r.value]]
      && LegacyCreated(old(db.Snapshot()), empresaId, req, db.ordens[r.value])
  {
    var t := Tables(db.clientes, db.veiculos, db.lavadores, db.servicos, db.adicionais, db.tiposVeiculo, db.ordens, db.pagamentos);
    assert t == db.Snapshot();
    var plan := PlanLegacyCreate(t, empresaId, req);
    if plan.Err? {
      return Err(plan.failure);
    }
    var o := plan.value;
    PlanIsCreated(t, empresaId, req, o);
    LegacyCreatedResolves(t, empresaId, req, o);
    var k := FreshKey(db.ordens);
    ValidAfterOrdemWrite(t, k, o);
    db.ordens := db.ordens[k := o];
    assert db.Snapshot() == t.(ordens := t.ordens[k := o]);
    r := Ok(k);
  }

  /** The body of PUT /ordens/:id in this variant. */
  datatype LegacyUpdateRequest = LegacyUpdateRequest(status: Input<string>, lavadorId: Input<Id>, observacoes: Input<string>)

  /** `status && !statusValidos.includes(status)` is refused. */
  predicate StatusAccepted(status: Input<string>) {
    !TruthyInput(status) || ParseOrdemStatus(status.value).Some?
  }

  /** `finalStatus`: the given status, or without one the washer field decides. */
  function FinalStatus(status: Input<string>, lavadorId: Input<Id>): Option<OrdemStatus>
    requires StatusAccepted(status)
  {
    if TruthyInput(status) then ParseOrdemStatus(status.value)
    else if lavadorId.Defined() then Some(if lavadorId.Value? then EmAndamento else Pendente)
    else None
  }

  /** The spread `data` object of the update applied to the order. */
  function LegacyUpdated(o: Ordem, req: LegacyUpdateRequest, now: int): Ordem
    requires StatusAccepted(req.status)
  {
    var s := FinalStatus(req.status, req.lavadorId);
    o.(status := if s.Some? then s.value else o.status,
       lavadorId := Assigned(o.lavadorId, req.lavadorId),
       observacoes := Assigned(o.observacoes, req.observacoes),
       dataFim := if s == Some(Finalizado) then Some(now) else o.dataFim)
  }

  /** Without a status, a given washer starts the order, `null` puts it back to PENDENTE and
      a missing field keeps the status. */
  lemma StatusFollowsWasher(o: Ordem, req: LegacyUpdateRequest, now: int)
    requires !TruthyInput(req.status)
    ensures req.lavadorId.Value? ==> LegacyUpdated(o, req, now).status == EmAndamento
    ensures req.lavadorId.Null? ==> LegacyUpdated(o, req, now).status == Pendente && LegacyUpdated(o, req, now).lavadorId.None?
    ensures req.lavadorId.Undefined? ==> LegacyUpdated(o, req, now).status == o.status
  {
  }

  /** dataFim is stamped whenever the resulting status is FINALIZADO, even over an earlier
      stamp, and is otherwise kept; only status, washer, notes and dataFim change. */
  lemma LegacyUpdateFields(o: Ordem, req: LegacyUpdateRequest, now: int)
    requires StatusAccepted(req.status)
    ensures var n := LegacyUpdated(o, req, now);
      && (n.dataFim == Some(now) || n.dataFim == o.dataFim)
      && (FinalStatus(req.status, req.lavadorId) == Some(Finalizado) ==> n.status == Finalizado && n.dataFim == Some(now))
      && (n.status != Finalizado ==> n.dataFim == o.dataFim)
      && n == o.(status := n.status, lavadorId := n.lavadorId, observacoes := n.observacoes, dataFim := n.dataFim)
    ensures TruthyInput(req.status) ==> Some(LegacyUpdated(o, req, now).status) == ParseOrdemStatus(req.status.value)
  {
  }

  /** updateOrdem of this variant: 404 outside the tenant, 400 for a status outside the enum,
      404 for a washer that is not an active one of the company; otherwise the order is updated. */
  method LegacyUpdateOrdem(db: Db, empresaId: Id, id: Id, req: LegacyUpdateRequest, now: int) returns (r: Result<Id>)
    requires db.Valid()
    modifies db`ordens
    ensures db.Valid()
    ensures !InTenant(old(db.ordens), empresaId, id) ==> r == Err(NotFound)
    ensures InTenant(old(db.ordens), empresaId, id) && !StatusAccepted(req.status) ==> r == Err(BadRequest)
    ensures (InTenant(old(db.ordens), empresaId, id) && StatusAccepted(req.status) &&
             req.lavadorId.Value? && !ActiveWasherOf(db.lavadores, empresaId, req.lavadorId.value)) ==> r == Err(NotFound)
    ensures r.Err? ==> db.ordens == old(db.ordens)
    ensures r.Ok? <==>
      InTenant(old(db.ordens), empresaId, id) && StatusAccepted(req.status) &&
      (req.lavadorId.Value? ==> ActiveWasherOf(db.lavadores, empresaId, req.lavadorId.value))
    ensures r.Ok? ==> r.value == id && db.ordens == old(db.ordens)[id := LegacyUpdated(old(db.ordens)[id], req, now)]
  {
    if !InTenant(db.ordens, empresaId, id) {
      return Err(NotFound);
    }
    if !StatusAccepted(req.status) {
      return Err(BadRequest);
    }
    if req.lavadorId.Value? && !ActiveWasherOf(db.lavadores, empresaId, req.lavadorId.value) {
      return Err(NotFound);
    }
    var updated := LegacyUpdated(db.ordens[id], req, now);
    ghost var t := db.Snapshot();
    assert OrdemResolves(t, t.ordens[id]);
    ValidAfterOrdemWrite(t, id, updated);
    db.ordens := db.ordens[id := updated];
    assert db.Snapshot() == t.(ordens := t.ordens[id := updated]);
    r := Ok(id);
  }
}
