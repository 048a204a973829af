/**
 * The service-order handlers of backend/src/controllers/ordemController.ts:
 * createOrdem (with inline customer and vehicle creation), updateOrdem,
 * cancelOrdem and deleteOrdem. Each handler runs as one transaction: it
 * either commits every table it touches or leaves the store as it was.
 */
module Orders {
  import opened Common
  import opened Store
  import opened Notifications
  import opened OrderPricing

  /** `novoCliente` in the body of POST /ordens. */
  datatype NovoCliente = NovoCliente(nome: Option<string>, telefone: Option<string>)

  /** `novoVeiculo` in the body of POST /ordens. */
  datatype NovoVeiculo = NovoVeiculo(placa: Option<string>, modelo: Option<string>, cor: Option<string>)

  datatype CreateOrdemRequest = CreateOrdemRequest(
    clienteId: Option<Id>,
    novoCliente: Option<NovoCliente>,
    veiculoId: Option<Id>,
    novoVeiculo: Option<NovoVeiculo>,
    lavadorId: Option<Id>,
    itens: Option<seq<ItemRequest>>,
    forcarCriacao: bool,
    observacoes: Option<string>)

  /** A customer or an inline customer, a vehicle or an inline vehicle, and at least one item. */
  predicate CreateFieldsPresent(req: CreateOrdemRequest) {
    && (req.clienteId.Some? || req.novoCliente.Some?)
    && (req.veiculoId.Some? || req.novoVeiculo.Some?)
    && req.itens.Some? && |req.itens.value| > 0
  }

  /** The inline customer is used only when no clienteId is given and it has a name. */
  predicate WantsNewCliente(req: CreateOrdemRequest) {
    req.clienteId.None? && req.novoCliente.Some? && Truthy(req.novoCliente.value.nome)
  }

  /** The inline vehicle is used whenever it has a plate, even next to a veiculoId. */
  predicate WantsNewVeiculo(req: CreateOrdemRequest) {
    req.novoVeiculo.Some? && Truthy(req.novoVeiculo.value.placa)
  }

  /** `telefone || null`: an empty phone is looked up as no phone. */
  function PhoneKey(telefone: Option<string>): (t: Option<string>)
    ensures t.Some? ==> t == telefone && t.value != ""
    ensures Truthy(telefone) ==> t == telefone
  {
    if Truthy(telefone) then telefone else None
  }

  /** A customer of the company with the same name and phone as the inline one. */
  predicate SameCustomer(c: Cliente, empresaId: Id, nome: string, telefone: Option<string>) {
    c.empresaId == empresaId && c.nome == nome && c.telefone == PhoneKey(telefone)
  }

  /** The customer of a new order: the given one, a matching one of the company, or a
      new one; `clientes` is the customer table afterwards. */
  ghost predicate ClienteResolved(before: map<Id, Cliente>, empresaId: Id, req: CreateOrdemRequest,
                                  clientes: map<Id, Cliente>, c: Id)
  {
    && (req.clienteId.Some? || WantsNewCliente(req))
    && c in clientes
    && (req.clienteId.Some? ==> c == req.clienteId.value && clientes == before)
    && (WantsNewCliente(req) ==>
          var nome := req.novoCliente.value.nome.value;
          var telefone := req.novoCliente.value.telefone;
          || (c in before && clientes == before && SameCustomer(before[c], empresaId, nome, telefone))
          || (&& c !in before
              && !(exists j :: j in before && SameCustomer(before[j], empresaId, nome, telefone))
              && clientes == before[c := Cliente(empresaId, nome, telefone, None, true)]))
  }

  /** The vehicle of a new order: the given one, the one with the inline plate, or a new
      one of customer `c`; `veiculos` is the vehicle table afterwards. */
  ghost predicate VeiculoResolved(before: map<Id, Veiculo>, req: CreateOrdemRequest, veiculos: map<Id, Veiculo>, c: Id, v: Id)
  {
    && (!WantsNewVeiculo(req) ==> req.veiculoId == Some(v) && v in before && veiculos == before)
    && (WantsNewVeiculo(req) ==>
          var nv := req.novoVeiculo.value;
          || (HasPlate(before, v, nv.placa.value) && veiculos == before)
          || (&& v !in before
              && !PlateTaken(before, nv.placa.value)
              && veiculos == before[v := Veiculo(c, nv.placa.value, nv.modelo, nv.cor, None)]))
  }

  /** Step 1 of createOrdem: the given customer, else a matching customer of the company,
      else a new one. */
  method ResolveCliente(clientes: map<Id, Cliente>, empresaId: Id, req: CreateOrdemRequest)
    returns (after: map<Id, Cliente>, clienteId: Option<Id>)
    ensures !WantsNewCliente(req) ==> after == clientes && clienteId == req.clienteId
    ensures WantsNewCliente(req) ==> clienteId.Some? && clienteId.value in after
    ensures clienteId.Some? && clienteId.value in after ==> ClienteResolved(clientes, empresaId, req, after, clienteId.value)
  {
    if !WantsNewCliente(req) {
      return clientes, req.clienteId;
    }
    var nome := req.novoCliente.value.nome.value;
    var telefone := req.novoCliente.value.telefone;
    if exists k :: k in clientes && SameCustomer(clientes[k], empresaId, nome, telefone) {
      var k :| k in clientes && SameCustomer(clientes[k], empresaId, nome, telefone);
      return clientes, Some(k);
    }
    var k := FreshKey(clientes);
    after := clientes[k := Cliente(empresaId, nome, telefone, None, true)];
    clienteId := Some(k);
  }

  /** The vehicle with a plate, if any (plates are unique). */
  predicate HasPlate(veiculos: map<Id, Veiculo>, k: Id, placa: string) {
    k in veiculos && veiculos[k].placa == placa
  }

  /** Some vehicle, of any company, has the plate. */
  predicate PlateTaken(veiculos: map<Id, Veiculo>, placa: string) {
    exists k {:trigger HasPlate(veiculos, k, placa)} :: k in veiculos && HasPlate(veiculos, k, placa)
  }

  /** Step 2 of createOrdem: a vehicle with the inline plate, in any company, else a new
      vehicle of the resolved customer; without an inline plate, the given veiculoId.
      Creating a vehicle for a missing customer violates its foreign key (`ok` false). */
  method ResolveVeiculo(veiculos: map<Id, Veiculo>, clientes: map<Id, Cliente>, clienteId: Option<Id>, req: CreateOrdemRequest)
    returns (after: map<Id, Veiculo>, veiculoId: Option<Id>, ok: bool)
    ensures !WantsNewVeiculo(req) ==> ok && after == veiculos && veiculoId == req.veiculoId
    ensures WantsNewVeiculo(req) ==>
      (ok <==> PlateTaken(veiculos, req.novoVeiculo.value.placa.value) || (clienteId.Some? && clienteId.value in clientes))
    ensures WantsNewVeiculo(req) && ok ==> veiculoId.Some? && veiculoId.value in after
    ensures WantsNewVeiculo(req) && ok && PlateTaken(veiculos, req.novoVeiculo.value.placa.value) ==>
      HasPlate(veiculos, veiculoId.value, req.novoVeiculo.value.placa.value)
    ensures WantsNewVeiculo(req) && ok && !PlateTaken(veiculos, req.novoVeiculo.value.placa.value) ==>
      veiculoId.value !in veiculos
    ensures ok && veiculoId.Some? && veiculoId.value in after && clienteId.Some? ==>
      VeiculoResolved(veiculos, req, after, clienteId.value, veiculoId.value)
  {
    if !WantsNewVeiculo(req) {
      return veiculos, req.veiculoId, true;
    }
    var placa := req.novoVeiculo.value.placa.value;
    if PlateTaken(veiculos, placa) {
      var k :| k in veiculos && HasPlate(veiculos, k, placa);
      return veiculos, Some(k), true;
    }
    if clienteId.None? || clienteId.value !in clientes {
      return veiculos, None, false;
    }
    var k := FreshKey(veiculos);
    after := veiculos[k := Veiculo(clienteId.value, placa, req.novoVeiculo.value.modelo, req.novoVeiculo.value.cor, None)];
    veiculoId := Some(k);
    ok := true;
  }

  /** A new vehicle keeps plates unique, because it is made only for an unused plate. */
  lemma NewPlateKeepsUnique(veiculos: map<Id, Veiculo>, k: Id, v: Veiculo)
    requires PlatesUnique(veiculos)
    requires k !in veiculos && !PlateTaken(veiculos, v.placa)
    ensures PlatesUnique(veiculos[k := v])
  {
    var after := veiculos[k := v];
    forall a, b | a in after && b in after && after[a].placa == after[b].placa
      ensures a == b
    {
      if a != b && (a == k || b == k) {
        var other := if a == k then b else a;
        assert HasPlate(veiculos, other, v.placa);
      }
    }
  }

  /** The active-order check of step 3. Without a vehicle id Prisma ignores the filter,
      so any active order of the company counts. */
  predicate ActiveOrderExists(ordens: map<Id, Ordem>, empresaId: Id, veiculoId: Option<Id>) {
    exists k :: k in ordens && ordens[k].empresaId == empresaId && Active(ordens[k].status) &&
      (veiculoId.None? || ordens[k].veiculoId == veiculoId.value)
  }

  /** The customer step ends with an existing customer: the inline one (found or made),
      or a given id of a customer in the table. */
  predicate ClienteAvailable(t: Tables, req: CreateOrdemRequest) {
    WantsNewCliente(req) || (req.clienteId.Some? && req.clienteId.value in t.clientes)
  }

  /** The vehicle step succeeds: there is no inline plate, the plate is known, or there
      is a customer to own the new vehicle. */
  predicate VeiculoResolvable(t: Tables, req: CreateOrdemRequest) {
    || !WantsNewVeiculo(req)
    || PlateTaken(t.veiculos, req.novoVeiculo.value.placa.value)
    || ClienteAvailable(t, req)
  }

  /** The vehicle step ends with an existing vehicle: the inline one, or a given id of a
      vehicle in the table. */
  predicate VeiculoAvailable(t: Tables, req: CreateOrdemRequest) {
    WantsNewVeiculo(req) || (req.veiculoId.Some? && req.veiculoId.value in t.veiculos)
  }

  /** The active-order check of step 3 for the vehicle the request resolves to: the given
      vehicle id (or, without one, the whole company), or the vehicle already carrying the
      inline plate. A vehicle made for the order has no orders yet. */
  predicate ActiveForRequest(t: Tables, empresaId: Id, req: CreateOrdemRequest) {
    if !WantsNewVeiculo(req) then ActiveOrderExists(t.ordens, empresaId, req.veiculoId)
    else exists k :: k in t.veiculos && HasPlate(t.veiculos, k, req.novoVeiculo.value.placa.value) && ActiveOrderExists(t.ordens, empresaId, Some(k))
  }

  /** createOrdem refuses with 409: the fields are present, the vehicle resolves, and it
      has an active order while creation is not forced. */
  predicate CreateConflicts(t: Tables, empresaId: Id, req: CreateOrdemRequest) {
    CreateFieldsPresent(req) && VeiculoResolvable(t, req) && !req.forcarCriacao && ActiveForRequest(t, empresaId, req)
  }

  /** Everything createOrdem needs to succeed: the fields, the customer and the vehicle,
      no conflict, items that all price, and an existing washer when one is named. */
  predicate CreateAccepted(t: Tables, empresaId: Id, req: CreateOrdemRequest) {
    && CreateFieldsPresent(req)
    && !CreateConflicts(t, empresaId, req)
    && ClienteAvailable(t, req) && VeiculoAvailable(t, req)
    && PriceLines(t.servicos, t.adicionais, AtCreation, req.itens.value).Some?
    && (req.lavadorId.Some? ==> req.lavadorId.value in t.lavadores)
  }

  /** The vehicle id step 2 hands to step 3 meets the active-order check exactly when the
      request's vehicle has an active order. */
  lemma ConflictIsForRequest(t: Tables, empresaId: Id, req: CreateOrdemRequest, v: Option<Id>)
    requires ValidTables(t)
    requires !WantsNewVeiculo(req) ==> v == req.veiculoId
    requires WantsNewVeiculo(req) ==> v.Some?
    requires WantsNewVeiculo(req) && PlateTaken(t.veiculos, req.novoVeiculo.value.placa.value) ==>
      HasPlate(t.veiculos, v.value, req.novoVeiculo.value.placa.value)
    requires WantsNewVeiculo(req) && !PlateTaken(t.veiculos, req.novoVeiculo.value.placa.value) ==> v.value !in t.veiculos
    ensures ActiveOrderExists(t.ordens, empresaId, v) <==> ActiveForRequest(t, empresaId, req)
  {
    if WantsNewVeiculo(req) {
      var placa := req.novoVeiculo.value.placa.value;
      if PlateTaken(t.veiculos, placa) {
        forall j | HasPlate(t.veiculos, j, placa) ensures j == v.value {
          assert t.veiculos[j].placa == t.veiculos[v.value].placa;
        }
      } else {
        forall k | k in t.ordens ensures t.ordens[k].veiculoId != v.value {
          assert OrdemResolves(t, t.ordens[k]);
        }
      }
    }
  }

  /** `lavadorId ? 'EM_ANDAMENTO' : 'PENDENTE'`. */
  function InitialStatus(lavadorId: Option<Id>): (s: OrdemStatus)
    ensures s == EmAndamento <==> lavadorId.Some?
    ensures Active(s)
  {
    if lavadorId.Some? then EmAndamento else Pendente
  }

  /** `${ordem.numeroOrdem}`: an order without a number prints as "null". */
  function NumeroText(n: Option<nat>): (s: string)
    ensures n.Some? ==> s == NatToString(n.value)
  {
    if n.Some? then NatToString(n.value) else "null"
  }

  /** The notification texts of the three order handlers. */
  function CriadaMessage(numero: Option<nat>, nome: string): string {
    "Nova ordem #" + NumeroText(numero) + " (" + nome + ") foi criada."
  }

  function AtualizadaMessage(numero: Option<nat>, nome: string): string {
    "A ordem #" + NumeroText(numero) + " (" + nome + ") foi atualizada."
  }

  function ExcluidaMessage(numero: Option<nat>, nome: string): string {
    "A ordem #" + NumeroText(numero) + " (" + nome + ") foi excluída."
  }

  function OrdemLink(id: Id): string {
    "ordens.html?id=" + NatToString(id)
  }

  /** A successfully priced item list only names services and add-ons that exist. */
  lemma PricedLinesResolve(t: Tables, mode: PricingMode, items: seq<ItemRequest>)
    requires PriceLines(t.servicos, t.adicionais, mode, items).Some?
    ensures LinesResolve(t, PriceLines(t.servicos, t.adicionais, mode, items).value)
  {
    var lines := PriceLines(t.servicos, t.adicionais, mode, items).value;
    forall i | 0 <= i < |lines|
      ensures lines[i].tipo == ServicoItem ==> lines[i].itemId in t.servicos
      ensures lines[i].tipo == AdicionalItem ==> lines[i].itemId in t.adicionais
    {
      assert lines[i] == PriceLine(t.servicos, t.adicionais, mode, items[i]).value;
    }
  }

  /** The order createOrdem writes. */
  function NewOrdem(empresaId: Id, numero: nat, clienteId: Id, veiculoId: Id, lavadores: map<Id, Lavador>,
                    req: CreateOrdemRequest, lines: seq<Line>): (o: Ordem)
    ensures o.numeroOrdem == Some(numero) && o.empresaId == empresaId
    ensures o.valorTotal == SumSubtotals(lines) && o.items == lines
    ensures o.comissao == LavadorCommission(lavadores, req.lavadorId, o.valorTotal)
    ensures o.status == InitialStatus(req.lavadorId) && o.lavadorId == req.lavadorId
    ensures !o.pago && o.dataFim.None? && o.observacoes == req.observacoes
  {
    var total := SumSubtotals(lines);
    Ordem(empresaId, Some(numero), clienteId, veiculoId, req.lavadorId, InitialStatus(req.lavadorId),
          total, LavadorCommission(lavadores, req.lavadorId, total), false, None, req.observacoes, lines)
  }

  /** `after` holds every record of `before` unchanged. */
  predicate Extends<V(==)>(before: map<Id, V>, after: map<Id, V>) {
    forall k :: k in before ==> k in after && after[k] == before[k]
  }

  /** What a successful createOrdem writes, against the tables it started from: the order
      `o` under the fresh id `k`, and the customer and vehicle tables after the inline
      records. */
  ghost predicate CreatedAsRequested(t: Tables, empresaId: Id, req: CreateOrdemRequest,
                                     clientes: map<Id, Cliente>, veiculos: map<Id, Veiculo>, k: Id, o: Ordem)
  {
    && req.itens.Some?
    && k !in t.ordens
    && o.numeroOrdem.Some?
    && o == NewOrdem(empresaId, o.numeroOrdem.value, o.clienteId, o.veiculoId, t.lavadores, req, o.items)
    // items priced from the current catalogue: subtotal = price x quantity, total = sum
    && PriceLines(t.servicos, t.adicionais, AtCreation, req.itens.value) == Some(o.items)
    // the number is one more than the company's highest
    && IsNextNumero(t.ordens, empresaId, o.numeroOrdem.value)
    && ClienteResolved(t.clientes, empresaId, req, clientes, o.clienteId)
    && VeiculoResolved(t.veiculos, req, veiculos, o.clienteId, o.veiculoId)
    // the washer exists
    && (o.lavadorId.Some? ==> o.lavadorId.value in t.lavadores)
    // no other active order for the vehicle unless forced
    && (!req.forcarCriacao ==> !ActiveOrderExists(t.ordens, empresaId, Some(o.veiculoId)))
  }

  /** The result of the transaction of createOrdem. */
  datatype CreatePlan = CreatePlan(clientes: map<Id, Cliente>, veiculos: map<Id, Veiculo>, id: Id, ordem: Ordem)

  /** The tables after committing a plan. */
  function Commit(t: Tables, plan: CreatePlan): Tables {
    t.(clientes := plan.clientes, veiculos := plan.veiculos, ordens := t.ordens[plan.id := plan.ordem])
  }

  /** The transaction of createOrdem, on the tables as values: 400 for missing data,
      409 for an active order of the vehicle (unless forced), 500 when an item, the
      customer, the vehicle or the washer cannot be resolved. */
  method PlanCreateOrdem(t: Tables, empresaId: Id, req: CreateOrdemRequest) returns (r: Result<CreatePlan>)
    requires ValidTables(t)
    ensures !CreateFieldsPresent(req) ==> r == Err(BadRequest)
    ensures r == Err(Conflict) <==> CreateConflicts(t, empresaId, req)
    ensures r.Ok? <==> CreateAccepted(t, empresaId, req)
    ensures r.Err? ==> r.failure in {BadRequest, Conflict, ServerError}
    ensures r.Ok? ==> CreatedAsRequested(t, empresaId, req, r.value.clientes, r.value.veiculos, r.value.id, r.value.ordem)
  {
    if !CreateFieldsPresent(req) {
      return Err(BadRequest);
    }
    var clientes, clienteId := ResolveCliente(t.clientes, empresaId, req);
    assert clienteId.Some? && clienteId.value in clientes <==> ClienteAvailable(t, req);
    var veiculos, veiculoId, ok := ResolveVeiculo(t.veiculos, clientes, clienteId, req);
    assert ok <==> VeiculoResolvable(t, req);
    if !ok {
      return Err(ServerError);
    }
    assert veiculoId.Some? && veiculoId.value in veiculos <==> VeiculoAvailable(t, req);
    ConflictIsForRequest(t, empresaId, req, veiculoId);
    if !req.forcarCriacao && ActiveOrderExists(t.ordens, empresaId, veiculoId) {
      return Err(Conflict);
    }
    r := FinishCreatePlan(t, empresaId, req, clientes, clienteId, veiculos, veiculoId);
  }

  /** Steps 4 to 6 of the transaction of createOrdem, once customer and vehicle are
      resolved: price the items, check the insert's foreign keys (customer, vehicle and
      washer must exist) and number the order; every failure is a 500. */
  method FinishCreatePlan(t: Tables, empresaId: Id, req: CreateOrdemRequest, clientes: map<Id, Cliente>, clienteId: Option<Id>,
                          veiculos: map<Id, Veiculo>, veiculoId: Option<Id>) returns (r: Result<CreatePlan>)
    requires req.itens.Some?
    requires clienteId.Some? && clienteId.value in clientes ==> ClienteResolved(t.clientes, empresaId, req, clientes, clienteId.value)
    requires veiculoId.Some? && veiculoId.value in veiculos && clienteId.Some? ==>
      VeiculoResolved(t.veiculos, req, veiculos, clienteId.value, veiculoId.value)
    requires !req.forcarCriacao ==> !ActiveOrderExists(t.ordens, empresaId, veiculoId)
    ensures r.Ok? <==>
      && PriceLines(t.servicos, t.adicionais, AtCreation, req.itens.value).Some?
      && clienteId.Some? && clienteId.value in clientes && veiculoId.Some? && veiculoId.value in veiculos
      && (req.lavadorId.Some? ==> req.lavadorId.value in t.lavadores)
    ensures r.Err? ==> r == Err(ServerError)
    ensures r.Ok? ==> CreatedAsRequested(t, empresaId, req, r.value.clientes, r.value.veiculos, r.value.id, r.value.ordem)
  {
    var lines := PriceLines(t.servicos, t.adicionais, AtCreation, req.itens.value);
    if lines.None? {
      return Err(ServerError);
    }
    if clienteId.None? || veiculoId.None? {
      return Err(ServerError);
    }
    if clienteId.value !in clientes || veiculoId.value !in veiculos ||
       (req.lavadorId.Some? && req.lavadorId.value !in t.lavadores) {
      return Err(ServerError);
    }
    var numero := NextNumeroOrdem(t.ordens, empresaId);
    var k := FreshKey(t.ordens);
    var ordem := NewOrdem(empresaId, numero, clienteId.value, veiculoId.value, t.lavadores, req, lines.value);
    r := Ok(CreatePlan(clientes, veiculos, k, ordem));
  }

  /** A plan that meets its specification keeps the tables valid. */
  lemma CreatedKeepsValid(t: Tables, empresaId: Id, req: CreateOrdemRequest, plan: CreatePlan)
    requires ValidTables(t)
    requires CreatedAsRequested(t, empresaId, req, plan.clientes, plan.veiculos, plan.id, plan.ordem)
    ensures ValidTables(Commit(t, plan))
  {
    var o := plan.ordem;
    if plan.veiculos != t.veiculos {
      NewPlateKeepsUnique(t.veiculos, o.veiculoId, plan.veiculos[o.veiculoId]);
    }
    PricedLinesResolve(t, AtCreation, req.itens.value);
    ValidAfterCreate(t, plan);
  }

  /** Growing the customer and vehicle tables and adding a resolving order keeps the
      tables valid. */
  lemma ValidAfterCreate(t: Tables, plan: CreatePlan)
    requires ValidTables(t)
    requires Extends(t.clientes, plan.clientes) && Extends(t.veiculos, plan.veiculos)
    requires forall k :: k in plan.veiculos ==> plan.veiculos[k].clienteId in plan.clientes
    requires PlatesUnique(plan.veiculos)
    requires plan.ordem.clienteId in plan.clientes && plan.ordem.veiculoId in plan.veiculos
    requires plan.ordem.lavadorId.Some? ==> plan.ordem.lavadorId.value in t.lavadores
    requires LinesResolve(t, plan.ordem.items)
    ensures ValidTables(Commit(t, plan))
  {
    var grown := t.(clientes := plan.clientes, veiculos := plan.veiculos);
    forall k | k in grown.ordens ensures OrdemResolves(grown, grown.ordens[k]) {
      assert OrdemResolves(t, t.ordens[k]);
    }
    assert ValidTables(grown);
    ValidAfterOrdemWrite(grown, plan.id, plan.ordem);
    assert Commit(t, plan) == grown.(ordens := grown.ordens[plan.id := plan.ordem]);
  }

  /** Commits a plan: the customer and vehicle tables are replaced and the order stored. */
  method ApplyPlan(db: Db, p: CreatePlan)
    requires ValidTables(Commit(db.Snapshot(), p))
    modifies db`clientes, db`veiculos, db`ordens
    ensures db.Valid()
    ensures db.clientes == p.clientes && db.veiculos == p.veiculos
    ensures db.ordens == old(db.ordens)[p.id := p.ordem]
  {
    ghost var t := db.Snapshot();
    db.clientes := p.clientes;
    db.veiculos := p.veiculos;
    db.ordens := db.ordens[p.id := p.ordem];
    assert db.Snapshot() == Commit(t, p);
  }

  /** createOrdem: 401 without a company, then the transaction; on success the plan is
      committed and an ordemCriada notification follows. */
  method CreateOrdem(db: Db, empresaId: Option<Id>, req: CreateOrdemRequest) returns (r: Result<Id>)
    requires db.Valid()
    modifies db`clientes, db`veiculos, db`ordens, db`notificacoes
    ensures db.Valid()
    ensures empresaId.None? ==> r == Err(Unauthorized)
    ensures empresaId.Some? && !CreateFieldsPresent(req) ==> r == Err(BadRequest)
    ensures r == Err(Conflict) <==> empresaId.Some? && CreateConflicts(old(db.Snapshot()), empresaId.value, req)
    ensures r.Ok? <==> empresaId.Some? && CreateAccepted(old(db.Snapshot()), empresaId.value, req)
    ensures r.Err? ==> r.failure in {Unauthorized, BadRequest, Conflict, ServerError}
    ensures r.Err? ==>
      && db.clientes == old(db.clientes) && db.veiculos == old(db.veiculos)
      && db.ordens == old(db.ordens) && db.notificacoes == old(db.notificacoes)
    ensures r.Ok? ==> empresaId.Some? && r.value in db.ordens
    ensures r.Ok? ==> db.ordens == old(db.ordens)[r.value := db.ordens[r.value]]
    ensures r.Ok? ==>
      CreatedAsRequested(old(db.Snapshot()), empresaId.value, req, db.clientes, db.veiculos, r.value, db.ordens[r.value])
    ensures r.Ok? ==>
      var o := db.ordens[r.value];
      NotifiedIf(old(db.notificacoes), db.notificacoes, db.empresas, empresaId.value,
        CriadaMessage(o.numeroOrdem, db.clientes[o.clienteId].nome),
        Some(OrdemLink(r.value)), OrdemCriada)
  {
    if empresaId.None? {
      return Err(Unauthorized);
    }
    var t := Tables(db.clientes, db.veiculos, db.lavadores, db.servicos, db.adicionais, db.tiposVeiculo, db.ordens, db.pagamentos);
    assert t == db.Snapshot();
    var plan := PlanCreateOrdem(t, empresaId.value, req);
    if plan.Err? {
      return Err(plan.failure);
    }
    var p := plan.value;
    CreatedKeepsValid(t, empresaId.value, req, p);
    ApplyPlan(db, p);
    var mensagem := CriadaMessage(p.ordem.numeroOrdem, p.clientes[p.ordem.clienteId].nome);
    ghost var t' := db.Snapshot();
    var _ := CreateNotification(db, empresaId.value, mensagem, Some(OrdemLink(p.id)), OrdemCriada);
    assert db.Snapshot() == t';
    r := Ok(p.id);
  }

  /** The body of PUT /ordens/:id. `status`, `observacoes` and `lavadorId` distinguish
      a missing field from `null`; `itens` is either an array or absent. */
  datatype UpdateOrdemRequest = UpdateOrdemRequest(
    status: Input<string>, lavadorId: Input<Id>, observacoes: Input<string>, itens: Option<seq<ItemRequest>>)

  /** The washer after the update: `lavadorId ? connect : undefined` leaves it in place
      unless a washer is given. */
  function EffectiveLavador(current: Option<Id>, given: Input<Id>): (w: Option<Id>)
    ensures given.Value? ==> w == Some(given.value)
    ensures !given.Value? ==> w == current
  {
    if given.Value? then Some(given.value) else current
  }

  /** JavaScript's `lavadorId !== existingOrdem.lavadorId` (a missing field is `undefined`,
      which differs from every stored value, `null` included). */
  predicate LavadorFieldDiffers(given: Input<Id>, current: Option<Id>) {
    match given
    case Undefined => true
    case Null => current.Some?
    case Value(v) => current != Some(v)
  }

  /** Lines 535-544: moving to FINALIZADO recomputes the commission from the new-or-current
      washer when it exists with a positive percentage; otherwise `c` stands. */
  function FinalizationCommission(lavadores: map<Id, Lavador>, existing: Ordem, req: UpdateOrdemRequest, total: Money, c: Money): (r: Money)
    ensures !(req.status == Value("FINALIZADO") && existing.status != Finalizado) ==> r == c
  {
    var w := EffectiveLavador(existing.lavadorId, req.lavadorId);
    if req.status == Value("FINALIZADO") && existing.status != Finalizado &&
       w.Some? && w.value in lavadores && lavadores[w.value].comissao > 0.0
    then LavadorCommission(lavadores, w, total)
    else c
  }

  /** Lines 521-531 as written: recompute when items are given or the `lavadorId` field
      differs from the stored washer, from the request's washer only (0 when absent). */
  function UpdatedCommissionAsWritten(lavadores: map<Id, Lavador>, existing: Ordem, req: UpdateOrdemRequest, total: Money): Money {
    var c := if req.itens.Some? || LavadorFieldDiffers(req.lavadorId, existing.lavadorId)
             then LavadorCommission(lavadores, if req.lavadorId.Value? then Some(req.lavadorId.value) else None, total)
             else existing.comissao;
    FinalizationCommission(lavadores, existing, req, total, c)
  }

  /** The intended commission rule: recompute when items are given or the washer actually
      changes, from the washer the order keeps. */
  function UpdatedCommission(lavadores: map<Id, Lavador>, existing: Ordem, req: UpdateOrdemRequest, total: Money): Money {
    var w := EffectiveLavador(existing.lavadorId, req.lavadorId);
    var c := if req.itens.Some? || w != existing.lavadorId then LavadorCommission(lavadores, w, total) else existing.comissao;
    FinalizationCommission(lavadores, existing, req, total, c)
  }

  /** An order's commission agrees with its washer and its total. */
  predicate CommissionConsistent(lavadores: map<Id, Lavador>, o: Ordem) {
    o.comissao == LavadorCommission(lavadores, o.lavadorId, o.valorTotal)
  }

  /** With the intended rule an update keeps the commission consistent with the washer
      and total the order ends up with. */
  lemma UpdatedCommissionConsistent(lavadores: map<Id, Lavador>, existing: Ordem, req: UpdateOrdemRequest, total: Money)
    requires CommissionConsistent(lavadores, existing)
    requires req.itens.None? ==> total == existing.valorTotal
    ensures UpdatedCommission(lavadores, existing, req, total) ==
      LavadorCommission(lavadores, EffectiveLavador(existing.lavadorId, req.lavadorId), total)
  {
  }

  /** As written, editing only the notes of an order whose washer earns 25% of 80.00
      drops its commission from 20.00 to 0 while the washer stays assigned. */
  lemma UpdatedCommissionAsWrittenDropsCommission()
    ensures
      var lavadores := map[7 := Lavador(1, "Ana", 25.0, true)];
      var existing := Ordem(1, Some(1), 2, 3, Some(7), EmAndamento, 80.0, 20.0, false, None, None, []);
      var req := UpdateOrdemRequest(Undefined, Undefined, Value("lavar rodas"), None);
      && CommissionConsistent(lavadores, existing)
      && EffectiveLavador(existing.lavadorId, req.lavadorId) == Some(7)
      && UpdatedCommissionAsWritten(lavadores, existing, req, 80.0) == 0.0
      && UpdatedCommission(lavadores, existing, req, 80.0) == 20.0
  {
  }

  /** The model departs from lines 521-531 only when the request leaves `lavadorId` out
      or sends `null`: with a washer given, the rule as written and the intended one
      agree. */
  lemma UpdatedCommissionAgreesWithWasherGiven(lavadores: map<Id, Lavador>, existing: Ordem, req: UpdateOrdemRequest, total: Money)
    requires req.lavadorId.Value?
    ensures UpdatedCommissionAsWritten(lavadores, existing, req, total) == UpdatedCommission(lavadores, existing, req, total)
  {
  }

  /** The status the update writes: unchanged when absent, the parsed enum otherwise. */
  function UpdatedStatus(current: OrdemStatus, given: Input<string>): (r: Option<OrdemStatus>)
    ensures given.Undefined? ==> r == Some(current)
    ensures given.Null? ==> r.None?
    ensures given.Value? ==> r == ParseOrdemStatus(given.value)
  {
    match given
    case Undefined => Some(current)
    case Null => None
    case Value(s) => ParseOrdemStatus(s)
  }

  /** `status && status === 'FINALIZADO' && !existingOrdem.dataFim`: the end time is set once. */
  function UpdatedDataFim(existing: Ordem, req: UpdateOrdemRequest, now: int): (d: Option<int>)
    ensures existing.dataFim.Some? ==> d == existing.dataFim
    ensures existing.dataFim.None? ==> (d.Some? <==> req.status == Value("FINALIZADO"))
    ensures d.Some? && existing.dataFim.None? ==> d.value == now
  {
    if req.status == Value("FINALIZADO") && existing.dataFim.None? then Some(now) else existing.dataFim
  }

  /** The order updateOrdem writes, given the repriced lines and total. */
  function UpdatedOrdem(lavadores: map<Id, Lavador>, existing: Ordem, req: UpdateOrdemRequest,
                        status: OrdemStatus, items: seq<Line>, total: Money, now: int): (o: Ordem)
    ensures o.empresaId == existing.empresaId && o.numeroOrdem == existing.numeroOrdem
    ensures o.clienteId == existing.clienteId && o.veiculoId == existing.veiculoId && o.pago == existing.pago
    ensures o.status == status && o.items == items && o.valorTotal == total
    ensures o.lavadorId == EffectiveLavador(existing.lavadorId, req.lavadorId)
    ensures o.observacoes == Assigned(existing.observacoes, req.observacoes)
    ensures o.comissao == UpdatedCommission(lavadores, existing, req, total)
    ensures o.dataFim == UpdatedDataFim(existing, req, now)
  {
    existing.(status := status,
              lavadorId := EffectiveLavador(existing.lavadorId, req.lavadorId),
              observacoes := Assigned(existing.observacoes, req.observacoes),
              items := items,
              valorTotal := total,
              comissao := UpdatedCommission(lavadores, existing, req, total),
              dataFim := UpdatedDataFim(existing, req, now))
  }

  predicate InTenant(ordens: map<Id, Ordem>, empresaId: Id, id: Id) {
    id in ordens && ordens[id].empresaId == empresaId
  }

  /** What updateOrdem accepts once the order is found: a valid status, items that all
      price within the company, and an existing washer. */
  predicate UpdateAccepted(t: Tables, empresaId: Id, existing: Ordem, req: UpdateOrdemRequest) {
    && UpdatedStatus(existing.status, req.status).Some?
    && (req.itens.Some? ==> PriceLines(t.servicos, t.adicionais, AtUpdate(empresaId), req.itens.value).Some?)
    && (req.lavadorId.Value? ==> req.lavadorId.value in t.lavadores)
  }

  /** What a successful updateOrdem writes over `existing`. */
  ghost predicate UpdatedAsRequested(t: Tables, empresaId: Id, existing: Ordem, req: UpdateOrdemRequest, now: int, n: Ordem) {
    && UpdatedStatus(existing.status, req.status).Some?
    && (req.itens.None? ==> n.items == existing.items && n.valorTotal == existing.valorTotal)
    && (req.itens.Some? ==> PriceLines(t.servicos, t.adicionais, AtUpdate(empresaId), req.itens.value) == Some(n.items))
    && (req.itens.Some? ==> n.valorTotal == SumSubtotals(n.items))
    && n == UpdatedOrdem(t.lavadores, existing, req, UpdatedStatus(existing.status, req.status).value, n.items, n.valorTotal, now)
  }

  /** The transaction of updateOrdem for a found order: 500 unless the update is accepted. */
  method PlanUpdateOrdem(t: Tables, empresaId: Id, existing: Ordem, req: UpdateOrdemRequest, now: int) returns (r: Result<Ordem>)
    ensures r.Ok? <==> UpdateAccepted(t, empresaId, existing, req)
    ensures r.Err? ==> r.failure == ServerError
    ensures r.Ok? ==> UpdatedAsRequested(t, empresaId, existing, req, now, r.value)
    ensures r.Ok? && OrdemResolves(t, existing) ==> OrdemResolves(t, r.value)
  {
    var items := existing.items;
    var total := existing.valorTotal;
    if req.itens.Some? {
      var priced := PriceItemsForUpdate(t.servicos, t.adicionais, empresaId, req.itens.value);
      if priced.None? {
        return Err(ServerError);
      }
      items, total := priced.value.0, priced.value.1;
      PricedLinesResolve(t, AtUpdate(empresaId), req.itens.value);
    }
    var status := UpdatedStatus(existing.status, req.status);
    if status.None? {
      return Err(ServerError);
    }
    if req.lavadorId.Value? && req.lavadorId.value !in t.lavadores {
      return Err(ServerError);
    }
    r := Ok(UpdatedOrdem(t.lavadores, existing, req, status.value, items, total, now));
  }

  /** updateOrdem: 404 outside the tenant, then the transaction; on success the order is
      written and an ordemEditada notification follows. */
  method UpdateOrdem(db: Db, empresaId: Id, id: Id, req: UpdateOrdemRequest, now: int) returns (r: Result<Id>)
    requires db.Valid()
    modifies db`ordens, db`notificacoes
    ensures db.Valid()
    ensures !InTenant(old(db.ordens), empresaId, id) ==> r == Err(NotFound)
    ensures InTenant(old(db.ordens), empresaId, id) ==>
      (r.Ok? <==> UpdateAccepted(old(db.Snapshot()), empresaId, old(db.ordens)[id], req))
    ensures r.Err? ==> r.failure in {NotFound, ServerError}
    ensures r.Err? ==> db.ordens == old(db.ordens) && db.notificacoes == old(db.notificacoes)
    ensures r.Ok? ==> r.value == id && id in old(db.ordens) && id in db.ordens
    ensures r.Ok? ==> db.ordens == old(db.ordens)[id := db.ordens[id]]
    ensures r.Ok? ==> UpdatedAsRequested(old(db.Snapshot()), empresaId, old(db.ordens)[id], req, now, db.ordens[id])
    ensures r.Ok? ==>
      var n := db.ordens[id];
      NotifiedIf(old(db.notificacoes), db.notificacoes, db.empresas, empresaId,
        AtualizadaMessage(n.numeroOrdem, db.clientes[n.clienteId].nome),
        Some(OrdemLink(id)), OrdemEditada)
  {
    if !InTenant(db.ordens, empresaId, id) {
      return Err(NotFound);
    }
    var t := Tables(db.clientes, db.veiculos, db.lavadores, db.servicos, db.adicionais, db.tiposVeiculo, db.ordens, db.pagamentos);
    assert t == db.Snapshot();
    var existing := db.ordens[id];
    var plan := PlanUpdateOrdem(t, empresaId, existing, req, now);
    if plan.Err? {
      return Err(plan.failure);
    }
    var updated := plan.value;
    ValidAfterOrdemWrite(t, id, updated);
    db.ordens := db.ordens[id := updated];
    assert db.Snapshot() == t.(ordens := t.ordens[id := updated]);
    var mensagem := AtualizadaMessage(updated.numeroOrdem, db.clientes[updated.clienteId].nome);
    ghost var t' := db.Snapshot();
    var _ := CreateNotification(db, empresaId, mensagem, Some(OrdemLink(id)), OrdemEditada);
    assert db.Snapshot() == t';
    r := Ok(id);
  }

  /** Only PENDENTE and EM_ANDAMENTO orders may be cancelled. */
  predicate Cancelable(s: OrdemStatus) {
    s != Finalizado && s != Cancelado
  }

  lemma CancelableIsActive(s: OrdemStatus)
    ensures Cancelable(s) <==> Active(s)
  {
  }

  /** cancelOrdem: 404 outside the tenant, 400 for a finished or cancelled order;
      otherwise only the status changes, to CANCELADO. */
  method CancelOrdem(db: Db, empresaId: Id, id: Id) returns (r: Result<Id>)
    requires db.Valid()
    modifies db`ordens
    ensures db.Valid()
    ensures !InTenant(old(db.ordens), empresaId, id) ==> r == Err(NotFound)
    ensures InTenant(old(db.ordens), empresaId, id) && !Cancelable(old(db.ordens)[id].status) ==> r == Err(BadRequest)
    ensures r.Err? ==> db.ordens == old(db.ordens)
    ensures r.Ok? <==> InTenant(old(db.ordens), empresaId, id) && Cancelable(old(db.ordens)[id].status)
    ensures r.Ok? ==> r.value == id && db.ordens == old(db.ordens)[id := old(db.ordens)[id].(status := Cancelado)]
  {
    if !InTenant(db.ordens, empresaId, id) {
      return Err(NotFound);
    }
    var ordem := db.ordens[id];
    if !Cancelable(ordem.status) {
      return Err(BadRequest);
    }
    ghost var t := db.Snapshot();
    ValidAfterOrdemWrite(t, id, ordem.(status := Cancelado));
    db.ordens := db.ordens[id := ordem.(status := Cancelado)];
    assert db.Snapshot() == t.(ordens := t.ordens[id := ordem.(status := Cancelado)]);
    r := Ok(id);
  }

  /** The payments that do not belong to an order. */
  function PaymentsWithout(pags: map<Id, Pagamento>, ordemId: Id): (m: map<Id, Pagamento>)
    ensures forall k :: k in m <==> k in pags && pags[k].ordemId != ordemId
    ensures forall k :: k in m ==> m[k] == pags[k]
  {
    map k | k in pags && pags[k].ordemId != ordemId :: pags[k]
  }

  /** Removing an order with its payments keeps the tables valid. */
  lemma ValidAfterOrdemDelete(t: Tables, id: Id)
    requires ValidTables(t)
    ensures ValidTables(t.(ordens := t.ordens - {id}, pagamentos := PaymentsWithout(t.pagamentos, id)))
  {
    var t' := t.(ordens := t.ordens - {id}, pagamentos := PaymentsWithout(t.pagamentos, id));
    forall k | k in t'.ordens ensures OrdemResolves(t', t'.ordens[k]) {
      assert OrdemResolves(t, t.ordens[k]);
    }
  }

  /** The transaction of deleteOrdem: the order and its payments go, nothing else changes. */
  method RemoveOrdem(db: Db, id: Id)
    requires db.Valid()
    modifies db`ordens, db`pagamentos
    ensures db.Valid()
    ensures db.ordens == old(db.ordens) - {id}
    ensures db.pagamentos == PaymentsWithout(old(db.pagamentos), id)
  {
    ghost var t := db.Snapshot();
    ValidAfterOrdemDelete(t, id);
    db.pagamentos := PaymentsWithout(db.pagamentos, id);
    db.ordens := db.ordens - {id};
    assert db.Snapshot() == t.(ordens := t.ordens - {id}, pagamentos := PaymentsWithout(t.pagamentos, id));
  }

  /** deleteOrdem: 404 outside the tenant; otherwise the order, its items and its payments
      are removed, and an ordemDeletada notification follows. */
  method DeleteOrdem(db: Db, empresaId: Id, id: Id) returns (r: Result<Id>)
    requires db.Valid()
    modifies db`ordens, db`pagamentos, db`notificacoes
    ensures db.Valid()
    ensures r.Err? <==> !InTenant(old(db.ordens), empresaId, id)
    ensures r.Err? ==> r.failure == NotFound
    ensures r.Err? ==>
      db.ordens == old(db.ordens) && db.pagamentos == old(db.pagamentos) && db.notificacoes == old(db.notificacoes)
    ensures r.Ok? ==>
      var o := old(db.ordens)[id];
      && r.value == id
      && db.ordens == old(db.ordens) - {id}
      && db.pagamentos == PaymentsWithout(old(db.pagamentos), id)
      && NotifiedIf(old(db.notificacoes), db.notificacoes, db.empresas, empresaId,
           ExcluidaMessage(o.numeroOrdem, db.clientes[o.clienteId].nome),
           None, OrdemDeletada)
  {
    if !InTenant(db.ordens, empresaId, id) {
      return Err(NotFound);
    }
    var ordem := db.ordens[id];
    var nome := db.clientes[ordem.clienteId].nome;
    RemoveOrdem(db, id);
    var mensagem := ExcluidaMessage(ordem.numeroOrdem, nome);
    ghost var t := db.Snapshot();
    var _ := CreateNotification(db, empresaId, mensagem, None, OrdemDeletada);
    assert db.Snapshot() == t;
    r := Ok(id);
  }
}
