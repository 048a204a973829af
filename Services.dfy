/**
 * Services and add-ons (backend/src/controllers/servicoController.ts): creation
 * checks the required fields, updates are scoped to the company and change only the
 * fields supplied, and an item that some order line names cannot be deleted. The
 * compiled variant has the same delete guards, so both use DeleteServico and
 * DeleteAdicional.
 */
module Services {
  import opened Common
  import opened Store

  predicate ServicoInTenant(servicos: map<Id, Servico>, empresaId: Id, id: Id) {
    id in servicos && servicos[id].empresaId == empresaId
  }

  predicate AdicionalInTenant(adicionais: map<Id, Adicional>, empresaId: Id, id: Id) {
    id in adicionais && adicionais[id].empresaId == empresaId
  }

  /** Some order line, of any company, names the item (`_count.ordemItems > 0`). */
  predicate ItemReferenced(ordens: map<Id, Ordem>, kind: ItemKind, id: Id) {
    exists k, i :: k in ordens && 0 <= i < |ordens[k].items| && ordens[k].items[i].tipo == kind && ordens[k].items[i].itemId == id
  }

  /** Writing a service whose vehicle type exists keeps the tables valid. */
  lemma ValidAfterServicoWrite(t: Tables, id: Id, s: Servico)
    requires ValidTables(t)
    requires s.tipoVeiculoId.Some? ==> s.tipoVeiculoId.value in t.tiposVeiculo
    ensures ValidTables(t.(servicos := t.servicos[id := s]))
  {
    var t' := t.(servicos := t.servicos[id := s]);
    forall k | k in t'.ordens ensures OrdemResolves(t', t'.ordens[k]) {
      assert OrdemResolves(t, t.ordens[k]);
    }
  }

  /** Removing a service that no order line names keeps the tables valid. */
  lemma ValidAfterServicoRemove(t: Tables, id: Id)
    requires ValidTables(t) && !ItemReferenced(t.ordens, ServicoItem, id)
    ensures ValidTables(t.(servicos := t.servicos - {id}))
  {
    var t' := t.(servicos := t.servicos - {id});
    forall k | k in t'.ordens ensures OrdemResolves(t', t'.ordens[k]) {
      var o := t.ordens[k];
      assert OrdemResolves(t, o);
      forall i | 0 <= i < |o.items| && o.items[i].tipo == ServicoItem ensures o.items[i].itemId in t'.servicos {
        assert o.items[i].itemId != id;
      }
    }
  }

  /** Writing an add-on keeps the tables valid. */
  lemma ValidAfterAdicionalWrite(t: Tables, id: Id, a: Adicional)
    requires ValidTables(t)
    ensures ValidTables(t.(adicionais := t.adicionais[id := a]))
  {
    var t' := t.(adicionais := t.adicionais[id := a]);
    forall k | k in t'.ordens ensures OrdemResolves(t', t'.ordens[k]) {
      assert OrdemResolves(t, t.ordens[k]);
    }
  }

  /** Removing an add-on that no order line names keeps the tables valid. */
  lemma ValidAfterAdicionalRemove(t: Tables, id: Id)
    requires ValidTables(t) && !ItemReferenced(t.ordens, AdicionalItem, id)
    ensures ValidTables(t.(adicionais := t.adicionais - {id}))
  {
    var t' := t.(adicionais := t.adicionais - {id});
    forall k | k in t'.ordens ensures OrdemResolves(t', t'.ordens[k]) {
      var o := t.ordens[k];
      assert OrdemResolves(t, o);
      forall i | 0 <= i < |o.items| && o.items[i].tipo == AdicionalItem ensures o.items[i].itemId in t'.adicionais {
        assert o.items[i].itemId != id;
      }
    }
  }

  datatype CreateServicoRequest = CreateServicoRequest(
    nome: Option<string>, descricao: Option<string>, duracao: Option<int>, preco: Option<Money>, tipoVeiculoId: Option<Id>)

  /** createServico: 400 without a name, a price or a vehicle type, 400 when the type does
      not exist; otherwise one new active service of the company with that type. */
  method CreateServico(db: Db, empresaId: Id, req: CreateServicoRequest) returns (r: Result<Id>)
    requires db.Valid()
    modifies db`servicos
    ensures db.Valid()
    ensures !Truthy(req.nome) || req.preco.None? || req.tipoVeiculoId.None? ==> r == Err(BadRequest)
    ensures (req.tipoVeiculoId.Some? && req.tipoVeiculoId.value !in db.tiposVeiculo) ==> r == Err(BadRequest)
    ensures r.Ok? <==>
      Truthy(req.nome) && req.preco.Some? && req.tipoVeiculoId.Some? && req.tipoVeiculoId.value in db.tiposVeiculo
    ensures r.Err? ==> db.servicos == old(db.servicos)
    ensures r.Ok? ==>
      && r.value !in old(db.servicos)
      && db.servicos == old(db.servicos)[r.value :=
           Servico(empresaId, req.nome.value, req.descricao, req.duracao, req.preco.value, req.tipoVeiculoId, true, [])]
  {
    if !Truthy(req.nome) || req.preco.None? || req.tipoVeiculoId.None? {
      return Err(BadRequest);
    }
    if req.tipoVeiculoId.value !in db.tiposVeiculo {
      return Err(BadRequest);
    }
    var s := Servico(empresaId, req.nome.value, req.descricao, req.duracao, req.preco.value, req.tipoVeiculoId, true, []);
    var k := FreshKey(db.servicos);
    ghost var t := db.Snapshot();
    ValidAfterServicoWrite(t, k, s);
    db.servicos := db.servicos[k := s];
    assert db.Snapshot() == t.(servicos := t.servicos[k := s]);
    r := Ok(k);
  }

  datatype CreateAdicionalRequest = CreateAdicionalRequest(nome: Option<string>, descricao: Option<string>, preco: Option<Money>)

  /** createAdicional: 400 without a name or a price; otherwise one new active add-on. */
  method CreateAdicional(db: Db, empresaId: Id, req: CreateAdicionalRequest) returns (r: Result<Id>)
    requires db.Valid()
    modifies db`adicionais
    ensures db.Valid()
    ensures r.Err? <==> !Truthy(req.nome) || req.preco.None?
    ensures r.Err? ==> r.failure == BadRequest && db.adicionais == old(db.adicionais)
    ensures r.Ok? ==>
      && r.value !in old(db.adicionais)
      && db.adicionais == old(db.adicionais)[r.value := Adicional(empresaId, req.nome.value, req.descricao, req.preco.value, true, [])]
  {
    if !Truthy(req.nome) || req.preco.None? {
      return Err(BadRequest);
    }
    var a := Adicional(empresaId, req.nome.value, req.descricao, req.preco.value, true, []);
    var k := FreshKey(db.adicionais);
    ghost var t := db.Snapshot();
    ValidAfterAdicionalWrite(t, k, a);
    db.adicionais := db.adicionais[k := a];
    assert db.Snapshot() == t.(adicionais := t.adicionais[k := a]);
    r := Ok(k);
  }

  /** The body of an update: a field set to `null` is `Null`, a missing one `Undefined`. */
  datatype UpdateServicoRequest = UpdateServicoRequest(
    nome: Option<string>, descricao: Input<string>, duracao: Input<int>, ativo: Input<bool>, preco: Option<Money>)

  /** The update's `data`: the name only when truthy, the other fields when given. */
  function PatchServico(s: Servico, req: UpdateServicoRequest): Servico {
    s.(nome := if Truthy(req.nome) then req.nome.value else s.nome,
       descricao := Assigned(s.descricao, req.descricao),
       duracao := Assigned(s.duracao, req.duracao),
       ativo := if req.ativo.Value? then req.ativo.value else s.ativo,
       preco := if req.preco.Some? then req.preco.value else s.preco)
  }

  /** The patch keeps the company, the vehicle type and the price rows, a request that
      supplies nothing changes nothing, and applying it twice is the same as once. */
  lemma PatchServicoProperties(s: Servico, req: UpdateServicoRequest)
    ensures var p := PatchServico(s, req);
      p.empresaId == s.empresaId && p.tipoVeiculoId == s.tipoVeiculoId && p.precos == s.precos
    ensures PatchServico(s, UpdateServicoRequest(None, Undefined, Undefined, Undefined, None)) == s
    ensures PatchServico(PatchServico(s, req), req) == PatchServico(s, req)
  {
  }

  /** updateServico: the `updateMany` scoped to the id and the company. A `null` flag is
      spread into its data (`null !== undefined`) and the required column refuses it, so
      the query throws, a 500, before any row is matched; otherwise 404 when it matches
      nothing, and the patched service when it matches. */
  method UpdateServico(db: Db, empresaId: Id, id: Id, req: UpdateServicoRequest) returns (r: Result<Id>)
    requires db.Valid()
    modifies db`servicos
    ensures db.Valid()
    ensures req.ativo.Null? ==> r == Err(ServerError)
    ensures r == Err(NotFound) <==> !req.ativo.Null? && !ServicoInTenant(old(db.servicos), empresaId, id)
    ensures r.Ok? <==> !req.ativo.Null? && ServicoInTenant(old(db.servicos), empresaId, id)
    ensures r.Err? ==> db.servicos == old(db.servicos)
    ensures r.Ok? ==> r.value == id && db.servicos == old(db.servicos)[id := PatchServico(old(db.servicos)[id], req)]
  {
    if req.ativo.Null? {
      return Err(ServerError);
    }
    if !ServicoInTenant(db.servicos, empresaId, id) {
      return Err(NotFound);
    }
    var s := PatchServico(db.servicos[id], req);
    ghost var t := db.Snapshot();
    ValidAfterServicoWrite(t, id, s);
    db.servicos := db.servicos[id := s];
    assert db.Snapshot() == t.(servicos := t.servicos[id := s]);
    r := Ok(id);
  }

  datatype UpdateAdicionalRequest = UpdateAdicionalRequest(
    nome: Option<string>, descricao: Input<string>, ativo: Input<bool>, preco: Option<Money>)

  function PatchAdicional(a: Adicional, req: UpdateAdicionalRequest): Adicional {
    a.(nome := if Truthy(req.nome) then req.nome.value else a.nome,
       descricao := Assigned(a.descricao, req.descricao),
       ativo := if req.ativo.Value? then req.ativo.value else a.ativo,
       preco := if req.preco.Some? then req.preco.value else a.preco)
  }

  /** The add-on patch keeps the company and the price rows and is idempotent. */
  lemma PatchAdicionalProperties(a: Adicional, req: UpdateAdicionalRequest)
    ensures PatchAdicional(a, req).empresaId == a.empresaId && PatchAdicional(a, req).precos == a.precos
    ensures PatchAdicional(a, UpdateAdicionalRequest(None, Undefined, Undefined, None)) == a
    ensures PatchAdicional(PatchAdicional(a, req), req) == PatchAdicional(a, req)
  {
  }

  /** updateAdicional: the same `updateMany`, with the same 500 for a `null` flag, 404 when
      it matches nothing, otherwise the patch. */
  method UpdateAdicional(db: Db, empresaId: Id, id: Id, req: UpdateAdicionalRequest) returns (r: Result<Id>)
    requires db.Valid()
    modifies db`adicionais
    ensures db.Valid()
    ensures req.ativo.Null? ==> r == Err(ServerError)
    ensures r == Err(NotFound) <==> !req.ativo.Null? && !AdicionalInTenant(old(db.adicionais), empresaId, id)
    ensures r.Ok? <==> !req.ativo.Null? && AdicionalInTenant(old(db.adicionais), empresaId, id)
    ensures r.Err? ==> db.adicionais == old(db.adicionais)
    ensures r.Ok? ==> r.value == id && db.adicionais == old(db.adicionais)[id := PatchAdicional(old(db.adicionais)[id], req)]
  {
    if req.ativo.Null? {
      return Err(ServerError);
    }
    if !AdicionalInTenant(db.adicionais, empresaId, id) {
      return Err(NotFound);
    }
    var a := PatchAdicional(db.adicionais[id], req);
    ghost var t := db.Snapshot();
    ValidAfterAdicionalWrite(t, id, a);
    db.adicionais := db.adicionais[id := a];
    assert db.Snapshot() == t.(adicionais := t.adicionais[id := a]);
    r := Ok(id);
  }

  /** deleteServico: 404 outside the tenant, 400 while some order line names the service;
      otherwise it is removed. The guard keeps every order line resolvable. */
  method DeleteServico(db: Db, empresaId: Id, id: Id) returns (r: Result<Id>)
    requires db.Valid()
    modifies db`servicos
    ensures db.Valid()
    ensures !ServicoInTenant(old(db.servicos), empresaId, id) ==> r == Err(NotFound)
    ensures ServicoInTenant(old(db.servicos), empresaId, id) && ItemReferenced(db.ordens, ServicoItem, id) ==> r == Err(BadRequest)
    ensures r.Ok? <==> ServicoInTenant(old(db.servicos), empresaId, id) && !ItemReferenced(db.ordens, ServicoItem, id)
    ensures r.Err? ==> db.servicos == old(db.servicos)
    ensures r.Ok? ==> r.value == id && db.servicos == old(db.servicos) - {id}
  {
    if !ServicoInTenant(db.servicos, empresaId, id) {
      return Err(NotFound);
    }
    if ItemReferenced(db.ordens, ServicoItem, id) {
      return Err(BadRequest);
    }
    ghost var t := db.Snapshot();
    ValidAfterServicoRemove(t, id);
    db.servicos := db.servicos - {id};
    assert db.Snapshot() == t.(servicos := t.servicos - {id});
    r := Ok(id);
  }

  /** deleteAdicional: the same guard for add-ons. */
  method DeleteAdicional(db: Db, empresaId: Id, id: Id) returns (r: Result<Id>)
    requires db.Valid()
    modifies db`adicionais
    ensures db.Valid()
    ensures !AdicionalInTenant(old(db.adicionais), empresaId, id) ==> r == Err(NotFound)
    ensures AdicionalInTenant(old(db.adicionais), empresaId, id) && ItemReferenced(db.ordens, AdicionalItem, id) ==> r == Err(BadRequest)
    ensures r.Ok? <==> AdicionalInTenant(old(db.adicionais), empresaId, id) && !ItemReferenced(db.ordens, AdicionalItem, id)
    ensures r.Err? ==> db.adicionais == old(db.adicionais)
    ensures r.Ok? ==> r.value == id && db.adicionais == old(db.adicionais) - {id}
  {
    if !AdicionalInTenant(db.adicionais, empresaId, id) {
      return Err(NotFound);
    }
    if ItemReferenced(db.ordens, AdicionalItem, id) {
      return Err(BadRequest);
    }
    ghost var t := db.Snapshot();
    ValidAfterAdicionalRemove(t, id);
    db.adicionais := db.adicionais - {id};
    assert db.Snapshot() == t.(adicionais := t.adicionais - {id});
    r := Ok(id);
  }
}
