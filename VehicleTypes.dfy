/**
 * Vehicle types (backend/src/controllers/tipoVeiculoController.ts): a type needs a name,
 * an update changes only the fields supplied, a type that some service uses cannot be
 * deleted, and the subtype lookup lists the company's types of one category. Update and
 * delete look the type up by id alone, without the company.
 */
module VehicleTypes {
  import opened Common
  import opened Store

  /** Some service, of any company, has the type (`servico.count({ where: { tipoVeiculoId } }) > 0`). */
  predicate TypeInUse(servicos: map<Id, Servico>, id: Id) {
    exists k :: k in servicos && servicos[k].tipoVeiculoId == Some(id)
  }

  /** Any table of types that keeps every existing key keeps the tables valid. */
  lemma ValidAfterTiposGrow(t: Tables, tipos: map<Id, TipoVeiculo>)
    requires ValidTables(t) && t.tiposVeiculo.Keys <= tipos.Keys
    ensures ValidTables(t.(tiposVeiculo := tipos))
  {
    var t' := t.(tiposVeiculo := tipos);
    forall k | k in t'.ordens ensures OrdemResolves(t', t'.ordens[k]) {
      assert OrdemResolves(t, t.ordens[k]);
    }
  }

  /** Writing a vehicle type keeps the tables valid: type keys are only added or kept. */
  lemma ValidAfterTipoWrite(t: Tables, id: Id, tv: TipoVeiculo)
    requires ValidTables(t)
    ensures ValidTables(t.(tiposVeiculo := t.tiposVeiculo[id := tv]))
  {
    ValidAfterTiposGrow(t, t.tiposVeiculo[id := tv]);
  }

  /** Removing a type that no service uses keeps the tables valid. */
  lemma ValidAfterTipoRemove(t: Tables, id: Id)
    requires ValidTables(t) && !TypeInUse(t.servicos, id)
    ensures ValidTables(t.(tiposVeiculo := t.tiposVeiculo - {id}))
  {
    var t' := t.(tiposVeiculo := t.tiposVeiculo - {id});
    forall k | k in t'.ordens ensures OrdemResolves(t', t'.ordens[k]) {
      assert OrdemResolves(t, t.ordens[k]);
    }
    forall k | k in t'.servicos && t'.servicos[k].tipoVeiculoId.Some?
      ensures t'.servicos[k].tipoVeiculoId.value in t'.tiposVeiculo
    {
      assert t.servicos[k].tipoVeiculoId != Some(id);
    }
  }

  datatype CreateTipoRequest = CreateTipoRequest(nome: Option<string>, categoria: Option<string>, descricao: Option<string>, ativo: Input<bool>)

  /** The new record; a missing `ativo` takes the column default, active. */
  function NewTipo(empresaId: Id, req: CreateTipoRequest): TipoVeiculo
    requires Truthy(req.nome)
  {
    TipoVeiculo(empresaId, req.nome.value, req.categoria, req.descricao, if req.ativo.Value? then req.ativo.value else true)
  }

  /** createTipoVeiculo: 400 without a name; `ativo` goes into the insert as sent, so a
      `null` one is refused by the required column, a 500; otherwise one new type of the
      company. */
  method CreateTipoVeiculo(db: Db, empresaId: Id, req: CreateTipoRequest) returns (r: Result<Id>)
    requires db.Valid()
    modifies db`tiposVeiculo
    ensures db.Valid()
    ensures !Truthy(req.nome) ==> r == Err(BadRequest)
    ensures Truthy(req.nome) && req.ativo.Null? ==> r == Err(ServerError)
    ensures r.Ok? <==> Truthy(req.nome) && !req.ativo.Null?
    ensures r.Err? ==> db.tiposVeiculo == old(db.tiposVeiculo)
    ensures r.Ok? ==> r.value !in old(db.tiposVeiculo) && db.tiposVeiculo == old(db.tiposVeiculo)[r.value := NewTipo(empresaId, req)]
  {
    if !Truthy(req.nome) {
      return Err(BadRequest);
    }
    if req.ativo.Null? {
      return Err(ServerError);
    }
    var tv := NewTipo(empresaId, req);
    var k := FreshKey(db.tiposVeiculo);
    ghost var t := db.Snapshot();
    ValidAfterTipoWrite(t, k, tv);
    db.tiposVeiculo := db.tiposVeiculo[k := tv];
    assert db.Snapshot() == t.(tiposVeiculo := t.tiposVeiculo[k := tv]);
    r := Ok(k);
  }

  datatype UpdateTipoRequest = UpdateTipoRequest(nome: Option<string>, categoria: Input<string>, descricao: Input<string>, ativo: Input<bool>)

  /** The update's `data`: the name only when truthy, the other fields when given. */
  function PatchTipo(tv: TipoVeiculo, req: UpdateTipoRequest): TipoVeiculo {
    tv.(nome := if Truthy(req.nome) then req.nome.value else tv.nome,
        categoria := Assigned(tv.categoria, req.categoria),
        descricao := Assigned(tv.descricao, req.descricao),
        ativo := if req.ativo.Value? then req.ativo.value else tv.ativo)
  }

  /** The patch keeps the company, a request that supplies nothing changes nothing, and
      applying it twice is the same as once. */
  lemma PatchTipoProperties(tv: TipoVeiculo, req: UpdateTipoRequest)
    ensures PatchTipo(tv, req).empresaId == tv.empresaId
    ensures PatchTipo(tv, UpdateTipoRequest(None, Undefined, Undefined, Undefined)) == tv
    ensures PatchTipo(PatchTipo(tv, req), req) == PatchTipo(tv, req)
  {
  }

  /** updateTipoVeiculo: 404 for an unknown id, 500 when the update writes a `null` flag,
      otherwise the patched type. */
  method UpdateTipoVeiculo(db: Db, id: Id, req: UpdateTipoRequest) returns (r: Result<Id>)
    requires db.Valid()
    modifies db`tiposVeiculo
    ensures db.Valid()
    ensures r == Err(NotFound) <==> id !in old(db.tiposVeiculo)
    ensures id in old(db.tiposVeiculo) && req.ativo.Null? ==> r == Err(ServerError)
    ensures r.Ok? <==> id in old(db.tiposVeiculo) && !req.ativo.Null?
    ensures r.Err? ==> db.tiposVeiculo == old(db.tiposVeiculo)
    ensures r.Ok? ==> r.value == id && db.tiposVeiculo == old(db.tiposVeiculo)[id := PatchTipo(old(db.tiposVeiculo)[id], req)]
  {
    if id !in db.tiposVeiculo {
      return Err(NotFound);
    }
    if req.ativo.Null? {
      return Err(ServerError);
    }
    var tv := PatchTipo(db.tiposVeiculo[id], req);
    ghost var t := db.Snapshot();
    ValidAfterTipoWrite(t, id, tv);
    db.tiposVeiculo := db.tiposVeiculo[id := tv];
    assert db.Snapshot() == t.(tiposVeiculo := t.tiposVeiculo[id := tv]);
    r := Ok(id);
  }

  /** deleteTipoVeiculo: 400 while some service uses the type. There is no existence
      check: deleting an unknown id makes the ORM throw, which the handler turns into 500. */
  method DeleteTipoVeiculo(db: Db, id: Id) returns (r: Result<Id>)
    requires db.Valid()
    modifies db`tiposVeiculo
    ensures db.Valid()
    ensures TypeInUse(db.servicos, id) ==> r == Err(BadRequest)
    ensures !TypeInUse(db.servicos, id) && id !in old(db.tiposVeiculo) ==> r == Err(ServerError)
    ensures r.Ok? <==> !TypeInUse(db.servicos, id) && id in old(db.tiposVeiculo)
    ensures r.Err? ==> db.tiposVeiculo == old(db.tiposVeiculo)
    ensures r.Ok? ==> r.value == id && db.tiposVeiculo == old(db.tiposVeiculo) - {id}
  {
    if TypeInUse(db.servicos, id) {
      return Err(BadRequest);
    }
    if id !in db.tiposVeiculo {
      return Err(ServerError);
    }
    ghost var t := db.Snapshot();
    ValidAfterTipoRemove(t, id);
    db.tiposVeiculo := db.tiposVeiculo - {id};
    assert db.Snapshot() == t.(tiposVeiculo := t.tiposVeiculo - {id});
    r := Ok(id);
  }

  /** getSubtiposByTipo: the company's types whose categoria is the one asked for. */
  function SubtiposOf(tipos: map<Id, TipoVeiculo>, empresaId: Id, categoria: string): set<Id> {
    set k | k in tipos && tipos[k].empresaId == empresaId && tipos[k].categoria == Some(categoria)
  }

  /** Creating a type adds it to its category's lookup and changes no other lookup. */
  lemma SubtiposAfterInsert(tipos: map<Id, TipoVeiculo>, k: Id, tv: TipoVeiculo, empresaId: Id, categoria: string)
    requires k !in tipos
    ensures SubtiposOf(tipos[k := tv], empresaId, categoria) ==
      SubtiposOf(tipos, empresaId, categoria) + (if tv.empresaId == empresaId && tv.categoria == Some(categoria) then {k} else {})
  {
  }
}
