/**
 * Services and add-ons of the compiled variant (backend/dist/controllers/servicoController.js):
 * prices are rows per vehicle category instead of one flat price. Creation needs a name
 * and at least one row; an update replaces the rows wholesale, and only when it brings
 * a non-empty list. A row must name an existing category. Deletion has the same guard
 * as Services.DeleteServico and Services.DeleteAdicional.
 */
module LegacyServices {
  import opened Common
  import opened Store
  import opened Services

  /** `!nome || !precos || !Array.isArray(precos) || precos.length === 0` fails. */
  predicate CreationAccepted(nome: Option<string>, precos: Option<seq<PriceRow>>) {
    Truthy(nome) && precos.Some? && |precos.value| > 0
  }

  /** Every row names an existing category: `categoriaId` is a foreign key, and a row
      with an unknown one makes `createMany` throw, which rolls the transaction back and
      answers 500. */
  predicate RowsInCategorias(rows: seq<PriceRow>, categorias: map<Id, Categoria>) {
    forall i :: 0 <= i < |rows| ==> rows[i].categoriaId in categorias
  }

  /** The rows an update writes name existing categories (an empty or missing list writes none). */
  predicate NewRowsInCategorias(precos: Option<seq<PriceRow>>, categorias: map<Id, Categoria>) {
    precos.Some? && |precos.value| > 0 ==> RowsInCategorias(precos.value, categorias)
  }

  /** `precos && Array.isArray(precos) && precos.length > 0`: the rows to store instead of the old ones. */
  function ReplacedRows(current: seq<PriceRow>, precos: Option<seq<PriceRow>>): (rows: seq<PriceRow>)
    ensures precos.Some? && |precos.value| > 0 ==> rows == precos.value
    ensures precos.None? || |precos.value| == 0 ==> rows == current
  {
    if precos.Some? && |precos.value| > 0 then precos.value else current
  }

  datatype NewServicoComPrecos = NewServicoComPrecos(
    nome: Option<string>, descricao: Option<string>, duracao: Option<int>, precos: Option<seq<PriceRow>>)

  /** createServico: 400 unless a name and a non-empty price list are given, 500 when a
      row names an unknown category; otherwise a new active service with one price row per
      entry, in order. The flat price and vehicle type of the newer schema do not exist
      here and are left at 0 and none. */
  method CreateServicoComPrecos(db: Db, empresaId: Id, req: NewServicoComPrecos) returns (r: Result<Id>)
    requires db.Valid()
    modifies db`servicos
    ensures db.Valid()
    ensures !CreationAccepted(req.nome, req.precos) ==> r == Err(BadRequest)
    ensures r.Ok? <==> CreationAccepted(req.nome, req.precos) && RowsInCategorias(req.precos.value, db.categorias)
    ensures r.Err? ==> r.failure in {BadRequest, ServerError} && db.servicos == old(db.servicos)
    ensures r.Ok? ==>
      && r.value !in old(db.servicos)
      && db.servicos == old(db.servicos)[r.value :=
           Servico(empresaId, req.nome.value, req.descricao, req.duracao, 0.0, None, true, req.precos.value)]
      && |db.servicos[r.value].precos| == |req.precos.value| > 0
  {
    if !CreationAccepted(req.nome, req.precos) {
      return Err(BadRequest);
    }
    if !RowsInCategorias(req.precos.value, db.categorias) {
      return Err(ServerError);
    }
    var s := Servico(empresaId, req.nome.value, req.descricao, req.duracao, 0.0, None, true, req.precos.value);
    var k := FreshKey(db.servicos);
    ghost var t := db.Snapshot();
    ValidAfterServicoWrite(t, k, s);
    db.servicos := db.servicos[k := s];
    assert db.Snapshot() == t.(servicos := t.servicos[k := s]);
    r := Ok(k);
  }

  datatype NewAdicionalComPrecos = NewAdicionalComPrecos(nome: Option<string>, descricao: Option<string>, precos: Option<seq<PriceRow>>)

  /** createAdicional: the same rule for add-ons. */
  method CreateAdicionalComPrecos(db: Db, empresaId: Id, req: NewAdicionalComPrecos) returns (r: Result<Id>)
    requires db.Valid()
    modifies db`adicionais
    ensures db.Valid()
    ensures !CreationAccepted(req.nome, req.precos) ==> r == Err(BadRequest)
    ensures r.Ok? <==> CreationAccepted(req.nome, req.precos) && RowsInCategorias(req.precos.value, db.categorias)
    ensures r.Err? ==> r.failure in {BadRequest, ServerError} && db.adicionais == old(db.adicionais)
    ensures r.Ok? ==>
      && r.value !in old(db.adicionais)
      && db.adicionais == old(db.adicionais)[r.value := Adicional(empresaId, req.nome.value, req.descricao, 0.0, true, req.precos.value)]
  {
    if !CreationAccepted(req.nome, req.precos) {
      return Err(BadRequest);
    }
    if !RowsInCategorias(req.precos.value, db.categorias) {
      return Err(ServerError);
    }
    var a := Adicional(empresaId, req.nome.value, req.descricao, 0.0, true, req.precos.value);
    var k := FreshKey(db.adicionais);
    ghost var t := db.Snapshot();
    ValidAfterAdicionalWrite(t, k, a);
    db.adicionais := db.adicionais[k := a];
    assert db.Snapshot() == t.(adicionais := t.adicionais[k := a]);
    r := Ok(k);
  }

  datatype ServicoComPrecosPatch = ServicoComPrecosPatch(
    nome: Option<string>, descricao: Input<string>, duracao: Input<int>, ativo: Input<bool>, precos: Option<seq<PriceRow>>)

  /** The basic fields as in the newer variant, then the price rows. */
  function UpdatedServico(s: Servico, req: ServicoComPrecosPatch): Servico {
    s.(nome := if Truthy(req.nome) then req.nome.value else s.nome,
       descricao := Assigned(s.descricao, req.descricao),
       duracao := Assigned(s.duracao, req.duracao),
       ativo := if req.ativo.Value? then req.ativo.value else s.ativo,
       precos := ReplacedRows(s.precos, req.precos))
  }

  /** An empty or missing price list keeps every row; a non-empty one leaves exactly its
      rows, whatever was there before; company, flat price and type never change. */
  lemma UpdatedServicoRows(s: Servico, req: ServicoComPrecosPatch)
    ensures var u := UpdatedServico(s, req);
      && (req.precos.None? || |req.precos.value| == 0 ==> u.precos == s.precos)
      && (req.precos.Some? && |req.precos.value| > 0 ==> u.precos == req.precos.value)
      && u.empresaId == s.empresaId && u.preco == s.preco && u.tipoVeiculoId == s.tipoVeiculoId
    ensures UpdatedServico(UpdatedServico(s, req), req) == UpdatedServico(s, req)
  {
  }

  /** updateServico: 404 outside the tenant; 500 when the basic update writes a `null` flag
      (`null !== undefined`, and the required column refuses it) or a new row names an
      unknown category, either of which aborts the transaction; otherwise the basic fields
      and, with a non-empty list, the price rows are replaced. */
  method UpdateServicoComPrecos(db: Db, empresaId: Id, id: Id, req: ServicoComPrecosPatch) returns (r: Result<Id>)
    requires db.Valid()
    modifies db`servicos
    ensures db.Valid()
    ensures !ServicoInTenant(old(db.servicos), empresaId, id) ==> r == Err(NotFound)
    ensures ServicoInTenant(old(db.servicos), empresaId, id) && req.ativo.Null? ==> r == Err(ServerError)
    ensures r.Ok? <==>
      ServicoInTenant(old(db.servicos), empresaId, id) && !req.ativo.Null? && NewRowsInCategorias(req.precos, db.categorias)
    ensures r.Err? ==> r.failure in {NotFound, ServerError} && db.servicos == old(db.servicos)
    ensures r.Ok? ==> r.value == id && db.servicos == old(db.servicos)[id := UpdatedServico(old(db.servicos)[id], req)]
  {
    if !ServicoInTenant(db.servicos, empresaId, id) {
      return Err(NotFound);
    }
    if req.ativo.Null? || !NewRowsInCategorias(req.precos, db.categorias) {
      return Err(ServerError);
    }
    var s := UpdatedServico(db.servicos[id], req);
    ghost var t := db.Snapshot();
    ValidAfterServicoWrite(t, id, s);
    db.servicos := db.servicos[id := s];
    assert db.Snapshot() == t.(servicos := t.servicos[id := s]);
    r := Ok(id);
  }

  datatype AdicionalComPrecosPatch = AdicionalComPrecosPatch(
    nome: Option<string>, descricao: Input<string>, ativo: Input<bool>, precos: Option<seq<PriceRow>>)

  function UpdatedAdicional(a: Adicional, req: AdicionalComPrecosPatch): Adicional {
    a.(nome := if Truthy(req.nome) then req.nome.value else a.nome,
       descricao := Assigned(a.descricao, req.descricao),
       ativo := if req.ativo.Value? then req.ativo.value else a.ativo,
       precos := ReplacedRows(a.precos, req.precos))
  }

  /** updateAdicional: the same update for add-ons, with the same 404 and 500. */
  method UpdateAdicionalComPrecos(db: Db, empresaId: Id, id: Id, req: AdicionalComPrecosPatch) returns (r: Result<Id>)
    requires db.Valid()
    modifies db`adicionais
    ensures db.Valid()
    ensures !AdicionalInTenant(old(db.adicionais), empresaId, id) ==> r == Err(NotFound)
    ensures AdicionalInTenant(old(db.adicionais), empresaId, id) && req.ativo.Null? ==> r == Err(ServerError)
    ensures r.Ok? <==>
      AdicionalInTenant(old(db.adicionais), empresaId, id) && !req.ativo.Null? && NewRowsInCategorias(req.precos, db.categorias)
    ensures r.Err? ==> r.failure in {NotFound, ServerError} && db.adicionais == old(db.adicionais)
    ensures r.Ok? ==> r.value == id && db.adicionais == old(db.adicionais)[id := UpdatedAdicional(old(db.adicionais)[id], req)]
  {
    if !AdicionalInTenant(db.adicionais, empresaId, id) {
      return Err(NotFound);
    }
    if req.ativo.Null? || !NewRowsInCategorias(req.precos, db.categorias) {
      return Err(ServerError);
    }
    var a := UpdatedAdicional(db.adicionais[id], req);
    ghost var t := db.Snapshot();
    ValidAfterAdicionalWrite(t, id, a);
    db.adicionais := db.adicionais[id := a];
    assert db.Snapshot() == t.(adicionais := t.adicionais[id := a]);
    r := Ok(id);
  }
}
