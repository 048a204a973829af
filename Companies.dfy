/**
 * Companies (backend/src/controllers/empresaController.ts): a company needs a name and a
 * signed-in owner, one owner cannot have two companies of the same name, a new company
 * starts with a fixed configuration, fixed notification preferences and the seven
 * standard vehicle types, an update changes only the fields supplied, and the status
 * toggle flips the active flag.
 */
module Companies {
  import opened Common
  import opened Store
  import opened Notifications
  import opened VehicleTypes

  /** The `config` a new company gets: Brazilian reals in the São Paulo time zone. */
  const DefaultConfig: Json := JObject(map["moeda" := JString("BRL"), "timezone" := JString("America/Sao_Paulo")])

  /** The `notificationPreferences` a new company gets. */
  const DefaultPreferences: Json := JObject(map[
    "ordemCriada" := JBool(true), "ordemEditada" := JBool(true),
    "ordemDeletada" := JBool(false), "finalizacaoAutomatica" := JBool(true)])

  /** A new company is notified of every kind of event except deleted orders. */
  lemma DefaultPreferencesGate(t: NotificationType)
    ensures IsEnabled(DefaultPreferences, t) <==> t != OrdemDeletada
  {
    assert PrefsMap(DefaultPreferences) == DefaultPreferences.fields;
  }

  /** The seven standard vehicle types: three main types without a category, then four
      subtypes of CARRO. */
  function StandardTipos(empresaId: Id): seq<TipoVeiculo> {
    [TipoVeiculo(empresaId, "CARRO", None, Some("Veículos de passeio em geral"), true),
     TipoVeiculo(empresaId, "MOTO", None, Some("Motocicletas de todos os tipos"), true),
     TipoVeiculo(empresaId, "OUTROS", None, Some("Serviços avulsos e personalizados"), true),
     TipoVeiculo(empresaId, "CARRO", Some("HATCH"), Some("Carros com traseira curta"), true),
     TipoVeiculo(empresaId, "CARRO", Some("SEDAN"), Some("Carros com porta-malas saliente"), true),
     TipoVeiculo(empresaId, "CARRO", Some("SUV"), Some("Utilitários esportivos"), true),
     TipoVeiculo(empresaId, "CARRO", Some("PICKUP"), Some("Picapes e utilitários com caçamba"), true)]
  }

  /** The standard types belong to the company and are active; the main types are CARRO,
      MOTO and OUTROS, and every subtype is a CARRO with its own category. */
  lemma StandardTiposShape(empresaId: Id)
    ensures var ts := StandardTipos(empresaId);
      && |ts| == 7
      && (forall i :: 0 <= i < 7 ==> ts[i].empresaId == empresaId && ts[i].ativo)
      && (forall i :: 0 <= i < 7 ==> (ts[i].categoria.None? <==> i < 3))
      && [ts[0].nome, ts[1].nome, ts[2].nome] == ["CARRO", "MOTO", "OUTROS"]
      && (forall i :: 3 <= i < 7 ==> ts[i].nome == "CARRO")
      && (forall i, j :: 3 <= i < j < 7 ==> ts[i].categoria != ts[j].categoria)
  {
  }

  /** Columns the create call does not set; their defaults live in the database schema,
      which is not part of this model. */
  datatype ColumnDefaults = ColumnDefaults(
    ativo: bool, horarioAbertura: Option<string>, horarioFechamento: Option<string>,
    finalizacaoAutomatica: bool, exigirLavadorParaFinalizar: bool, paginaInicialPadrao: Option<string>)

  function NewEmpresa(nome: string, usuarioId: Id, d: ColumnDefaults): Empresa {
    Empresa(nome, usuarioId, d.ativo, DefaultConfig, d.horarioAbertura, d.horarioFechamento,
            d.finalizacaoAutomatica, d.exigirLavadorParaFinalizar, d.paginaInicialPadrao, DefaultPreferences)
  }

  /** `findFirst({ where: { nome, usuarioId } })` finds a company. */
  predicate NameTaken(empresas: map<Id, Empresa>, nome: string, usuarioId: Id) {
    exists k :: k in empresas && empresas[k].nome == nome && empresas[k].usuarioId == usuarioId
  }

  /** createEmpresa: 400 without a name, 401 without a signed-in user, 400 when the user
      already has a company of that name; otherwise the new company and its seven standard
      vehicle types, under fresh ids returned in order. */
  method CreateEmpresa(db: Db, nome: Option<string>, usuarioId: Option<Id>, defaults: ColumnDefaults)
    returns (r: Result<(Id, seq<Id>)>)
    requires db.Valid()
    modifies db`empresas, db`tiposVeiculo
    ensures db.Valid()
    ensures !Truthy(nome) ==> r == Err(BadRequest)
    ensures Truthy(nome) && usuarioId.None? ==> r == Err(Unauthorized)
    ensures Truthy(nome) && usuarioId.Some? && NameTaken(old(db.empresas), nome.value, usuarioId.value) ==> r == Err(BadRequest)
    ensures r.Ok? <==> Truthy(nome) && usuarioId.Some? && !NameTaken(old(db.empresas), nome.value, usuarioId.value)
    ensures r.Err? ==> db.empresas == old(db.empresas) && db.tiposVeiculo == old(db.tiposVeiculo)
    ensures r.Ok? ==>
      var (e, tipos) := r.value;
      && e !in old(db.empresas)
      && db.empresas == old(db.empresas)[e := NewEmpresa(nome.value, usuarioId.value, defaults)]
      && |tipos| == 7
      && (forall i :: 0 <= i < 7 ==> tipos[i] !in old(db.tiposVeiculo) && tipos[i] in db.tiposVeiculo && db.tiposVeiculo[tipos[i]] == StandardTipos(e)[i])
      && (forall i, j :: 0 <= i < j < 7 ==> tipos[i] != tipos[j])
      && db.tiposVeiculo.Keys == old(db.tiposVeiculo).Keys + (set k | k in tipos)
      && (forall k :: k in old(db.tiposVeiculo) ==> db.tiposVeiculo[k] == old(db.tiposVeiculo)[k])
    ensures r.Ok? && TiposOwnedByKnownCompanies(old(db.tiposVeiculo), old(db.empresas)) ==>
      SeededLookups(db.tiposVeiculo, r.value.0, r.value.1)
  {
    if !Truthy(nome) {
      return Err(BadRequest);
    }
    if usuarioId.None? {
      return Err(Unauthorized);
    }
    if NameTaken(db.empresas, nome.value, usuarioId.value) {
      return Err(BadRequest);
    }
    var e := FreshKey(db.empresas);
    db.empresas := db.empresas[e := NewEmpresa(nome.value, usuarioId.value, defaults)];
    ghost var before := db.tiposVeiculo;
    ghost var owned := TiposOwnedByKnownCompanies(before, old(db.empresas));
    var tipos, keys := InsertAll(db.tiposVeiculo, StandardTipos(e));
    if owned {
      forall i | 0 <= i < 4
        ensures SubtiposOf(tipos, e, SubtipoCategorias[i]) == {keys[i + 3]}
      {
        SeededSubtipos(before, tipos, e, keys, i + 3);
      }
    }
    ghost var t := db.Snapshot();
    ValidAfterTiposGrow(t, tipos);
    db.tiposVeiculo := tipos;
    assert db.Snapshot() == t.(tiposVeiculo := tipos);
    r := Ok((e, keys));
  }

  /** Every vehicle type names a company that exists. The source's database enforces this
      with a foreign key; the store invariant of this model does not carry it. */
  ghost predicate TiposOwnedByKnownCompanies(tipos: map<Id, TipoVeiculo>, empresas: map<Id, Empresa>) {
    forall k :: k in tipos ==> tipos[k].empresaId in empresas
  }

  /** The categories of the four seeded subtypes, in seeding order. */
  const SubtipoCategorias: seq<string> := ["HATCH", "SEDAN", "SUV", "PICKUP"]

  /** Each seeded category's subtype lookup in company `e` is exactly its seeded type. */
  ghost predicate SeededLookups(tipos: map<Id, TipoVeiculo>, e: Id, keys: seq<Id>) {
    |keys| == 7 && forall i :: 0 <= i < 4 ==> SubtiposOf(tipos, e, SubtipoCategorias[i]) == {keys[i + 3]}
  }

  /** A created company's vehicle-type lookup: CARRO's four subtypes each answer for their
      own category, and the new company has nothing else under them. */
  lemma SeededSubtipos(before: map<Id, TipoVeiculo>, after: map<Id, TipoVeiculo>, e: Id, tipos: seq<Id>, i: nat)
    requires |tipos| == 7 && 3 <= i < 7
    requires forall j :: 0 <= j < 7 ==> tipos[j] !in before && tipos[j] in after && after[tipos[j]] == StandardTipos(e)[j]
    requires after.Keys == before.Keys + (set k | k in tipos)
    requires forall k :: k in before ==> after[k] == before[k]
    requires forall k :: k in before ==> before[k].empresaId != e
    ensures SubtiposOf(after, e, StandardTipos(e)[i].categoria.value) == {tipos[i]}
    ensures SubtiposOf(after, e, SubtipoCategorias[i - 3]) == {tipos[i]}
  {
    var c := StandardTipos(e)[i].categoria.value;
    assert c == SubtipoCategorias[i - 3];
    forall k | k in SubtiposOf(after, e, c) ensures k == tipos[i] {
      var j :| 0 <= j < 7 && tipos[j] == k;
      assert StandardTipos(e)[j].categoria == Some(c);
    }
  }

  datatype UpdateEmpresaRequest = UpdateEmpresaRequest(
    nome: Option<string>, config: Option<Json>, horarioAbertura: Option<string>, horarioFechamento: Option<string>,
    finalizacaoAutomatica: Input<bool>, exigirLavadorParaFinalizar: Input<bool>,
    paginaInicialPadrao: Option<string>, notificationPreferences: Option<Json>)

  /** A JSON body field that JavaScript would treat as truthy. */
  predicate TruthyJson(j: Option<Json>) {
    j.Some? && j.value.Truthy()
  }

  /** The update's `data`: text and JSON fields only when truthy, the two flags whenever
      they are present, even when `false`. */
  function PatchEmpresa(em: Empresa, req: UpdateEmpresaRequest): Empresa {
    em.(nome := if Truthy(req.nome) then req.nome.value else em.nome,
        config := if TruthyJson(req.config) then req.config.value else em.config,
        horarioAbertura := if Truthy(req.horarioAbertura) then req.horarioAbertura else em.horarioAbertura,
        horarioFechamento := if Truthy(req.horarioFechamento) then req.horarioFechamento else em.horarioFechamento,
        finalizacaoAutomatica := if req.finalizacaoAutomatica.Value? then req.finalizacaoAutomatica.value else em.finalizacaoAutomatica,
        exigirLavadorParaFinalizar := if req.exigirLavadorParaFinalizar.Value? then req.exigirLavadorParaFinalizar.value else em.exigirLavadorParaFinalizar,
        paginaInicialPadrao := if Truthy(req.paginaInicialPadrao) then req.paginaInicialPadrao else em.paginaInicialPadrao,
        notificationPreferences := if TruthyJson(req.notificationPreferences) then req.notificationPreferences.value else em.notificationPreferences)
  }

  /** Owner and status are never touched, an opening hour cannot be cleared (an empty
      string is ignored) while a flag can be switched off, a request with nothing in it
      changes nothing, and applying a patch twice is the same as once. */
  lemma PatchEmpresaProperties(em: Empresa, req: UpdateEmpresaRequest)
    ensures PatchEmpresa(em, req).usuarioId == em.usuarioId && PatchEmpresa(em, req).ativo == em.ativo
    ensures req.horarioAbertura == Some("") ==> PatchEmpresa(em, req).horarioAbertura == em.horarioAbertura
    ensures req.finalizacaoAutomatica == Value(false) ==> !PatchEmpresa(em, req).finalizacaoAutomatica
    ensures req.notificationPreferences == Some(JNull) ==> PatchEmpresa(em, req).notificationPreferences == em.notificationPreferences
    ensures PatchEmpresa(em, UpdateEmpresaRequest(None, None, None, None, Undefined, Undefined, None, None)) == em
    ensures PatchEmpresa(PatchEmpresa(em, req), req) == PatchEmpresa(em, req)
  {
  }

  /** The update writes `null` into one of the two flags: each is copied whenever it is
      not `undefined`, and the required columns refuse `null`. */
  predicate WritesNullFlag(req: UpdateEmpresaRequest) {
    req.finalizacaoAutomatica.Null? || req.exigirLavadorParaFinalizar.Null?
  }

  /** updateEmpresa: 404 for an unknown id (any company, whoever owns it), 500 when a flag
      is `null`, otherwise the patched company. */
  method UpdateEmpresa(db: Db, id: Id, req: UpdateEmpresaRequest) returns (r: Result<Id>)
    modifies db`empresas
    ensures r == Err(NotFound) <==> id !in old(db.empresas)
    ensures id in old(db.empresas) && WritesNullFlag(req) ==> r == Err(ServerError)
    ensures r.Ok? <==> id in old(db.empresas) && !WritesNullFlag(req)
    ensures r.Err? ==> db.empresas == old(db.empresas)
    ensures r.Ok? ==> r.value == id && db.empresas == old(db.empresas)[id := PatchEmpresa(old(db.empresas)[id], req)]
  {
    if id !in db.empresas {
      return Err(NotFound);
    }
    if WritesNullFlag(req) {
      return Err(ServerError);
    }
    db.empresas := db.empresas[id := PatchEmpresa(db.empresas[id], req)];
    r := Ok(id);
  }

  /** toggleEmpresaStatus: 404 for an unknown id, otherwise the flag is inverted and the
      new value returned. */
  method ToggleEmpresaStatus(db: Db, id: Id) returns (r: Result<bool>)
    modifies db`empresas
    ensures r.Err? <==> id !in old(db.empresas)
    ensures r.Err? ==> r.failure == NotFound && db.empresas == old(db.empresas)
    ensures r.Ok? ==>
      && r.value == !old(db.empresas)[id].ativo
      && db.empresas == old(db.empresas)[id := old(db.empresas)[id].(ativo := r.value)]
  {
    if id !in db.empresas {
      return Err(NotFound);
    }
    var em := db.empresas[id];
    db.empresas := db.empresas[id := em.(ativo := !em.ativo)];
    r := Ok(!em.ativo);
  }
}
