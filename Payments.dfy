/**
 * Payment reconciliation (backend/src/controllers/pagamentoController.ts and
 * its compiled twin backend/dist/controllers/pagamentoController.js, whose
 * payment rules are the same). Every payment mutation is followed by
 * `verificarStatusPagamentoOrdem`, which sets the order's `pago` flag to
 * "the PAGO payments cover the order total".
 */
module Payments {
  import opened Common
  import opened Store

  function MetodoName(m: Metodo): string {
    match m
    case Dinheiro => "DINHEIRO"
    case Pix => "PIX"
    case Cartao => "CARTAO"
    case MetodoPendente => "PENDENTE"
  }

  /** The whitelist DINHEIRO, PIX, CARTAO, PENDENTE. */
  function ParseMetodo(s: string): (r: Option<Metodo>)
    ensures r.Some? ==> MetodoName(r.value) == s
    ensures r.None? ==> s !in {"DINHEIRO", "PIX", "CARTAO", "PENDENTE"}
  {
    if s == "DINHEIRO" then Some(Dinheiro)
    else if s == "PIX" then Some(Pix)
    else if s == "CARTAO" then Some(Cartao)
    else if s == "PENDENTE" then Some(MetodoPendente)
    else None
  }

  lemma ParseMetodoName(m: Metodo)
    ensures ParseMetodo(MetodoName(m)) == Some(m)
  {
  }

  function StatusPagamentoName(s: StatusPagamento): string {
    match s
    case PagamentoPendente => "PENDENTE"
    case Pago => "PAGO"
    case PagamentoCancelado => "CANCELADO"
  }

  /** The whitelist PENDENTE, PAGO, CANCELADO of a status update. */
  function ParseStatusPagamento(s: string): (r: Option<StatusPagamento>)
    ensures r.Some? ==> StatusPagamentoName(r.value) == s
    ensures r.None? ==> s !in {"PENDENTE", "PAGO", "CANCELADO"}
  {
    if s == "PENDENTE" then Some(PagamentoPendente)
    else if s == "PAGO" then Some(Pago)
    else if s == "CANCELADO" then Some(PagamentoCancelado)
    else None
  }

  /** A new payment is PENDENTE exactly when its method is PENDENTE, PAGO otherwise. */
  function StatusForMetodo(m: Metodo): (s: StatusPagamento)
    ensures s == PagamentoPendente <==> m == MetodoPendente
    ensures s != PagamentoCancelado
  {
    if m == MetodoPendente then PagamentoPendente else Pago
  }

  /** `pagoEm` is stamped exactly for payments in state PAGO. */
  function PagoEmFor(s: StatusPagamento, now: int): (t: Option<int>)
    ensures t.Some? <==> s == Pago
    ensures t.Some? ==> t.value == now
  {
    if s == Pago then Some(now) else None
  }

  /** The PAGO payments of an order. */
  function PaidIds(pags: map<Id, Pagamento>, ordemId: Id): (ks: set<Id>)
    ensures ks <= pags.Keys
    ensures forall k :: k in ks <==> k in pags && pags[k].ordemId == ordemId && pags[k].status == Pago
  {
    set k | k in pags && pags[k].ordemId == ordemId && pags[k].status == Pago
  }

  /** The sum of `valor` over some of the payments. */
  ghost function SumValor(pags: map<Id, Pagamento>, ks: set<Id>): real
    requires ks <= pags.Keys
    decreases ks
  {
    if ks == {} then 0.0 else var k :| k in ks; pags[k].valor + SumValor(pags, ks - {k})
  }

  /** The sum does not depend on which payment is taken out first. */
  lemma {:induction false} SumValorPick(pags: map<Id, Pagamento>, ks: set<Id>, k: Id)
    requires ks <= pags.Keys && k in ks
    ensures SumValor(pags, ks) == pags[k].valor + SumValor(pags, ks - {k})
    decreases ks
  {
    var j :| j in ks && SumValor(pags, ks) == pags[j].valor + SumValor(pags, ks - {j});
    if j != k {
      SumValorPick(pags, ks - {j}, k);
      SumValorPick(pags, ks - {k}, j);
      assert ks - {j} - {k} == ks - {k} - {j};
    }
  }

  /** The sum reads only the amounts of the payments it adds up. */
  lemma {:induction false} SumValorFrame(p1: map<Id, Pagamento>, p2: map<Id, Pagamento>, ks: set<Id>)
    requires ks <= p1.Keys && ks <= p2.Keys
    requires forall k :: k in ks ==> p1[k].valor == p2[k].valor
    ensures SumValor(p1, ks) == SumValor(p2, ks)
    decreases ks
  {
    if ks != {} {
      var k :| k in ks;
      SumValorPick(p1, ks, k);
      SumValorPick(p2, ks, k);
      SumValorFrame(p1, p2, ks - {k});
    }
  }

  /** Total received for an order: the sum over its PAGO payments. */
  ghost function TotalPago(pags: map<Id, Pagamento>, ordemId: Id): real {
    SumValor(pags, PaidIds(pags, ordemId))
  }

  /** The paid rule: `pago` holds exactly when the PAGO payments reach the order total. */
  ghost predicate PagoConsistent(ordens: map<Id, Ordem>, pags: map<Id, Pagamento>, ordemId: Id) {
    ordemId in ordens ==> ordens[ordemId].pago == (TotalPago(pags, ordemId) >= ordens[ordemId].valorTotal)
  }

  /** The orders after recomputing the `pago` flag of one order from the payments. */
  ghost function WithPago(ordens: map<Id, Ordem>, pags: map<Id, Pagamento>, ordemId: Id): (m: map<Id, Ordem>)
    ensures m.Keys == ordens.Keys && PagoConsistent(m, pags, ordemId)
    ensures forall k :: k in ordens && k != ordemId ==> m[k] == ordens[k]
  {
    if ordemId in ordens
    then ordens[ordemId := ordens[ordemId].(pago := TotalPago(pags, ordemId) >= ordens[ordemId].valorTotal)]
    else ordens
  }

  /** Storing a payment adds its amount to its order's total exactly when it is PAGO. */
  lemma TotalPagoAfterInsert(pags: map<Id, Pagamento>, k: Id, p: Pagamento, ordemId: Id)
    requires k !in pags
    ensures TotalPago(pags[k := p], ordemId) ==
      TotalPago(pags, ordemId) + (if p.ordemId == ordemId && p.status == Pago then p.valor else 0.0)
  {
    var after := pags[k := p];
    var before := PaidIds(pags, ordemId);
    SumValorFrame(pags, after, before);
    if p.ordemId == ordemId && p.status == Pago {
      assert PaidIds(after, ordemId) == before + {k};
      SumValorPick(after, before + {k}, k);
      assert before + {k} - {k} == before;
    } else {
      assert PaidIds(after, ordemId) == before;
    }
  }

  /** Removing a payment takes its amount off its order's total exactly when it was PAGO. */
  lemma TotalPagoAfterRemove(pags: map<Id, Pagamento>, k: Id, ordemId: Id)
    requires k in pags
    ensures TotalPago(pags, ordemId) ==
      TotalPago(pags - {k}, ordemId) + (if pags[k].ordemId == ordemId && pags[k].status == Pago then pags[k].valor else 0.0)
  {
    var rest := pags - {k};
    assert pags == rest[k := pags[k]];
    TotalPagoAfterInsert(rest, k, pags[k], ordemId);
  }

  /** The `reduce` of verificarStatusPagamentoOrdem: add up the order's PAGO payments. */
  method SumPago(pags: map<Id, Pagamento>, ordemId: Id) returns (total: real)
    ensures total == TotalPago(pags, ordemId)
  {
    var rest := PaidIds(pags, ordemId);
    total := 0.0;
    while rest != {}
      invariant rest <= PaidIds(pags, ordemId)
      invariant total + SumValor(pags, rest) == TotalPago(pags, ordemId)
      decreases rest
    {
      var k :| k in rest;
      SumValorPick(pags, rest, k);
      total := total + pags[k].valor;
      rest := rest - {k};
    }
  }

  /** verificarStatusPagamentoOrdem: recompute `pago` of one order; nothing else changes. */
  method VerificarStatusPagamentoOrdem(db: Db, ordemId: Id)
    requires db.Valid()
    modifies db`ordens
    ensures db.Valid()
    ensures db.ordens == WithPago(old(db.ordens), db.pagamentos, ordemId)
  {
    if ordemId !in db.ordens {
      return;
    }
    var totalPago := SumPago(db.pagamentos, ordemId);
    var ordem := db.ordens[ordemId];
    var updated := ordem.(pago := totalPago >= ordem.valorTotal);
    ghost var t := db.Snapshot();
    ValidAfterOrdemWrite(t, ordemId, updated);
    db.ordens := db.ordens[ordemId := updated];
    assert db.Snapshot() == t.(ordens := t.ordens[ordemId := updated]);
  }

  /** The body of POST /payments. */
  datatype CreatePagamentoRequest = CreatePagamentoRequest(
    ordemId: Option<Id>, metodo: Option<string>, valor: Option<real>, observacoes: Option<string>)

  /** `!ordemId || !metodo || !valor`: a missing field, an empty method or a zero amount. */
  predicate RequiredFieldsPresent(req: CreatePagamentoRequest) {
    req.ordemId.Some? && Truthy(req.metodo) && req.valor.Some? && req.valor.value != 0.0
  }

  predicate OrdemInTenant(ordens: map<Id, Ordem>, empresaId: Id, ordemId: Id) {
    ordemId in ordens && ordens[ordemId].empresaId == empresaId
  }

  /** createPagamento: 400 for a missing field, 404 for an order outside the tenant,
      400 for an unknown method or a non-positive amount; otherwise one new payment whose
      status follows the method, and the order's `pago` flag recomputed. */
  method CreatePagamento(db: Db, empresaId: Id, req: CreatePagamentoRequest, now: int)
    returns (r: Result<Id>)
    requires db.Valid()
    modifies db`pagamentos, db`ordens
    ensures db.Valid()
    ensures !RequiredFieldsPresent(req) ==> r == Err(BadRequest)
    ensures RequiredFieldsPresent(req) && !OrdemInTenant(old(db.ordens), empresaId, req.ordemId.value) ==>
      r == Err(NotFound)
    ensures RequiredFieldsPresent(req) && OrdemInTenant(old(db.ordens), empresaId, req.ordemId.value) ==>
      (r.Ok? <==> ParseMetodo(req.metodo.value).Some? && req.valor.value > 0.0)
    ensures r.Err? ==> r.failure in {BadRequest, NotFound}
    ensures r.Err? ==> db.pagamentos == old(db.pagamentos) && db.ordens == old(db.ordens)
    ensures r.Ok? ==>
      var m := ParseMetodo(req.metodo.value).value;
      var status := StatusForMetodo(m);
      && r.value !in old(db.pagamentos)
      && db.pagamentos == old(db.pagamentos)[r.value :=
           Pagamento(req.ordemId.value, empresaId, m, req.valor.value, req.observacoes, status, PagoEmFor(status, now))]
      && db.ordens == WithPago(old(db.ordens), db.pagamentos, req.ordemId.value)
  {
    if !RequiredFieldsPresent(req) {
      return Err(BadRequest);
    }
    var ordemId := req.ordemId.value;
    if !OrdemInTenant(db.ordens, empresaId, ordemId) {
      return Err(NotFound);
    }
    var metodo := ParseMetodo(req.metodo.value);
    if metodo.None? {
      return Err(BadRequest);
    }
    var valor := req.valor.value;
    if valor <= 0.0 {
      return Err(BadRequest);
    }
    var status := StatusForMetodo(metodo.value);
    var k := FreshKey(db.pagamentos);
    var pagamento := Pagamento(ordemId, empresaId, metodo.value, valor, req.observacoes, status, PagoEmFor(status, now));
    ghost var t := db.Snapshot();
    ValidAfterPagamentoWrite(t, k, pagamento);
    db.pagamentos := db.pagamentos[k := pagamento];
    assert db.Snapshot() == t.(pagamentos := t.pagamentos[k := pagamento]);
    VerificarStatusPagamentoOrdem(db, ordemId);
    r := Ok(k);
  }

  /** updatePagamentoStatus: 404 for a payment outside the tenant, 400 for a status
      outside the whitelist; otherwise the new status, `pagoEm` set exactly when it is
      PAGO, and the order's `pago` flag recomputed. */
  method UpdatePagamentoStatus(db: Db, empresaId: Id, id: Id, status: Option<string>, now: int)
    returns (r: Result<Id>)
    requires db.Valid()
    modifies db`pagamentos, db`ordens
    ensures db.Valid()
    ensures !(id in old(db.pagamentos) && old(db.pagamentos[id]).empresaId == empresaId) ==> r == Err(NotFound)
    ensures id in old(db.pagamentos) && old(db.pagamentos[id]).empresaId == empresaId ==>
      (r.Ok? <==> status.Some? && ParseStatusPagamento(status.value).Some?)
    ensures r.Err? ==> r.failure in {BadRequest, NotFound}
    ensures r.Err? ==> db.pagamentos == old(db.pagamentos) && db.ordens == old(db.ordens)
    ensures r.Ok? ==>
      var s := ParseStatusPagamento(status.value).value;
      var ordemId := old(db.pagamentos[id]).ordemId;
      && r.value == id
      && db.pagamentos == old(db.pagamentos)[id := old(db.pagamentos[id]).(status := s, pagoEm := PagoEmFor(s, now))]
      && db.ordens == WithPago(old(db.ordens), db.pagamentos, ordemId)
  {
    if !(id in db.pagamentos && db.pagamentos[id].empresaId == empresaId) {
      return Err(NotFound);
    }
    if status.None? || ParseStatusPagamento(status.value).None? {
      return Err(BadRequest);
    }
    var s := ParseStatusPagamento(status.value).value;
    var pagamento := db.pagamentos[id];
    var updated := pagamento.(status := s, pagoEm := PagoEmFor(s, now));
    ghost var t := db.Snapshot();
    ValidAfterPagamentoWrite(t, id, updated);
    db.pagamentos := db.pagamentos[id := updated];
    assert db.Snapshot() == t.(pagamentos := t.pagamentos[id := updated]);
    VerificarStatusPagamentoOrdem(db, pagamento.ordemId);
    r := Ok(id);
  }

  /** deletePagamento: 404 for a payment outside the tenant; otherwise the payment is
      removed and the order's `pago` flag recomputed without it. */
  method DeletePagamento(db: Db, empresaId: Id, id: Id)
    returns (r: Result<Id>)
    requires db.Valid()
    modifies db`pagamentos, db`ordens
    ensures db.Valid()
    ensures r.Err? <==> !(id in old(db.pagamentos) && old(db.pagamentos[id]).empresaId == empresaId)
    ensures r.Err? ==> r.failure == NotFound && db.pagamentos == old(db.pagamentos) && db.ordens == old(db.ordens)
    ensures r.Ok? ==>
      var ordemId := old(db.pagamentos[id]).ordemId;
      && r.value == id
      && db.pagamentos == old(db.pagamentos) - {id}
      && db.ordens == WithPago(old(db.ordens), db.pagamentos, ordemId)
  {
    if !(id in db.pagamentos && db.pagamentos[id].empresaId == empresaId) {
      return Err(NotFound);
    }
    var ordemId := db.pagamentos[id].ordemId;
    ghost var t := db.Snapshot();
    ValidAfterPagamentoRemove(t, id);
    db.pagamentos := db.pagamentos - {id};
    assert db.Snapshot() == t.(pagamentos := t.pagamentos - {id});
    VerificarStatusPagamentoOrdem(db, ordemId);
    r := Ok(id);
  }
}
