/**
 * Washers (backend/dist/controllers/lavadorController.js): creation and update
 * validate the commission percentage, deletion is refused while orders point at the
 * washer, toggling flips `ativo`, and the detail page computes commission statistics.
 */
module Washers {
  import opened Common
  import opened Store

  predicate InTenant(lavadores: map<Id, Lavador>, empresaId: Id, id: Id) {
    id in lavadores && lavadores[id].empresaId == empresaId
  }

  /** A commission percentage between 0 and 100. */
  predicate CommissionInRange(c: real) {
    0.0 <= c <= 100.0
  }

  /** Some order, of any company, has the washer assigned (`_count.ordens > 0`). */
  predicate HasOrders(ordens: map<Id, Ordem>, id: Id) {
    exists k :: k in ordens && ordens[k].lavadorId == Some(id)
  }

  /** Writing a washer record never breaks a reference: it only adds or keeps keys. */
  lemma ValidAfterLavadorWrite(t: Tables, id: Id, l: Lavador)
    requires ValidTables(t)
    ensures ValidTables(t.(lavadores := t.lavadores[id := l]))
  {
    var t' := t.(lavadores := t.lavadores[id := l]);
    forall k | k in t'.ordens ensures OrdemResolves(t', t'.ordens[k]) {
      assert OrdemResolves(t, t.ordens[k]);
    }
  }

  /** Removing a washer that no order points at keeps the tables valid. */
  lemma ValidAfterLavadorRemove(t: Tables, id: Id)
    requires ValidTables(t) && !HasOrders(t.ordens, id)
    ensures ValidTables(t.(lavadores := t.lavadores - {id}))
  {
    var t' := t.(lavadores := t.lavadores - {id});
    forall k | k in t'.ordens ensures OrdemResolves(t', t'.ordens[k]) {
      assert OrdemResolves(t, t.ordens[k]);
      assert t.ordens[k].lavadorId != Some(id);
    }
  }

  /** The body of createLavador; the commission keeps JavaScript's difference between a
      missing field and `null`. */
  datatype CreateLavadorRequest = CreateLavadorRequest(nome: Option<string>, comissao: Input<real>)

  /** createLavador: 400 without a name or a commission, 400 for a commission outside
      [0, 100]; otherwise one new active washer of the company. A `null` commission passes
      both tests (`null === undefined`, `null < 0` and `null > 100` are all false) and
      reaches the insert, which the required number column refuses: a 500. */
  method CreateLavador(db: Db, empresaId: Id, req: CreateLavadorRequest) returns (r: Result<Id>)
    requires db.Valid()
    modifies db`lavadores
    ensures db.Valid()
    ensures !Truthy(req.nome) || req.comissao.Undefined? ==> r == Err(BadRequest)
    ensures (Truthy(req.nome) && req.comissao.Value? && !CommissionInRange(req.comissao.value)) ==> r == Err(BadRequest)
    ensures Truthy(req.nome) && req.comissao.Null? ==> r == Err(ServerError)
    ensures r.Ok? <==> Truthy(req.nome) && req.comissao.Value? && CommissionInRange(req.comissao.value)
    ensures r.Err? ==> db.lavadores == old(db.lavadores)
    ensures r.Ok? ==>
      && r.value !in old(db.lavadores)
      && db.lavadores == old(db.lavadores)[r.value := Lavador(empresaId, req.nome.value, req.comissao.value, true)]
  {
    if !Truthy(req.nome) || req.comissao.Undefined? {
      return Err(BadRequest);
    }
    if req.comissao.Value? && !CommissionInRange(req.comissao.value) {
      return Err(BadRequest);
    }
    if req.comissao.Null? {
      return Err(ServerError);
    }
    var k := FreshKey(db.lavadores);
    var l := Lavador(empresaId, req.nome.value, req.comissao.value, true);
    ghost var t := db.Snapshot();
    ValidAfterLavadorWrite(t, k, l);
    db.lavadores := db.lavadores[k := l];
    assert db.Snapshot() == t.(lavadores := t.lavadores[k := l]);
    r := Ok(k);
  }

  /** The body of updateLavador; commission and flag keep the difference between a missing
      field and `null`. */
  datatype UpdateLavadorRequest = UpdateLavadorRequest(nome: Option<string>, comissao: Input<real>, ativo: Input<bool>)

  /** The update writes `null` into a column: `comissao: null` or `ativo: null` is not
      `undefined`, so it is spread into `data`, and the required columns refuse it. */
  predicate WritesNull(req: UpdateLavadorRequest) {
    req.comissao.Null? || req.ativo.Null?
  }

  /** The update's `data`: the name only when truthy, commission and flag when given. */
  function PatchLavador(l: Lavador, req: UpdateLavadorRequest): Lavador {
    l.(nome := if Truthy(req.nome) then req.nome.value else l.nome,
       comissao := if req.comissao.Value? then req.comissao.value else l.comissao,
       ativo := if req.ativo.Value? then req.ativo.value else l.ativo)
  }

  /** The patch never moves a washer to another company, an empty patch changes nothing,
      and applying a patch twice is the same as once. */
  lemma PatchLavadorProperties(l: Lavador, req: UpdateLavadorRequest)
    ensures PatchLavador(l, req).empresaId == l.empresaId
    ensures PatchLavador(l, UpdateLavadorRequest(None, Undefined, Undefined)) == l
    ensures PatchLavador(PatchLavador(l, req), req) == PatchLavador(l, req)
    ensures !Truthy(req.nome) ==> PatchLavador(l, req).nome == l.nome
  {
  }

  /** A validated patch keeps a commission in range. */
  lemma PatchKeepsCommissionInRange(l: Lavador, req: UpdateLavadorRequest)
    requires CommissionInRange(l.comissao)
    requires req.comissao.Value? ==> CommissionInRange(req.comissao.value)
    ensures CommissionInRange(PatchLavador(l, req).comissao)
  {
  }

  /** updateLavador: 404 outside the tenant, 400 for a given commission outside [0, 100],
      500 when the data would write `null`; otherwise the patched record replaces the old one. */
  method UpdateLavador(db: Db, empresaId: Id, id: Id, req: UpdateLavadorRequest) returns (r: Result<Id>)
    requires db.Valid()
    modifies db`lavadores
    ensures db.Valid()
    ensures !InTenant(old(db.lavadores), empresaId, id) ==> r == Err(NotFound)
    ensures (InTenant(old(db.lavadores), empresaId, id) && req.comissao.Value? && !CommissionInRange(req.comissao.value)) ==>
      r == Err(BadRequest)
    ensures (InTenant(old(db.lavadores), empresaId, id) && !(req.comissao.Value? && !CommissionInRange(req.comissao.value))
             && WritesNull(req)) ==> r == Err(ServerError)
    ensures r.Ok? <==>
      && InTenant(old(db.lavadores), empresaId, id)
      && (req.comissao.Value? ==> CommissionInRange(req.comissao.value))
      && !WritesNull(req)
    ensures r.Err? ==> db.lavadores == old(db.lavadores)
    ensures r.Ok? ==> r.value == id && db.lavadores == old(db.lavadores)[id := PatchLavador(old(db.lavadores)[id], req)]
  {
    if !InTenant(db.lavadores, empresaId, id) {
      return Err(NotFound);
    }
    if req.comissao.Value? && !CommissionInRange(req.comissao.value) {
      return Err(BadRequest);
    }
    if WritesNull(req) {
      return Err(ServerError);
    }
    var l := PatchLavador(db.lavadores[id], req);
    ghost var t := db.Snapshot();
    ValidAfterLavadorWrite(t, id, l);
    db.lavadores := db.lavadores[id := l];
    assert db.Snapshot() == t.(lavadores := t.lavadores[id := l]);
    r := Ok(id);
  }

  /** deleteLavador: 404 outside the tenant, 400 while some order has the washer;
      otherwise the record is removed. The guard is what keeps every order's washer
      reference valid. */
  method DeleteLavador(db: Db, empresaId: Id, id: Id) returns (r: Result<Id>)
    requires db.Valid()
    modifies db`lavadores
    ensures db.Valid()
    ensures !InTenant(old(db.lavadores), empresaId, id) ==> r == Err(NotFound)
    ensures InTenant(old(db.lavadores), empresaId, id) && HasOrders(db.ordens, id) ==> r == Err(BadRequest)
    ensures r.Ok? <==> InTenant(old(db.lavadores), empresaId, id) && !HasOrders(db.ordens, id)
    ensures r.Err? ==> db.lavadores == old(db.lavadores)
    ensures r.Ok? ==> r.value == id && db.lavadores == old(db.lavadores) - {id}
  {
    if !InTenant(db.lavadores, empresaId, id) {
      return Err(NotFound);
    }
    if HasOrders(db.ordens, id) {
      return Err(BadRequest);
    }
    ghost var t := db.Snapshot();
    ValidAfterLavadorRemove(t, id);
    db.lavadores := db.lavadores - {id};
    assert db.Snapshot() == t.(lavadores := t.lavadores - {id});
    r := Ok(id);
  }

  /** toggleLavadorStatus: 404 outside the tenant, otherwise `ativo` is negated and
      nothing else changes; toggling twice restores the record. */
  method ToggleLavadorStatus(db: Db, empresaId: Id, id: Id) returns (r: Result<bool>)
    requires db.Valid()
    modifies db`lavadores
    ensures db.Valid()
    ensures r.Err? <==> !InTenant(old(db.lavadores), empresaId, id)
    ensures r.Err? ==> r.failure == NotFound && db.lavadores == old(db.lavadores)
    ensures r.Ok? ==>
      && r.value == !old(db.lavadores)[id].ativo
      && db.lavadores == old(db.lavadores)[id := old(db.lavadores)[id].(ativo := r.value)]
  {
    if !InTenant(db.lavadores, empresaId, id) {
      return Err(NotFound);
    }
    var l := db.lavadores[id];
    var l' := l.(ativo := !l.ativo);
    ghost var t := db.Snapshot();
    ValidAfterLavadorWrite(t, id, l');
    db.lavadores := db.lavadores[id := l'];
    assert db.Snapshot() == t.(lavadores := t.lavadores[id := l']);
    r := Ok(l'.ativo);
  }

  /** Two successful calls of toggleLavadorStatus, each related to the state before it as
      the method's postcondition says: the first leaves the washer in the tenant, so the
      second succeeds too, and the second restores the table and reports the original flag. */
  lemma ToggleTwice(m0: map<Id, Lavador>, m1: map<Id, Lavador>, m2: map<Id, Lavador>, empresaId: Id, id: Id, v1: bool, v2: bool)
    requires InTenant(m0, empresaId, id)
    requires v1 == !m0[id].ativo && m1 == m0[id := m0[id].(ativo := v1)]
    ensures InTenant(m1, empresaId, id)
    ensures v2 == !m1[id].ativo && m2 == m1[id := m1[id].(ativo := v2)] ==> m2 == m0 && v2 == m0[id].ativo
  {
  }

  // ---- Statistics of getLavadorById ----

  /** `reduce((sum, o) => sum + o.valorTotal * (comissao / 100), 0)`. */
  function CommissionSum(ordens: seq<Ordem>, comissao: real): real
    decreases |ordens|
  {
    if |ordens| == 0 then 0.0
    else CommissionSum(ordens[..|ordens| - 1], comissao) + ordens[|ordens| - 1].valorTotal * (comissao / 100.0)
  }

  /** The sum of the orders' totals. */
  function ValorSum(ordens: seq<Ordem>): real
    decreases |ordens|
  {
    if |ordens| == 0 then 0.0 else ValorSum(ordens[..|ordens| - 1]) + ordens[|ordens| - 1].valorTotal
  }

  /** The commission sum is the rate applied to the sum of the totals. */
  lemma {:induction false} CommissionSumIsRateOfTotal(ordens: seq<Ordem>, comissao: real)
    ensures CommissionSum(ordens, comissao) == ValorSum(ordens) * (comissao / 100.0)
    decreases |ordens|
  {
    if |ordens| > 0 {
      CommissionSumIsRateOfTotal(ordens[..|ordens| - 1], comissao);
    }
  }

  datatype Estatisticas = Estatisticas(totalOrdens: nat, totalComissao: real, mediaComissaoPorOrdem: real)

  /** `totalOrdens > 0 ? totalComissao / totalOrdens : 0`. */
  function Average(total: real, count: nat): real {
    if count > 0 then total / (count as real) else 0.0
  }

  /** The statistics as written: `ordens` is fetched with `take: 10`, so the commission
      sums only the ten newest orders, while `totalOrdens` counts all of them. The
      history is the washer's orders, newest first. */
  function StatsAsWritten(l: Lavador, history: seq<Ordem>): Estatisticas {
    var recent := if |history| <= 10 then history else history[..10];
    var total := CommissionSum(recent, l.comissao);
    Estatisticas(|history|, total, Average(total, |history|))
  }

  /** The statistics with sum and count over the same orders. */
  function Stats(l: Lavador, history: seq<Ordem>): (s: Estatisticas)
    ensures s.totalOrdens == |history|
  {
    var total := CommissionSum(history, l.comissao);
    Estatisticas(|history|, total, Average(total, |history|))
  }

  /** Corrected, the total is the rate applied to everything the washer handled, and the
      average times the count gives the total back. */
  lemma StatsMeaning(l: Lavador, history: seq<Ordem>)
    ensures Stats(l, history).totalComissao == ValorSum(history) * (l.comissao / 100.0)
    ensures |history| > 0 ==>
      Stats(l, history).mediaComissaoPorOrdem * (|history| as real) == Stats(l, history).totalComissao
    ensures |history| == 0 ==> Stats(l, history) == Estatisticas(0, 0.0, 0.0)
  {
    CommissionSumIsRateOfTotal(history, l.comissao);
  }

  /** The keys of the orders that have washer `id` assigned, of any company: the ones
      `_count.ordens` counts and the `ordens` relation reads. */
  function OrdensOf(ordens: map<Id, Ordem>, id: Id): set<Id> {
    set k | k in ordens && ordens[k].lavadorId == Some(id)
  }

  /** The keys a sequence lists. */
  function KeySet(keys: seq<Id>): set<Id> {
    set k | k in keys
  }

  /** A sequence of distinct keys has as many elements as its set. */
  lemma {:induction false} DistinctKeysCount(keys: seq<Id>)
    requires forall i, j :: 0 <= i < j < |keys| ==> keys[i] != keys[j]
    ensures |KeySet(keys)| == |keys|
    decreases |keys|
  {
    if |keys| > 0 {
      var init := keys[..|keys| - 1];
      var last := keys[|keys| - 1];
      DistinctKeysCount(init);
      forall i | 0 <= i < |init| ensures init[i] != last {
        assert keys[i] != keys[|keys| - 1];
      }
      assert last !in KeySet(init);
      assert KeySet(keys) == KeySet(init) + {last};
    } else {
      assert KeySet(keys) == {};
    }
  }

  /** getLavadorById: 404 outside the tenant, otherwise the washer's statistics over its
      orders. `history` is what the `ordens` relation returns: the washer's orders, each
      once, listed by the ghost `keys` (newest first, `orderBy: { createdAt: 'desc' }`,
      an order this model does not check). */
  method GetLavadorById(db: Db, empresaId: Id, id: Id, history: seq<Ordem>, ghost keys: seq<Id>) returns (r: Result<Estatisticas>)
    requires forall i, j :: 0 <= i < j < |keys| ==> keys[i] != keys[j]
    requires KeySet(keys) == OrdensOf(db.ordens, id)
    requires |history| == |keys| && forall i :: 0 <= i < |keys| ==> keys[i] in db.ordens && history[i] == db.ordens[keys[i]]
    ensures r.Ok? ==> r.value.totalOrdens == |OrdensOf(db.ordens, id)|
    ensures r.Err? <==> !InTenant(db.lavadores, empresaId, id)
    ensures r.Err? ==> r.failure == NotFound
    ensures r.Ok? ==> r.value == Stats(db.lavadores[id], history)
    ensures r.Ok? ==>
      && r.value.totalOrdens == |history|
      && r.value.totalComissao == ValorSum(history) * (db.lavadores[id].comissao / 100.0)
      && r.value.mediaComissaoPorOrdem == Average(r.value.totalComissao, |history|)
      && (|history| > 0 ==> r.value.mediaComissaoPorOrdem * (|history| as real) == r.value.totalComissao)
  {
    if !InTenant(db.lavadores, empresaId, id) {
      return Err(NotFound);
    }
    StatsMeaning(db.lavadores[id], history);
    DistinctKeysCount(keys);
    r := Ok(Stats(db.lavadores[id], history));
  }

  /** Up to ten orders the two agree. */
  lemma StatsAgreeUpToTen(l: Lavador, history: seq<Ordem>)
    requires |history| <= 10
    ensures StatsAsWritten(l, history) == Stats(l, history)
  {
  }

  /** An order of 100.00. */
  const Order100: Ordem := Ordem(0, None, 0, 0, Some(0), Finalizado, 100.0, 0.0, false, None, None, [])

  /** Eleven orders of 100.00 at 10%: the commission is 110 and the average 10, but as
      written the statistics report 100 and 100/11. */
  lemma StatsAsWrittenUndercounts()
    ensures var l := Lavador(0, "L", 10.0, true);
      var history := seq(11, _ => Order100);
      && Stats(l, history) == Estatisticas(11, 110.0, 10.0)
      && StatsAsWritten(l, history) == Estatisticas(11, 100.0, 100.0 / 11.0)
  {
    var l := Lavador(0, "L", 10.0, true);
    var history := seq(11, _ => Order100);
    CommissionSumIsRateOfTotal(history, 10.0);
    CommissionSumIsRateOfTotal(history[..10], 10.0);
    ValorSumOfCopies(history, 11);
    ValorSumOfCopies(history[..10], 10);
  }

  /** n copies of the order of 100.00 add up to 100 n. */
  lemma {:induction false} ValorSumOfCopies(s: seq<Ordem>, n: nat)
    requires |s| == n && forall i :: 0 <= i < n ==> s[i] == Order100
    ensures ValorSum(s) == 100.0 * (n as real)
    decreases n
  {
    if n > 0 {
      ValorSumOfCopies(s[..n - 1], n - 1);
    }
  }
}
