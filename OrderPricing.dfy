/**
 * The arithmetic of a service order (backend/src/controllers/ordemController.ts):
 * pricing its line items, the order total, the washer's commission and the
 * per-company order number.
 */
module OrderPricing {
  import opened Common
  import opened Store

  /** One entry of the request's `itens` array. */
  datatype ItemRequest = ItemRequest(tipo: Option<string>, itemId: Option<Id>, quantidade: Option<int>)

  /** createOrdem looks items up by id alone and does not check quantities;
      updateOrdem looks them up within the company and demands a positive quantity. */
  datatype PricingMode = AtCreation | AtUpdate(empresaId: Id)

  /** The `tipo` discriminator: 'SERVICO' or 'ADICIONAL'. */
  function ItemKindOf(tipo: Option<string>): (k: Option<ItemKind>)
    ensures k == Some(ServicoItem) <==> tipo == Some("SERVICO")
    ensures k == Some(AdicionalItem) <==> tipo == Some("ADICIONAL")
  {
    if tipo == Some("SERVICO") then Some(ServicoItem)
    else if tipo == Some("ADICIONAL") then Some(AdicionalItem)
    else None
  }

  /** The current flat price of the referenced service or add-on, if the lookup finds it. */
  function UnitPrice(servicos: map<Id, Servico>, adicionais: map<Id, Adicional>, mode: PricingMode, kind: ItemKind, id: Id): (p: Option<Money>)
    ensures p.Some? && kind == ServicoItem ==> id in servicos && p.value == servicos[id].preco
    ensures p.Some? && kind == AdicionalItem ==> id in adicionais && p.value == adicionais[id].preco
    ensures p.None? <==>
      (kind == ServicoItem && (id !in servicos || (mode.AtUpdate? && servicos[id].empresaId != mode.empresaId))) ||
      (kind == AdicionalItem && (id !in adicionais || (mode.AtUpdate? && adicionais[id].empresaId != mode.empresaId)))
  {
    match kind
    case ServicoItem =>
      if id in servicos && (mode.AtUpdate? ==> servicos[id].empresaId == mode.empresaId) then Some(servicos[id].preco) else None
    case AdicionalItem =>
      if id in adicionais && (mode.AtUpdate? ==> adicionais[id].empresaId == mode.empresaId) then Some(adicionais[id].preco) else None
  }

  /** What an item has to carry before it is looked up. */
  predicate ItemWellFormed(mode: PricingMode, item: ItemRequest) {
    && item.itemId.Some?
    && item.quantidade.Some?
    && ItemKindOf(item.tipo).Some?
    && (mode.AtUpdate? ==> item.quantidade.value > 0)
  }

  /** One priced line: the unit price snapshot and subtotal = unit price x quantity. */
  function PriceLine(servicos: map<Id, Servico>, adicionais: map<Id, Adicional>, mode: PricingMode, item: ItemRequest): (r: Option<Line>)
    ensures r.Some? <==>
      ItemWellFormed(mode, item) && UnitPrice(servicos, adicionais, mode, ItemKindOf(item.tipo).value, item.itemId.value).Some?
    ensures r.Some? ==>
      && Some(r.value.tipo) == ItemKindOf(item.tipo)
      && Some(r.value.itemId) == item.itemId
      && Some(r.value.quantidade) == item.quantidade
      && Some(r.value.precoUnit) == UnitPrice(servicos, adicionais, mode, r.value.tipo, r.value.itemId)
      && r.value.subtotal == r.value.precoUnit * (r.value.quantidade as real)
  {
    if !ItemWellFormed(mode, item) then None
    else
      var kind := ItemKindOf(item.tipo).value;
      match UnitPrice(servicos, adicionais, mode, kind, item.itemId.value)
      case None => None
      case Some(p) => Some(Line(kind, item.itemId.value, item.quantidade.value, p, p * (item.quantidade.value as real)))
  }

  /** `itens.map(...)`: all items priced in order, or nothing at all when any one of them fails. */
  function PriceLines(servicos: map<Id, Servico>, adicionais: map<Id, Adicional>, mode: PricingMode, items: seq<ItemRequest>): (r: Option<seq<Line>>)
    ensures r.Some? <==> forall i :: 0 <= i < |items| ==> PriceLine(servicos, adicionais, mode, items[i]).Some?
    ensures r.Some? ==> |r.value| == |items|
    ensures r.Some? ==> forall i :: 0 <= i < |items| ==> r.value[i] == PriceLine(servicos, adicionais, mode, items[i]).value
  {
    if forall i :: 0 <= i < |items| ==> PriceLine(servicos, adicionais, mode, items[i]).Some? then
      Some(seq(|items|, i requires 0 <= i < |items| => PriceLine(servicos, adicionais, mode, items[i]).value))
    else None
  }

  /** The order total: the sum of the line subtotals. */
  function SumSubtotals(lines: seq<Line>): Money
    decreases |lines|
  {
    if |lines| == 0 then 0.0 else SumSubtotals(lines[..|lines| - 1]) + lines[|lines| - 1].subtotal
  }

  lemma {:induction false} SumSubtotalsAppend(a: seq<Line>, b: seq<Line>)
    ensures SumSubtotals(a + b) == SumSubtotals(a) + SumSubtotals(b)
    decreases |b|
  {
    if |b| == 0 {
      assert a + b == a;
    } else {
      assert (a + b)[..|a + b| - 1] == a + b[..|b| - 1];
      SumSubtotalsAppend(a, b[..|b| - 1]);
    }
  }

  /** Pricing is per item: the lines of a concatenation are the concatenated lines,
      and the total of the whole is the sum of the totals of the parts. */
  lemma PriceLinesAppend(servicos: map<Id, Servico>, adicionais: map<Id, Adicional>, mode: PricingMode, a: seq<ItemRequest>, b: seq<ItemRequest>)
    ensures PriceLines(servicos, adicionais, mode, a + b).Some? <==>
      PriceLines(servicos, adicionais, mode, a).Some? && PriceLines(servicos, adicionais, mode, b).Some?
    ensures PriceLines(servicos, adicionais, mode, a + b).Some? ==>
      && PriceLines(servicos, adicionais, mode, a + b).value ==
           PriceLines(servicos, adicionais, mode, a).value + PriceLines(servicos, adicionais, mode, b).value
      && SumSubtotals(PriceLines(servicos, adicionais, mode, a + b).value) ==
           SumSubtotals(PriceLines(servicos, adicionais, mode, a).value) + SumSubtotals(PriceLines(servicos, adicionais, mode, b).value)
  {
    AllPricedAppend(servicos, adicionais, mode, a, b);
    if PriceLines(servicos, adicionais, mode, a + b).Some? {
      LinesAppend(servicos, adicionais, mode, a, b);
      SumSubtotalsAppend(PriceLines(servicos, adicionais, mode, a).value, PriceLines(servicos, adicionais, mode, b).value);
    }
  }

  /** Every item of a concatenation prices exactly when every item of both parts does. */
  lemma AllPricedAppend(servicos: map<Id, Servico>, adicionais: map<Id, Adicional>, mode: PricingMode, a: seq<ItemRequest>, b: seq<ItemRequest>)
    ensures (forall j :: 0 <= j < |a + b| ==> PriceLine(servicos, adicionais, mode, (a + b)[j]).Some?) <==>
      (forall j :: 0 <= j < |a| ==> PriceLine(servicos, adicionais, mode, a[j]).Some?) &&
      (forall j :: 0 <= j < |b| ==> PriceLine(servicos, adicionais, mode, b[j]).Some?)
  {
    var ab := a + b;
    assert forall j :: 0 <= j < |a| ==> ab[j] == a[j];
    assert forall j :: |a| <= j < |ab| ==> ab[j] == b[j - |a|];
    if forall j :: 0 <= j < |ab| ==> PriceLine(servicos, adicionais, mode, ab[j]).Some? {
      forall j | 0 <= j < |b| ensures PriceLine(servicos, adicionais, mode, b[j]).Some? {
        assert ab[|a| + j] == b[j];
      }
    }
  }

  lemma LinesAppend(servicos: map<Id, Servico>, adicionais: map<Id, Adicional>, mode: PricingMode, a: seq<ItemRequest>, b: seq<ItemRequest>)
    requires PriceLines(servicos, adicionais, mode, a).Some? && PriceLines(servicos, adicionais, mode, b).Some?
    requires PriceLines(servicos, adicionais, mode, a + b).Some?
    ensures PriceLines(servicos, adicionais, mode, a + b).value ==
      PriceLines(servicos, adicionais, mode, a).value + PriceLines(servicos, adicionais, mode, b).value
  {
    var ab := a + b;
    var lab := PriceLines(servicos, adicionais, mode, ab).value;
    var la := PriceLines(servicos, adicionais, mode, a).value;
    var lb := PriceLines(servicos, adicionais, mode, b).value;
    forall j | 0 <= j < |ab| ensures lab[j] == (la + lb)[j] {
      if j < |a| {
        assert ab[j] == a[j];
      } else {
        assert ab[j] == b[j - |a|];
      }
    }
  }

  /** The `for (const item of itens)` loop of updateOrdem: price every item within the
      company, accumulating the total; any bad item aborts. */
  method PriceItemsForUpdate(servicos: map<Id, Servico>, adicionais: map<Id, Adicional>, empresaId: Id, items: seq<ItemRequest>)
    returns (r: Option<(seq<Line>, Money)>)
    ensures PriceLines(servicos, adicionais, AtUpdate(empresaId), items).None? ==> r.None?
    ensures PriceLines(servicos, adicionais, AtUpdate(empresaId), items).Some? ==>
      var lines := PriceLines(servicos, adicionais, AtUpdate(empresaId), items).value;
      r == Some((lines, SumSubtotals(lines)))
  {
    var lines: seq<Line> := [];
    var valorTotal: Money := 0.0;
    var i := 0;
    while i < |items|
      invariant 0 <= i <= |items|
      invariant |lines| == i
      invariant forall j :: 0 <= j < i ==>
        PriceLine(servicos, adicionais, AtUpdate(empresaId), items[j]).Some? &&
        lines[j] == PriceLine(servicos, adicionais, AtUpdate(empresaId), items[j]).value
      invariant valorTotal == SumSubtotals(lines)
    {
      var line := PriceLine(servicos, adicionais, AtUpdate(empresaId), items[i]);
      if line.None? {
        return None;
      }
      assert (lines + [line.value])[..|lines|] == lines;
      lines := lines + [line.value];
      valorTotal := valorTotal + line.value.subtotal;
      i := i + 1;
    }
    assert lines == PriceLines(servicos, adicionais, AtUpdate(empresaId), items).value;
    r := Some((lines, valorTotal));
  }

  /** The commission of an order: total x comissao / 100 when the washer exists and
      its percentage is positive, otherwise 0. The washer is looked up by id alone. */
  function LavadorCommission(lavadores: map<Id, Lavador>, lavadorId: Option<Id>, total: Money): (c: Money)
    ensures lavadorId.None? || lavadorId.value !in lavadores || lavadores[lavadorId.value].comissao <= 0.0 ==> c == 0.0
    ensures lavadorId.Some? && lavadorId.value in lavadores && lavadores[lavadorId.value].comissao > 0.0 ==>
      c == total * lavadores[lavadorId.value].comissao / 100.0
  {
    if lavadorId.Some? && lavadorId.value in lavadores && lavadores[lavadorId.value].comissao > 0.0
    then total * lavadores[lavadorId.value].comissao / 100.0
    else 0.0
  }

  /** For a percentage in [0, 100] the commission lies between 0 and the order total. */
  lemma CommissionBounds(lavadores: map<Id, Lavador>, lavadorId: Option<Id>, total: Money)
    requires total >= 0.0
    requires lavadorId.Some? && lavadorId.value in lavadores ==> lavadores[lavadorId.value].comissao <= 100.0
    ensures 0.0 <= LavadorCommission(lavadores, lavadorId, total) <= total
  {
    if lavadorId.Some? && lavadorId.value in lavadores && lavadores[lavadorId.value].comissao > 0.0 {
      var pct := lavadores[lavadorId.value].comissao;
      NonnegativeProduct(total, pct);
      NonnegativeProduct(total, 100.0 - pct);
      assert total * (100.0 - pct) == total * 100.0 - total * pct;
    }
  }

  lemma NonnegativeProduct(x: real, y: real)
    requires x >= 0.0 && y >= 0.0
    ensures x * y >= 0.0
  {
  }

  /** The commission is linear in the total: pricing in two parts pays the same. */
  lemma CommissionAdditive(lavadores: map<Id, Lavador>, lavadorId: Option<Id>, a: Money, b: Money)
    ensures LavadorCommission(lavadores, lavadorId, a + b) ==
      LavadorCommission(lavadores, lavadorId, a) + LavadorCommission(lavadores, lavadorId, b)
  {
  }

  /** The company's orders that carry a number. */
  predicate NumberedIn(ordens: map<Id, Ordem>, empresaId: Id, k: Id) {
    k in ordens && ordens[k].empresaId == empresaId && ordens[k].numeroOrdem.Some?
  }

  /** `n` exceeds every number of the company and, unless it is 1, follows the highest. */
  ghost predicate IsNextNumero(ordens: map<Id, Ordem>, empresaId: Id, n: nat) {
    && (forall k :: NumberedIn(ordens, empresaId, k) ==> ordens[k].numeroOrdem.value < n)
    && (n > 1 ==> exists k :: NumberedIn(ordens, empresaId, k) && ordens[k].numeroOrdem.value == n - 1)
  }

  /** `(ultimaOrdem?.numeroOrdem || 0) + 1`: one more than the company's highest order
      number, or 1 when it has none. */
  method NextNumeroOrdem(ordens: map<Id, Ordem>, empresaId: Id) returns (n: nat)
    ensures n >= 1
    ensures IsNextNumero(ordens, empresaId, n)
  {
    var highest: nat := 0;
    var rest := ordens.Keys;
    while rest != {}
      invariant rest <= ordens.Keys
      invariant forall k :: NumberedIn(ordens, empresaId, k) && k !in rest ==> ordens[k].numeroOrdem.value <= highest
      invariant highest > 0 ==> exists k :: NumberedIn(ordens, empresaId, k) && ordens[k].numeroOrdem.value == highest
      decreases rest
    {
      var k :| k in rest;
      if NumberedIn(ordens, empresaId, k) && ordens[k].numeroOrdem.value > highest {
        highest := ordens[k].numeroOrdem.value;
      }
      rest := rest - {k};
    }
    n := highest + 1;
  }
}
