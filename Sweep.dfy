/**
 * The end-of-day sweep processarFinalizacoesAutomaticas of
 * backend/src/controllers/ordemController.ts: for every active company with
 * `finalizacaoAutomatica`, once the clock has passed its closing time, every
 * PENDENTE or EM_ANDAMENTO order becomes FINALIZADO and gains one PENDENTE
 * payment of its total, and the company is told how many orders were closed.
 */
module Sweep {
  import opened Common
  import opened Store
  import opened Notifications

  /** A time `h:m` in minutes after midnight: split at ':' and read each part with `Number`.
      `setHours` lets the parts overflow, so a negative hour lands before midnight and 25:00
      after the next one. A missing or non-numeric part gives an invalid date, which no
      clock reaches (None). */
  function ParseTime(s: string): (m: Option<int>)
  {
    var parts := Split(s, ':');
    if |parts| >= 2 && NumeralValue(parts[0]).Some? && NumeralValue(parts[1]).Some?
    then Some(NumeralValue(parts[0]).value * 60 + NumeralValue(parts[1]).value)
    else None
  }

  /** The closing time in minutes after midnight: `horarioFechamento || '19:00'`, parsed. */
  function ClosingMinute(horario: Option<string>): (m: Option<int>)
    ensures Truthy(horario) ==> m == ParseTime(horario.value)
  {
    ParseTime(if Truthy(horario) then horario.value else "19:00")
  }

  /** A time whose first two pieces are numerals is read as hours and minutes. */
  lemma ParseTimeOfParts(s: string, hs: string, ms: string)
    requires Split(s, ':') == [hs, ms] && NumeralValue(hs).Some? && NumeralValue(ms).Some?
    ensures ParseTime(s) == Some(NumeralValue(hs).value * 60 + NumeralValue(ms).value)
  {
    var parts := Split(s, ':');
    assert parts[0] == hs && parts[1] == ms;
  }

  /** A numeral has no ':' in it. */
  lemma NumeralHasNoColon(s: string)
    requires NumeralValue(s).Some?
    ensures ':' !in s
  {
    forall i | 0 <= i < |s| ensures s[i] != ':' {
      if !AllDigits(s) && i > 0 {
        assert s[1..][i - 1] == s[i];
      }
    }
  }

  /** Two numerals joined by ':' are read as hours and minutes. */
  lemma ParseTimeOfNumerals(hs: string, ms: string)
    requires NumeralValue(hs).Some? && NumeralValue(ms).Some?
    ensures ParseTime(hs + ":" + ms) == Some(NumeralValue(hs).value * 60 + NumeralValue(ms).value)
  {
    NumeralHasNoColon(hs);
    NumeralHasNoColon(ms);
    SplitAtSeparator(hs, ':', ms);
    SplitWithoutSeparator(ms, ':');
    assert hs + ":" + ms == hs + [':'] + ms;
    ParseTimeOfParts(hs + ":" + ms, hs, ms);
  }

  /** Two digit strings joined by ':' are read as hours and minutes. */
  lemma {:induction false} ParseTimeOfDigits(hs: string, ms: string)
    requires AllDigits(hs) && AllDigits(ms)
    ensures ParseTime(hs + ":" + ms) == Some(DigitsValue(hs) * 60 + DigitsValue(ms))
  {
    ParseTimeOfNumerals(hs, ms);
  }

  /** A closing time written as `hh:mm` is hh hours and mm minutes after midnight. */
  lemma ClosingMinuteOfDigits(hs: string, ms: string)
    requires AllDigits(hs) && AllDigits(ms)
    ensures ClosingMinute(Some(hs + ":" + ms)) == Some(DigitsValue(hs) * 60 + DigitsValue(ms))
  {
    ParseTimeOfDigits(hs, ms);
  }

  /** Without a closing time (or with an empty one) the company closes at 19:00. */
  lemma DefaultClosingMinute()
    ensures ClosingMinute(None) == Some(1140)
    ensures ClosingMinute(Some("")) == Some(1140)
  {
    ParseTimeOfDigits("19", "00");
    assert "19" + ":" + "00" == "19:00";
    assert DigitsValue("19") == 19 by {
      assert "19"[..1] == "1";
    }
    assert DigitsValue("00") == 0 by {
      assert "00"[..1] == "0";
    }
  }

  /** A closing time without ':' has no minutes: the company is never due. */
  lemma ClosingWithoutMinutes(s: string)
    requires s != "" && ':' !in s
    ensures ClosingMinute(Some(s)).None?
  {
    SplitWithoutSeparator(s, ':');
  }

  /** The companies the sweep looks at: `finalizacaoAutomatica: true, ativo: true`. */
  predicate Eligible(e: Empresa) {
    e.finalizacaoAutomatica && e.ativo
  }

  /** A company is processed once the clock (minutes after midnight) reaches its closing time. */
  predicate Due(e: Empresa, clock: int) {
    Eligible(e) && ClosingMinute(e.horarioFechamento).Some? && clock >= ClosingMinute(e.horarioFechamento).value
  }

  /** A negative closing hour such as "-1:00" is read by `Number` and `setHours` as a
      time before today's midnight, so an eligible company with it is due at every clock. */
  lemma NegativeClosingHourAlwaysDue(e: Empresa, hs: string, ms: string, clock: int)
    requires Eligible(e) && |hs| >= 1 && AllDigits(hs) && DigitsValue(hs) >= 1
    requires AllDigits(ms) && DigitsValue(ms) < 60
    requires e.horarioFechamento == Some("-" + hs + ":" + ms)
    requires clock >= 0
    ensures Due(e, clock)
  {
    var h := "-" + hs;
    assert h[1..] == hs;
    assert !AllDigits(h) by {
      assert h[0] == '-';
    }
    ParseTimeOfNumerals(h, ms);
    assert "-" + hs + ":" + ms == h + ":" + ms;
  }

  /** The company's PENDENTE and EM_ANDAMENTO orders. */
  function ActiveIds(ordens: map<Id, Ordem>, empresaId: Id): (ks: set<Id>)
  {
    set k | k in ordens && ordens[k].empresaId == empresaId && Active(ordens[k].status)
  }

  /** What the sweep writes into one order. */
  function Finalized(o: Ordem, now: int): (f: Ordem)
    ensures f.status == Finalizado && f.dataFim == Some(now)
    ensures f == o.(status := f.status, dataFim := f.dataFim)
  {
    o.(status := Finalizado, dataFim := Some(now))
  }

  /** The payment the sweep attaches to a finalized order: PENDENTE, of the order's total. */
  function SweepPayment(ordemId: Id, o: Ordem): (p: Pagamento)
    ensures p.ordemId == ordemId && p.empresaId == o.empresaId && p.valor == o.valorTotal
    ensures p.metodo == MetodoPendente && p.status == PagamentoPendente && p.pagoEm.None?
  {
    Pagamento(ordemId, o.empresaId, MetodoPendente, o.valorTotal, None, PagamentoPendente, None)
  }

  /** The orders with the ones in `ks` finalized. */
  function FinalizeSet(ordens: map<Id, Ordem>, ks: set<Id>, now: int): (m: map<Id, Ordem>)
    ensures m.Keys == ordens.Keys
    ensures forall k :: k in ordens && k in ks ==> m[k] == Finalized(ordens[k], now)
    ensures forall k :: k in ordens && k !in ks ==> m[k] == ordens[k]
  {
    map k | k in ordens :: if k in ks then Finalized(ordens[k], now) else ordens[k]
  }

  /** `after` is `before` plus exactly one sweep payment for each order in `ks`, and
      `paymentOf` names the payment made for each of them. */
  ghost predicate PaidOnce(before: map<Id, Pagamento>, after: map<Id, Pagamento>, ordens: map<Id, Ordem>,
                           ks: set<Id>, paymentOf: map<Id, Id>)
  {
    && paymentOf.Keys == ks && ks <= ordens.Keys
    && (forall j :: j in before ==> j in after && after[j] == before[j])
    && (forall k :: k in paymentOf ==>
          paymentOf[k] !in before && paymentOf[k] in after && after[paymentOf[k]] == SweepPayment(k, ordens[k]))
    && (forall j :: j in after && j !in before ==> after[j].ordemId in paymentOf && paymentOf[after[j].ordemId] == j)
  }

  /** Finalizing twice is finalizing once, so finalizing `s` and then `a` finalizes `s + a`. */
  lemma FinalizeSetTwice(ordens: map<Id, Ordem>, s: set<Id>, a: set<Id>, now: int)
    ensures FinalizeSet(FinalizeSet(ordens, s, now), a, now) == FinalizeSet(ordens, s + a, now)
  {
  }

  /** Finalizing one more order. */
  lemma FinalizeSetStep(ordens: map<Id, Ordem>, ks: set<Id>, k: Id, now: int)
    requires k in ordens
    ensures FinalizeSet(ordens, ks, now)[k := Finalized(ordens[k], now)] == FinalizeSet(ordens, ks + {k}, now)
  {
  }

  /** One step of the inner loop: order `k` gets the payment `j`. */
  lemma PaidOnceStep(before: map<Id, Pagamento>, after: map<Id, Pagamento>, ordens: map<Id, Ordem>,
                     ks: set<Id>, paymentOf: map<Id, Id>, k: Id, j: Id)
    requires PaidOnce(before, after, ordens, ks, paymentOf)
    requires k in ordens && k !in ks && j !in after
    ensures PaidOnce(before, after[j := SweepPayment(k, ordens[k])], ordens, ks + {k}, paymentOf[k := j])
  {
  }

  /** The inner loop (the `map` over ordensParaFinalizar): finalize every active order
      of the company and make one PENDENTE payment for each, under fresh ids. */
  method FinalizeOrdens(ordens: map<Id, Ordem>, pags: map<Id, Pagamento>, empresaId: Id, now: int)
    returns (ordens': map<Id, Ordem>, pags': map<Id, Pagamento>, n: nat, ghost paymentOf: map<Id, Id>)
    ensures ordens' == FinalizeSet(ordens, ActiveIds(ordens, empresaId), now)
    ensures n == |ActiveIds(ordens, empresaId)|
    ensures PaidOnce(pags, pags', ordens, ActiveIds(ordens, empresaId), paymentOf)
  {
    var todo := ActiveIds(ordens, empresaId);
    ghost var all := todo;
    n := |todo|;
    ordens', pags', paymentOf := ordens, pags, map[];
    while todo != {}
      invariant todo <= all
      invariant ordens' == FinalizeSet(ordens, all - todo, now)
      invariant PaidOnce(pags, pags', ordens, all - todo, paymentOf)
      decreases todo
    {
      var k :| k in todo;
      var j := FreshKey(pags');
      PaidOnceStep(pags, pags', ordens, all - todo, paymentOf, k, j);
      FinalizeSetStep(ordens, all - todo, k, now);
      assert all - todo + {k} == all - (todo - {k});
      ordens' := ordens'[k := Finalized(ordens[k], now)];
      pags' := pags'[j := SweepPayment(k, ordens[k])];
      paymentOf := paymentOf[k := j];
      todo := todo - {k};
    }
    assert all - todo == all;
  }

  /** The text of the notification after `n` orders were finalized. */
  function SweepMessage(n: nat): string {
    if n == 1 then SweepOne else NatToString(n) + SweepMany
  }

  const SweepOne: string := "1 ordem de serviço foi finalizada automaticamente."
  const SweepMany: string := " ordens de serviço foram finalizadas automaticamente."

  const SweepLink: string := "ordens.html?status=FINALIZADO"

  /** The companies due for the sweep at `clock`. */
  function DueSet(empresas: map<Id, Empresa>, clock: int): (d: set<Id>)
  {
    set e | e in empresas && Due(empresas[e], clock)
  }

  /** The active orders of the companies `es`. */
  function ActiveOf(ordens: map<Id, Ordem>, es: set<Id>): (ks: set<Id>)
  {
    set k | k in ordens && ordens[k].empresaId in es && Active(ordens[k].status)
  }

  /** The orders a sweep at `clock` finalizes. */
  function Targets(ordens: map<Id, Ordem>, empresas: map<Id, Empresa>, clock: int): set<Id> {
    ActiveOf(ordens, DueSet(empresas, clock))
  }

  /** Whether company `e`, once swept, is told about it: it had orders to finalize and
      does not disable the notification. */
  predicate Announces(ordens: map<Id, Ordem>, empresas: map<Id, Empresa>, e: Id) {
    e in empresas && |ActiveIds(ordens, e)| > 0 && IsEnabled(empresas[e].notificationPreferences, FinalizacaoAutomatica)
  }

  /** The companies among `es` that are told about the sweep. */
  function AnnouncedIn(ordens: map<Id, Ordem>, empresas: map<Id, Empresa>, es: set<Id>): (d: set<Id>)
  {
    set e | e in es && Announces(ordens, empresas, e)
  }

  /** The announcement to company `e`. */
  function Announcement(ordens: map<Id, Ordem>, e: Id): (n: Notificacao)
    ensures n.empresaId == e && n.tipo == FinalizacaoAutomatica && !n.lida
  {
    Notificacao(e, SweepMessage(|ActiveIds(ordens, e)|), Some(SweepLink), FinalizacaoAutomatica, false)
  }

  /** `after` is `before` plus exactly one announcement for each company in `es`, and
      `noticeOf` names the notification sent to each of them. */
  ghost predicate AnnouncedOnce(before: map<Id, Notificacao>, after: map<Id, Notificacao>, ordens: map<Id, Ordem>,
                                es: set<Id>, noticeOf: map<Id, Id>)
  {
    && noticeOf.Keys == es
    && (forall j :: j in before ==> j in after && after[j] == before[j])
    && (forall e :: e in noticeOf ==>
          noticeOf[e] !in before && noticeOf[e] in after && after[noticeOf[e]] == Announcement(ordens, e))
    && (forall j :: j in after && j !in before ==> after[j].empresaId in noticeOf && noticeOf[after[j].empresaId] == j)
  }

  /** The state of the loop over companies once the due companies `swept` are processed. */
  ghost predicate SweptUpTo(o0: map<Id, Ordem>, p0: map<Id, Pagamento>, n0: map<Id, Notificacao>,
                            empresas: map<Id, Empresa>, now: int, swept: set<Id>,
                            ordens: map<Id, Ordem>, pags: map<Id, Pagamento>, notifs: map<Id, Notificacao>,
                            paymentOf: map<Id, Id>, noticeOf: map<Id, Id>)
  {
    && ordens == FinalizeSet(o0, ActiveOf(o0, swept), now)
    && PaidOnce(p0, pags, o0, ActiveOf(o0, swept), paymentOf)
    && AnnouncedOnce(n0, notifs, o0, AnnouncedIn(o0, empresas, swept), noticeOf)
  }

  /** Before the first company, nothing has changed. */
  lemma SweptUpToStart(o0: map<Id, Ordem>, p0: map<Id, Pagamento>, n0: map<Id, Notificacao>,
                       empresas: map<Id, Empresa>, now: int)
    ensures SweptUpTo(o0, p0, n0, empresas, now, {}, o0, p0, n0, map[], map[])
  {
    assert ActiveOf(o0, {}) == {};
    assert AnnouncedIn(o0, empresas, {}) == {};
    assert FinalizeSet(o0, {}, now) == o0;
  }

  /** Orders of companies not yet processed are untouched. */
  lemma UntouchedCompany(o0: map<Id, Ordem>, swept: set<Id>, e: Id, now: int)
    requires e !in swept
    ensures ActiveIds(FinalizeSet(o0, ActiveOf(o0, swept), now), e) == ActiveIds(o0, e)
    ensures ActiveOf(o0, swept + {e}) == ActiveOf(o0, swept) + ActiveIds(o0, e)
  {
  }

  /** The payments of one company follow the payments of the companies before it. */
  lemma PaidOnceCompose(p0: map<Id, Pagamento>, p1: map<Id, Pagamento>, p2: map<Id, Pagamento>,
                        o0: map<Id, Ordem>, s: set<Id>, a: set<Id>, now: int, m1: map<Id, Id>, m2: map<Id, Id>)
    requires s !! a
    requires PaidOnce(p0, p1, o0, s, m1)
    requires PaidOnce(p1, p2, FinalizeSet(o0, s, now), a, m2)
    ensures PaidOnce(p0, p2, o0, s + a, m1 + m2)
  {
    var m := m1 + m2;
    forall k | k in m
      ensures m[k] !in p0 && m[k] in p2 && p2[m[k]] == SweepPayment(k, o0[k])
    {
      if k in m2 {
        assert k !in s;
      }
    }
    forall j | j in p2 && j !in p0
      ensures p2[j].ordemId in m && m[p2[j].ordemId] == j
    {
      if j in p1 {
        assert p2[j] == p1[j];
        assert p1[j].ordemId in s;
      }
    }
  }

  /** One more announcement. */
  lemma AnnouncedOnceStep(before: map<Id, Notificacao>, after: map<Id, Notificacao>, ordens: map<Id, Ordem>,
                          es: set<Id>, noticeOf: map<Id, Id>, e: Id, j: Id)
    requires AnnouncedOnce(before, after, ordens, es, noticeOf)
    requires e !in es && j !in after
    ensures AnnouncedOnce(before, after[j := Announcement(ordens, e)], ordens, es + {e}, noticeOf[e := j])
  {
    var after', noticeOf' := after[j := Announcement(ordens, e)], noticeOf[e := j];
    assert noticeOf'.Keys == es + {e};
    forall i | i in before ensures i in after' && after'[i] == before[i] {
      assert i in after;
    }
    forall x | x in noticeOf'
      ensures noticeOf'[x] !in before && noticeOf'[x] in after' && after'[noticeOf'[x]] == Announcement(ordens, x)
    {
      if x != e {
        assert noticeOf[x] in after;
      }
    }
    forall i | i in after' && i !in before
      ensures after'[i].empresaId in noticeOf' && noticeOf'[after'[i].empresaId] == i
    {
      if i != j {
        assert after'[i] == after[i];
      }
    }
  }

  /** The announced companies grow by `e` exactly when `e` announces. */
  lemma AnnouncedInStep(ordens: map<Id, Ordem>, empresas: map<Id, Empresa>, swept: set<Id>, e: Id)
    ensures AnnouncedIn(ordens, empresas, swept + {e}) ==
      AnnouncedIn(ordens, empresas, swept) + (if Announces(ordens, empresas, e) then {e} else {})
  {
  }

  /** The notification step of the loop body: company `e`, which had `n` orders finalized,
      is told about them when `n > 0` and it does not disable the notification. */
  method AnnounceCompany(ghost o0: map<Id, Ordem>, ghost n0: map<Id, Notificacao>, empresas: map<Id, Empresa>,
                         ghost swept: set<Id>, e: Id, n: nat, notifs: map<Id, Notificacao>, ghost noticeOf: map<Id, Id>)
    returns (notifs': map<Id, Notificacao>, ghost noticeOf': map<Id, Id>)
    requires e !in swept && n == |ActiveIds(o0, e)|
    requires AnnouncedOnce(n0, notifs, o0, AnnouncedIn(o0, empresas, swept), noticeOf)
    ensures AnnouncedOnce(n0, notifs', o0, AnnouncedIn(o0, empresas, swept + {e}), noticeOf')
  {
    ghost var es := AnnouncedIn(o0, empresas, swept);
    AnnouncedInStep(o0, empresas, swept, e);
    notifs', noticeOf' := notifs, noticeOf;
    if n > 0 {
      var k;
      notifs', k := Notify(notifs, empresas, e, SweepMessage(n), Some(SweepLink), FinalizacaoAutomatica);
      if k.Some? {
        AnnouncedOnceStep(n0, notifs, o0, es, noticeOf, e, k.value);
        noticeOf' := noticeOf[e := k.value];
      }
    }
  }

  /** One pass of the loop body for a due company, on the tables as values. */
  method SweepCompany(ghost o0: map<Id, Ordem>, ghost p0: map<Id, Pagamento>, ghost n0: map<Id, Notificacao>,
                      empresas: map<Id, Empresa>, now: int, ghost swept: set<Id>, e: Id,
                      ordens: map<Id, Ordem>, pags: map<Id, Pagamento>, notifs: map<Id, Notificacao>,
                      ghost paymentOf: map<Id, Id>, ghost noticeOf: map<Id, Id>)
    returns (ordens': map<Id, Ordem>, pags': map<Id, Pagamento>, notifs': map<Id, Notificacao>,
             ghost paymentOf': map<Id, Id>, ghost noticeOf': map<Id, Id>)
    requires e !in swept
    requires SweptUpTo(o0, p0, n0, empresas, now, swept, ordens, pags, notifs, paymentOf, noticeOf)
    ensures SweptUpTo(o0, p0, n0, empresas, now, swept + {e}, ordens', pags', notifs', paymentOf', noticeOf')
  {
    UntouchedCompany(o0, swept, e, now);
    ghost var m;
    var n;
    ordens', pags', n, m := FinalizeOrdens(ordens, pags, e, now);
    FinalizeSetTwice(o0, ActiveOf(o0, swept), ActiveIds(o0, e), now);
    PaidOnceCompose(p0, pags, pags', o0, ActiveOf(o0, swept), ActiveIds(o0, e), now, paymentOf, m);
    paymentOf' := paymentOf + m;
    notifs', noticeOf' := AnnounceCompany(o0, n0, empresas, swept, e, n, notifs, noticeOf);
  }

  /** The loop over the companies, on the tables as values. */
  method SweepCompanies(empresas: map<Id, Empresa>, o0: map<Id, Ordem>, p0: map<Id, Pagamento>,
                        n0: map<Id, Notificacao>, clock: int, now: int)
    returns (ordens: map<Id, Ordem>, pags: map<Id, Pagamento>, notifs: map<Id, Notificacao>,
             ghost paymentOf: map<Id, Id>, ghost noticeOf: map<Id, Id>)
    ensures SweptUpTo(o0, p0, n0, empresas, now, DueSet(empresas, clock), ordens, pags, notifs, paymentOf, noticeOf)
  {
    var rest := set e | e in empresas && Eligible(empresas[e]);
    ghost var swept: set<Id> := {};
    ordens, pags, notifs, paymentOf, noticeOf := o0, p0, n0, map[], map[];
    SweptUpToStart(o0, p0, n0, empresas, now);
    while rest != {}
      invariant swept == DueSet(empresas, clock) - rest
      invariant SweptUpTo(o0, p0, n0, empresas, now, swept, ordens, pags, notifs, paymentOf, noticeOf)
      decreases rest
    {
      var e :| e in rest;
      if Due(empresas[e], clock) {
        ordens, pags, notifs, paymentOf, noticeOf :=
          SweepCompany(o0, p0, n0, empresas, now, swept, e, ordens, pags, notifs, paymentOf, noticeOf);
        swept := swept + {e};
      }
      rest := rest - {e};
    }
    assert swept == DueSet(empresas, clock);
  }

  /** Finalizing orders and adding payments of existing orders keeps the tables valid. */
  lemma ValidAfterSweep(t: Tables, ks: set<Id>, pags: map<Id, Pagamento>, paymentOf: map<Id, Id>, now: int)
    requires ValidTables(t)
    requires PaidOnce(t.pagamentos, pags, t.ordens, ks, paymentOf)
    ensures ValidTables(t.(ordens := FinalizeSet(t.ordens, ks, now), pagamentos := pags))
  {
    var t' := t.(ordens := FinalizeSet(t.ordens, ks, now), pagamentos := pags);
    forall k | k in t'.ordens ensures OrdemResolves(t', t'.ordens[k]) {
      assert OrdemResolves(t, t.ordens[k]);
    }
    forall j | j in pags ensures pags[j].ordemId in t'.ordens {
      if j in t.pagamentos {
        assert pags[j] == t.pagamentos[j];
      }
    }
  }

  /** Stores the swept tables: the finalized orders and the new payments keep the store valid. */
  method WriteSweep(db: Db, ghost ks: set<Id>, now: int, ordens: map<Id, Ordem>, pags: map<Id, Pagamento>,
                    notifs: map<Id, Notificacao>, ghost paymentOf: map<Id, Id>)
    requires db.Valid()
    requires ordens == FinalizeSet(db.ordens, ks, now)
    requires PaidOnce(db.pagamentos, pags, db.ordens, ks, paymentOf)
    modifies db`ordens, db`pagamentos, db`notificacoes
    ensures db.Valid()
    ensures db.ordens == ordens && db.pagamentos == pags && db.notificacoes == notifs
  {
    ghost var t := db.Snapshot();
    ValidAfterSweep(t, ks, pags, paymentOf, now);
    db.ordens := ordens;
    db.pagamentos := pags;
    db.notificacoes := notifs;
    assert db.Snapshot() == t.(ordens := FinalizeSet(t.ordens, ks, now), pagamentos := pags);
  }

  /** processarFinalizacoesAutomaticas: `clock` is the current time in minutes after
      midnight and `now` the timestamp written to `dataFim`. The ghost results name the
      new records: `paymentOf` maps each finalized order to its new payment, `noticeOf`
      each announced company to its new notification. */
  method ProcessarFinalizacoesAutomaticas(db: Db, clock: int, now: int)
    returns (ghost paymentOf: map<Id, Id>, ghost noticeOf: map<Id, Id>)
    requires db.Valid()
    modifies db`ordens, db`pagamentos, db`notificacoes
    ensures db.Valid()
    ensures SweptUpTo(old(db.ordens), old(db.pagamentos), old(db.notificacoes), db.empresas, now,
                      DueSet(db.empresas, clock), db.ordens, db.pagamentos, db.notificacoes, paymentOf, noticeOf)
  {
    var ordens, pags, notifs;
    ordens, pags, notifs, paymentOf, noticeOf := SweepCompanies(db.empresas, db.ordens, db.pagamentos, db.notificacoes, clock, now);
    WriteSweep(db, ActiveOf(old(db.ordens), DueSet(db.empresas, clock)), now, ordens, pags, notifs, paymentOf);
  }

  /** Only orders of due companies change, and only the active ones: every other order,
      including those of companies without `finalizacaoAutomatica`, is left as it was. */
  lemma SweepTouchesOnlyDue(ordens: map<Id, Ordem>, empresas: map<Id, Empresa>, clock: int, now: int, k: Id)
    requires k in ordens
    ensures var swept := FinalizeSet(ordens, Targets(ordens, empresas, clock), now);
      if ordens[k].empresaId in empresas && Due(empresas[ordens[k].empresaId], clock) && Active(ordens[k].status)
      then swept[k].status == Finalizado && swept[k].dataFim == Some(now)
      else swept[k] == ordens[k]
  {
  }

  /** After the sweep no due company has an active order left. */
  lemma SweepLeavesNoActive(ordens: map<Id, Ordem>, empresas: map<Id, Empresa>, clock: int, now: int, e: Id)
    requires e in empresas && Due(empresas[e], clock)
    ensures ActiveIds(FinalizeSet(ordens, Targets(ordens, empresas, clock), now), e) == {}
  {
    var swept := FinalizeSet(ordens, Targets(ordens, empresas, clock), now);
    forall k | k in swept && swept[k].empresaId == e ensures !Active(swept[k].status) {
      assert k in Targets(ordens, empresas, clock) || !Active(ordens[k].status);
    }
  }
}
