/**
 * In-app notifications (backend/src/services/notificationService.ts and its
 * compiled twin backend/dist/services/notificationService.js): a notification
 * is stored only when the company exists and its preference map enables the
 * type; `ordemDeletada` is off by default, every other type on.
 */
module Notifications {
  import opened Common
  import opened Store

  /** The preference column read as a map: anything that is not a JSON object
      (null, a scalar) reads as empty; an array has no named entries either. */
  function PrefsMap(prefs: Json): (m: map<string, Json>)
    ensures prefs.JObject? ==> m == prefs.fields
    ensures !prefs.JObject? ==> m == map[]
  {
    if prefs.JObject? then prefs.fields else map[]
  }

  /** The gate: `ordemDeletada` must be exactly `true`; any other type is on
      unless its entry is exactly `false`. */
  predicate IsEnabled(prefs: Json, t: NotificationType) {
    var m := PrefsMap(prefs);
    var key := NotificationTypeName(t);
    if t == OrdemDeletada then key in m && m[key] == JBool(true)
    else !(key in m && m[key] == JBool(false))
  }

  /** With no stored preference for a type, the defaults apply: only `ordemDeletada` is off. */
  lemma DefaultGate(prefs: Json, t: NotificationType)
    requires NotificationTypeName(t) !in PrefsMap(prefs)
    ensures IsEnabled(prefs, t) <==> t != OrdemDeletada
  {
  }

  /** A non-object preference column behaves exactly like an empty object. */
  lemma NonObjectPrefsAreEmpty(prefs: Json, t: NotificationType)
    requires !prefs.JObject?
    ensures IsEnabled(prefs, t) == IsEnabled(JObject(map[]), t)
  {
  }

  /** Only the boolean `true` enables `ordemDeletada`; only `false` disables the others
      (a string "false" or a 0 does not). */
  lemma GateIsStrict(fields: map<string, Json>, t: NotificationType, v: Json)
    requires v != JBool(true) && v != JBool(false)
    ensures IsEnabled(JObject(fields[NotificationTypeName(t) := v]), t) <==> t != OrdemDeletada
  {
  }

  /** The conditional insert of createNotification, on the notification table as a value:
      nothing when the company is missing or the type is disabled, otherwise exactly one
      unread record with the given data under a fresh id. */
  method Notify(notifs: map<Id, Notificacao>, empresas: map<Id, Empresa>, empresaId: Id,
                mensagem: string, link: Option<string>, t: NotificationType)
    returns (after: map<Id, Notificacao>, created: Option<Id>)
    ensures created.None? <==>
      (empresaId !in empresas || !IsEnabled(empresas[empresaId].notificationPreferences, t))
    ensures created.None? ==> after == notifs
    ensures created.Some? ==>
      && created.value !in notifs
      && after == notifs[created.value := Notificacao(empresaId, mensagem, link, t, false)]
  {
    if empresaId !in empresas {
      return notifs, None;
    }
    var prefs := empresas[empresaId].notificationPreferences;
    if !IsEnabled(prefs, t) {
      return notifs, None;
    }
    var k := FreshKey(notifs);
    after := notifs[k := Notificacao(empresaId, mensagem, link, t, false)];
    created := Some(k);
  }

  /** createNotification: `Notify` applied to the store. */
  method CreateNotification(db: Db, empresaId: Id, mensagem: string, link: Option<string>, t: NotificationType)
    returns (created: Option<Id>)
    modifies db`notificacoes
    ensures created.None? <==>
      (empresaId !in db.empresas || !IsEnabled(db.empresas[empresaId].notificationPreferences, t))
    ensures created.None? ==> db.notificacoes == old(db.notificacoes)
    ensures created.Some? ==>
      && created.value !in old(db.notificacoes)
      && db.notificacoes == old(db.notificacoes)[created.value := Notificacao(empresaId, mensagem, link, t, false)]
    ensures NotifiedIf(old(db.notificacoes), db.notificacoes, db.empresas, empresaId, mensagem, link, t)
  {
    var after;
    after, created := Notify(db.notificacoes, db.empresas, empresaId, mensagem, link, t);
    db.notificacoes := after;
  }

  /** What a handler's follow-up createNotification call leaves behind: one new unread
      record when the company exists and enables the type, otherwise nothing. */
  ghost predicate NotifiedIf(before: map<Id, Notificacao>, after: map<Id, Notificacao>, empresas: map<Id, Empresa>,
                             empresaId: Id, mensagem: string, link: Option<string>, t: NotificationType)
  {
    if empresaId in empresas && IsEnabled(empresas[empresaId].notificationPreferences, t)
    then exists k: Id :: k !in before && after == before[k := Notificacao(empresaId, mensagem, link, t, false)]
    else after == before
  }

  /** The company's unread notifications. */
  function UnreadOf(notifs: map<Id, Notificacao>, empresaId: Id): (ks: set<Id>)
    ensures forall k :: k in ks <==> k in notifs && notifs[k].empresaId == empresaId && !notifs[k].lida
  {
    set k | k in notifs && notifs[k].empresaId == empresaId && !notifs[k].lida
  }

  /** countUnreadNotifications: the number of the company's notifications with lida = false. */
  function CountUnread(notifs: map<Id, Notificacao>, empresaId: Id): nat {
    |UnreadOf(notifs, empresaId)|
  }

  /** Storing a new record raises the unread count of its company by one and leaves
      every other company's count alone. */
  lemma CountUnreadAfterInsert(notifs: map<Id, Notificacao>, k: Id, n: Notificacao, empresaId: Id)
    requires k !in notifs
    ensures CountUnread(notifs[k := n], empresaId) ==
      CountUnread(notifs, empresaId) + (if n.empresaId == empresaId && !n.lida then 1 else 0)
  {
    var before := UnreadOf(notifs, empresaId);
    var after := UnreadOf(notifs[k := n], empresaId);
    if n.empresaId == empresaId && !n.lida {
      assert after == before + {k};
    } else {
      assert after == before;
    }
  }
}
