/**
 * Customers (backend/dist/controllers/clienteController.js): a customer needs a name,
 * no two customers of a company share a given email or phone, an update changes only
 * the fields supplied, and a customer with orders or vehicles cannot be deleted.
 */
module Customers {
  import opened Common
  import opened Store

  predicate InTenant(clientes: map<Id, Cliente>, empresaId: Id, id: Id) {
    id in clientes && clientes[id].empresaId == empresaId
  }

  /** One branch of the `OR` list: `...(email ? [{ email }] : [])` and likewise the phone.
      With neither given the list is empty, and an empty `OR` matches no one. */
  predicate SharesContact(c: Cliente, email: Option<string>, telefone: Option<string>) {
    (Truthy(email) && c.email == email) || (Truthy(telefone) && c.telefone == telefone)
  }

  /** Another customer of the company (other than `except`) has the email or the phone. */
  predicate DuplicateContact(clientes: map<Id, Cliente>, empresaId: Id, email: Option<string>,
                             telefone: Option<string>, except: Option<Id>) {
    exists k :: k in clientes && clientes[k].empresaId == empresaId && Some(k) != except && SharesContact(clientes[k], email, telefone)
  }

  /** Within a company, a non-empty email or phone belongs to one customer at most. */
  predicate ContactsUnique(clientes: map<Id, Cliente>) {
    forall a, b :: a in clientes && b in clientes && a != b && clientes[a].empresaId == clientes[b].empresaId ==>
      && (Truthy(clientes[a].email) ==> clientes[a].email != clientes[b].email)
      && (Truthy(clientes[a].telefone) ==> clientes[a].telefone != clientes[b].telefone)
  }

  /** Writing a customer record keeps the tables valid: keys are only added or kept. */
  lemma ValidAfterClienteWrite(t: Tables, id: Id, c: Cliente)
    requires ValidTables(t)
    ensures ValidTables(t.(clientes := t.clientes[id := c]))
  {
    var t' := t.(clientes := t.clientes[id := c]);
    forall k | k in t'.ordens ensures OrdemResolves(t', t'.ordens[k]) {
      assert OrdemResolves(t, t.ordens[k]);
    }
  }

  /** The customer is referenced by orders (`_count.ordens`) or vehicles (`_count.veiculos`). */
  predicate HasOrdensOrVeiculos(ordens: map<Id, Ordem>, veiculos: map<Id, Veiculo>, id: Id) {
    (exists k :: k in ordens && ordens[k].clienteId == id) || (exists k :: k in veiculos && veiculos[k].clienteId == id)
  }

  /** Removing a customer without orders or vehicles keeps the tables valid. */
  lemma ValidAfterClienteRemove(t: Tables, id: Id)
    requires ValidTables(t) && !HasOrdensOrVeiculos(t.ordens, t.veiculos, id)
    ensures ValidTables(t.(clientes := t.clientes - {id}))
  {
    var t' := t.(clientes := t.clientes - {id});
    forall k | k in t'.ordens ensures OrdemResolves(t', t'.ordens[k]) {
      assert OrdemResolves(t, t.ordens[k]);
      assert t.ordens[k].clienteId != id;
    }
    forall k | k in t'.veiculos ensures t'.veiculos[k].clienteId in t'.clientes {
      assert t.veiculos[k].clienteId != id;
    }
  }

  datatype CreateClienteRequest = CreateClienteRequest(nome: Option<string>, telefone: Option<string>, email: Option<string>)

  function NewCliente(empresaId: Id, req: CreateClienteRequest): Cliente
    requires Truthy(req.nome)
  {
    Cliente(empresaId, req.nome.value, req.telefone, req.email, true)
  }

  /** createCliente: 400 without a name, 400 when a customer of the company already has
      the email or the phone; otherwise one new customer. */
  method CreateCliente(db: Db, empresaId: Id, req: CreateClienteRequest) returns (r: Result<Id>)
    requires db.Valid()
    modifies db`clientes
    ensures db.Valid()
    ensures r.Err? <==> !Truthy(req.nome) || DuplicateContact(old(db.clientes), empresaId, req.email, req.telefone, None)
    ensures r.Err? ==> r.failure == BadRequest && db.clientes == old(db.clientes)
    ensures r.Ok? ==> r.value !in old(db.clientes) && db.clientes == old(db.clientes)[r.value := NewCliente(empresaId, req)]
  {
    if !Truthy(req.nome) {
      return Err(BadRequest);
    }
    if DuplicateContact(db.clientes, empresaId, req.email, req.telefone, None) {
      return Err(BadRequest);
    }
    var c := NewCliente(empresaId, req);
    var k := FreshKey(db.clientes);
    ghost var t := db.Snapshot();
    ValidAfterClienteWrite(t, k, c);
    db.clientes := db.clientes[k := c];
    assert db.Snapshot() == t.(clientes := t.clientes[k := c]);
    r := Ok(k);
  }

  /** The duplicate test refuses exactly what would break uniqueness: a created customer
      keeps every email and phone of the company unique. */
  lemma CreateKeepsContactsUnique(clientes: map<Id, Cliente>, empresaId: Id, req: CreateClienteRequest, k: Id)
    requires ContactsUnique(clientes) && k !in clientes && Truthy(req.nome)
    requires !DuplicateContact(clientes, empresaId, req.email, req.telefone, None)
    ensures ContactsUnique(clientes[k := NewCliente(empresaId, req)])
  {
    var c := NewCliente(empresaId, req);
    var m := clientes[k := c];
    forall a, b | a in m && b in m && a != b && m[a].empresaId == m[b].empresaId
      ensures Truthy(m[a].email) ==> m[a].email != m[b].email
      ensures Truthy(m[a].telefone) ==> m[a].telefone != m[b].telefone
    {
      if a == k {
        assert !SharesContact(clientes[b], req.email, req.telefone);
      } else if b == k {
        assert !SharesContact(clientes[a], req.email, req.telefone);
      }
    }
  }

  datatype UpdateClienteRequest = UpdateClienteRequest(nome: Option<string>, telefone: Input<string>, email: Input<string>, ativo: Input<bool>)

  /** A given value as an option (the value the duplicate test sees). */
  function Given(i: Input<string>): Option<string> {
    if i.Value? then Some(i.value) else None
  }

  /** The update's `data`: name when truthy, phone, email and flag when given. */
  function PatchCliente(c: Cliente, req: UpdateClienteRequest): Cliente {
    c.(nome := if Truthy(req.nome) then req.nome.value else c.nome,
       telefone := Assigned(c.telefone, req.telefone),
       email := Assigned(c.email, req.email),
       ativo := if req.ativo.Value? then req.ativo.value else c.ativo)
  }

  /** The duplicate test of updateCliente runs only when an email or a phone is truthy. */
  predicate UpdateDuplicate(clientes: map<Id, Cliente>, empresaId: Id, id: Id, req: UpdateClienteRequest) {
    (TruthyInput(req.email) || TruthyInput(req.telefone)) &&
    DuplicateContact(clientes, empresaId, Given(req.email), Given(req.telefone), Some(id))
  }

  /** updateCliente: 404 outside the tenant, 400 when another customer of the company has
      the given email or phone (the customer itself does not count), 500 when the update
      writes a `null` flag, which the required column refuses; otherwise the patch. */
  method UpdateCliente(db: Db, empresaId: Id, id: Id, req: UpdateClienteRequest) returns (r: Result<Id>)
    requires db.Valid()
    modifies db`clientes
    ensures db.Valid()
    ensures !InTenant(old(db.clientes), empresaId, id) ==> r == Err(NotFound)
    ensures InTenant(old(db.clientes), empresaId, id) && UpdateDuplicate(old(db.clientes), empresaId, id, req) ==> r == Err(BadRequest)
    ensures (InTenant(old(db.clientes), empresaId, id) && !UpdateDuplicate(old(db.clientes), empresaId, id, req)
             && req.ativo.Null?) ==> r == Err(ServerError)
    ensures r.Ok? <==>
      InTenant(old(db.clientes), empresaId, id) && !UpdateDuplicate(old(db.clientes), empresaId, id, req) && !req.ativo.Null?
    ensures r.Err? ==> db.clientes == old(db.clientes)
    ensures r.Ok? ==> r.value == id && db.clientes == old(db.clientes)[id := PatchCliente(old(db.clientes)[id], req)]
  {
    if !InTenant(db.clientes, empresaId, id) {
      return Err(NotFound);
    }
    if UpdateDuplicate(db.clientes, empresaId, id, req) {
      return Err(BadRequest);
    }
    if req.ativo.Null? {
      return Err(ServerError);
    }
    var c := PatchCliente(db.clientes[id], req);
    ghost var t := db.Snapshot();
    ValidAfterClienteWrite(t, id, c);
    db.clientes := db.clientes[id := c];
    assert db.Snapshot() == t.(clientes := t.clientes[id := c]);
    r := Ok(id);
  }

  /** A customer's own email or phone never counts as a duplicate of itself. */
  lemma OwnContactIsNoDuplicate(clientes: map<Id, Cliente>, id: Id, req: UpdateClienteRequest)
    requires ContactsUnique(clientes) && id in clientes
    requires Given(req.email) == clientes[id].email && Given(req.telefone) == clientes[id].telefone
    ensures !UpdateDuplicate(clientes, clientes[id].empresaId, id, req)
  {
  }

  /** An accepted update keeps every email and phone of the company unique. */
  lemma UpdateKeepsContactsUnique(clientes: map<Id, Cliente>, id: Id, req: UpdateClienteRequest)
    requires ContactsUnique(clientes) && id in clientes
    requires !UpdateDuplicate(clientes, clientes[id].empresaId, id, req)
    ensures ContactsUnique(clientes[id := PatchCliente(clientes[id], req)])
  {
    var e := clientes[id].empresaId;
    var c := PatchCliente(clientes[id], req);
    var m := clientes[id := c];
    forall a, b | a in m && b in m && a != b && m[a].empresaId == m[b].empresaId
      ensures Truthy(m[a].email) ==> m[a].email != m[b].email
      ensures Truthy(m[a].telefone) ==> m[a].telefone != m[b].telefone
    {
      if a == id || b == id {
        var other := if a == id then b else a;
        assert other in clientes && clientes[other].empresaId == e && Some(other) != Some(id);
        if TruthyInput(req.email) || TruthyInput(req.telefone) {
          assert !SharesContact(clientes[other], Given(req.email), Given(req.telefone));
        }
      }
    }
  }

  /** deleteCliente: 404 outside the tenant, 400 while the customer has orders or
      vehicles; otherwise it is removed. */
  method DeleteCliente(db: Db, empresaId: Id, id: Id) returns (r: Result<Id>)
    requires db.Valid()
    modifies db`clientes
    ensures db.Valid()
    ensures !InTenant(old(db.clientes), empresaId, id) ==> r == Err(NotFound)
    ensures InTenant(old(db.clientes), empresaId, id) && HasOrdensOrVeiculos(db.ordens, db.veiculos, id) ==> r == Err(BadRequest)
    ensures r.Ok? <==> InTenant(old(db.clientes), empresaId, id) && !HasOrdensOrVeiculos(db.ordens, db.veiculos, id)
    ensures r.Err? ==> db.clientes == old(db.clientes)
    ensures r.Ok? ==> r.value == id && db.clientes == old(db.clientes) - {id}
  {
    if !InTenant(db.clientes, empresaId, id) {
      return Err(NotFound);
    }
    if HasOrdensOrVeiculos(db.ordens, db.veiculos, id) {
      return Err(BadRequest);
    }
    ghost var t := db.Snapshot();
    ValidAfterClienteRemove(t, id);
    db.clientes := db.clientes - {id};
    assert db.Snapshot() == t.(clientes := t.clientes - {id});
    r := Ok(id);
  }
}
