/**
 * Vehicle categories (backend/dist/controllers/categoriaController.js): listing a
 * company's categories returns them ordered by name, and a company that has none first
 * gets the seven default ones, each created by an upsert on the (name, company) key.
 */
module Categories {
  import opened Common
  import opened Store

  const DefaultCategoryNames: seq<string> := ["Moto", "Hatch", "Sedan", "SUV", "Picape", "Caminhonete", "Outros"]

  /** The company has a category of that name (the `nome_empresaId` key). */
  predicate HasCategoria(cats: map<Id, Categoria>, empresaId: Id, nome: string) {
    exists k :: k in cats && cats[k] == Categoria(empresaId, nome)
  }

  /** The database's unique key: within a company, one category per name. */
  predicate NamesUnique(cats: map<Id, Categoria>) {
    forall a, b :: a in cats && b in cats && a != b ==> cats[a] != cats[b]
  }

  function TenantIds(cats: map<Id, Categoria>, empresaId: Id): set<Id> {
    set k | k in cats && cats[k].empresaId == empresaId
  }

  /** One `upsert` with an empty `update`: an existing record is left as it is, otherwise
      one record is created under a fresh id; the id of the record is returned. */
  method UpsertCategoria(cats: map<Id, Categoria>, empresaId: Id, nome: string) returns (cats': map<Id, Categoria>, k: Id)
    ensures k in cats' && cats'[k] == Categoria(empresaId, nome)
    ensures HasCategoria(cats, empresaId, nome) ==> cats' == cats
    ensures !HasCategoria(cats, empresaId, nome) ==> k !in cats && cats' == cats[k := Categoria(empresaId, nome)]
    ensures NamesUnique(cats) ==> NamesUnique(cats')
  {
    if HasCategoria(cats, empresaId, nome) {
      cats' := cats;
      k :| k in cats && cats[k] == Categoria(empresaId, nome);
    } else {
      k := FreshKey(cats);
      cats' := cats[k := Categoria(empresaId, nome)];
    }
  }

  /** After the first `i` upserts, starting from `cats`: those names are present, nothing
      that existed changed, and each added record is the company's, with one of those
      names, which it lacked. */
  predicate UpsertedUpTo(cats: map<Id, Categoria>, cur: map<Id, Categoria>, empresaId: Id, names: seq<string>, i: nat)
    requires i <= |names|
  {
    && (forall j :: 0 <= j < i ==> HasCategoria(cur, empresaId, names[j]))
    && (forall k :: k in cats ==> k in cur && cur[k] == cats[k])
    && (forall k :: k in cur && k !in cats ==>
         cur[k].empresaId == empresaId && cur[k].nome in names[..i] && !HasCategoria(cats, empresaId, cur[k].nome))
  }

  /** One more upsert extends the state by one name. */
  lemma UpsertStep(cats: map<Id, Categoria>, cur: map<Id, Categoria>, next: map<Id, Categoria>, k: Id,
                   empresaId: Id, names: seq<string>, i: nat)
    requires i < |names| && UpsertedUpTo(cats, cur, empresaId, names, i)
    requires k in next && next[k] == Categoria(empresaId, names[i])
    requires HasCategoria(cur, empresaId, names[i]) ==> next == cur
    requires !HasCategoria(cur, empresaId, names[i]) ==> k !in cur && next == cur[k := Categoria(empresaId, names[i])]
    ensures UpsertedUpTo(cats, next, empresaId, names, i + 1)
  {
    if HasCategoria(cats, empresaId, names[i]) {
      var w :| w in cats && cats[w] == Categoria(empresaId, names[i]);
      assert cur[w] == cats[w];
    }
    forall j | 0 <= j <= i ensures HasCategoria(next, empresaId, names[j]) {
      if j < i {
        assert HasCategoria(cur, empresaId, names[j]);
        var w :| w in cur && cur[w] == Categoria(empresaId, names[j]);
        assert next[w] == cur[w];
      }
    }
    assert names[..i + 1] == names[..i] + [names[i]];
  }

  /** The transaction of upserts, one per name in order. Every name is present afterwards,
      nothing that existed changes, and the only records added are the company's, each
      with a name it lacked; so for names that were all present it changes nothing. */
  method UpsertAll(cats: map<Id, Categoria>, empresaId: Id, names: seq<string>) returns (cats': map<Id, Categoria>)
    ensures forall n :: n in names ==> HasCategoria(cats', empresaId, n)
    ensures forall k :: k in cats ==> k in cats' && cats'[k] == cats[k]
    ensures forall k :: k in cats' && k !in cats ==>
      cats'[k].empresaId == empresaId && cats'[k].nome in names && !HasCategoria(cats, empresaId, cats'[k].nome)
    ensures (forall n :: n in names ==> HasCategoria(cats, empresaId, n)) ==> cats' == cats
    ensures NamesUnique(cats) ==> NamesUnique(cats')
    ensures forall k :: k in TenantIds(cats', empresaId) ==> k in TenantIds(cats, empresaId) || cats'[k].nome in names
  {
    cats' := cats;
    for i := 0 to |names|
      invariant UpsertedUpTo(cats, cats', empresaId, names, i)
      invariant (forall n :: n in names ==> HasCategoria(cats, empresaId, n)) ==> cats' == cats
      invariant NamesUnique(cats) ==> NamesUnique(cats')
    {
      var next, k := UpsertCategoria(cats', empresaId, names[i]);
      UpsertStep(cats, cats', next, k, empresaId, names, i);
      cats' := next;
    }
    assert names[..|names|] == names;
  }

  /** Code-unit lexicographic order on names (`orderBy: { nome: 'asc' }`). */
  predicate NomeLe(a: string, b: string)
    decreases |a|
  {
    |a| == 0 || (|b| > 0 && (a[0] < b[0] || (a[0] == b[0] && NomeLe(a[1..], b[1..]))))
  }

  lemma {:induction false} NomeLeTotal(a: string, b: string)
    ensures NomeLe(a, b) || NomeLe(b, a)
    decreases |a|
  {
    if |a| > 0 && |b| > 0 && a[0] == b[0] {
      NomeLeTotal(a[1..], b[1..]);
    }
  }

  type Entry = (Id, Categoria)

  predicate SortedByNome(list: seq<Entry>) {
    forall i :: 0 < i < |list| ==> NomeLe(list[i - 1].1.nome, list[i].1.nome)
  }

  predicate DistinctIds(list: seq<Entry>) {
    forall i, j :: 0 <= i < j < |list| ==> list[i].0 != list[j].0
  }

  /** Insertion into a list ordered by name: before the first entry whose name is not
      smaller. */
  function InsertByNome(list: seq<Entry>, x: Entry): (r: seq<Entry>)
    ensures |r| == |list| + 1
    decreases |list|
  {
    if |list| == 0 || NomeLe(x.1.nome, list[0].1.nome) then [x] + list
    else [list[0]] + InsertByNome(list[1..], x)
  }

  /** The inserted list holds the old entries and the new one, and nothing else. */
  lemma {:induction false} InsertByNomeElements(list: seq<Entry>, x: Entry)
    ensures forall y :: y in InsertByNome(list, x) <==> y in list || y == x
    ensures |list| > 0 ==> InsertByNome(list, x)[0] == x || InsertByNome(list, x)[0] == list[0]
    decreases |list|
  {
    if |list| > 0 && !NomeLe(x.1.nome, list[0].1.nome) {
      InsertByNomeElements(list[1..], x);
      assert list == [list[0]] + list[1..];
    }
  }

  /** Insertion is a permutation of the old entries plus the new one. */
  lemma {:induction false} InsertByNomePermutes(list: seq<Entry>, x: Entry)
    ensures multiset(InsertByNome(list, x)) == multiset(list) + multiset{x}
    decreases |list|
  {
    if |list| > 0 && !NomeLe(x.1.nome, list[0].1.nome) {
      InsertByNomePermutes(list[1..], x);
      assert list == [list[0]] + list[1..];
    }
  }

  /** Insertion keeps a list ordered by name. */
  lemma {:induction false} InsertByNomeSorted(list: seq<Entry>, x: Entry)
    requires SortedByNome(list)
    ensures SortedByNome(InsertByNome(list, x))
    decreases |list|
  {
    if |list| > 0 && !NomeLe(x.1.nome, list[0].1.nome) {
      var rest := InsertByNome(list[1..], x);
      InsertByNomeSorted(list[1..], x);
      InsertByNomeElements(list[1..], x);
      NomeLeTotal(x.1.nome, list[0].1.nome);
      assert |list| > 1 ==> NomeLe(list[0].1.nome, list[1].1.nome);
      assert NomeLe(list[0].1.nome, rest[0].1.nome);
    }
  }

  /** Insertion of an entry with a new id keeps the ids distinct. */
  lemma {:induction false} InsertByNomeDistinct(list: seq<Entry>, x: Entry)
    requires DistinctIds(list) && forall i :: 0 <= i < |list| ==> list[i].0 != x.0
    ensures DistinctIds(InsertByNome(list, x))
    decreases |list|
  {
    if |list| > 0 && !NomeLe(x.1.nome, list[0].1.nome) {
      var rest := InsertByNome(list[1..], x);
      InsertByNomeDistinct(list[1..], x);
      InsertByNomeElements(list[1..], x);
      forall j | 0 <= j < |rest| ensures rest[j].0 != list[0].0 {
        assert rest[j] in rest;
      }
    }
  }

  /** The `findMany` with `orderBy: { nome: 'asc' }`: every category of the company, each
      once, with its id, ordered by name. */
  method ListCategorias(cats: map<Id, Categoria>, empresaId: Id) returns (list: seq<Entry>)
    ensures SortedByNome(list) && DistinctIds(list)
    ensures forall i :: 0 <= i < |list| ==> list[i].0 in TenantIds(cats, empresaId) && list[i].1 == cats[list[i].0]
    ensures forall k :: k in TenantIds(cats, empresaId) ==> exists i :: 0 <= i < |list| && list[i].0 == k
  {
    var todo := TenantIds(cats, empresaId);
    list := [];
    while todo != {}
      invariant todo <= TenantIds(cats, empresaId)
      invariant SortedByNome(list) && DistinctIds(list)
      invariant forall i :: 0 <= i < |list| ==> list[i].0 in TenantIds(cats, empresaId) - todo && list[i].1 == cats[list[i].0]
      invariant forall k :: k in TenantIds(cats, empresaId) - todo ==> exists i :: 0 <= i < |list| && list[i].0 == k
      decreases todo
    {
      var k :| k in todo;
      var x := (k, cats[k]);
      InsertByNomeSorted(list, x);
      InsertByNomeDistinct(list, x);
      InsertByNomeElements(list, x);
      var list' := InsertByNome(list, x);
      forall i | 0 <= i < |list'|
        ensures list'[i].0 in TenantIds(cats, empresaId) - (todo - {k}) && list'[i].1 == cats[list'[i].0]
      {
        assert list'[i] in list';
      }
      forall j | j in TenantIds(cats, empresaId) - (todo - {k}) ensures exists i :: 0 <= i < |list'| && list'[i].0 == j {
        if j == k {
          assert x in list';
        } else {
          assert j in TenantIds(cats, empresaId) - todo;
          var i :| 0 <= i < |list| && list[i].0 == j;
          assert list[i] in list';
        }
      }
      list, todo := list', todo - {k};
    }
    assert TenantIds(cats, empresaId) - todo == TenantIds(cats, empresaId);
  }

  /** getCategorias: a company without categories first gets the defaults; the answer is
      the company's categories ordered by name. A company that has any is not changed. */
  method GetCategorias(db: Db, empresaId: Id) returns (list: seq<Entry>)
    modifies db`categorias
    ensures TenantIds(old(db.categorias), empresaId) != {} ==> db.categorias == old(db.categorias)
    ensures TenantIds(old(db.categorias), empresaId) == {} ==>
      && (forall n :: n in DefaultCategoryNames ==> HasCategoria(db.categorias, empresaId, n))
      && (forall k :: k in TenantIds(db.categorias, empresaId) ==> db.categorias[k].nome in DefaultCategoryNames)
    ensures forall k :: k in old(db.categorias) ==> k in db.categorias && db.categorias[k] == old(db.categorias)[k]
    ensures forall k :: k in db.categorias && k !in old(db.categorias) ==> db.categorias[k].empresaId == empresaId
    ensures NamesUnique(old(db.categorias)) ==> NamesUnique(db.categorias)
    ensures SortedByNome(list) && DistinctIds(list)
    ensures forall i :: 0 <= i < |list| ==> list[i].0 in TenantIds(db.categorias, empresaId) && list[i].1 == db.categorias[list[i].0]
    ensures forall k :: k in TenantIds(db.categorias, empresaId) ==> exists i :: 0 <= i < |list| && list[i].0 == k
  {
    if TenantIds(db.categorias, empresaId) == {} {
      db.categorias := UpsertAll(db.categorias, empresaId, DefaultCategoryNames);
    }
    list := ListCategorias(db.categorias, empresaId);
  }
}
