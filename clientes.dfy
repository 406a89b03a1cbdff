/**
 * The customers page of app/admin/clientes/page.tsx: an in-memory list of
 * customers with a search box, add/edit/delete and the total of all
 * purchases.
 */
module Clientes {
  import opened Js
  import opened Lists

  datatype Cliente = Cliente(
    id: int,
    nome: string,
    email: string,
    telefone: string,
    cpf: string,
    dataCadastro: string,
    totalCompras: real)

  function ClienteId(c: Cliente): int { c.id }

  function TotalComprasDe(c: Cliente): real { c.totalCompras }

  /** The customers the page starts with. */
  const ClientesIniciais: seq<Cliente> := [
    Cliente(1, "João Silva", "joao.silva@email.com", "(11) 98765-4321", "123.456.789-00", "2024-01-15", 1250.0),
    Cliente(2, "Maria Santos", "maria.santos@email.com", "(11) 97654-3210", "987.654.321-00", "2024-02-20", 890.5),
    Cliente(3, "Pedro Oliveira", "pedro.oliveira@email.com", "(11) 96543-2109", "456.789.123-00", "2024-03-10", 2340.0),
    Cliente(4, "Ana Costa", "ana.costa@email.com", "(11) 95432-1098", "321.654.987-00", "2024-03-25", 560.0)
  ]

  // ---------------------------------------------------------------------
  // Search
  // ---------------------------------------------------------------------

  /** The search predicate: nome or email contains the term, both lowercased; telefone contains the term as typed. */
  predicate Corresponde(c: Cliente, termo: string) {
    || Includes(Lower(c.nome), Lower(termo))
    || Includes(Lower(c.email), Lower(termo))
    || Includes(c.telefone, termo)
  }

  function Termo(termo: string): Cliente -> bool {
    (c: Cliente) => Corresponde(c, termo)
  }

  /** `filteredClientes`: the matching customers, in list order. */
  function Busca(cs: seq<Cliente>, termo: string): seq<Cliente> {
    Filter(cs, Termo(termo))
  }

  /** An empty search box shows every customer. */
  lemma BuscaVazia(cs: seq<Cliente>)
    ensures Busca(cs, "") == cs
  {
    forall i | 0 <= i < |cs| ensures Corresponde(cs[i], "") {
      IncludesEmpty(cs[i].telefone);
    }
    FilterAll(cs, Termo(""));
  }

  /** A customer is listed exactly when it matches. */
  lemma BuscaMembros(cs: seq<Cliente>, termo: string)
    ensures forall i :: 0 <= i < |cs| ==> (cs[i] in Busca(cs, termo) <==> Corresponde(cs[i], termo))
  {
    FilterKeepsIff(cs, Termo(termo));
  }

  /** For a term typed in lower case already, the search is the same as for any casing of nome and email. */
  lemma BuscaIgnoraCaixaSemTelefone(c: Cliente, termo: string)
    requires !Includes(c.telefone, termo) && !Includes(c.telefone, Lower(termo))
    ensures Corresponde(c, termo) == Corresponde(c, Lower(termo))
  {
    LowerIdempotent(termo);
  }

  /**
   * The telefone match is case-sensitive: a customer whose telefone holds
   * "A" is found by "A" but not by "a".
   */
  lemma BuscaTelefoneSensivelACaixa(c: Cliente)
    requires c.nome == "" && c.email == "" && c.telefone == "A"
    ensures Corresponde(c, "A") && !Corresponde(c, "a")
  {
    assert OccursAt(c.telefone, "A", 0);
    IncludesIff(c.telefone, "A");
    var a := "a";
    assert Lower(a) == a;
    assert Lower(c.nome) == [] && Lower(c.email) == [];
    NotIncludesChar([], a, 0);
    NotIncludesChar(c.telefone, a, 0);
  }

  // ---------------------------------------------------------------------
  // Purchases
  // ---------------------------------------------------------------------

  /** `totalComprasGeral`: the purchases of every customer, added from the left. */
  function TotalComprasGeral(cs: seq<Cliente>): real {
    Sum(cs, TotalComprasDe)
  }

  /** A new customer adds exactly its own purchases to the total. */
  lemma TotalComprasAdicionar(cs: seq<Cliente>, c: Cliente)
    ensures TotalComprasGeral(cs + [c]) == TotalComprasGeral(cs) + c.totalCompras
  {
    SumSnoc(cs, c, TotalComprasDe);
  }

  /** The total is the sum over any split of the list. */
  lemma TotalComprasPartes(a: seq<Cliente>, b: seq<Cliente>)
    ensures TotalComprasGeral(a + b) == TotalComprasGeral(a) + TotalComprasGeral(b)
  {
    SumAppend(a, b, TotalComprasDe);
  }

  /** With unique ids, deleting a customer takes exactly its purchases off the total. */
  lemma TotalComprasExcluir(cs: seq<Cliente>, i: int)
    requires UniqueKeys(cs, ClienteId) && 0 <= i < |cs|
    ensures TotalComprasGeral(RemoveKey(cs, cs[i].id, ClienteId)) == TotalComprasGeral(cs) - cs[i].totalCompras
  {
    RemoveKeyAt(cs, i, ClienteId);
    assert cs == cs[..i] + [cs[i]] + cs[i + 1..];
    TotalComprasPartes(cs[..i] + [cs[i]], cs[i + 1..]);
    TotalComprasAdicionar(cs[..i], cs[i]);
    TotalComprasPartes(cs[..i], cs[i + 1..]);
  }

  // ---------------------------------------------------------------------
  // The page
  // ---------------------------------------------------------------------

  class ClientesPage {
    var clientes: seq<Cliente>
    var searchTerm: string
    var dialogOpen: bool
    var editingCliente: Option<Cliente>

    /** Customer ids are unique; every handler keeps them so. */
    predicate Valid()
      reads this
    {
      UniqueKeys(clientes, ClienteId)
    }

    constructor ()
      ensures Valid()
      ensures clientes == ClientesIniciais && searchTerm == "" && !dialogOpen && editingCliente.None?
    {
      clientes := ClientesIniciais;
      searchTerm := "";
      dialogOpen := false;
      editingCliente := None;
    }

    /** The customers shown for the current search. */
    function Filtered(): seq<Cliente>
      reads this
    {
      Busca(clientes, searchTerm)
    }

    method SetSearchTerm(termo: string)
      modifies this`searchTerm
      ensures searchTerm == termo
    {
      searchTerm := termo;
    }

    /** `handleAddCliente`: the record is appended under `Math.max(...ids, 0) + 1`. */
    method HandleAddCliente(c: Cliente)
      requires Valid()
      modifies this`clientes, this`dialogOpen
      ensures Valid()
      ensures clientes == old(clientes) + [c.(id := NextId(old(clientes), ClienteId))]
      ensures TotalComprasGeral(clientes) == TotalComprasGeral(old(clientes)) + c.totalCompras
      ensures !dialogOpen
    {
      var novo := c.(id := NextId(clientes, ClienteId));
      AppendNextIdUnique(clientes, novo, ClienteId);
      TotalComprasAdicionar(clientes, novo);
      clientes := clientes + [novo];
      dialogOpen := false;
    }

    /** `handleEditCliente`: replace by id and close the dialog. */
    method HandleEditCliente(c: Cliente)
      requires Valid()
      modifies this`clientes, this`dialogOpen, this`editingCliente
      ensures Valid()
      ensures clientes == ReplaceByKey(old(clientes), c, ClienteId)
      ensures !dialogOpen && editingCliente.None?
    {
      ReplaceByKeyUnique(clientes, c, ClienteId);
      clientes := ReplaceByKey(clientes, c, ClienteId);
      dialogOpen := false;
      editingCliente := None;
    }

    /** `handleDeleteCliente`; `confirmed` is the answer to `confirm(...)`. */
    method HandleDeleteCliente(id: int, confirmed: bool)
      requires Valid()
      modifies this`clientes
      ensures Valid()
      ensures confirmed ==> clientes == RemoveKey(old(clientes), id, ClienteId)
      ensures !confirmed ==> clientes == old(clientes)
    {
      if confirmed {
        FilterUnique(clientes, KeyIsNot(ClienteId, id), ClienteId);
        clientes := RemoveKey(clientes, id, ClienteId);
      }
    }

    method OpenEditDialog(c: Cliente)
      modifies this`editingCliente, this`dialogOpen
      ensures editingCliente == Some(c) && dialogOpen
    {
      editingCliente := Some(c);
      dialogOpen := true;
    }

    method OpenAddDialog()
      modifies this`editingCliente, this`dialogOpen
      ensures editingCliente.None? && dialogOpen
    {
      editingCliente := None;
      dialogOpen := true;
    }
  }
}
