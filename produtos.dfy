/**
 * The products page of app/admin/produtos/page.tsx: an in-memory catalogue
 * with a search box, add/edit/delete and the low-stock count.
 */
module Produtos {
  import opened Js
  import opened Lists

  /** A product; `estoque` is what `parseInt` gave the dialog, so it may be NaN. */
  datatype Produto = Produto(
    id: int,
    nome: string,
    descricao: string,
    categoria: string,
    preco: real,
    estoque: JsInt)

  function ProdutoId(p: Produto): int { p.id }

  /** The products the page starts with. */
  const ProdutosIniciais: seq<Produto> := [
    Produto(1, "Vinho Tinto Reserva", "Cabernet Sauvignon, safra 2020", "Vinhos", 89.9, Int(15)),
    Produto(2, "Vinho Branco Seco", "Chardonnay, safra 2021", "Vinhos", 75.0, Int(20)),
    Produto(3, "Cerveja Artesanal IPA", "American IPA, 500ml", "Cervejas", 18.0, Int(30)),
    Produto(4, "Caipirinha", "Limão, cachaça artesanal", "Drinks", 18.0, Int(100)),
    Produto(5, "Tábua de Frios", "Queijos, salames, azeitonas", "Petiscos", 45.0, Int(20)),
    Produto(6, "Espumante Brut", "Método tradicional", "Vinhos", 95.0, Int(8))
  ]

  // ---------------------------------------------------------------------
  // Search
  // ---------------------------------------------------------------------

  /** The search predicate: nome or categoria contains the term, both lowercased. */
  predicate Corresponde(p: Produto, termo: string) {
    Includes(Lower(p.nome), Lower(termo)) || Includes(Lower(p.categoria), Lower(termo))
  }

  function Termo(termo: string): Produto -> bool {
    (p: Produto) => Corresponde(p, termo)
  }

  /** `filteredProdutos`: the matching products, in list order. */
  function Busca(ps: seq<Produto>, termo: string): seq<Produto> {
    Filter(ps, Termo(termo))
  }

  /** An empty search box shows every product. */
  lemma BuscaVazia(ps: seq<Produto>)
    ensures Busca(ps, "") == ps
  {
    forall i | 0 <= i < |ps| ensures Corresponde(ps[i], "") {
      IncludesEmpty(Lower(ps[i].nome));
    }
    FilterAll(ps, Termo(""));
  }

  /** The search ignores the case of the term. */
  lemma BuscaIgnoraCaixa(ps: seq<Produto>, termo: string)
    ensures Busca(ps, termo) == Busca(ps, Lower(termo))
  {
    LowerIdempotent(termo);
    FilterSame(ps, Termo(termo), Termo(Lower(termo)));
  }

  /** A product is listed exactly when it matches. */
  lemma BuscaMembros(ps: seq<Produto>, termo: string)
    ensures forall i :: 0 <= i < |ps| ==> (ps[i] in Busca(ps, termo) <==> Corresponde(ps[i], termo))
  {
    FilterKeepsIff(ps, Termo(termo));
  }

  // ---------------------------------------------------------------------
  // Low stock
  // ---------------------------------------------------------------------

  /** `produto.estoque < 10`; a NaN stock compares false and is never low. */
  predicate EstoqueBaixo(p: Produto) {
    match p.estoque
    case Int(v) => v < 10
    case NaN => false
  }

  function EstoqueBaixoF(): Produto -> bool {
    (p: Produto) => EstoqueBaixo(p)
  }

  /** The "Baixo Estoque" count. */
  function BaixoEstoque(ps: seq<Produto>): (n: nat)
    ensures n <= |ps|
  {
    |Filter(ps, EstoqueBaixoF())|
  }

  /** The count is non-zero exactly when some card is highlighted, since both use the same predicate. */
  lemma BaixoEstoqueDestaque(ps: seq<Produto>)
    ensures BaixoEstoque(ps) > 0 <==> exists i :: 0 <= i < |ps| && EstoqueBaixo(ps[i])
  {
    FilterNonEmpty(ps, EstoqueBaixoF());
  }

  /** Of the starting catalogue only "Espumante Brut" is low on stock. */
  lemma BaixoEstoqueInicial()
    ensures Filter(ProdutosIniciais, EstoqueBaixoF()) == [ProdutosIniciais[5]]
  {
    var ps := ProdutosIniciais;
    FilterAppend(ps[..5], [ps[5]], EstoqueBaixoF());
    assert ps == ps[..5] + [ps[5]];
    forall i | 0 <= i < 5 ensures !EstoqueBaixo(ps[..5][i]) { }
    FilterNone(ps[..5], EstoqueBaixoF());
  }

  /** A low-stock product added to the catalogue adds one to the count; any other adds nothing. */
  lemma BaixoEstoqueAdicionar(ps: seq<Produto>, p: Produto)
    ensures BaixoEstoque(ps + [p]) == BaixoEstoque(ps) + (if EstoqueBaixo(p) then 1 else 0)
  {
    FilterAppend(ps, [p], EstoqueBaixoF());
    assert Filter([p], EstoqueBaixoF()) == if EstoqueBaixo(p) then [p] else [];
  }

  // ---------------------------------------------------------------------
  // The page
  // ---------------------------------------------------------------------

  class ProdutosPage {
    var produtos: seq<Produto>
    var searchTerm: string
    var dialogOpen: bool
    var editingProduto: Option<Produto>

    /** Product ids are unique; every handler keeps them so. */
    predicate Valid()
      reads this
    {
      UniqueKeys(produtos, ProdutoId)
    }

    constructor ()
      ensures Valid()
      ensures produtos == ProdutosIniciais && searchTerm == "" && !dialogOpen && editingProduto.None?
    {
      produtos := ProdutosIniciais;
      searchTerm := "";
      dialogOpen := false;
      editingProduto := None;
    }

    /** The products shown for the current search. */
    function Filtered(): seq<Produto>
      reads this
    {
      Busca(produtos, searchTerm)
    }

    method SetSearchTerm(termo: string)
      modifies this`searchTerm
      ensures searchTerm == termo
    {
      searchTerm := termo;
    }

    /** `handleAddProduto`: the record is appended under `Math.max(...ids, 0) + 1`. */
    method HandleAddProduto(p: Produto)
      requires Valid()
      modifies this`produtos, this`dialogOpen
      ensures Valid()
      ensures produtos == old(produtos) + [p.(id := NextId(old(produtos), ProdutoId))]
      ensures BaixoEstoque(produtos) == BaixoEstoque(old(produtos)) + (if EstoqueBaixo(p) then 1 else 0)
      ensures !dialogOpen
    {
      var novo := p.(id := NextId(produtos, ProdutoId));
      AppendNextIdUnique(produtos, novo, ProdutoId);
      BaixoEstoqueAdicionar(produtos, novo);
      produtos := produtos + [novo];
      dialogOpen := false;
    }

    /** `handleEditProduto`: replace by id and close the dialog. */
    method HandleEditProduto(p: Produto)
      requires Valid()
      modifies this`produtos, this`dialogOpen, this`editingProduto
      ensures Valid()
      ensures produtos == ReplaceByKey(old(produtos), p, ProdutoId)
      ensures !dialogOpen && editingProduto.None?
    {
      ReplaceByKeyUnique(produtos, p, ProdutoId);
      produtos := ReplaceByKey(produtos, p, ProdutoId);
      dialogOpen := false;
      editingProduto := None;
    }

    /** `handleDeleteProduto`; `confirmed` is the answer to `confirm(...)`. */
    method HandleDeleteProduto(id: int, confirmed: bool)
      requires Valid()
      modifies this`produtos
      ensures Valid()
      ensures confirmed ==> produtos == RemoveKey(old(produtos), id, ProdutoId)
      ensures !confirmed ==> produtos == old(produtos)
    {
      if confirmed {
        FilterUnique(produtos, KeyIsNot(ProdutoId, id), ProdutoId);
        produtos := RemoveKey(produtos, id, ProdutoId);
      }
    }

    method OpenEditDialog(p: Produto)
      modifies this`editingProduto, this`dialogOpen
      ensures editingProduto == Some(p) && dialogOpen
    {
      editingProduto := Some(p);
      dialogOpen := true;
    }

    method OpenAddDialog()
      modifies this`editingProduto, this`dialogOpen
      ensures editingProduto.None? && dialogOpen
    {
      editingProduto := None;
      dialogOpen := true;
    }
  }
}
