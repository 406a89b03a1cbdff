/**
 * The menu back office of app/admin/cardapio/page.tsx: the products from the
 * API are grouped by category into menu items, each group is shown as a
 * section with a capitalised title, an icon looked up by the lowercased
 * category and the products of that category, whose cards carry the edit
 * and delete controls.
 */
module Cardapio {
  import opened Js
  import opened Lists
  import opened EditProductDialog

  /** A card of a section. */
  datatype MenuItem = MenuItem(id: int, nome: string, descricao: string, preco: real, estoque: int)

  function ProductId(p: Product): int { p.id }

  /** `product.category || "outros"`: the group a product goes to. */
  function CategoriaDe(p: Product): (c: string)
    ensures c != ""
    ensures p.category != "" ==> c == p.category
    ensures p.category == "" ==> c == "outros"
  {
    if p.category == "" then "outros" else p.category
  }

  /** The menu item pushed for a product; `parseFloat` is `parseFloat` on the price text. */
  function ItemDe(p: Product, parseFloat: string -> real): (m: MenuItem)
    ensures m.id == p.id && m.nome == p.name && m.estoque == p.quantity && m.preco == parseFloat(p.price)
    ensures p.description.Some? && p.description.value != "" ==> m.descricao == p.description.value
    ensures p.description.None? || p.description == Some("") ==> m.descricao == "Sem descrição"
  {
    MenuItem(p.id, p.name,
             if p.description.Some? && p.description.value != "" then p.description.value else "Sem descrição",
             parseFloat(p.price), p.quantity)
  }

  // ---------------------------------------------------------------------
  // Grouping: the specification of `groupByCategory`
  // ---------------------------------------------------------------------

  /** The group keys, each added when its category first appears. */
  function Chaves(ps: seq<Product>): seq<string> {
    if ps == [] then []
    else
      var ks := Chaves(ps[..|ps| - 1]);
      var c := CategoriaDe(ps[|ps| - 1]);
      if c in ks then ks else ks + [c]
  }

  /** The items of group `c`, in the order of the products. */
  function ItensDe(ps: seq<Product>, c: string, parseFloat: string -> real): seq<MenuItem> {
    if ps == [] then []
    else
      ItensDe(ps[..|ps| - 1], c, parseFloat)
        + (if CategoriaDe(ps[|ps| - 1]) == c then [ItemDe(ps[|ps| - 1], parseFloat)] else [])
  }

  lemma ChavesSnoc(ps: seq<Product>, p: Product)
    ensures Chaves(ps + [p]) == if CategoriaDe(p) in Chaves(ps) then Chaves(ps) else Chaves(ps) + [CategoriaDe(p)]
  {
    assert (ps + [p])[..|ps|] == ps;
  }

  lemma ItensDeSnoc(ps: seq<Product>, p: Product, c: string, parseFloat: string -> real)
    ensures ItensDe(ps + [p], c, parseFloat) ==
              ItensDe(ps, c, parseFloat) + (if CategoriaDe(p) == c then [ItemDe(p, parseFloat)] else [])
  {
    assert (ps + [p])[..|ps|] == ps;
  }

  /** A key is present exactly when some product has that category. */
  lemma {:induction false} ChavesIff(ps: seq<Product>, c: string)
    ensures c in Chaves(ps) <==> exists i :: 0 <= i < |ps| && CategoriaDe(ps[i]) == c
  {
    if ps != [] {
      var q := ps[..|ps| - 1];
      ChavesIff(q, c);
      if c in Chaves(ps) && c in Chaves(q) {
        var i :| 0 <= i < |q| && CategoriaDe(q[i]) == c;
        assert ps[i] == q[i];
      }
      if exists i :: 0 <= i < |ps| && CategoriaDe(ps[i]) == c {
        var i :| 0 <= i < |ps| && CategoriaDe(ps[i]) == c;
        if i < |q| {
          assert q[i] == ps[i];
        }
      }
    }
  }

  /** No key appears twice. */
  lemma {:induction false} ChavesDistintas(ps: seq<Product>)
    ensures forall i, j :: 0 <= i < j < |Chaves(ps)| ==> Chaves(ps)[i] != Chaves(ps)[j]
  {
    if ps != [] {
      ChavesDistintas(ps[..|ps| - 1]);
    }
  }

  /** A group has items exactly when its key is present. */
  lemma {:induction false} ItensDeNaoVazio(ps: seq<Product>, c: string, parseFloat: string -> real)
    ensures ItensDe(ps, c, parseFloat) != [] <==> c in Chaves(ps)
  {
    if ps != [] {
      ItensDeNaoVazio(ps[..|ps| - 1], c, parseFloat);
    }
  }

  /** Every product's item is in the group of its category. */
  lemma {:induction false} ItensDeMembro(ps: seq<Product>, j: int, parseFloat: string -> real)
    requires 0 <= j < |ps|
    ensures ItemDe(ps[j], parseFloat) in ItensDe(ps, CategoriaDe(ps[j]), parseFloat)
  {
    var q := ps[..|ps| - 1];
    if j < |q| {
      assert q[j] == ps[j];
      ItensDeMembro(q, j, parseFloat);
    }
  }

  /** `items.map(...)` for the products of a group. */
  function Itens(ps: seq<Product>, parseFloat: string -> real): (r: seq<MenuItem>)
    ensures |r| == |ps|
    ensures forall i :: 0 <= i < |ps| ==> r[i] == ItemDe(ps[i], parseFloat)
  {
    seq(|ps|, i requires 0 <= i < |ps| => ItemDe(ps[i], parseFloat))
  }

  function ComCategoria(c: string): Product -> bool {
    (p: Product) => CategoriaDe(p) == c
  }

  lemma ItensAppend(a: seq<Product>, b: seq<Product>, parseFloat: string -> real)
    ensures Itens(a + b, parseFloat) == Itens(a, parseFloat) + Itens(b, parseFloat)
  {
  }

  /** A group holds the items of the products of its category, in input order. */
  lemma {:induction false} ItensDeEmOrdem(ps: seq<Product>, c: string, parseFloat: string -> real)
    ensures ItensDe(ps, c, parseFloat) == Itens(Filter(ps, ComCategoria(c)), parseFloat)
  {
    if ps != [] {
      var q := ps[..|ps| - 1];
      var p := ps[|ps| - 1];
      var f := Filter([p], ComCategoria(c));
      ItensDeEmOrdem(q, c, parseFloat);
      assert ps == q + [p];
      ItensDeSnoc(q, p, c, parseFloat);
      FilterAppend(q, [p], ComCategoria(c));
      ItensAppend(Filter(q, ComCategoria(c)), f, parseFloat);
      assert f == if CategoriaDe(p) == c then [p] else [];
      assert Itens(f, parseFloat) == if CategoriaDe(p) == c then [ItemDe(p, parseFloat)] else [];
    }
  }

  /** The number of items over the groups `ks`. */
  function SomaTamanhos(ps: seq<Product>, ks: seq<string>, parseFloat: string -> real): nat {
    if ks == [] then 0
    else SomaTamanhos(ps, ks[..|ks| - 1], parseFloat) + |ItensDe(ps, ks[|ks| - 1], parseFloat)|
  }

  /** One more product adds one item to the groups `ks` if its category is among them, once. */
  lemma {:induction false} SomaTamanhosSnoc(ps: seq<Product>, p: Product, ks: seq<string>, parseFloat: string -> real)
    requires forall i, j :: 0 <= i < j < |ks| ==> ks[i] != ks[j]
    ensures SomaTamanhos(ps + [p], ks, parseFloat) ==
              SomaTamanhos(ps, ks, parseFloat) + (if CategoriaDe(p) in ks then 1 else 0)
  {
    if ks != [] {
      var k := ks[|ks| - 1];
      var ks' := ks[..|ks| - 1];
      SomaTamanhosSnoc(ps, p, ks', parseFloat);
      ItensDeSnoc(ps, p, k, parseFloat);
      assert ks == ks' + [k];
      assert k !in ks';
    }
  }

  /** Every product lands in exactly one group: the group sizes add up to the number of products. */
  lemma {:induction false} TamanhosSomam(ps: seq<Product>, parseFloat: string -> real)
    ensures SomaTamanhos(ps, Chaves(ps), parseFloat) == |ps|
  {
    if ps != [] {
      var q := ps[..|ps| - 1];
      var p := ps[|ps| - 1];
      var c := CategoriaDe(p);
      var ks := Chaves(q);
      assert ps == q + [p];
      TamanhosSomam(q, parseFloat);
      ChavesDistintas(q);
      ChavesSnoc(q, p);
      SomaTamanhosSnoc(q, p, ks, parseFloat);
      if c !in ks {
        ItensDeNaoVazio(q, c, parseFloat);
        ItensDeSnoc(q, p, c, parseFloat);
        assert (ks + [c])[..|ks|] == ks;
      }
    }
  }

  /** "Nenhum produto disponível" shows exactly when there are no products. */
  lemma ChavesVazias(ps: seq<Product>)
    ensures Chaves(ps) == [] <==> ps == []
  {
  }

  /**
   * `groupByCategory`: the keys in first-appearance order and the items of
   * each key, built by one pass that creates a group on first sight and
   * pushes onto it.
   */
  method GroupByCategory(products: seq<Product>, parseFloat: string -> real)
    returns (chaves: seq<string>, grupos: map<string, seq<MenuItem>>)
    ensures chaves == Chaves(products)
    ensures forall c :: c in grupos <==> c in chaves
    ensures forall c :: c in grupos ==> grupos[c] == ItensDe(products, c, parseFloat)
  {
    chaves := [];
    grupos := map[];
    var i := 0;
    while i < |products|
      invariant 0 <= i <= |products|
      invariant chaves == Chaves(products[..i])
      invariant forall c :: c in grupos <==> c in chaves
      invariant forall c :: c in grupos ==> grupos[c] == ItensDe(products[..i], c, parseFloat)
    {
      var p := products[i];
      var c := CategoriaDe(p);
      assert products[..i + 1] == products[..i] + [p];
      ChavesSnoc(products[..i], p);
      forall k ensures ItensDe(products[..i + 1], k, parseFloat) ==
                         ItensDe(products[..i], k, parseFloat) + (if c == k then [ItemDe(p, parseFloat)] else []) {
        ItensDeSnoc(products[..i], p, k, parseFloat);
      }
      if c !in grupos {
        ItensDeNaoVazio(products[..i], c, parseFloat);
        grupos := grupos[c := []];
        chaves := chaves + [c];
      }
      grupos := grupos[c := grupos[c] + [ItemDe(p, parseFloat)]];
      i := i + 1;
    }
    assert products[..i] == products;
  }

  // ---------------------------------------------------------------------
  // Section title and icon
  // ---------------------------------------------------------------------

  /** `category.charAt(0).toUpperCase() + category.slice(1)` */
  function Titulo(category: string): (t: string)
    ensures |t| == |category|
    ensures t != [] ==> t[0] == UpperChar(category[0]) && t[1..] == category[1..]
  {
    if category == [] then [] else [UpperChar(category[0])] + category[1..]
  }

  /** The title differs from the key only in the case of its first letter. */
  lemma TituloSoMudaCaixa(category: string)
    ensures Lower(Titulo(category)) == Lower(category)
    ensures Titulo(Titulo(category)) == Titulo(category)
  {
    if category != [] {
      var t := Titulo(category);
      assert Lower(t)[0] == LowerChar(t[0]) == LowerChar(category[0]);
      assert forall i :: 1 <= i < |t| ==> t[i] == category[i];
    }
  }

  datatype Icone = UtensilsCrossed | ShoppingBag | Beer | Coffee | Wine

  /** The icon table of `getCategoryIcon`. */
  const Icones: map<string, Icone> := map[
    "pizzas" := UtensilsCrossed,
    "lanches" := ShoppingBag,
    "bebidas" := Beer,
    "bebidas quentes" := Coffee,
    "sobremesas" := Wine,
    "acompanhamentos" := UtensilsCrossed,
    "massas" := UtensilsCrossed,
    "saladas" := UtensilsCrossed
  ]

  /** `getCategoryIcon`: the icon of the lowercased category, ShoppingBag when there is none. */
  function IconeDe(category: string): (i: Icone)
    ensures Lower(category) in Icones ==> i == Icones[Lower(category)]
    ensures Lower(category) !in Icones ==> i == ShoppingBag
  {
    if Lower(category) in Icones then Icones[Lower(category)] else ShoppingBag
  }

  /** The lookup ignores case. */
  lemma IconeIgnoraCaixa(category: string)
    ensures IconeDe(category) == IconeDe(Lower(category))
    ensures IconeDe(Titulo(category)) == IconeDe(category)
  {
    LowerIdempotent(category);
    TituloSoMudaCaixa(category);
  }

  /** Every category the edit dialog offers has an icon of its own in the table. */
  lemma CategoriasTemIcone()
    ensures forall c :: c in Categories ==> c in Icones
  {
  }

  lemma LowerSemMaiusculas(s: string)
    requires forall i :: 0 <= i < |s| ==> !('A' <= s[i] <= 'Z')
    ensures Lower(s) == s
  {
  }

  /** The fallback group "outros" gets the default icon. */
  lemma IconeOutros()
    ensures IconeDe("outros") == ShoppingBag
  {
    LowerSemMaiusculas("outros");
  }

  // ---------------------------------------------------------------------
  // Section products and the card controls
  // ---------------------------------------------------------------------

  function CategoriaIgual(key: string): Product -> bool {
    (p: Product) => p.category == key
  }

  /** `products.filter((p) => p.category === category)`: the products handed to a section. */
  function ProdutosDaSecao(ps: seq<Product>, key: string): (r: seq<Product>)
    ensures forall i :: 0 <= i < |r| ==> r[i].category == key && r[i] in ps
    ensures forall i :: 0 <= i < |ps| && ps[i].category == key ==> ps[i] in r
  {
    FilterMembers(ps, CategoriaIgual(key));
    Filter(ps, CategoriaIgual(key))
  }

  /** A card shows its edit and delete controls when `products.find` finds its product. */
  predicate TemControles(item: MenuItem, secao: seq<Product>) {
    Find(secao, item.id, ProductId).Some?
  }

  /**
   * With unique ids, a product without a category is listed under "outros"
   * but its section's products do not include it, so its card has no edit
   * or delete controls.
   */
  lemma OutrosSemControles(ps: seq<Product>, j: int, parseFloat: string -> real)
    requires UniqueKeys(ps, ProductId) && 0 <= j < |ps|
    requires ps[j].category == ""
    ensures ItemDe(ps[j], parseFloat) in ItensDe(ps, "outros", parseFloat)
    ensures !TemControles(ItemDe(ps[j], parseFloat), ProdutosDaSecao(ps, "outros"))
  {
    ItensDeMembro(ps, j, parseFloat);
    var secao := ProdutosDaSecao(ps, "outros");
    forall i | 0 <= i < |secao| ensures ProductId(secao[i]) != ps[j].id {
      var k :| 0 <= k < |ps| && ps[k] == secao[i];
      assert ProductId(ps[k]) == secao[i].id;
      assert k != j;
    }
  }

  function CategoriaDeIgual(key: string): Product -> bool {
    (p: Product) => CategoriaDe(p) == key
  }

  /** The section products filtered by the same `category || "outros"` that grouped them. */
  function ProdutosDaSecaoCorrigido(ps: seq<Product>, key: string): (r: seq<Product>)
    ensures forall i :: 0 <= i < |r| ==> CategoriaDe(r[i]) == key && r[i] in ps
    ensures forall i :: 0 <= i < |ps| && CategoriaDe(ps[i]) == key ==> ps[i] in r
  {
    FilterMembers(ps, CategoriaDeIgual(key));
    Filter(ps, CategoriaDeIgual(key))
  }

  /** With the corrected filter every card of a group, "outros" included, has its controls. */
  lemma ControlesCorrigidos(ps: seq<Product>, j: int, parseFloat: string -> real)
    requires 0 <= j < |ps|
    ensures ItemDe(ps[j], parseFloat) in ItensDe(ps, CategoriaDe(ps[j]), parseFloat)
    ensures TemControles(ItemDe(ps[j], parseFloat), ProdutosDaSecaoCorrigido(ps, CategoriaDe(ps[j])))
  {
    ItensDeMembro(ps, j, parseFloat);
    var secao := ProdutosDaSecaoCorrigido(ps, CategoriaDe(ps[j]));
    var k :| 0 <= k < |secao| && secao[k] == ps[j];
    assert ProductId(secao[k]) == ps[j].id;
  }

  // ---------------------------------------------------------------------
  // Deleting from a section
  // ---------------------------------------------------------------------

  /** The state of one `CardapioSection`. */
  class Secao {
    var deletingId: Option<int>

    constructor ()
      ensures deletingId.None?
    {
      deletingId := None;
    }

    /** The delete button of a product is disabled while that product is being deleted. */
    predicate ExcluirDesabilitado(productId: int)
      reads this
    {
      deletingId == Some(productId)
    }

    /**
     * `handleDelete`: `deletingId` is the product's id while the DELETE for
     * `alvo` is pending (`durante`), and null afterwards; `onUpdate` runs
     * only when the answer was ok and the section was given one.
     */
    method HandleDelete(productId: int, ok: bool, temOnUpdate: bool)
      returns (alvo: int, durante: Option<int>, onUpdateChamado: bool)
      modifies this
      ensures alvo == productId && durante == Some(productId)
      ensures onUpdateChamado <==> ok && temOnUpdate
      ensures deletingId.None?
    {
      deletingId := Some(productId);
      alvo := productId;
      durante := deletingId;
      onUpdateChamado := ok && temOnUpdate;
      deletingId := None;
    }
  }
}
