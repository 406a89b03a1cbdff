/**
 * The comanda (running tab / cart) context of context/comanda-context.tsx:
 * a list of menu items keyed by name, each with a quantity, that the
 * provider replaces on every add, remove and clear.
 */
module Comanda {
  import opened Js
  import opened Lists

  /** A menu entry as the menu page hands it over; `preco` is display text such as "R$ 120,50". */
  datatype ItemCardapio = ItemCardapio(nome: string, preco: string, desc: string)

  /** An entry of the comanda: a menu entry with a quantity. */
  datatype ItemComanda = ItemComanda(nome: string, preco: string, desc: string, quantidade: int)

  function Nome(i: ItemComanda): string { i.nome }

  function Quantidade(i: ItemComanda): int { i.quantidade }

  function Incrementado(i: ItemComanda): ItemComanda { i.(quantidade := i.quantidade + 1) }

  function Decrementado(i: ItemComanda): ItemComanda { i.(quantidade := i.quantidade - 1) }

  /** The filter predicate of `removerItem`: every entry not named `nome`. */
  function OutroNome(nome: string): ItemComanda -> bool {
    (i: ItemComanda) => i.nome != nome
  }

  /** A fresh entry for a menu item: `{ ...item, quantidade: 1 }`. */
  function NovoItem(item: ItemCardapio): ItemComanda {
    ItemComanda(item.nome, item.preco, item.desc, 1)
  }

  /** The comanda invariant: names are unique and every quantity is at least 1. */
  predicate Valid(itens: seq<ItemComanda>) {
    && UniqueKeys(itens, Nome)
    && forall i :: 0 <= i < |itens| ==> itens[i].quantidade >= 1
  }

  /** The new list `adicionarItem` computes from the current one. */
  function Adicionar(itens: seq<ItemComanda>, item: ItemCardapio): seq<ItemComanda> {
    if Find(itens, item.nome, Nome).Some? then MapWhere(itens, item.nome, Nome, Incrementado)
    else itens + [NovoItem(item)]
  }

  /** The new list `removerItem` computes from the current one. */
  function Remover(itens: seq<ItemComanda>, nome: string): seq<ItemComanda> {
    var existente := Find(itens, nome, Nome);
    if existente.Some? && existente.value.quantidade > 1 then MapWhere(itens, nome, Nome, Decrementado)
    else Filter(itens, OutroNome(nome))
  }

  /** `totalItens`: the sum of the quantities. */
  function TotalItens(itens: seq<ItemComanda>): int {
    SumInt(itens, Quantidade)
  }

  /** The text `parsePreco` hands to `parseFloat`: the first "R$ " and the first "." removed, the first "," made a ".". */
  function PrecoTexto(preco: string): string {
    ReplaceFirst(ReplaceFirst(ReplaceFirst(preco, "R$ ", ""), ".", ""), ",", ".")
  }

  /** `totalPreco`, given the `parseFloat` it relies on. */
  function TotalPreco(itens: seq<ItemComanda>, parseFloat: string -> real): real {
    Sum(itens, Subtotal(parseFloat))
  }

  /** One entry's share of `totalPreco`: parsed price times quantity. */
  function Subtotal(parseFloat: string -> real): ItemComanda -> real {
    (i: ItemComanda) => parseFloat(PrecoTexto(i.preco)) * (i.quantidade as real)
  }

  // ---------------------------------------------------------------------
  // Adding
  // ---------------------------------------------------------------------

  /** Adding a name not yet present appends it with quantity 1 and changes nothing else. */
  lemma AdicionarNovo(itens: seq<ItemComanda>, item: ItemCardapio)
    requires forall j :: 0 <= j < |itens| ==> itens[j].nome != item.nome
    ensures Adicionar(itens, item) == itens + [ItemComanda(item.nome, item.preco, item.desc, 1)]
  {
  }

  /**
   * Adding a name already present increments that entry's quantity only;
   * its price and description, the order and every other entry stay.
   */
  lemma AdicionarExistente(itens: seq<ItemComanda>, item: ItemCardapio, k: int)
    requires Valid(itens) && 0 <= k < |itens| && itens[k].nome == item.nome
    ensures Adicionar(itens, item) == itens[k := itens[k].(quantidade := itens[k].quantidade + 1)]
  {
    MapWhereUniqueAt(itens, k, Nome, Incrementado);
  }

  lemma AdicionarValid(itens: seq<ItemComanda>, item: ItemCardapio)
    requires Valid(itens)
    ensures Valid(Adicionar(itens, item))
  {
    var k := FindIndex(itens, item.nome, Nome);
    if k >= 0 {
      AdicionarExistente(itens, item, k);
    }
  }

  /** `totalItens` goes up by exactly one after an add. */
  lemma TotalAdicionar(itens: seq<ItemComanda>, item: ItemCardapio)
    requires Valid(itens)
    ensures TotalItens(Adicionar(itens, item)) == TotalItens(itens) + 1
  {
    var k := FindIndex(itens, item.nome, Nome);
    if k >= 0 {
      AdicionarExistente(itens, item, k);
      SumIntUpdate(itens, k, Incrementado(itens[k]), Quantidade);
    } else {
      SumIntAppend(itens, [NovoItem(item)], Quantidade);
      assert SumInt([NovoItem(item)], Quantidade) == 1;
    }
  }

  // ---------------------------------------------------------------------
  // Removing
  // ---------------------------------------------------------------------

  /** Removing a name that is not present leaves the list unchanged. */
  lemma RemoverAusente(itens: seq<ItemComanda>, nome: string)
    requires forall j :: 0 <= j < |itens| ==> itens[j].nome != nome
    ensures Remover(itens, nome) == itens
  {
    FilterAll(itens, OutroNome(nome));
  }

  /** Removing a present name whose quantity exceeds 1 decrements that entry only. */
  lemma RemoverDecrementa(itens: seq<ItemComanda>, k: int)
    requires Valid(itens) && 0 <= k < |itens| && itens[k].quantidade > 1
    ensures Remover(itens, itens[k].nome) == itens[k := itens[k].(quantidade := itens[k].quantidade - 1)]
  {
    FindUnique(itens, k, Nome);
    MapWhereUniqueAt(itens, k, Nome, Decrementado);
  }

  /** Removing a present name whose quantity is 1 deletes that entry and keeps the rest in order. */
  lemma RemoverApaga(itens: seq<ItemComanda>, k: int)
    requires Valid(itens) && 0 <= k < |itens| && itens[k].quantidade == 1
    ensures Remover(itens, itens[k].nome) == itens[..k] + itens[k + 1..]
  {
    FindUnique(itens, k, Nome);
    FilterDropsOne(itens, k, OutroNome(itens[k].nome));
  }

  lemma RemoverValid(itens: seq<ItemComanda>, nome: string)
    requires Valid(itens)
    ensures Valid(Remover(itens, nome))
  {
    var k := FindIndex(itens, nome, Nome);
    if k < 0 {
      RemoverAusente(itens, nome);
    } else if itens[k].quantidade > 1 {
      RemoverDecrementa(itens, k);
    } else {
      FilterUnique(itens, OutroNome(nome), Nome);
      FilterMembers(itens, OutroNome(nome));
    }
  }

  /** `totalItens` goes down by exactly one after removing a present name. */
  lemma TotalRemover(itens: seq<ItemComanda>, nome: string)
    requires Valid(itens)
    requires exists j :: 0 <= j < |itens| && itens[j].nome == nome
    ensures TotalItens(Remover(itens, nome)) == TotalItens(itens) - 1
  {
    var k := FindIndex(itens, nome, Nome);
    if itens[k].quantidade > 1 {
      RemoverDecrementa(itens, k);
      SumIntUpdate(itens, k, Decrementado(itens[k]), Quantidade);
    } else {
      RemoverApaga(itens, k);
      SumIntRemoveAt(itens, k, Quantidade);
    }
  }

  /** An add followed by a remove of the same name restores the list exactly. */
  lemma AdicionarRemover(itens: seq<ItemComanda>, item: ItemCardapio)
    requires Valid(itens)
    ensures Remover(Adicionar(itens, item), item.nome) == itens
  {
    var k := FindIndex(itens, item.nome, Nome);
    var depois := Adicionar(itens, item);
    AdicionarValid(itens, item);
    if k >= 0 {
      AdicionarExistente(itens, item, k);
      RemoverDecrementa(depois, k);
      assert depois[k := depois[k].(quantidade := depois[k].quantidade - 1)] == itens;
    } else {
      assert depois == itens + [NovoItem(item)];
      assert depois[|itens|].nome == item.nome;
      RemoverApaga(depois, |itens|);
      assert depois[..|itens|] == itens;
    }
  }

  /** Clearing yields the empty comanda, whose item total is 0. */
  lemma LimparZera()
    ensures Valid([]) && TotalItens([]) == 0
  {
  }

  // ---------------------------------------------------------------------
  // Price text
  // ---------------------------------------------------------------------

  predicate Digitos(s: string) {
    forall j :: 0 <= j < |s| ==> IsDigit(s[j])
  }

  /** `s` does not contain the character `c`. */
  predicate SemChar(s: string, c: char) {
    forall j :: 0 <= j < |s| ==> s[j] != c
  }

  lemma DigitosSemSinais(s: string)
    requires Digitos(s)
    ensures SemChar(s, '.') && SemChar(s, ',')
  {
  }

  lemma SemCharConcat(x: string, y: string, c: char)
    requires SemChar(x, c) && SemChar(y, c)
    ensures SemChar(x + y, c)
  {
    forall j | 0 <= j < |x + y| ensures (x + y)[j] != c {
      if j >= |x| {
        assert (x + y)[j] == y[j - |x|];
      }
    }
  }

  /** Removing the first "." from a string `x + "." + t` whose `x` holds none. */
  lemma TiraPonto(x: string, t: string)
    requires SemChar(x, '.')
    ensures ReplaceFirst(x + ("." + t), ".", "") == x + t
  {
    ReplaceFirstSkip(x, "." + t, '.', "");
    ReplaceFirstPrefix(".", t, "");
    assert "" + t == t;
  }

  /** Turning the first "," of `x + "," + t` into "." when `x` holds none. */
  lemma TrocaVirgula(x: string, t: string)
    requires SemChar(x, ',')
    ensures ReplaceFirst(x + ("," + t), ",", ".") == x + ("." + t)
  {
    ReplaceFirstSkip(x, "," + t, ',', ".");
    ReplaceFirstPrefix(",", t, ".");
  }

  /** The three replacements of `PrecoTexto`, one step at a time. */
  lemma PrecoTextoPassos(corpo: string, semPonto: string, r: string)
    requires ReplaceFirst(corpo, ".", "") == semPonto
    requires ReplaceFirst(semPonto, ",", ".") == r
    ensures PrecoTexto("R$ " + corpo) == r
  {
    ReplaceFirstPrefix("R$ ", corpo, "");
    assert "" + corpo == corpo;
  }

  /** A price without thousands separator, "R$ 120,50", becomes "120.50". */
  lemma PrecoTextoSimples(inteiro: string, centavos: string)
    requires Digitos(inteiro) && Digitos(centavos)
    ensures PrecoTexto("R$ " + inteiro + "," + centavos) == inteiro + "." + centavos
  {
    DigitosSemSinais(inteiro);
    DigitosSemSinais(centavos);
    var corpo := inteiro + ("," + centavos);
    ReplaceFirstSkip(inteiro, "," + centavos, '.', "");
    ReplaceFirstSkip(",", centavos, '.', "");
    ReplaceFirstChar(centavos, '.', "", |centavos|);
    TrocaVirgula(inteiro, centavos);
    PrecoTextoPassos(corpo, corpo, inteiro + ("." + centavos));
    assert "R$ " + inteiro + "," + centavos == "R$ " + corpo;
    assert inteiro + ("." + centavos) == inteiro + "." + centavos;
  }

  /** One thousands separator, "R$ 1.234,56", is removed: "1234.56". */
  lemma PrecoTextoMilhar(milhares: string, resto: string, centavos: string)
    requires Digitos(milhares) && Digitos(resto) && Digitos(centavos)
    ensures PrecoTexto("R$ " + milhares + "." + resto + "," + centavos) == milhares + resto + "." + centavos
  {
    DigitosSemSinais(milhares);
    DigitosSemSinais(resto);
    SemCharConcat(milhares, resto, ',');
    var x := milhares + resto;
    var corpo := milhares + ("." + (resto + ("," + centavos)));
    TiraPonto(milhares, resto + ("," + centavos));
    assert milhares + (resto + ("," + centavos)) == x + ("," + centavos);
    TrocaVirgula(x, centavos);
    PrecoTextoPassos(corpo, x + ("," + centavos), x + ("." + centavos));
    assert "R$ " + milhares + "." + resto + "," + centavos == "R$ " + corpo;
    assert x + ("." + centavos) == milhares + resto + "." + centavos;
  }

  /**
   * Only the first "." is removed: with two thousands separators,
   * "R$ 1.234.567,89" becomes "1234.567.89".
   */
  lemma PrecoTextoSoPrimeiroPonto(a: string, b: string, c: string, centavos: string)
    requires Digitos(a) && Digitos(b) && Digitos(c) && Digitos(centavos)
    ensures PrecoTexto("R$ " + a + "." + b + "." + c + "," + centavos) == a + b + "." + c + "." + centavos
  {
    DigitosSemSinais(a);
    DigitosSemSinais(b);
    DigitosSemSinais(c);
    assert SemChar(".", ',');
    SemCharConcat(a, b, ',');
    SemCharConcat(a + b, ".", ',');
    SemCharConcat(a + b + ".", c, ',');
    var x := a + b + "." + c;
    var depois := b + ("." + (c + ("," + centavos)));
    var corpo := a + ("." + depois);
    TiraPonto(a, depois);
    assert a + depois == x + ("," + centavos);
    TrocaVirgula(x, centavos);
    PrecoTextoPassos(corpo, x + ("," + centavos), x + ("." + centavos));
    assert "R$ " + a + "." + b + "." + c + "," + centavos == "R$ " + corpo;
    assert x + ("." + centavos) == a + b + "." + c + "." + centavos;
  }

  /** Adding a new item raises `totalPreco` by that item's parsed price. */
  lemma TotalPrecoAdicionarNovo(itens: seq<ItemComanda>, item: ItemCardapio, parseFloat: string -> real)
    requires forall j :: 0 <= j < |itens| ==> itens[j].nome != item.nome
    ensures TotalPreco(Adicionar(itens, item), parseFloat) == TotalPreco(itens, parseFloat) + parseFloat(PrecoTexto(item.preco))
  {
    SumSnoc(itens, NovoItem(item), Subtotal(parseFloat));
  }

  // ---------------------------------------------------------------------
  // The provider
  // ---------------------------------------------------------------------

  /** `ComandaProvider`: owns the `itens` state and replaces it on each operation. */
  class ComandaProvider {
    var itens: seq<ItemComanda>

    constructor ()
      ensures itens == [] && Valid(itens)
    {
      itens := [];
    }

    method AdicionarItem(item: ItemCardapio)
      modifies this
      ensures itens == Adicionar(old(itens), item)
      ensures Valid(old(itens)) ==> Valid(itens) && TotalItens(itens) == TotalItens(old(itens)) + 1
    {
      if Valid(itens) {
        AdicionarValid(itens, item);
        TotalAdicionar(itens, item);
      }
      itens := Adicionar(itens, item);
    }

    method RemoverItem(nome: string)
      modifies this
      ensures itens == Remover(old(itens), nome)
      ensures Valid(old(itens)) ==> Valid(itens)
    {
      if Valid(itens) {
        RemoverValid(itens, nome);
      }
      itens := Remover(itens, nome);
    }

    method LimparComanda()
      modifies this
      ensures itens == [] && TotalItens(itens) == 0
    {
      itens := [];
    }

    function Total(): int
      reads this
    {
      TotalItens(itens)
    }
  }
}
