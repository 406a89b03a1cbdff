/**
 * The order page of app/admin/fazer-pedido/page.tsx: picking a table opens
 * an empty order draft, products are appended to it (repeats included),
 * removing a product drops every entry with its id, and the total is the
 * sum of the prices.
 */
module FazerPedido {
  import opened Js
  import opened Lists
  import Mesas

  datatype Produto = Produto(id: int, nome: string, preco: real)

  function ProdutoId(p: Produto): int { p.id }

  function Preco(p: Produto): real { p.preco }

  /** The tables offered: the first five of the tables page's starting list. */
  const MesasPedido: seq<Mesas.Mesa> := Mesas.MesasIniciais[..5]

  /** The products offered. */
  const ProdutosMock: seq<Produto> := [
    Produto(1, "Cerveja Heineken 600ml", 12.0),
    Produto(2, "Porção de Batata", 25.0),
    Produto(3, "Refrigerante Lata", 7.0),
    Produto(4, "Caipirinha", 15.0),
    Produto(5, "Porção de Calabresa", 28.0)
  ]

  /** `total`: the prices of the draft, added from the left starting at 0. */
  function Total(pedido: seq<Produto>): real {
    Sum(pedido, Preco)
  }

  /** `removerProduto`: every entry with that id goes. */
  function Remover(pedido: seq<Produto>, id: int): (r: seq<Produto>)
    ensures |r| <= |pedido|
    ensures forall i :: 0 <= i < |r| ==> r[i].id != id && r[i] in pedido
    ensures forall i :: 0 <= i < |pedido| && pedido[i].id != id ==> pedido[i] in r
  {
    RemoveKey(pedido, id, ProdutoId)
  }

  function ComId(id: int): Produto -> bool {
    (p: Produto) => p.id == id
  }

  function PrecoSeId(id: int): Produto -> real {
    (p: Produto) => if p.id == id then p.preco else 0.0
  }

  function PrecoSeNaoId(id: int): Produto -> real {
    (p: Produto) => if p.id != id then p.preco else 0.0
  }

  /** The empty draft costs nothing. */
  lemma TotalVazio()
    ensures Total([]) == 0.0
  {
  }

  /** Appending a product adds its price. */
  lemma TotalAdicionar(pedido: seq<Produto>, p: Produto)
    ensures Total(pedido + [p]) == Total(pedido) + p.preco
  {
    SumSnoc(pedido, p, Preco);
  }

  /** Removing an id takes off the price of every entry with that id, and nothing else. */
  lemma TotalRemover(pedido: seq<Produto>, id: int)
    ensures Total(Remover(pedido, id)) + Total(Filter(pedido, ComId(id))) == Total(pedido)
  {
    forall i | 0 <= i < |pedido| ensures KeyIsNot(ProdutoId, id)(pedido[i]) == (pedido[i].id != id) {
      assert ProdutoId(pedido[i]) == pedido[i].id;
    }
    SumFilter(pedido, KeyIsNot(ProdutoId, id), Preco, PrecoSeNaoId(id));
    SumFilter(pedido, ComId(id), Preco, PrecoSeId(id));
    SumPointwise(pedido, PrecoSeNaoId(id), PrecoSeId(id), Preco);
  }

  /** Removing is all-or-nothing per id: doing it twice is doing it once. */
  lemma RemoverIdempotente(pedido: seq<Produto>, id: int)
    ensures Remover(Remover(pedido, id), id) == Remover(pedido, id)
  {
    var r := Remover(pedido, id);
    FilterAll(r, KeyIsNot(ProdutoId, id));
  }

  /** Removing an id that is not in the draft changes nothing. */
  lemma RemoverAusente(pedido: seq<Produto>, id: int)
    requires forall i :: 0 <= i < |pedido| ==> pedido[i].id != id
    ensures Remover(pedido, id) == pedido
  {
    FilterAll(pedido, KeyIsNot(ProdutoId, id));
  }

  /** The page's state. */
  class PedidoPage {
    var dialogOpen: bool
    var mesaSelecionada: Option<Mesas.Mesa>
    var pedido: seq<Produto>

    constructor ()
      ensures !dialogOpen && mesaSelecionada.None? && pedido == []
    {
      dialogOpen := false;
      mesaSelecionada := None;
      pedido := [];
    }

    /** `abrirDialog`: select the table and start an empty draft. */
    method AbrirDialog(mesa: Mesas.Mesa)
      modifies this
      ensures mesaSelecionada == Some(mesa) && dialogOpen && pedido == []
      ensures Total(pedido) == 0.0
    {
      mesaSelecionada := Some(mesa);
      dialogOpen := true;
      pedido := [];
    }

    /** `adicionarProduto` */
    method AdicionarProduto(p: Produto)
      modifies this`pedido
      ensures pedido == old(pedido) + [p]
      ensures |pedido| == |old(pedido)| + 1
      ensures Total(pedido) == Total(old(pedido)) + p.preco
    {
      TotalAdicionar(pedido, p);
      pedido := pedido + [p];
    }

    /** `removerProduto` */
    method RemoverProduto(id: int)
      modifies this`pedido
      ensures pedido == Remover(old(pedido), id)
      ensures Total(pedido) == Total(old(pedido)) - Total(Filter(old(pedido), ComId(id)))
    {
      TotalRemover(pedido, id);
      pedido := Remover(pedido, id);
    }

    /** Whether "Finalizar Pedido" can be pressed. */
    function FinalizarHabilitado(): (b: bool)
      reads this
      ensures b <==> pedido != []
    {
      |pedido| != 0
    }
  }
}
