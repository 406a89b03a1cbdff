/**
 * The product dialog of components/produto-dialog.tsx: the form is filled
 * from the product being edited (or with the defaults for a new one), and
 * on submit the form becomes the record handed to the page, with an id only
 * when a product was being edited.
 */
module ProdutoDialog {
  import opened Js
  import opened Lists
  import opened Produtos

  datatype FormData = FormData(nome: string, descricao: string, categoria: string, preco: string, estoque: string)

  /** The form for a new product. */
  const FormVazio: FormData := FormData("", "", "Vinhos", "", "")

  /** `produtoData`: the id is present only when editing. */
  datatype ProdutoData = ProdutoData(
    id: Option<int>,
    nome: string,
    descricao: string,
    categoria: string,
    preco: real,
    estoque: JsInt)

  /**
   * The form the effect on `[produto, open]` sets; `numToString` is
   * `Number.prototype.toString` on the price. The stock text reads back as
   * the stock.
   */
  function FormDe(produto: Option<Produto>, numToString: real -> string): (f: FormData)
    ensures produto.None? ==> f == FormVazio
    ensures produto.Some? ==>
              && f.nome == produto.value.nome && f.descricao == produto.value.descricao
              && f.categoria == produto.value.categoria
              && f.preco == numToString(produto.value.preco)
              && ParseInt(f.estoque) == produto.value.estoque
  {
    match produto
    case None => FormVazio
    case Some(p) =>
      ParseIntOfJsIntToString(p.estoque);
      FormData(p.nome, p.descricao, p.categoria, numToString(p.preco), JsIntToString(p.estoque))
  }

  /** `handleSubmit`; `parseFloat` is `Number.parseFloat` on the price text. */
  function Submit(produto: Option<Produto>, form: FormData, parseFloat: string -> real): (r: ProdutoData)
    ensures r.id.Some? <==> produto.Some?
    ensures produto.Some? ==> r.id == Some(produto.value.id)
    ensures r.nome == form.nome && r.descricao == form.descricao && r.categoria == form.categoria
    ensures r.preco == parseFloat(form.preco) && r.estoque == ParseInt(form.estoque)
  {
    ProdutoData(if produto.Some? then Some(produto.value.id) else None,
                form.nome, form.descricao, form.categoria, parseFloat(form.preco), ParseInt(form.estoque))
  }

  /** The product the page stores for the submitted data under `id`. */
  function ComoProduto(d: ProdutoData, id: int): Produto {
    Produto(id, d.nome, d.descricao, d.categoria, d.preco, d.estoque)
  }

  /**
   * The record `handleSubmit` builds from the default new-product form: no
   * id, the category "Vinhos", and a NaN stock, since `parseInt("")` is NaN.
   */
  lemma SubmitNovo(numToString: real -> string, parseFloat: string -> real)
    ensures var d := Submit(None, FormDe(None, numToString), parseFloat);
            d.id.None? && d.nome == "" && d.descricao == "" && d.categoria == "Vinhos" && d.estoque == NaN
  {
  }

  /**
   * Opening the dialog on a product and submitting without edits gives the
   * product back, provided the price survives `toString`/`parseFloat`.
   */
  lemma SubmitSemEdicao(p: Produto, numToString: real -> string, parseFloat: string -> real)
    requires parseFloat(numToString(p.preco)) == p.preco
    ensures var d := Submit(Some(p), FormDe(Some(p), numToString), parseFloat);
            d.id == Some(p.id) && ComoProduto(d, p.id) == p
  {
  }

  /** Saving an unedited product leaves the page's list as it was. */
  lemma EditarSemEdicaoPreservaLista(ps: seq<Produto>, i: int, numToString: real -> string, parseFloat: string -> real)
    requires UniqueKeys(ps, ProdutoId) && 0 <= i < |ps|
    requires parseFloat(numToString(ps[i].preco)) == ps[i].preco
    ensures ReplaceByKey(ps, ComoProduto(Submit(Some(ps[i]), FormDe(Some(ps[i]), numToString), parseFloat), ps[i].id), ProdutoId) == ps
  {
    SubmitSemEdicao(ps[i], numToString, parseFloat);
    ReplaceByKeyAt(ps, i, ps[i], ProdutoId);
    assert ps[i := ps[i]] == ps;
  }

  /** The dialog's form state. */
  class Dialog {
    var formData: FormData

    constructor ()
      ensures formData == FormVazio
    {
      formData := FormVazio;
    }

    /** The effect run when `produto` or `open` changes: always refills the form. */
    method Sincronizar(produto: Option<Produto>, numToString: real -> string)
      modifies this
      ensures formData == FormDe(produto, numToString)
    {
      formData := FormDe(produto, numToString);
    }

    /** Submitting: the data handed to `onSave`. */
    method HandleSubmit(produto: Option<Produto>, parseFloat: string -> real) returns (data: ProdutoData)
      ensures data == Submit(produto, formData, parseFloat)
    {
      data := Submit(produto, formData, parseFloat);
    }
  }
}
