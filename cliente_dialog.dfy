/**
 * The customer dialog of components/cliente-dialog.tsx: the form is filled
 * from the customer being edited (or with the defaults for a new one), and
 * on submit the form becomes the record handed to the page, with an id only
 * when a customer was being edited.
 */
module ClienteDialog {
  import opened Js
  import opened Lists
  import opened Clientes

  datatype FormData = FormData(
    nome: string,
    email: string,
    telefone: string,
    cpf: string,
    dataCadastro: string,
    totalCompras: string)

  /** The form for a new customer; `hoje` is today's date as `toISOString().split("T")[0]` gives it. */
  function FormVazio(hoje: string): FormData {
    FormData("", "", "", "", hoje, "0")
  }

  /** `clienteData`: the id is present only when editing. */
  datatype ClienteData = ClienteData(
    id: Option<int>,
    nome: string,
    email: string,
    telefone: string,
    cpf: string,
    dataCadastro: string,
    totalCompras: real)

  /**
   * The form the effect on `[cliente, open]` sets; `numToString` is
   * `Number.prototype.toString` on the purchases total.
   */
  function FormDe(cliente: Option<Cliente>, hoje: string, numToString: real -> string): (f: FormData)
    ensures cliente.None? ==> f.nome == "" && f.email == "" && f.telefone == "" && f.cpf == ""
    ensures cliente.None? ==> f.dataCadastro == hoje && f.totalCompras == "0"
    ensures cliente.Some? ==>
              && f.nome == cliente.value.nome && f.email == cliente.value.email
              && f.telefone == cliente.value.telefone && f.cpf == cliente.value.cpf
              && f.dataCadastro == cliente.value.dataCadastro
              && f.totalCompras == numToString(cliente.value.totalCompras)
  {
    match cliente
    case None => FormVazio(hoje)
    case Some(c) => FormData(c.nome, c.email, c.telefone, c.cpf, c.dataCadastro, numToString(c.totalCompras))
  }

  /** `handleSubmit`; `parseFloat` is `Number.parseFloat` on the purchases text. */
  function Submit(cliente: Option<Cliente>, form: FormData, parseFloat: string -> real): (r: ClienteData)
    ensures r.id.Some? <==> cliente.Some?
    ensures cliente.Some? ==> r.id == Some(cliente.value.id)
    ensures r.nome == form.nome && r.email == form.email && r.telefone == form.telefone
    ensures r.cpf == form.cpf && r.dataCadastro == form.dataCadastro
    ensures r.totalCompras == parseFloat(form.totalCompras)
  {
    ClienteData(if cliente.Some? then Some(cliente.value.id) else None,
                form.nome, form.email, form.telefone, form.cpf, form.dataCadastro,
                parseFloat(form.totalCompras))
  }

  /** The customer the page stores for the submitted data under `id`. */
  function ComoCliente(d: ClienteData, id: int): Cliente {
    Cliente(id, d.nome, d.email, d.telefone, d.cpf, d.dataCadastro, d.totalCompras)
  }

  /** The record `handleSubmit` builds from the default new-customer form: no id, today's date and the purchases `parseFloat("0")`. */
  lemma SubmitNovo(hoje: string, numToString: real -> string, parseFloat: string -> real)
    ensures var d := Submit(None, FormDe(None, hoje, numToString), parseFloat);
            && d.id.None? && d.nome == "" && d.email == "" && d.telefone == "" && d.cpf == ""
            && d.dataCadastro == hoje && d.totalCompras == parseFloat("0")
  {
  }

  /**
   * Opening the dialog on a customer and submitting without edits keeps the
   * id and every text field, whatever the number conversions do.
   */
  lemma SubmitSemEdicaoTextos(c: Cliente, hoje: string, numToString: real -> string, parseFloat: string -> real)
    ensures var d := Submit(Some(c), FormDe(Some(c), hoje, numToString), parseFloat);
            && d.id == Some(c.id) && d.nome == c.nome && d.email == c.email && d.telefone == c.telefone
            && d.cpf == c.cpf && d.dataCadastro == c.dataCadastro
  {
  }

  /** When the purchases survive `toString`/`parseFloat`, the unedited customer comes back whole. */
  lemma SubmitSemEdicao(c: Cliente, hoje: string, numToString: real -> string, parseFloat: string -> real)
    requires parseFloat(numToString(c.totalCompras)) == c.totalCompras
    ensures ComoCliente(Submit(Some(c), FormDe(Some(c), hoje, numToString), parseFloat), c.id) == c
  {
  }

  /** Saving an unedited customer leaves the page's list and its purchases total as they were. */
  lemma EditarSemEdicaoPreservaLista(cs: seq<Cliente>, i: int, hoje: string, numToString: real -> string, parseFloat: string -> real)
    requires UniqueKeys(cs, ClienteId) && 0 <= i < |cs|
    requires parseFloat(numToString(cs[i].totalCompras)) == cs[i].totalCompras
    ensures var d := Submit(Some(cs[i]), FormDe(Some(cs[i]), hoje, numToString), parseFloat);
            ReplaceByKey(cs, ComoCliente(d, cs[i].id), ClienteId) == cs
  {
    SubmitSemEdicao(cs[i], hoje, numToString, parseFloat);
    ReplaceByKeyAt(cs, i, cs[i], ClienteId);
    assert cs[i := cs[i]] == cs;
  }

  /** The dialog's form state. */
  class Dialog {
    var formData: FormData

    constructor (hoje: string)
      ensures formData == FormVazio(hoje)
    {
      formData := FormVazio(hoje);
    }

    /** The effect run when `cliente` or `open` changes: always refills the form. */
    method Sincronizar(cliente: Option<Cliente>, hoje: string, numToString: real -> string)
      modifies this
      ensures formData == FormDe(cliente, hoje, numToString)
    {
      formData := FormDe(cliente, hoje, numToString);
    }

    /** Submitting: the data handed to `onSave`. */
    method HandleSubmit(cliente: Option<Cliente>, parseFloat: string -> real) returns (data: ClienteData)
      ensures data == Submit(cliente, formData, parseFloat)
    {
      data := Submit(cliente, formData, parseFloat);
    }
  }
}
