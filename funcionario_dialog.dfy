/**
 * The employee dialog of components/funcionario-dialog.tsx: the form is
 * filled from the employee being edited (or with the defaults for a new
 * one), and on submit the form becomes the record handed to the page, with
 * an id only when an employee was being edited.
 */
module FuncionarioDialog {
  import opened Js
  import opened Lists
  import opened Funcionarios

  datatype FormData = FormData(
    nome: string,
    email: string,
    telefone: string,
    cargo: string,
    dataAdmissao: string,
    salario: string,
    status: StatusFuncionario)

  /** The roles the dialog offers. */
  const Cargos: seq<string> := ["Gerente", "Sommelier", "Garçom", "Cozinheira", "Bartender", "Auxiliar"]

  /** The form for a new employee; `hoje` is today's date as `toISOString().split("T")[0]` gives it. */
  function FormVazio(hoje: string): FormData {
    FormData("", "", "", "Garçom", hoje, "", Ativo)
  }

  /** `funcionarioData`: the id is present only when editing. */
  datatype FuncionarioData = FuncionarioData(
    id: Option<int>,
    nome: string,
    email: string,
    telefone: string,
    cargo: string,
    dataAdmissao: string,
    salario: real,
    status: StatusFuncionario)

  /**
   * The form the effect on `[funcionario, open]` sets; `numToString` is
   * `Number.prototype.toString` on the salary.
   */
  function FormDe(funcionario: Option<Funcionario>, hoje: string, numToString: real -> string): (f: FormData)
    ensures funcionario.None? ==> f.nome == "" && f.email == "" && f.telefone == "" && f.salario == ""
    ensures funcionario.None? ==> f.cargo == "Garçom" && f.cargo in Cargos && f.dataAdmissao == hoje && f.status == Ativo
    ensures funcionario.Some? ==>
              && f.nome == funcionario.value.nome && f.email == funcionario.value.email
              && f.telefone == funcionario.value.telefone && f.cargo == funcionario.value.cargo
              && f.dataAdmissao == funcionario.value.dataAdmissao
              && f.salario == numToString(funcionario.value.salario)
              && f.status == funcionario.value.status
  {
    match funcionario
    case None => assert Cargos[2] == "Garçom"; FormVazio(hoje)
    case Some(x) => FormData(x.nome, x.email, x.telefone, x.cargo, x.dataAdmissao, numToString(x.salario), x.status)
  }

  /** `handleSubmit`; `parseFloat` is `Number.parseFloat` on the salary text. */
  function Submit(funcionario: Option<Funcionario>, form: FormData, parseFloat: string -> real): (r: FuncionarioData)
    ensures r.id.Some? <==> funcionario.Some?
    ensures funcionario.Some? ==> r.id == Some(funcionario.value.id)
    ensures r.nome == form.nome && r.email == form.email && r.telefone == form.telefone
    ensures r.cargo == form.cargo && r.dataAdmissao == form.dataAdmissao && r.status == form.status
    ensures r.salario == parseFloat(form.salario)
  {
    FuncionarioData(if funcionario.Some? then Some(funcionario.value.id) else None,
                    form.nome, form.email, form.telefone, form.cargo, form.dataAdmissao,
                    parseFloat(form.salario), form.status)
  }

  /** The employee the page stores for the submitted data under `id`. */
  function ComoFuncionario(d: FuncionarioData, id: int): Funcionario {
    Funcionario(id, d.nome, d.email, d.telefone, d.cargo, d.dataAdmissao, d.salario, d.status)
  }

  /** The record `handleSubmit` builds from the default new-employee form: no id, an active "Garçom" hired today. */
  lemma SubmitNovo(hoje: string, numToString: real -> string, parseFloat: string -> real)
    ensures var d := Submit(None, FormDe(None, hoje, numToString), parseFloat);
            && d.id.None? && d.nome == "" && d.email == "" && d.telefone == ""
            && d.cargo == "Garçom" && d.dataAdmissao == hoje && d.status == Ativo
  {
  }

  /**
   * Opening the dialog on an employee and submitting without edits keeps the
   * id, every text field and the status, whatever the number conversions do.
   */
  lemma SubmitSemEdicaoTextos(x: Funcionario, hoje: string, numToString: real -> string, parseFloat: string -> real)
    ensures var d := Submit(Some(x), FormDe(Some(x), hoje, numToString), parseFloat);
            && d.id == Some(x.id) && d.nome == x.nome && d.email == x.email && d.telefone == x.telefone
            && d.cargo == x.cargo && d.dataAdmissao == x.dataAdmissao && d.status == x.status
  {
  }

  /** When the salary survives `toString`/`parseFloat`, the unedited employee comes back whole. */
  lemma SubmitSemEdicao(x: Funcionario, hoje: string, numToString: real -> string, parseFloat: string -> real)
    requires parseFloat(numToString(x.salario)) == x.salario
    ensures ComoFuncionario(Submit(Some(x), FormDe(Some(x), hoje, numToString), parseFloat), x.id) == x
  {
  }

  /** Saving an unedited employee leaves the page's list as it was. */
  lemma EditarSemEdicaoPreservaLista(fs: seq<Funcionario>, i: int, hoje: string, numToString: real -> string, parseFloat: string -> real)
    requires UniqueKeys(fs, FuncId) && 0 <= i < |fs|
    requires parseFloat(numToString(fs[i].salario)) == fs[i].salario
    ensures var d := Submit(Some(fs[i]), FormDe(Some(fs[i]), hoje, numToString), parseFloat);
            ReplaceByKey(fs, ComoFuncionario(d, fs[i].id), FuncId) == fs
  {
    SubmitSemEdicao(fs[i], hoje, numToString, parseFloat);
    ReplaceByKeyAt(fs, i, fs[i], FuncId);
    assert fs[i := fs[i]] == fs;
  }

  /** The dialog's form state. */
  class Dialog {
    var formData: FormData

    constructor (hoje: string)
      ensures formData == FormVazio(hoje)
    {
      formData := FormVazio(hoje);
    }

    /** The effect run when `funcionario` or `open` changes: always refills the form. */
    method Sincronizar(funcionario: Option<Funcionario>, hoje: string, numToString: real -> string)
      modifies this
      ensures formData == FormDe(funcionario, hoje, numToString)
    {
      formData := FormDe(funcionario, hoje, numToString);
    }

    /** Submitting: the data handed to `onSave`. */
    method HandleSubmit(funcionario: Option<Funcionario>, parseFloat: string -> real) returns (data: FuncionarioData)
      ensures data == Submit(funcionario, formData, parseFloat)
    {
      data := Submit(funcionario, formData, parseFloat);
    }
  }
}
