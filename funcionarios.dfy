/**
 * The employees page of app/admin/funcionarios/page.tsx: an in-memory list
 * of employees with a search box, add/edit/delete, the count of active
 * employees and the monthly payroll of the active ones.
 */
module Funcionarios {
  import opened Js
  import opened Lists

  datatype StatusFuncionario = Ativo | Inativo

  datatype Funcionario = Funcionario(
    id: int,
    nome: string,
    email: string,
    telefone: string,
    cargo: string,
    dataAdmissao: string,
    salario: real,
    status: StatusFuncionario)

  function FuncId(f: Funcionario): int { f.id }

  function Salario(f: Funcionario): real { f.salario }

  /** The employees the page starts with. */
  const FuncionariosIniciais: seq<Funcionario> := [
    Funcionario(1, "Carlos Mendes", "carlos.mendes@adega.com", "(11) 91234-5678", "Gerente", "2023-01-10", 5500.0, Ativo),
    Funcionario(2, "Fernanda Lima", "fernanda.lima@adega.com", "(11) 92345-6789", "Sommelier", "2023-03-15", 4200.0, Ativo),
    Funcionario(3, "Roberto Santos", "roberto.santos@adega.com", "(11) 93456-7890", "Garçom", "2023-06-20", 2800.0, Ativo),
    Funcionario(4, "Juliana Costa", "juliana.costa@adega.com", "(11) 94567-8901", "Cozinheira", "2023-08-05", 3200.0, Ativo)
  ]

  // ---------------------------------------------------------------------
  // Search
  // ---------------------------------------------------------------------

  /** The search predicate: nome, cargo or email contains the term, both lowercased. */
  predicate Corresponde(f: Funcionario, termo: string) {
    || Includes(Lower(f.nome), Lower(termo))
    || Includes(Lower(f.cargo), Lower(termo))
    || Includes(Lower(f.email), Lower(termo))
  }

  function Termo(termo: string): Funcionario -> bool {
    (f: Funcionario) => Corresponde(f, termo)
  }

  /** `filteredFuncionarios`: the matching employees, in list order. */
  function Busca(fs: seq<Funcionario>, termo: string): seq<Funcionario> {
    Filter(fs, Termo(termo))
  }

  /** An empty search box shows every employee. */
  lemma BuscaVazia(fs: seq<Funcionario>)
    ensures Busca(fs, "") == fs
  {
    forall i | 0 <= i < |fs| ensures Corresponde(fs[i], "") {
      IncludesEmpty(Lower(fs[i].nome));
    }
    FilterAll(fs, Termo(""));
  }

  /** The search ignores the case of the term. */
  lemma BuscaIgnoraCaixa(fs: seq<Funcionario>, termo: string)
    ensures Busca(fs, termo) == Busca(fs, Lower(termo))
  {
    LowerIdempotent(termo);
    FilterSame(fs, Termo(termo), Termo(Lower(termo)));
  }

  /** An employee is listed exactly when it matches. */
  lemma BuscaMembros(fs: seq<Funcionario>, termo: string)
    ensures forall i :: 0 <= i < |fs| ==> (fs[i] in Busca(fs, termo) <==> Corresponde(fs[i], termo))
  {
    FilterKeepsIff(fs, Termo(termo));
  }

  // ---------------------------------------------------------------------
  // Active employees and payroll
  // ---------------------------------------------------------------------

  predicate EhAtivo(f: Funcionario) { f.status == Ativo }

  function AtivoF(): Funcionario -> bool {
    (f: Funcionario) => EhAtivo(f)
  }

  /** `funcionariosAtivos` */
  function FuncionariosAtivos(fs: seq<Funcionario>): (n: nat)
    ensures n <= |fs|
  {
    |Filter(fs, AtivoF())|
  }

  /** `totalFolhaPagamento`: the salaries of the active employees, added from the left. */
  function FolhaPagamento(fs: seq<Funcionario>): real {
    Sum(Filter(fs, AtivoF()), Salario)
  }

  function SalarioSeAtivo(f: Funcionario): real {
    if EhAtivo(f) then f.salario else 0.0
  }

  /** The payroll counts each active employee's salary and nothing for the inactive ones. */
  lemma FolhaSoAtivos(fs: seq<Funcionario>)
    ensures FolhaPagamento(fs) == Sum(fs, SalarioSeAtivo)
  {
    SumFilter(fs, AtivoF(), Salario, SalarioSeAtivo);
  }

  /** Hiring adds the new salary to the payroll when the employee is active, and nothing otherwise. */
  lemma FolhaAdicionar(fs: seq<Funcionario>, f: Funcionario)
    ensures FolhaPagamento(fs + [f]) == FolhaPagamento(fs) + SalarioSeAtivo(f)
    ensures FuncionariosAtivos(fs + [f]) == FuncionariosAtivos(fs) + (if EhAtivo(f) then 1 else 0)
  {
    FilterAppend(fs, [f], AtivoF());
    assert Filter([f], AtivoF()) == if EhAtivo(f) then [f] else [];
    SumAppend(Filter(fs, AtivoF()), Filter([f], AtivoF()), Salario);
    if EhAtivo(f) {
      SumCons(f, [], Salario);
    }
  }

  // ---------------------------------------------------------------------
  // The page
  // ---------------------------------------------------------------------

  class FuncionariosPage {
    var funcionarios: seq<Funcionario>
    var searchTerm: string
    var dialogOpen: bool
    var editingFuncionario: Option<Funcionario>

    /** Employee ids are unique; every handler keeps them so. */
    predicate Valid()
      reads this
    {
      UniqueKeys(funcionarios, FuncId)
    }

    constructor ()
      ensures Valid()
      ensures funcionarios == FuncionariosIniciais && searchTerm == "" && !dialogOpen && editingFuncionario.None?
    {
      funcionarios := FuncionariosIniciais;
      searchTerm := "";
      dialogOpen := false;
      editingFuncionario := None;
    }

    /** The employees shown for the current search. */
    function Filtered(): seq<Funcionario>
      reads this
    {
      Busca(funcionarios, searchTerm)
    }

    method SetSearchTerm(termo: string)
      modifies this`searchTerm
      ensures searchTerm == termo
    {
      searchTerm := termo;
    }

    /** `handleAddFuncionario`: the record is appended under `Math.max(...ids, 0) + 1`. */
    method HandleAddFuncionario(f: Funcionario)
      requires Valid()
      modifies this`funcionarios, this`dialogOpen
      ensures Valid()
      ensures funcionarios == old(funcionarios) + [f.(id := NextId(old(funcionarios), FuncId))]
      ensures forall i :: 0 <= i < |old(funcionarios)| ==> old(funcionarios)[i].id < funcionarios[|funcionarios| - 1].id
      ensures !dialogOpen
    {
      var novo := f.(id := NextId(funcionarios, FuncId));
      AppendNextIdUnique(funcionarios, novo, FuncId);
      funcionarios := funcionarios + [novo];
      dialogOpen := false;
    }

    /** `handleEditFuncionario`: replace by id and close the dialog. */
    method HandleEditFuncionario(f: Funcionario)
      requires Valid()
      modifies this`funcionarios, this`dialogOpen, this`editingFuncionario
      ensures Valid()
      ensures funcionarios == ReplaceByKey(old(funcionarios), f, FuncId)
      ensures !dialogOpen && editingFuncionario.None?
    {
      ReplaceByKeyUnique(funcionarios, f, FuncId);
      funcionarios := ReplaceByKey(funcionarios, f, FuncId);
      dialogOpen := false;
      editingFuncionario := None;
    }

    /** `handleDeleteFuncionario`; `confirmed` is the answer to `confirm(...)`. */
    method HandleDeleteFuncionario(id: int, confirmed: bool)
      requires Valid()
      modifies this`funcionarios
      ensures Valid()
      ensures confirmed ==> funcionarios == RemoveKey(old(funcionarios), id, FuncId)
      ensures !confirmed ==> funcionarios == old(funcionarios)
    {
      if confirmed {
        FilterUnique(funcionarios, KeyIsNot(FuncId, id), FuncId);
        funcionarios := RemoveKey(funcionarios, id, FuncId);
      }
    }

    method OpenEditDialog(f: Funcionario)
      modifies this`editingFuncionario, this`dialogOpen
      ensures editingFuncionario == Some(f) && dialogOpen
    {
      editingFuncionario := Some(f);
      dialogOpen := true;
    }

    method OpenAddDialog()
      modifies this`editingFuncionario, this`dialogOpen
      ensures editingFuncionario.None? && dialogOpen
    {
      editingFuncionario := None;
      dialogOpen := true;
    }
  }
}
