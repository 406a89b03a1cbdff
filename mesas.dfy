/**
 * The tables page of app/admin/mesas/page.tsx: an in-memory list of tables,
 * each available ("disponivel"), occupied ("ocupada") or reserved
 * ("reservada"), with per-status counts, replacement of an edited table and
 * "liberar" (free a table).
 */
module Mesas {
  import opened Js
  import opened Lists

  /** The three status codes of the page. */
  datatype StatusMesa = Disponivel | Ocupada | Reservada

  /** The code as the page writes it. */
  function Codigo(s: StatusMesa): string {
    match s
    case Disponivel => "disponivel"
    case Ocupada => "ocupada"
    case Reservada => "reservada"
  }

  /** The label shown for a code. */
  function Rotulo(s: StatusMesa): string {
    match s
    case Disponivel => "Disponível"
    case Ocupada => "Ocupada"
    case Reservada => "Reservada"
  }

  /** `getStatusText`: the label of one of the three codes; any other string is shown as it is. */
  function StatusText(status: string): (t: string)
    ensures forall s :: status == Codigo(s) ==> t == Rotulo(s)
    ensures (forall s :: status != Codigo(s)) ==> t == status
  {
    if status == "disponivel" then assert status == Codigo(Disponivel); "Disponível"
    else if status == "ocupada" then assert status == Codigo(Ocupada); "Ocupada"
    else if status == "reservada" then assert status == Codigo(Reservada); "Reservada"
    else status
  }

  /** Distinct statuses have distinct codes and distinct labels. */
  lemma CodesAndLabelsDistinct(s: StatusMesa, t: StatusMesa)
    requires s != t
    ensures Codigo(s) != Codigo(t) && Rotulo(s) != Rotulo(t)
  {
    assert Codigo(s)[0] != Codigo(t)[0];
    assert Rotulo(s)[0] != Rotulo(t)[0];
  }

  /** A table of the page; `clientes` is a number that `parseInt` may have made NaN. */
  datatype Mesa = Mesa(
    id: int,
    numero: int,
    capacidade: int,
    status: StatusMesa,
    clientes: Option<JsInt>,
    horarioOcupacao: Option<string>,
    nomeReserva: Option<string>)

  function MesaId(m: Mesa): int { m.id }

  /** The tables the page starts with. */
  const MesasIniciais: seq<Mesa> := [
    Mesa(1, 1, 4, Ocupada, Some(Int(4)), Some("19:30"), None),
    Mesa(2, 2, 2, Disponivel, None, None, None),
    Mesa(3, 3, 2, Ocupada, Some(Int(2)), Some("20:00"), None),
    Mesa(4, 4, 6, Reservada, None, None, Some("João Silva")),
    Mesa(5, 5, 6, Ocupada, Some(Int(6)), Some("19:45"), None),
    Mesa(6, 6, 4, Disponivel, None, None, None),
    Mesa(7, 7, 2, Disponivel, None, None, None),
    Mesa(8, 8, 4, Ocupada, Some(Int(3)), Some("20:15"), None),
    Mesa(9, 9, 8, Disponivel, None, None, None),
    Mesa(10, 10, 4, Disponivel, None, None, None)
  ]

  // ---------------------------------------------------------------------
  // Counts
  // ---------------------------------------------------------------------

  function ComStatus<T>(status: T -> StatusMesa, s: StatusMesa): T -> bool {
    (x: T) => status(x) == s
  }

  /** `xs.filter((m) => m.status === s).length` for any record with a status. */
  function Contagem<T>(xs: seq<T>, status: T -> StatusMesa, s: StatusMesa): (n: nat)
    ensures n <= |xs|
  {
    |Filter(xs, ComStatus(status, s))|
  }

  /** Every table has exactly one of the three statuses, so the three counts add up to the number of tables. */
  lemma {:induction false} ContagensSomam<T>(xs: seq<T>, status: T -> StatusMesa)
    ensures Contagem(xs, status, Disponivel) + Contagem(xs, status, Ocupada) + Contagem(xs, status, Reservada) == |xs|
  {
    if xs != [] {
      ContagensSomam(xs[1..], status);
    }
  }

  function StatusDe(m: Mesa): StatusMesa { m.status }

  // ---------------------------------------------------------------------
  // Updating and freeing
  // ---------------------------------------------------------------------

  function Substituta(mesaAtualizada: Mesa): Mesa -> Mesa {
    (m: Mesa) => mesaAtualizada
  }

  /** `handleUpdateMesa`: every table with the edited table's id is replaced by it. */
  function Atualizar(mesas: seq<Mesa>, mesaAtualizada: Mesa): (r: seq<Mesa>)
    ensures |r| == |mesas|
    ensures forall i :: 0 <= i < |mesas| ==>
              r[i] == if mesas[i].id == mesaAtualizada.id then mesaAtualizada else mesas[i]
  {
    MapWhere(mesas, mesaAtualizada.id, MesaId, Substituta(mesaAtualizada))
  }

  /** The table after "liberar": available, with no guests, time or reservation name. */
  function Liberada(m: Mesa): (r: Mesa)
    ensures r.id == m.id && r.numero == m.numero && r.capacidade == m.capacidade
    ensures r.status == Disponivel && r.clientes.None? && r.horarioOcupacao.None? && r.nomeReserva.None?
  {
    m.(status := Disponivel, clientes := None, horarioOcupacao := None, nomeReserva := None)
  }

  function LiberarF(): Mesa -> Mesa {
    (m: Mesa) => Liberada(m)
  }

  /** `handleLiberarMesa` */
  function Liberar(mesas: seq<Mesa>, id: int): (r: seq<Mesa>)
    ensures |r| == |mesas|
    ensures forall i :: 0 <= i < |mesas| && mesas[i].id != id ==> r[i] == mesas[i]
    ensures forall i :: 0 <= i < |mesas| && mesas[i].id == id ==> r[i] == Liberada(mesas[i])
  {
    MapWhere(mesas, id, MesaId, LiberarF())
  }

  /** Freeing a table twice is freeing it once. */
  lemma LiberarIdempotente(mesas: seq<Mesa>, id: int)
    ensures Liberar(Liberar(mesas, id), id) == Liberar(mesas, id)
  {
    MapWhereIdempotent(mesas, id, MesaId, LiberarF());
  }

  /** Freeing an id that no table has changes nothing. */
  lemma LiberarAusente(mesas: seq<Mesa>, id: int)
    requires forall i :: 0 <= i < |mesas| ==> mesas[i].id != id
    ensures Liberar(mesas, id) == mesas
  {
    MapWhereAbsent(mesas, id, MesaId, LiberarF());
  }

  /**
   * With unique ids, freeing an occupied or reserved table moves it from its
   * count to the available count and leaves the third count alone.
   */
  lemma LiberarContagens(mesas: seq<Mesa>, i: int)
    requires UniqueKeys(mesas, MesaId) && 0 <= i < |mesas|
    requires mesas[i].status != Disponivel
    ensures var r := Liberar(mesas, mesas[i].id);
            && Contagem(r, StatusDe, Disponivel) == Contagem(mesas, StatusDe, Disponivel) + 1
            && Contagem(r, StatusDe, mesas[i].status) == Contagem(mesas, StatusDe, mesas[i].status) - 1
  {
    var r := Liberar(mesas, mesas[i].id);
    MapWhereUniqueAt(mesas, i, MesaId, LiberarF());
    assert r == mesas[i := Liberada(mesas[i])];
    ContagemUpdate(mesas, i, Liberada(mesas[i]), StatusDe, Disponivel);
    ContagemUpdate(mesas, i, Liberada(mesas[i]), StatusDe, mesas[i].status);
  }

  /** Replacing one record changes a count by what the old and new record contribute. */
  lemma ContagemUpdate<T>(xs: seq<T>, i: int, x: T, status: T -> StatusMesa, s: StatusMesa)
    requires 0 <= i < |xs|
    ensures Contagem(xs[i := x], status, s) ==
              Contagem(xs, status, s) - (if status(xs[i]) == s then 1 else 0) + (if status(x) == s then 1 else 0)
  {
    var p := ComStatus(status, s);
    assert xs == xs[..i] + [xs[i]] + xs[i + 1..];
    assert xs[i := x] == xs[..i] + [x] + xs[i + 1..];
    FilterAppend(xs[..i] + [xs[i]], xs[i + 1..], p);
    FilterAppend(xs[..i], [xs[i]], p);
    FilterAppend(xs[..i] + [x], xs[i + 1..], p);
    FilterAppend(xs[..i], [x], p);
    assert Filter([xs[i]], p) == if p(xs[i]) then [xs[i]] else [];
    assert Filter([x], p) == if p(x) then [x] else [];
  }

  // ---------------------------------------------------------------------
  // The page
  // ---------------------------------------------------------------------

  class MesasPage {
    var mesas: seq<Mesa>
    var dialogOpen: bool
    var selectedMesa: Option<Mesa>

    constructor ()
      ensures mesas == MesasIniciais && !dialogOpen && selectedMesa.None?
    {
      mesas := MesasIniciais;
      dialogOpen := false;
      selectedMesa := None;
    }

    method OpenMesaDialog(mesa: Mesa)
      modifies this`dialogOpen, this`selectedMesa
      ensures selectedMesa == Some(mesa) && dialogOpen
    {
      selectedMesa := Some(mesa);
      dialogOpen := true;
    }

    /** `handleUpdateMesa`: replace by id and close the dialog. */
    method HandleUpdateMesa(mesaAtualizada: Mesa)
      modifies this
      ensures mesas == Atualizar(old(mesas), mesaAtualizada)
      ensures !dialogOpen && selectedMesa.None?
    {
      mesas := Atualizar(mesas, mesaAtualizada);
      dialogOpen := false;
      selectedMesa := None;
    }

    /** `handleLiberarMesa` */
    method HandleLiberarMesa(id: int)
      modifies this`mesas
      ensures mesas == Liberar(old(mesas), id)
    {
      mesas := Liberar(mesas, id);
    }

    /** The three counts shown above the grid. */
    method Contagens() returns (disponiveis: nat, ocupadas: nat, reservadas: nat)
      ensures disponiveis == Contagem(mesas, StatusDe, Disponivel)
      ensures ocupadas == Contagem(mesas, StatusDe, Ocupada)
      ensures reservadas == Contagem(mesas, StatusDe, Reservada)
      ensures disponiveis + ocupadas + reservadas == |mesas|
    {
      disponiveis := Contagem(mesas, StatusDe, Disponivel);
      ocupadas := Contagem(mesas, StatusDe, Ocupada);
      reservadas := Contagem(mesas, StatusDe, Reservada);
      ContagensSomam(mesas, StatusDe);
    }
  }
}
