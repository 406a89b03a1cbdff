/**
 * The table dialog of components/mesa-dialog.tsx: the form holds the status
 * and three text fields, is filled from the table being edited, and on
 * submit builds the updated table, keeping only the optional fields the
 * chosen status uses.
 */
module MesaDialog {
  import opened Js
  import opened Mesas

  datatype FormData = FormData(status: StatusMesa, clientes: string, horarioOcupacao: string, nomeReserva: string)

  /** The form before any table was given. */
  const FormInicial: FormData := FormData(Disponivel, "", "", "")

  /** `s || ""` for an optional string. */
  function OrEmpty(s: Option<string>): string {
    match s
    case Some(v) => v
    case None => ""
  }

  /** The form `useEffect` fills from a table: `mesa.clientes?.toString() || ""` and the other optionals or "". */
  function FormDe(mesa: Mesa): (f: FormData)
    ensures f.status == mesa.status
    ensures mesa.clientes.None? ==> f.clientes == ""
    ensures mesa.clientes.Some? ==> f.clientes == JsIntToString(mesa.clientes.value)
    ensures mesa.clientes.Some? ==> ParseInt(f.clientes) == mesa.clientes.value
    ensures mesa.horarioOcupacao.None? ==> f.horarioOcupacao == ""
    ensures mesa.horarioOcupacao.Some? ==> f.horarioOcupacao == mesa.horarioOcupacao.value
    ensures mesa.nomeReserva.None? ==> f.nomeReserva == ""
    ensures mesa.nomeReserva.Some? ==> f.nomeReserva == mesa.nomeReserva.value
  {
    FormData(mesa.status,
             match mesa.clientes
             case Some(n) => ParseIntOfJsIntToString(n); JsIntToString(n)
             case None => "",
             OrEmpty(mesa.horarioOcupacao),
             OrEmpty(mesa.nomeReserva))
  }

  /** The effect on `[mesa, open]`: refill from a table, keep the form when there is none. */
  function Sincronizado(form: FormData, mesa: Option<Mesa>): (f: FormData)
    ensures mesa.None? ==> f == form
    ensures mesa.Some? ==> f == FormDe(mesa.value)
  {
    if mesa.Some? then FormDe(mesa.value) else form
  }

  /**
   * `handleSubmit`: None when there is no table; otherwise the table with
   * the form's status, `parseInt` of the guest count and the time only when
   * occupied, and the reservation name only when reserved.
   */
  function Submit(mesa: Option<Mesa>, form: FormData): (r: Option<Mesa>)
    ensures mesa.None? <==> r.None?
    ensures r.Some? ==>
              && r.value.id == mesa.value.id && r.value.numero == mesa.value.numero
              && r.value.capacidade == mesa.value.capacidade && r.value.status == form.status
              && r.value.clientes == (if form.status == Ocupada then Some(ParseInt(form.clientes)) else None)
              && r.value.horarioOcupacao == (if form.status == Ocupada then Some(form.horarioOcupacao) else None)
              && r.value.nomeReserva == (if form.status == Reservada then Some(form.nomeReserva) else None)
  {
    if mesa.None? then None
    else
      Some(mesa.value.(
        status := form.status,
        clientes := if form.status == Ocupada then Some(ParseInt(form.clientes)) else None,
        horarioOcupacao := if form.status == Ocupada then Some(form.horarioOcupacao) else None,
        nomeReserva := if form.status == Reservada then Some(form.nomeReserva) else None))
  }

  /** A table whose optional fields are the ones its status uses. */
  predicate Consistente(m: Mesa) {
    && (m.clientes.Some? <==> m.status == Ocupada)
    && (m.horarioOcupacao.Some? <==> m.status == Ocupada)
    && (m.nomeReserva.Some? <==> m.status == Reservada)
  }

  /**
   * Opening the dialog on a table and submitting without edits gives the
   * same table back exactly when the table is consistent with its status.
   */
  lemma SubmitUnchanged(m: Mesa)
    ensures Submit(Some(m), FormDe(m)) == Some(m) <==> Consistente(m)
  {
    if m.clientes.Some? {
      ParseIntOfJsIntToString(m.clientes.value);
    }
    if Consistente(m) {
      assert Submit(Some(m), FormDe(m)).value == m;
    }
  }

  /** Whatever the form holds, the submitted table is consistent. */
  lemma SubmitConsistente(m: Mesa, form: FormData)
    ensures Consistente(Submit(Some(m), form).value)
  {
  }

  /** The dialog's form state. */
  class Dialog {
    var formData: FormData

    constructor ()
      ensures formData == FormInicial
    {
      formData := FormInicial;
    }

    /** The effect run when `mesa` or `open` changes. */
    method Sincronizar(mesa: Option<Mesa>)
      modifies this
      ensures formData == Sincronizado(old(formData), mesa)
    {
      if mesa.Some? {
        formData := FormDe(mesa.value);
      }
    }

    /** Submitting: the table handed to `onSave`, None when nothing is saved. */
    method HandleSubmit(mesa: Option<Mesa>) returns (saved: Option<Mesa>)
      ensures saved == Submit(mesa, formData)
    {
      saved := Submit(mesa, formData);
    }
  }
}
