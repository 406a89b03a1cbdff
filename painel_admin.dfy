/**
 * The admin dashboard of app/admin/page.tsx: the tables come from the API
 * with the English status codes `available`/`busy`/`reserved`, are shown
 * with the page's own codes, and status changes go back as PATCH bodies
 * holding only the API code.
 */
module PainelAdmin {
  import opened Js
  import opened Lists
  import opened Mesas

  /** A table as the API returns it; the map fields it also carries are not read here. */
  datatype ApiMesa = ApiMesa(id: string, rotulo: string, seats: int, status: string)

  /** The table as the dashboard shows it. */
  datatype MesaFormatada = MesaFormatada(id: string, numero: string, capacidade: int, status: StatusMesa)

  /** The JSON body `{ status }` of the dashboard's PATCH requests. */
  datatype StatusBody = StatusBody(status: string)

  /** The conversion in `fetchMesas`: "available" and "busy" are recognised, anything else counts as reserved. */
  function DaApi(status: string): (s: StatusMesa)
    ensures status == "available" <==> s == Disponivel
    ensures status == "busy" <==> s == Ocupada
  {
    if status == "available" then Disponivel
    else if status == "busy" then Ocupada
    else Reservada
  }

  /** `statusMap` of `handleUpdateMesa` */
  function StatusMap(s: StatusMesa): string {
    match s
    case Disponivel => "available"
    case Ocupada => "busy"
    case Reservada => "reserved"
  }

  /** Going to the page's codes and back is the identity on the page's codes. */
  lemma StatusMapDaApi(s: StatusMesa)
    ensures DaApi(StatusMap(s)) == s
  {
  }

  /**
   * Going from the API to the page's codes and back is the identity on the
   * three API codes; any other API string comes back as "reserved".
   */
  lemma DaApiStatusMap(status: string)
    ensures status in {"available", "busy", "reserved"} ==> StatusMap(DaApi(status)) == status
    ensures status !in {"available", "busy", "reserved"} ==> StatusMap(DaApi(status)) == "reserved"
  {
  }

  /**
   * The dashboard's `getStatusText` is the tables page's `StatusText`. Every
   * status it shows came through `DaApi`, so a card always shows one of the
   * three labels and never a raw code.
   */
  lemma RotuloDoPainel(apiStatus: string)
    ensures StatusText(Codigo(DaApi(apiStatus))) == Rotulo(DaApi(apiStatus))
    ensures StatusText(Codigo(DaApi(apiStatus))) in {"Disponível", "Ocupada", "Reservada"}
  {
  }

  /** The `map` of `fetchMesas` on one table. */
  function Formatar(m: ApiMesa): MesaFormatada {
    MesaFormatada(m.id, m.rotulo, m.seats, DaApi(m.status))
  }

  /** `mesasFormatadas`: one entry per API table, in the same order. */
  function Formatadas(data: seq<ApiMesa>): (r: seq<MesaFormatada>)
    ensures |r| == |data|
    ensures forall i :: 0 <= i < |data| ==>
              r[i].id == data[i].id && r[i].numero == data[i].rotulo && r[i].capacidade == data[i].seats &&
              StatusMap(r[i].status) == (if data[i].status in {"available", "busy"} then data[i].status else "reserved")
  {
    seq(|data|, i requires 0 <= i < |data| => Formatar(data[i]))
  }

  function StatusFormatada(m: MesaFormatada): StatusMesa { m.status }

  /**
   * The three counts of the dashboard add up to the number of tables, and
   * the reserved count takes every API status other than "available" and "busy".
   */
  lemma ContagensDoPainel(data: seq<ApiMesa>)
    ensures var mesas := Formatadas(data);
            Contagem(mesas, StatusFormatada, Disponivel) + Contagem(mesas, StatusFormatada, Ocupada)
              + Contagem(mesas, StatusFormatada, Reservada) == |data|
  {
    ContagensSomam(Formatadas(data), StatusFormatada);
  }

  /** The body `handleUpdateMesa` sends: only the mapped status. */
  function CorpoAtualizar(m: MesaFormatada): StatusBody {
    StatusBody(StatusMap(m.status))
  }

  /** The body `handleLiberarMesa` sends. */
  const CorpoLiberar: StatusBody := StatusBody("available")

  /** Freeing sends the same body as saving a table edited to "disponivel". */
  lemma LiberarIgualAtualizarDisponivel(m: MesaFormatada)
    ensures CorpoAtualizar(m) == CorpoLiberar <==> m.status == Disponivel
  {
  }

  /** The dashboard's state. */
  class Painel {
    var mesas: seq<MesaFormatada>
    var dialogOpen: bool
    var selectedMesa: Option<MesaFormatada>

    constructor ()
      ensures mesas == [] && !dialogOpen && selectedMesa.None?
    {
      mesas := [];
      dialogOpen := false;
      selectedMesa := None;
    }

    /** `fetchMesas`; `data` is None when the request failed, which leaves the list as it was. */
    method FetchMesas(data: Option<seq<ApiMesa>>)
      modifies this`mesas
      ensures data.Some? ==> mesas == Formatadas(data.value)
      ensures data.None? ==> mesas == old(mesas)
    {
      if data.Some? {
        mesas := Formatadas(data.value);
      }
    }

    method OpenMesaDialog(mesa: MesaFormatada)
      modifies this`dialogOpen, this`selectedMesa
      ensures selectedMesa == Some(mesa) && dialogOpen
    {
      selectedMesa := Some(mesa);
      dialogOpen := true;
    }

    /**
     * `handleUpdateMesa`: sends the body; when the PATCH answered ok the list
     * is reloaded from `reloaded` and the dialog closes, otherwise nothing changes.
     */
    method HandleUpdateMesa(mesaAtualizada: MesaFormatada, ok: bool, reloaded: Option<seq<ApiMesa>>)
      returns (body: StatusBody)
      modifies this
      ensures body == CorpoAtualizar(mesaAtualizada)
      ensures ok ==> !dialogOpen && selectedMesa.None? &&
                     mesas == (if reloaded.Some? then Formatadas(reloaded.value) else old(mesas))
      ensures !ok ==> mesas == old(mesas) && dialogOpen == old(dialogOpen) && selectedMesa == old(selectedMesa)
    {
      body := CorpoAtualizar(mesaAtualizada);
      if ok {
        FetchMesas(reloaded);
        dialogOpen := false;
        selectedMesa := None;
      }
    }

    /** `handleLiberarMesa`: the PATCH body, then a reload when it answered ok. */
    method HandleLiberarMesa(id: string, ok: bool, reloaded: Option<seq<ApiMesa>>) returns (body: StatusBody)
      modifies this`mesas
      ensures body == CorpoLiberar
      ensures ok && reloaded.Some? ==> mesas == Formatadas(reloaded.value)
      ensures !(ok && reloaded.Some?) ==> mesas == old(mesas)
    {
      body := CorpoLiberar;
      if ok {
        FetchMesas(reloaded);
      }
    }
  }
}
