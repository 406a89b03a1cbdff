/**
 * The customer check-in form of app/clients/login-clientes/page.tsx: a
 * schema of field-length and number-range rules, and the `isSubmitting`
 * flag that disables the button once a valid form was sent.
 */
module Checkin {
  /** The value `z.coerce.number()` produces: `Number(input)`, which may be NaN. */
  datatype Numero = Finito(valor: real) | NaN

  datatype Valores = Valores(nome: string, cpf: string, telefone: string, mesa: Numero)

  const MsgNome := "Nome deve ter pelo menos 3 caracteres."
  const MsgCpf := "CPF deve ter 11 dígitos."
  const MsgTelefone := "Telefone inválido."
  const MsgMesa := "Mesa deve ser maior que 0."
  /** Zod's own message for a NaN where a number is expected. */
  const MsgMesaNaN := "Expected number, received nan"

  predicate NomeValido(nome: string) { |nome| >= 3 }

  predicate CpfValido(cpf: string) { |cpf| == 11 }

  predicate TelefoneValido(telefone: string) { |telefone| >= 10 }

  /** A NaN fails `z.number()` before `min(1)` is looked at. */
  predicate MesaValida(mesa: Numero) {
    mesa.Finito? && mesa.valor >= 1.0
  }

  /** The messages `formSchema` reports, in field order. */
  function Erros(v: Valores): (es: seq<string>)
    ensures |es| <= 4
    ensures MsgMesaNaN in es <==> v.mesa.NaN?
    ensures MsgNome in es <==> !NomeValido(v.nome)
    ensures MsgCpf in es <==> !CpfValido(v.cpf)
    ensures MsgTelefone in es <==> !TelefoneValido(v.telefone)
    ensures MsgMesa in es <==> v.mesa.Finito? && !MesaValida(v.mesa)
  {
    (if NomeValido(v.nome) then [] else [MsgNome])
      + (if CpfValido(v.cpf) then [] else [MsgCpf])
      + (if TelefoneValido(v.telefone) then [] else [MsgTelefone])
      + (if v.mesa.NaN? then [MsgMesaNaN] else if MesaValida(v.mesa) then [] else [MsgMesa])
  }

  /** `formSchema.safeParse(values).success` */
  predicate Valido(v: Valores) {
    NomeValido(v.nome) && CpfValido(v.cpf) && TelefoneValido(v.telefone) && MesaValida(v.mesa)
  }

  /** The form is accepted exactly when the schema reports no message. */
  lemma ValidoSemErros(v: Valores)
    ensures Valido(v) <==> Erros(v) == []
  {
    if Erros(v) == [] {
      assert MsgNome !in Erros(v) && MsgCpf !in Erros(v) && MsgTelefone !in Erros(v);
      assert MsgMesa !in Erros(v) && MsgMesaNaN !in Erros(v);
    }
  }

  /** A CPF typed with its punctuation has 14 characters and is rejected. */
  lemma CpfFormatadoRejeitado(v: Valores)
    requires v.cpf == "123.456.789-00"
    ensures !Valido(v)
  {
    assert |v.cpf| == 14;
  }

  /** Only the length of the CPF is checked: eleven letters pass. */
  lemma CpfSoComprimento(v: Valores)
    requires v.cpf == "abcdefghijk"
    ensures CpfValido(v.cpf)
  {
  }

  /** The empty mesa field coerces to 0 and is rejected; mesa 1 is the smallest table accepted. */
  lemma MesaLimite()
    ensures !MesaValida(Finito(0.0)) && MesaValida(Finito(1.0)) && !MesaValida(NaN)
  {
  }

  /** The form state. */
  class CheckinForm {
    var isSubmitting: bool

    constructor ()
      ensures !isSubmitting
    {
      isSubmitting := false;
    }

    /** `disabled={isSubmitting}` */
    function BotaoDesabilitado(): (b: bool)
      reads this
      ensures b <==> isSubmitting
    {
      isSubmitting
    }

    /** The button text. */
    function TextoBotao(): (t: string)
      reads this
      ensures isSubmitting ==> t == "Confirmando..."
      ensures !isSubmitting ==> t == "Confirmar Entrada"
    {
      if isSubmitting then "Confirmando..." else "Confirmar Entrada"
    }

    /**
     * A submit: the resolver runs the schema and `onSubmit` runs only on a
     * valid form, setting `isSubmitting`. Nothing sets it back, so once true
     * it stays true.
     */
    method Submeter(v: Valores) returns (enviado: bool)
      modifies this
      ensures enviado <==> Valido(v)
      ensures enviado ==> isSubmitting
      ensures !enviado ==> isSubmitting == old(isSubmitting)
      ensures old(isSubmitting) ==> isSubmitting
    {
      enviado := Valido(v);
      if enviado {
        isSubmitting := true;
      }
    }
  }
}
