/** The order-identifier value object: `IdPedido`. */
module IdPedido {
  import opened Lang

  /** The constructor's message. It is the text of the ean check in
      `Pedido`, reused as written. */
  const ID_INVALIDO := "EAN NAO PODE SER NULO OU MENOR E IGUAL A ZERO!"

  datatype IdPedido = IdPedido(numero: Long)

  /** `new IdPedido(numero)`: `None` is a `null` argument. It succeeds
      exactly for a positive number, which `getNumero` then returns
      unchanged; otherwise it throws. It reads and writes nothing else. */
  function New(numero: Option<Long>): (r: Result<IdPedido, IllegalArgumentException>)
    ensures r.Ok? <==> numero.Some? && numero.value > 0
    ensures r.Ok? ==> r.value.numero == numero.value
    ensures r.Err? ==> r.error == IllegalArgumentException(ID_INVALIDO)
  {
    if numero.None? || numero.value <= 0 then Err(IllegalArgumentException(ID_INVALIDO))
    else Ok(IdPedido(numero.value))
  }

  /** The documented boundaries: 1 is accepted, 0, -1 and `null` are not. */
  lemma ConstructorBoundaries()
    ensures New(Some(1)) == Ok(IdPedido(1))
    ensures New(Some(LONG_MAX)).Ok?
    ensures New(Some(0)).Err? && New(Some(-1)).Err? && New(None).Err?
    ensures New(Some(LONG_MIN)).Err?
  {
  }
}
