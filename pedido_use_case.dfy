/** The order-lifecycle orchestrator `PedidoUseCaseImpl`. Its collaborators
    become state and parameters: the JPA repository is a map from id to
    row plus the next IDENTITY value; every `save` and `StreamBridge.send`
    is appended, in call order, to a journal; the outcomes of the two Feign
    lookups and the clock are parameters of each operation. */
module PedidoUseCase {
  import opened Lang
  import Pedido
  import IdPedido

  datatype StatusPedido = CRIADO | EM_TRANSPORTE | ENTREGUE | CANCELADO

  /** The delivery signal carried by an `AtualizaPedidoDTO`. */
  datatype StatusAtualizaPedido = EM_TRANSPORTE | ENTREGUE

  datatype StatusEstoque = RETIRA_DO_ESTOQUE | VOLTA_PARA_O_ESTOQUE

  /** `LocalDateTime.now()`, as an opaque value supplied by the caller. */
  type Timestamp = int

  /** A row of `tb_pedido`; its id is the key it is stored under. */
  datatype PedidoEntity = PedidoEntity(
    cpfCliente: string,
    ean: Long,
    quantidade: Long,
    statusPedido: StatusPedido,
    dataDeCriacao: Timestamp)

  /** The three outbound DTOs. */
  datatype Payload =
    | AtualizaEstoque(ean: Long, quantidade: Long, statusEstoque: StatusEstoque)
    | PreparaEntrega(idPedido: int, cpfCliente: string, ean: Long, quantidade: Long)
    | CancelaEntrega(idPedido: int)

  datatype Message = Message(binding: string, payload: Payload)

  const ATUALIZA_ESTOQUE := "produto-atualiza-estoque"
  const PREPARA_ENTREGA := "logistica-prepara-entrega"
  const CANCELA_ENTREGA := "logistica-cancela-entrega"

  /** What `ClienteClient.pegaCliente` did: returned a customer, returned
      `null`, or threw. */
  datatype ClienteLookup = ClienteFound | ClienteNull | ClienteThrows

  /** What `ProdutoClient.temEstoque` did: returned `true`, `false` or
      `null`, or threw. */
  datatype EstoqueLookup = EstoqueTrue | EstoqueFalse | EstoqueNull | EstoqueThrows

  /** One call into the repository or the publisher. */
  datatype Effect = Saved(id: int, entity: PedidoEntity) | Published(message: Message)

  /** The observable state: the table, the next generated id, and every
      save and send so far, oldest first. */
  datatype State = State(store: map<int, PedidoEntity>, nextId: int, journal: seq<Effect>)

  datatype Step<R> = Step(state: State, result: R)

  /** A row holds the fields of a valid `Pedido`. */
  predicate EntityValid(e: PedidoEntity) {
    Pedido.Pedido(e.cpfCliente, e.ean, e.quantidade).Valid()
  }

  /** Generated ids are positive and below the next one; every row was
      built from a validated `Pedido`. */
  ghost predicate Inv(st: State) {
    && st.nextId >= 1
    && (forall id :: id in st.store ==> 1 <= id < st.nextId && EntityValid(st.store[id]))
  }

  function Initial(): (st: State)
    ensures Inv(st)
  {
    State(map[], 1, [])
  }

  /** The messages handed to `StreamBridge.send`, in order. */
  function Messages(journal: seq<Effect>): seq<Message> {
    if journal == [] then []
    else (if journal[0].Published? then [journal[0].message] else []) + Messages(journal[1..])
  }

  lemma {:induction false} MessagesAppend(a: seq<Effect>, b: seq<Effect>)
    ensures Messages(a + b) == Messages(a) + Messages(b)
    decreases |a|
  {
    if a == [] {
      assert a + b == b;
    } else {
      assert (a + b)[0] == a[0] && (a + b)[1..] == a[1..] + b;
      MessagesAppend(a[1..], b);
    }
  }

  /** The single transitions of the order state machine. */
  predicate CanMove(from: StatusPedido, to: StatusPedido) {
    || (from == StatusPedido.CRIADO && to == StatusPedido.EM_TRANSPORTE)
    || (from == StatusPedido.CRIADO && to == StatusPedido.CANCELADO)
    || (from == StatusPedido.EM_TRANSPORTE && to == StatusPedido.ENTREGUE)
  }

  /** `findByIdAndStatusPedido`: the row with that id, if it has that status. */
  function FindByIdAndStatusPedido(store: map<int, PedidoEntity>, id: int, status: StatusPedido)
    : (r: Option<PedidoEntity>)
    ensures r.Some? <==> id in store && store[id].statusPedido == status
    ensures r.Some? ==> r.value == store[id]
  {
    if id in store && store[id].statusPedido == status then Some(store[id]) else None
  }

  // ---------------------------------------------------------------------
  // The three operations, as functions of the state before the call

  /** `cria`. The `Pedido` is built outside the `try`, so a validation error
      is thrown before either lookup runs; a lookup that throws is caught
      and the call answers `false`. Only a found customer and a stock answer
      of exactly `true` lead to one save followed by two sends. */
  function CriaStep(st: State, cpfCliente: Option<string>, ean: Option<Long>,
                    quantidade: Option<Long>, cliente: ClienteLookup,
                    temEstoque: EstoqueLookup, now: Timestamp)
    : (out: Step<Result<bool, IllegalArgumentException>>)
    requires Inv(st)
    ensures Inv(out.state)
    ensures out.result.Err? <==> Pedido.New(cpfCliente, ean, quantidade).Err?
    ensures out.result.Err? ==> out.result.error == Pedido.New(cpfCliente, ean, quantidade).error
    ensures out.result == Ok(true) <==>
              Pedido.New(cpfCliente, ean, quantidade).Ok?
              && cliente == ClienteFound && temEstoque == EstoqueTrue
    ensures out.result != Ok(true) ==> out.state == st
    ensures out.result == Ok(true) ==>
              var id := st.nextId;
              && id > 0 && id !in st.store
              && out.state.nextId > id
              && out.state.store.Keys == st.store.Keys + {id}
              && |out.state.store| == |st.store| + 1
              && (forall k :: k in st.store ==> out.state.store[k] == st.store[k])
              && out.state.store[id]
                 == PedidoEntity(cpfCliente.value, ean.value, quantidade.value, StatusPedido.CRIADO, now)
              && out.state.journal == st.journal + [
                   Saved(id, out.state.store[id]),
                   Published(Message(ATUALIZA_ESTOQUE,
                                AtualizaEstoque(ean.value, quantidade.value, RETIRA_DO_ESTOQUE))),
                   Published(Message(PREPARA_ENTREGA,
                                PreparaEntrega(id, cpfCliente.value, ean.value, quantidade.value)))]
  {
    match Pedido.New(cpfCliente, ean, quantidade)
    case Err(e) => Step(st, Err(e))
    case Ok(pedido) =>
      if cliente == ClienteThrows || temEstoque == EstoqueThrows then
        Step(st, Ok(false))
      else if cliente == ClienteFound && temEstoque == EstoqueTrue then
        var id := st.nextId;
        var row := PedidoEntity(pedido.cpfCliente, pedido.ean, pedido.quantidade, StatusPedido.CRIADO, now);
        assert st.store.Keys + {id} == st.store[id := row].Keys;
        Step(State(st.store[id := row], id + 1, st.journal + [
               Saved(id, row),
               Published(Message(ATUALIZA_ESTOQUE, AtualizaEstoque(ean.value, quantidade.value, RETIRA_DO_ESTOQUE))),
               Published(Message(PREPARA_ENTREGA, PreparaEntrega(id, cpfCliente.value, ean.value, quantidade.value)))]),
             Ok(true))
      else
        Step(st, Ok(false))
  }

  /** `cancela`. The id is validated first; only a row with that id in
      `CRIADO` is rewritten, to `CANCELADO` with the same order fields, and
      then the stock is returned and the delivery cancelled. */
  function CancelaStep(st: State, idPedido: Option<Long>, now: Timestamp)
    : (out: Step<Result<bool, IllegalArgumentException>>)
    requires Inv(st)
    ensures Inv(out.state)
    ensures out.result.Err? <==> IdPedido.New(idPedido).Err?
    ensures out.result.Err? ==> out.result.error == IllegalArgumentException(IdPedido.ID_INVALIDO)
    ensures out.result == Ok(true) <==>
              idPedido.Some? && idPedido.value in st.store
              && st.store[idPedido.value].statusPedido == StatusPedido.CRIADO
    ensures out.result != Ok(true) ==> out.state == st
    ensures out.result == Ok(true) ==>
              var id, old_ := idPedido.value, st.store[idPedido.value];
              && out.state.nextId == st.nextId
              && out.state.store.Keys == st.store.Keys
              && (forall k :: k in st.store && k != id ==> out.state.store[k] == st.store[k])
              && out.state.store[id]
                 == PedidoEntity(old_.cpfCliente, old_.ean, old_.quantidade, StatusPedido.CANCELADO, now)
              && out.state.journal == st.journal + [
                   Saved(id, out.state.store[id]),
                   Published(Message(ATUALIZA_ESTOQUE,
                                AtualizaEstoque(old_.ean, old_.quantidade, VOLTA_PARA_O_ESTOQUE))),
                   Published(Message(CANCELA_ENTREGA, CancelaEntrega(id)))]
  {
    match IdPedido.New(idPedido)
    case Err(e) => Step(st, Err(e))
    case Ok(idPedidoObjeto) =>
      var id := idPedidoObjeto.numero;
      match FindByIdAndStatusPedido(st.store, id, StatusPedido.CRIADO)
      case None => Step(st, Ok(false))
      case Some(pedido) =>
        var row := PedidoEntity(pedido.cpfCliente, pedido.ean, pedido.quantidade, StatusPedido.CANCELADO, now);
        Step(st.(store := st.store[id := row],
                 journal := st.journal + [
                   Saved(id, row),
                   Published(Message(ATUALIZA_ESTOQUE, AtualizaEstoque(pedido.ean, pedido.quantidade, VOLTA_PARA_O_ESTOQUE))),
                   Published(Message(CANCELA_ENTREGA, CancelaEntrega(id)))]),
             Ok(true))
  }

  /** The status a row must be in for a signal to apply to it. */
  function RequiredStatus(s: StatusAtualizaPedido): StatusPedido {
    match s
    case EM_TRANSPORTE => StatusPedido.CRIADO
    case ENTREGUE => StatusPedido.EM_TRANSPORTE
  }

  /** `StatusPedidoEnum.valueOf(statusEntrega.name())`. */
  function TargetStatus(s: StatusAtualizaPedido): StatusPedido {
    match s
    case EM_TRANSPORTE => StatusPedido.EM_TRANSPORTE
    case ENTREGUE => StatusPedido.ENTREGUE
  }

  /** Each signal moves its required status one step along the forward
      path, never to `CANCELADO`, and no two signals share a required
      status. */
  lemma SignalsAreForwardMoves(s: StatusAtualizaPedido, t: StatusAtualizaPedido)
    ensures CanMove(RequiredStatus(s), TargetStatus(s))
    ensures TargetStatus(s) != StatusPedido.CANCELADO
    ensures RequiredStatus(s) == RequiredStatus(t) ==> s == t
  {
  }

  /** `atualiza`. The id is validated first (an invalid one throws); a row
      with that id in the status the signal requires is rewritten to the
      status named by the signal; anything else is ignored. It never sends. */
  function AtualizaStep(st: State, idDoPedido: Option<Long>, statusEntrega: StatusAtualizaPedido,
                        now: Timestamp)
    : (out: Step<Result<(), IllegalArgumentException>>)
    requires Inv(st)
    ensures Inv(out.state)
    ensures out.result.Err? <==> IdPedido.New(idDoPedido).Err?
    ensures out.result.Err? ==> out.result.error == IllegalArgumentException(IdPedido.ID_INVALIDO)
    ensures Messages(out.state.journal) == Messages(st.journal)
    ensures out.state.nextId == st.nextId && out.state.store.Keys == st.store.Keys
    ensures var applies := idDoPedido.Some? && idDoPedido.value in st.store
                           && st.store[idDoPedido.value].statusPedido == RequiredStatus(statusEntrega);
            && (!applies ==> out.state == st)
            && (applies ==>
                  var id, old_ := idDoPedido.value, st.store[idDoPedido.value];
                  && (forall k :: k in st.store && k != id ==> out.state.store[k] == st.store[k])
                  && out.state.store[id]
                     == PedidoEntity(old_.cpfCliente, old_.ean, old_.quantidade, TargetStatus(statusEntrega), now)
                  && out.state.journal == st.journal + [Saved(id, out.state.store[id])])
  {
    match IdPedido.New(idDoPedido)
    case Err(e) => Step(st, Err(e))
    case Ok(idPedidoObjeto) =>
      var id := idPedidoObjeto.numero;
      match FindByIdAndStatusPedido(st.store, id, RequiredStatus(statusEntrega))
      case None => Step(st, Ok(()))
      case Some(pedido) =>
        var row := PedidoEntity(pedido.cpfCliente, pedido.ean, pedido.quantidade, TargetStatus(statusEntrega), now);
        MessagesAppend(st.journal, [Saved(id, row)]);
        Step(st.(store := st.store[id := row], journal := st.journal + [Saved(id, row)]), Ok(()))
  }

  // ---------------------------------------------------------------------
  // The service object

  class PedidoUseCaseImpl {
    var store: map<int, PedidoEntity>
    var nextId: int
    var journal: seq<Effect>

    function Snapshot(): State
      reads this
    {
      State(store, nextId, journal)
    }

    ghost predicate Valid()
      reads this
    {
      Inv(Snapshot())
    }

    constructor ()
      ensures Valid() && Snapshot() == Initial()
    {
      store, nextId, journal := map[], 1, [];
    }

    /** The repository query: reads the table, changes nothing. */
    method FindByIdAndStatus(id: int, status: StatusPedido) returns (r: Option<PedidoEntity>)
      ensures r.Some? <==> id in store && store[id].statusPedido == status
      ensures r.Some? ==> r.value == store[id]
    {
      if id in store && store[id].statusPedido == status {
        r := Some(store[id]);
      } else {
        r := None;
      }
    }

    /** `repository.save`: a row without an id is inserted under the next
        generated id; a row with the id of an existing row overwrites it. */
    method Save(id: Option<int>, row: PedidoEntity) returns (savedId: int)
      requires Valid() && EntityValid(row)
      requires id.Some? ==> id.value in store
      modifies this
      ensures Valid()
      ensures savedId == if id.Some? then id.value else old(nextId)
      ensures nextId == if id.Some? then old(nextId) else old(nextId) + 1
      ensures store == old(store)[savedId := row]
      ensures journal == old(journal) + [Saved(savedId, row)]
    {
      if id.Some? {
        savedId := id.value;
      } else {
        savedId := nextId;
        nextId := nextId + 1;
      }
      store := store[savedId := row];
      journal := journal + [Saved(savedId, row)];
    }

    /** `streamBridge.send`; its boolean answer is not used by the core. */
    method Send(binding: string, payload: Payload)
      modifies this
      ensures store == old(store) && nextId == old(nextId)
      ensures journal == old(journal) + [Published(Message(binding, payload))]
    {
      journal := journal + [Published(Message(binding, payload))];
    }

    method Cria(cpfCliente: Option<string>, ean: Option<Long>, quantidade: Option<Long>,
                cliente: ClienteLookup, temEstoque: EstoqueLookup, now: Timestamp)
      returns (r: Result<bool, IllegalArgumentException>)
      requires Valid()
      modifies this
      ensures Valid()
      ensures Snapshot() == CriaStep(old(Snapshot()), cpfCliente, ean, quantidade, cliente, temEstoque, now).state
      ensures r == CriaStep(old(Snapshot()), cpfCliente, ean, quantidade, cliente, temEstoque, now).result
    {
      var pedido := Pedido.New(cpfCliente, ean, quantidade);
      if pedido.Err? {
        return Err(pedido.error);
      }
      if cliente == ClienteThrows || temEstoque == EstoqueThrows {
        return Ok(false);
      }
      if cliente == ClienteFound && temEstoque == EstoqueTrue {
        var p := pedido.value;
        var id := Save(None, PedidoEntity(p.cpfCliente, p.ean, p.quantidade, StatusPedido.CRIADO, now));
        Send(ATUALIZA_ESTOQUE, AtualizaEstoque(ean.value, quantidade.value, RETIRA_DO_ESTOQUE));
        Send(PREPARA_ENTREGA, PreparaEntrega(id, cpfCliente.value, ean.value, quantidade.value));
        return Ok(true);
      }
      return Ok(false);
    }

    method Cancela(idPedido: Option<Long>, now: Timestamp)
      returns (r: Result<bool, IllegalArgumentException>)
      requires Valid()
      modifies this
      ensures Valid()
      ensures Snapshot() == CancelaStep(old(Snapshot()), idPedido, now).state
      ensures r == CancelaStep(old(Snapshot()), idPedido, now).result
    {
      var idPedidoObjeto := IdPedido.New(idPedido);
      if idPedidoObjeto.Err? {
        return Err(idPedidoObjeto.error);
      }
      var id := idPedidoObjeto.value.numero;
      var pedidoNaBase := FindByIdAndStatus(id, StatusPedido.CRIADO);
      if pedidoNaBase.None? {
        return Ok(false);
      }
      var pedido := pedidoNaBase.value;
      var _ := Save(Some(id), PedidoEntity(pedido.cpfCliente, pedido.ean, pedido.quantidade,
                                           StatusPedido.CANCELADO, now));
      Send(ATUALIZA_ESTOQUE, AtualizaEstoque(pedido.ean, pedido.quantidade, VOLTA_PARA_O_ESTOQUE));
      Send(CANCELA_ENTREGA, CancelaEntrega(id));
      return Ok(true);
    }

    method Atualiza(idDoPedido: Option<Long>, statusEntrega: StatusAtualizaPedido, now: Timestamp)
      returns (r: Result<(), IllegalArgumentException>)
      requires Valid()
      modifies this
      ensures Valid()
      ensures Snapshot() == AtualizaStep(old(Snapshot()), idDoPedido, statusEntrega, now).state
      ensures r == AtualizaStep(old(Snapshot()), idDoPedido, statusEntrega, now).result
    {
      var idPedidoObjeto := IdPedido.New(idDoPedido);
      if idPedidoObjeto.Err? {
        return Err(idPedidoObjeto.error);
      }
      var id := idPedidoObjeto.value.numero;
      var pedidoNaBase := FindByIdAndStatus(id, RequiredStatus(statusEntrega));
      if pedidoNaBase.None? {
        return Ok(());
      }
      var pedido := pedidoNaBase.value;
      var _ := Save(Some(id), PedidoEntity(pedido.cpfCliente, pedido.ean, pedido.quantidade,
                                           TargetStatus(statusEntrega), now));
      return Ok(());
    }
  }
}
