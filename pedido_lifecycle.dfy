/** Facts about sequences of calls to the orchestrator: how a stored order
    may evolve, how saves and sends stay coupled, and what replaying a call
    does. */
module PedidoLifecycle {
  import opened Lang
  import opened PedidoUseCase

  /** One inbound call: a `cria` or `cancela` command, or an `atualiza`
      event, with the lookup outcomes and the clock reading it saw. */
  datatype Command =
    | CriaCmd(cpfCliente: Option<string>, ean: Option<Long>, quantidade: Option<Long>,
              cliente: ClienteLookup, temEstoque: EstoqueLookup, now: Timestamp)
    | CancelaCmd(idPedido: Option<Long>, now: Timestamp)
    | AtualizaCmd(idDoPedido: Option<Long>, statusEntrega: StatusAtualizaPedido, now: Timestamp)

  function Apply(st: State, c: Command): (r: State)
    requires Inv(st)
    ensures Inv(r)
  {
    match c
    case CriaCmd(cpf, ean, q, cliente, estoque, now) => CriaStep(st, cpf, ean, q, cliente, estoque, now).state
    case CancelaCmd(id, now) => CancelaStep(st, id, now).state
    case AtualizaCmd(id, s, now) => AtualizaStep(st, id, s, now).state
  }

  /** The calls handled one after the other, as the model is sequential. */
  function Run(st: State, cmds: seq<Command>): (r: State)
    requires Inv(st)
    ensures Inv(r)
    decreases |cmds|
  {
    if cmds == [] then st else Run(Apply(st, cmds[0]), cmds[1..])
  }

  // ---------------------------------------------------------------------
  // How a stored order evolves

  /** Zero or more moves of the state machine. The longest path has two
      moves, `CRIADO -> EM_TRANSPORTE -> ENTREGUE`. */
  predicate Reaches(from: StatusPedido, to: StatusPedido) {
    || from == to
    || CanMove(from, to)
    || (CanMove(from, StatusPedido.EM_TRANSPORTE) && CanMove(StatusPedido.EM_TRANSPORTE, to))
  }

  /** No path is longer than two moves, so `Reaches` is closed under
      composition. */
  lemma ReachesTransitive(a: StatusPedido, b: StatusPedido, c: StatusPedido)
    requires Reaches(a, b) && Reaches(b, c)
    ensures Reaches(a, c)
  {
  }

  /** `ENTREGUE` and `CANCELADO` have no way out. */
  lemma TerminalStatuses(from: StatusPedido, to: StatusPedido)
    requires Reaches(from, to)
    requires from == StatusPedido.ENTREGUE || from == StatusPedido.CANCELADO
    ensures to == from
  {
  }

  /** Same order, possibly later in its lifecycle. */
  predicate SameOrder(a: PedidoEntity, b: PedidoEntity) {
    a.cpfCliente == b.cpfCliente && a.ean == b.ean && a.quantidade == b.quantidade
  }

  /** `b` can follow `a`: nothing is deleted, no order changes its fields or
      moves against the state machine, the id generator never goes back,
      and the journal only grows. New orders start in `CRIADO`. */
  ghost predicate Evolves(a: State, b: State) {
    && a.nextId <= b.nextId
    && a.journal <= b.journal
    && (forall k :: k in a.store ==>
          k in b.store && SameOrder(a.store[k], b.store[k])
          && Reaches(a.store[k].statusPedido, b.store[k].statusPedido))
    && (forall k :: k in b.store && k !in a.store ==>
          Reaches(StatusPedido.CRIADO, b.store[k].statusPedido))
  }

  lemma EvolvesTransitive(a: State, b: State, c: State)
    requires Evolves(a, b) && Evolves(b, c)
    ensures Evolves(a, c)
  {
  }

  lemma ApplyEvolves(st: State, c: Command)
    requires Inv(st)
    ensures Evolves(st, Apply(st, c))
  {
  }

  /** Over any sequence of calls, every stored order keeps its fields and
      only moves forward along `CRIADO -> EM_TRANSPORTE -> ENTREGUE` or
      `CRIADO -> CANCELADO`; nothing already sent or saved is taken back. */
  lemma {:induction false} RunEvolves(st: State, cmds: seq<Command>)
    requires Inv(st)
    ensures Evolves(st, Run(st, cmds))
    decreases |cmds|
  {
    if cmds != [] {
      var next := Apply(st, cmds[0]);
      ApplyEvolves(st, cmds[0]);
      RunEvolves(next, cmds[1..]);
      EvolvesTransitive(st, next, Run(next, cmds[1..]));
    }
  }

  /** A delivered or cancelled order stays so, whatever calls follow. */
  lemma TerminalOrdersStay(st: State, cmds: seq<Command>, id: int)
    requires Inv(st) && id in st.store
    requires st.store[id].statusPedido == StatusPedido.ENTREGUE
             || st.store[id].statusPedido == StatusPedido.CANCELADO
    ensures id in Run(st, cmds).store
    ensures Run(st, cmds).store[id].statusPedido == st.store[id].statusPedido
  {
    RunEvolves(st, cmds);
    TerminalStatuses(st.store[id].statusPedido, Run(st, cmds).store[id].statusPedido);
  }

  // ---------------------------------------------------------------------
  // Saves and sends stay coupled

  ghost function Cancelled(store: map<int, PedidoEntity>): set<int> {
    set k | k in store && store[k].statusPedido == StatusPedido.CANCELADO
  }

  /** The two messages `cria` sends for order `k`. */
  ghost predicate CreationSent(sent: seq<Message>, k: int, e: PedidoEntity) {
    && Message(ATUALIZA_ESTOQUE, AtualizaEstoque(e.ean, e.quantidade, RETIRA_DO_ESTOQUE)) in sent
    && Message(PREPARA_ENTREGA, PreparaEntrega(k, e.cpfCliente, e.ean, e.quantidade)) in sent
  }

  /** The two messages `cancela` sends for order `k`. */
  ghost predicate CancellationSent(sent: seq<Message>, k: int, e: PedidoEntity) {
    && Message(ATUALIZA_ESTOQUE, AtualizaEstoque(e.ean, e.quantidade, VOLTA_PARA_O_ESTOQUE)) in sent
    && Message(CANCELA_ENTREGA, CancelaEntrega(k)) in sent
  }

  /** Every order was announced to stock and logistics when it was
      created, every cancelled one had its stock returned and its delivery
      cancelled, these among the messages sent, and the messages number
      exactly two per order plus two per cancellation. */
  ghost predicate Accounted(st: State) {
    && |Messages(st.journal)| == 2 * |st.store| + 2 * |Cancelled(st.store)|
    && (forall k :: k in st.store ==> CreationSent(Messages(st.journal), k, st.store[k]))
    && (forall k :: k in st.store && st.store[k].statusPedido == StatusPedido.CANCELADO ==>
          CancellationSent(Messages(st.journal), k, st.store[k]))
  }

  lemma MessagesOfSaveAndTwoSends(j: seq<Effect>, id: int, row: PedidoEntity, m1: Message, m2: Message)
    ensures Messages(j + [Saved(id, row), Published(m1), Published(m2)]) == Messages(j) + [m1, m2]
  {
    var tail := [Saved(id, row), Published(m1), Published(m2)];
    MessagesAppend(j, tail);
    assert tail[1..] == [Published(m1), Published(m2)];
    assert tail[1..][1..] == [Published(m2)];
    assert tail[1..][1..][1..] == [];
    assert Messages([Published(m2)]) == [m2];
    assert Messages([Published(m1), Published(m2)]) == [m1] + Messages([Published(m2)]);
    assert Messages(tail) == Messages([Published(m1), Published(m2)]);
  }

  lemma InitialAccounted()
    ensures Accounted(Initial())
  {
  }

  lemma CriaAccounted(st: State, cpf: Option<string>, ean: Option<Long>, q: Option<Long>,
                      cliente: ClienteLookup, estoque: EstoqueLookup, now: Timestamp)
    requires Inv(st) && Accounted(st)
    ensures Accounted(CriaStep(st, cpf, ean, q, cliente, estoque, now).state)
  {
    var out := CriaStep(st, cpf, ean, q, cliente, estoque, now);
    if out.result == Ok(true) {
      var r := out.state;
      var id := st.nextId;
      var m1 := Message(ATUALIZA_ESTOQUE, AtualizaEstoque(ean.value, q.value, RETIRA_DO_ESTOQUE));
      var m2 := Message(PREPARA_ENTREGA, PreparaEntrega(id, cpf.value, ean.value, q.value));
      var before, after := Messages(st.journal), Messages(r.journal);
      MessagesOfSaveAndTwoSends(st.journal, id, r.store[id], m1, m2);
      assert after == before + [m1, m2];
      forall k ensures k in Cancelled(r.store) <==> k in Cancelled(st.store) {
        if k != id { assert k in r.store <==> k in st.store; }
      }
      assert Cancelled(r.store) == Cancelled(st.store);
      forall k | k in r.store ensures CreationSent(after, k, r.store[k]) {
        if k != id {
          assert CreationSent(before, k, st.store[k]);
        }
      }
      forall k | k in r.store && r.store[k].statusPedido == StatusPedido.CANCELADO
        ensures CancellationSent(after, k, r.store[k])
      {
        assert CancellationSent(before, k, st.store[k]);
      }
    }
  }

  /** Cancelling an order while sending its two cancellation messages
      keeps the accounting. */
  lemma CancellationAccounted(st: State, r: State, id: int, row: PedidoEntity)
    requires Accounted(st) && id in st.store
    requires r.store == st.store[id := row]
    requires Messages(r.journal) == Messages(st.journal) + [
               Message(ATUALIZA_ESTOQUE, AtualizaEstoque(row.ean, row.quantidade, VOLTA_PARA_O_ESTOQUE)),
               Message(CANCELA_ENTREGA, CancelaEntrega(id))]
    requires SameOrder(st.store[id], row)
    requires st.store[id].statusPedido != StatusPedido.CANCELADO
    requires row.statusPedido == StatusPedido.CANCELADO
    ensures Accounted(r)
  {
    var before, after := Messages(st.journal), Messages(r.journal);
    assert id !in Cancelled(st.store);
    assert Cancelled(r.store) == Cancelled(st.store) + {id};
    assert |r.store| == |st.store| by {
      assert r.store.Keys == st.store.Keys;
    }
    forall k | k in r.store ensures CreationSent(after, k, r.store[k]) {
      assert CreationSent(before, k, st.store[k]);
    }
    forall k | k in r.store && r.store[k].statusPedido == StatusPedido.CANCELADO
      ensures CancellationSent(after, k, r.store[k])
    {
      if k != id {
        assert CancellationSent(before, k, st.store[k]);
      }
    }
  }

  lemma CancelaAccounted(st: State, idPedido: Option<Long>, now: Timestamp)
    requires Inv(st) && Accounted(st)
    ensures Accounted(CancelaStep(st, idPedido, now).state)
  {
    var out := CancelaStep(st, idPedido, now);
    if out.result == Ok(true) {
      var r := out.state;
      var id := idPedido.value;
      var e := st.store[id];
      var m1 := Message(ATUALIZA_ESTOQUE, AtualizaEstoque(e.ean, e.quantidade, VOLTA_PARA_O_ESTOQUE));
      var m2 := Message(CANCELA_ENTREGA, CancelaEntrega(id));
      MessagesOfSaveAndTwoSends(st.journal, id, r.store[id], m1, m2);
      CancellationAccounted(st, r, id, r.store[id]);
    }
  }

  /** Moving an order between two statuses other than `CANCELADO`, while
      sending nothing, keeps the accounting. */
  lemma ForwardMoveAccounted(st: State, r: State, id: int, row: PedidoEntity)
    requires Accounted(st) && id in st.store
    requires r.store == st.store[id := row] && Messages(r.journal) == Messages(st.journal)
    requires SameOrder(st.store[id], row)
    requires st.store[id].statusPedido != StatusPedido.CANCELADO
    requires row.statusPedido != StatusPedido.CANCELADO
    ensures Accounted(r)
  {
    var sent := Messages(st.journal);
    forall k ensures k in Cancelled(r.store) <==> k in Cancelled(st.store) {
      if k != id { assert k in r.store <==> k in st.store; }
    }
    assert Cancelled(r.store) == Cancelled(st.store);
    assert |r.store| == |st.store| by {
      assert r.store.Keys == st.store.Keys;
    }
    forall k | k in r.store ensures CreationSent(sent, k, r.store[k]) {
      assert CreationSent(sent, k, st.store[k]);
    }
  }

  lemma AtualizaAccounted(st: State, idDoPedido: Option<Long>, s: StatusAtualizaPedido, now: Timestamp)
    requires Inv(st) && Accounted(st)
    ensures Accounted(AtualizaStep(st, idDoPedido, s, now).state)
  {
    var r := AtualizaStep(st, idDoPedido, s, now).state;
    if idDoPedido.Some? && idDoPedido.value in st.store
       && st.store[idDoPedido.value].statusPedido == RequiredStatus(s) {
      SignalsAreForwardMoves(s, s);
      var id := idDoPedido.value;
      var e := st.store[id];
      var row := PedidoEntity(e.cpfCliente, e.ean, e.quantidade, TargetStatus(s), now);
      assert r.store == st.store[id := row];
      ForwardMoveAccounted(st, r, id, row);
    }
  }

  lemma {:induction false} RunAccounted(st: State, cmds: seq<Command>)
    requires Inv(st) && Accounted(st)
    ensures Accounted(Run(st, cmds))
    decreases |cmds|
  {
    if cmds != [] {
      match cmds[0] {
        case CriaCmd(cpf, ean, q, cliente, estoque, now) => CriaAccounted(st, cpf, ean, q, cliente, estoque, now);
        case CancelaCmd(id, now) => CancelaAccounted(st, id, now);
        case AtualizaCmd(id, s, now) => AtualizaAccounted(st, id, s, now);
      }
      RunAccounted(Apply(st, cmds[0]), cmds[1..]);
    }
  }

  /** From an empty table, whatever the calls: two messages per stored
      order plus two per cancelled one, each order's creation messages and
      each cancellation's messages among them. */
  lemma ReachableStatesAreAccounted(cmds: seq<Command>)
    ensures Accounted(Run(Initial(), cmds))
  {
    InitialAccounted();
    RunAccounted(Initial(), cmds);
  }

  // ---------------------------------------------------------------------
  // Replays

  /** Delivering the same `atualiza` event twice: the second delivery finds
      the order no longer in the status the signal requires and changes
      nothing. */
  lemma AtualizaReplayIsNoOp(st: State, idDoPedido: Option<Long>, s: StatusAtualizaPedido,
                             now1: Timestamp, now2: Timestamp)
    requires Inv(st)
    ensures var once := AtualizaStep(st, idDoPedido, s, now1).state;
            AtualizaStep(once, idDoPedido, s, now2).state == once
  {
    SignalsAreForwardMoves(s, s);
  }

  /** A second `cancela` of the same id answers `false` (or throws again for
      an invalid id) and changes nothing. */
  lemma CancelaTwice(st: State, idPedido: Option<Long>, now1: Timestamp, now2: Timestamp)
    requires Inv(st)
    ensures var once := CancelaStep(st, idPedido, now1).state;
            var twice := CancelaStep(once, idPedido, now2);
            twice.state == once && twice.result != Ok(true)
  {
  }

  /** The documented scenario: an order for 3 units is created and
      announced, then cancelled with two more messages; a second
      cancellation is refused and a late `EM_TRANSPORTE` event is ignored. */
  lemma CreateCancelScenario(t1: Timestamp, t2: Timestamp, t3: Timestamp, t4: Timestamp)
    ensures var created := CriaStep(Initial(), Some(Pedido.CPF_EXEMPLO), Some(7894900011517), Some(3),
                                    ClienteFound, EstoqueTrue, t1);
            && created.result == Ok(true)
            && created.state.store == map[1 := PedidoEntity(Pedido.CPF_EXEMPLO, 7894900011517, 3, StatusPedido.CRIADO, t1)]
            && |Messages(created.state.journal)| == 2
            && var cancelled := CancelaStep(created.state, Some(1), t2);
               && cancelled.result == Ok(true)
               && cancelled.state.store[1].statusPedido == StatusPedido.CANCELADO
               && |Messages(cancelled.state.journal)| == 4
               && CancelaStep(cancelled.state, Some(1), t3) == Step(cancelled.state, Ok(false))
               && AtualizaStep(cancelled.state, Some(1), StatusAtualizaPedido.EM_TRANSPORTE, t4).state
                  == cancelled.state
  {
    Pedido.CpfExamples();
    var created := CriaStep(Initial(), Some(Pedido.CPF_EXEMPLO), Some(7894900011517), Some(3),
                            ClienteFound, EstoqueTrue, t1);
    CriaAccounted(Initial(), Some(Pedido.CPF_EXEMPLO), Some(7894900011517), Some(3),
                  ClienteFound, EstoqueTrue, t1);
    assert created.state.store.Keys == {1};
    CancelaAccounted(created.state, Some(1), t2);
    var cancelled := CancelaStep(created.state, Some(1), t2);
    assert cancelled.state.store.Keys == {1};
    assert Cancelled(cancelled.state.store) == {1};
  }

  /** The delivery path: an `ENTREGUE` signal for a freshly created order is
      ignored; `EM_TRANSPORTE` moves it forward, and a second `EM_TRANSPORTE`
      is ignored; `ENTREGUE` then completes it, with no message sent, and a
      cancellation afterwards is refused. */
  lemma DeliveryScenario(t1: Timestamp, t2: Timestamp, t3: Timestamp, t4: Timestamp, t5: Timestamp,
                         t6: Timestamp)
    ensures var created := CriaStep(Initial(), Some(Pedido.CPF_EXEMPLO), Some(7894900011517), Some(100),
                                    ClienteFound, EstoqueTrue, t1).state;
            && AtualizaStep(created, Some(1), StatusAtualizaPedido.ENTREGUE, t2).state == created
            && var shipped := AtualizaStep(created, Some(1), StatusAtualizaPedido.EM_TRANSPORTE, t3).state;
               && shipped.store == map[1 := PedidoEntity(Pedido.CPF_EXEMPLO, 7894900011517, 100, StatusPedido.EM_TRANSPORTE, t3)]
               && AtualizaStep(shipped, Some(1), StatusAtualizaPedido.EM_TRANSPORTE, t6).state == shipped
               && var delivered := AtualizaStep(shipped, Some(1), StatusAtualizaPedido.ENTREGUE, t4).state;
                  && delivered.store == map[1 := PedidoEntity(Pedido.CPF_EXEMPLO, 7894900011517, 100, StatusPedido.ENTREGUE, t4)]
                  && Messages(delivered.journal) == Messages(created.journal)
                  && CancelaStep(delivered, Some(1), t5) == Step(delivered, Ok(false))
  {
    Pedido.CpfExamples();
    var created := CriaStep(Initial(), Some(Pedido.CPF_EXEMPLO), Some(7894900011517), Some(100),
                            ClienteFound, EstoqueTrue, t1).state;
    assert created.store.Keys == {1};
    var shipped := AtualizaStep(created, Some(1), StatusAtualizaPedido.EM_TRANSPORTE, t3).state;
    assert shipped.store.Keys == {1};
    var delivered := AtualizaStep(shipped, Some(1), StatusAtualizaPedido.ENTREGUE, t4).state;
    assert delivered.store.Keys == {1};
  }
}
