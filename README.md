# Order lifecycle of the FIAP Tech Challenge 4 order service, in Dafny

This project models the core of the order service (`PedidoUseCaseImpl`)
and its two value objects, and proves properties of the model.

- `Pedido` validates the fields of a new order. The customer's CPF
  (taxpayer id) must match `REGEX_CPF`, the ean must be positive, and the
  quantity must be between 1 and 1000.
- `IdPedido` validates an order id.
- `PedidoUseCaseImpl` drives the order state machine
  `CRIADO -> EM_TRANSPORTE -> ENTREGUE`, plus `CRIADO -> CANCELADO`:
  - `cria` creates an order after a customer lookup and a stock lookup.
  - `cancela` cancels an order that is still `CRIADO`.
  - `atualiza` applies a delivery signal that arrives as an event.

Files and modules:

- `lang.dfy` (`Lang`): Java nulls become `Option`. A constructor that can
  throw returns a `Result`. `Long` is the 64-bit range. The exception is
  `IllegalArgumentException` with its message.
- `regex.dfy` (`Regex`): the part of `java.util.regex` that `REGEX_CPF`
  uses. It has `\d`, literal characters and `?`, and a match must cover
  the whole string, as `String.matches` requires. The matcher backtracks
  over `?`. Generic lemmas give length bounds, digit counts, which term
  consumed each character, and that matches compose under concatenation.
- `pedido.dfy` (`Pedido`): the constructor as a function. It also proves
  what `REGEX_CPF` accepts and rejects.
- `id_pedido.dfy` (`IdPedido`): the id constructor.
- `pedido_use_case.dfy` (`PedidoUseCase`): the orchestrator, modelled as
  follows.
  - The repository is a map from id to row, plus the next IDENTITY value.
  - Every `repository.save` and `streamBridge.send` is appended to a
    journal in call order.
  - The outcomes of the two Feign lookups and the `LocalDateTime.now()`
    reading are parameters.
  - Each operation is first a function of the state before the call
    (`CriaStep`, `CancelaStep`, `AtualizaStep`).
  - The class `PedidoUseCaseImpl` then holds that state in fields. Its
    methods perform the saves and sends one by one, and their
    postconditions tie the new state to the step functions.
- `pedido_lifecycle.dfy` (`PedidoLifecycle`): facts about any sequence
  of calls.
  - Orders only move forward along the state machine and keep their
    fields.
  - Terminal statuses stay put.
  - Sends stay coupled to writes: two messages per order plus two per
    cancellation, each of them present.
  - Replaying an event, or cancelling twice, changes nothing.
  - Two end-to-end scenarios.

Notes on behaviour:

- `atualiza` validates its id through `IdPedido`, which throws for `null`
  or a non-positive id. A malformed event id therefore raises an error; it
  is not treated like an unknown order.
- `IdPedido` throws with the ean message (`"EAN NAO PODE SER NULO..."`).
  The model keeps that text.
- `dataDeCriacao` is rewritten with the current time on every save: on
  creation, on cancellation and on every status update. The model does the
  same.
- In `cria`, `temEstoque` is called even when `pegaCliente` returned `null`.
  Only the combined outcome matters, so each lookup is one parameter.

## Model

| member | source | states |
|---|---|---|
| `Regex.Digits` | src/main/java/com/fiap/techchallenge4/domain/Pedido.java:13 | `\d{n}` is n mandatory digit terms. |
| `Regex.LengthBounds` | src/main/java/com/fiap/techchallenge4/domain/Pedido.java:22 | A string the pattern fully matches is no shorter than its mandatory terms and no longer than the pattern. |
| `Regex.DigitCount` | src/main/java/com/fiap/techchallenge4/domain/Pedido.java:22 | When every `\d` is mandatory and no literal is a digit, a full match has exactly as many ASCII digits as the pattern has `\d` terms. |
| `Regex.ConsumedBy` | src/main/java/com/fiap/techchallenge4/domain/Pedido.java:22 | Each character of a full match was consumed by a term that accepts it. The digits before the character are the `\d` terms before that term, and the rest of the string matches the rest of the pattern. |
| `Regex.MatchConcat` | src/main/java/com/fiap/techchallenge4/domain/Pedido.java:22 | Full matches compose: a match of `p` then a match of `q` is a match of `p + q`. |
| `Regex.DigitsMatch` | src/main/java/com/fiap/techchallenge4/domain/Pedido.java:13 | `\d{n}` matches every string of n ASCII digits. |
| `Regex.OptionalMatch` | src/main/java/com/fiap/techchallenge4/domain/Pedido.java:13 | `c?` matches both the empty string and `c`. |
| `Regex.DigitTermsAppend` | src/main/java/com/fiap/techchallenge4/domain/Pedido.java:13 | The `\d` count of a pattern is additive over concatenation. |
| `Regex.MinLengthAppend` | src/main/java/com/fiap/techchallenge4/domain/Pedido.java:13 | The minimum match length is additive over concatenation. |
| `Regex.DigitsCounts` | src/main/java/com/fiap/techchallenge4/domain/Pedido.java:13 | `\d{n}` has n digit terms and needs n characters. |
| `Pedido.New` | src/main/java/com/fiap/techchallenge4/domain/Pedido.java:15-36 | The constructor succeeds iff cpf is non-null, non-empty and matches `REGEX_CPF`, ean is non-null and > 0, and quantity is non-null and in (0, 1000]. On success the getters return the arguments unchanged. Otherwise the FIRST failing check, in source order, decides the exception message. |
| `Pedido.CpfLayout` | src/main/java/com/fiap/techchallenge4/domain/Pedido.java:13 | The layout of eleven digits with each separator present or absent has length 11 plus the number of separators. |
| `Pedido.CpfPatternTerms` | src/main/java/com/fiap/techchallenge4/domain/Pedido.java:13 | `REGEX_CPF` is 14 terms: '.'? at positions 3 and 7, '-'? at 11, a mandatory digit elsewhere. |
| `Pedido.CpfPatternCounts` | src/main/java/com/fiap/techchallenge4/domain/Pedido.java:13 | `REGEX_CPF` has 11 digit terms and a minimum length of 11. There are 3, 6 and 9 digit terms before the separators. Two digits follow the '-'. |
| `Pedido.AcceptedCpfSize` | src/main/java/com/fiap/techchallenge4/domain/Pedido.java:13 | Every accepted CPF has exactly 11 ASCII digits and is 11 to 14 characters long. |
| `Pedido.AcceptedCpfSeparators` | src/main/java/com/fiap/techchallenge4/domain/Pedido.java:13 | In an accepted CPF every character is a digit, '.' or '-'. A '.' comes only after exactly 3 or 6 digits and has a digit directly before and after it. A '-' comes only after exactly 9 digits, is the third character from the end and is followed by a digit. With `AcceptedCpfSize` this leaves exactly the layouts of `CpfLayoutAccepted`. |
| `Pedido.CpfLayoutAccepted` | src/main/java/com/fiap/techchallenge4/domain/Pedido.java:13 | Conversely, all 8 layouts of any 11 digits are accepted (each '.' and the '-' optional). |
| `Pedido.CpfRejectedByDigitCount` | src/main/java/com/fiap/techchallenge4/domain/Pedido.java:13 | A string whose digit count is not 11 is rejected. |
| `Pedido.CpfRejectedByMisplacedDot` | src/main/java/com/fiap/techchallenge4/domain/Pedido.java:13 | A string with a '.' that does not directly follow a digit is rejected. |
| `Pedido.CpfDoubleDotRejected` | src/main/java/com/fiap/techchallenge4/domain/Pedido.java:13 | "123456..789-01" is rejected although it has eleven digits and the '-' in place. |
| `Pedido.CpfExamples` | src/main/java/com/fiap/techchallenge4/domain/Pedido.java:13 | "71622958004" and "716.229.580-04" are accepted. |
| `Pedido.CpfCounterExamples` | src/main/java/com/fiap/techchallenge4/domain/Pedido.java:18-23 | "", " ", "teste", a 10-digit and a 12-digit string are rejected. |
| `Pedido.ConstructorBoundaries` | src/main/java/com/fiap/techchallenge4/domain/Pedido.java:18-31 | Quantity 1 and 1000 are accepted. Quantity 1001, 0, -1 and null, ean null, 0 and -1, and the bad CPFs are each rejected with their own message. |
| `IdPedido.New` | src/main/java/com/fiap/techchallenge4/domain/IdPedido.java:12-18 | The constructor succeeds iff the argument is non-null and > 0, and `getNumero` then returns it unchanged. Otherwise it throws. It is a pure function. |
| `IdPedido.ConstructorBoundaries` | src/main/java/com/fiap/techchallenge4/domain/IdPedido.java:13 | 1 and LONG_MAX are accepted; 0, -1, LONG_MIN and null are rejected. |
| `PedidoUseCase.Initial` | src/main/java/com/fiap/techchallenge4/infrastructure/model/PedidoEntity.java:20-22 | The empty table, with the identity generator at 1, satisfies the invariant. |
| `PedidoUseCase.MessagesAppend` | src/main/java/com/fiap/techchallenge4/useCase/impl/PedidoUseCaseImpl.java:61-74 | The messages sent by a concatenated journal are the concatenation of the messages of its parts. |
| `PedidoUseCase.FindByIdAndStatusPedido` | src/main/java/com/fiap/techchallenge4/infrastructure/repository/PedidoRepository.java:11-12 | Returns a row iff one has both that id and that status, and then it is that row. |
| `PedidoUseCase.CriaStep` | src/main/java/com/fiap/techchallenge4/useCase/impl/PedidoUseCaseImpl.java:39-81 | Validation failure: the `Pedido` error, nothing changed, whatever the lookups say. `true` iff the fields are valid, the customer is found and stock is exactly `true`. Then there is exactly one new row under a fresh id, with the given cpf/ean/quantity, `CRIADO` and the current time; other rows are untouched. The journal gains the save, then the stock-withdraw send, then the delivery-prepare send with the saved id. Any other outcome (null customer, false/null stock, a throwing lookup): `false`, nothing changed. The invariant is kept. |
| `PedidoUseCase.CancelaStep` | src/main/java/com/fiap/techchallenge4/useCase/impl/PedidoUseCaseImpl.java:84-114 | Invalid id: the `IdPedido` error, nothing changed. `true` iff the id has a row in `CRIADO`. Then that row becomes `CANCELADO` with the same cpf/ean/quantity and the current time; the keys, the other rows and the id counter are unchanged. The journal gains the save, then the stock-return send, then the delivery-cancel send. Otherwise `false`, nothing changed. |
| `PedidoUseCase.SignalsAreForwardMoves` | src/main/java/com/fiap/techchallenge4/useCase/impl/PedidoUseCaseImpl.java:120-124 | Each signal maps its required status one forward move to the status of the same name, never to `CANCELADO`. Distinct signals require distinct statuses. |
| `PedidoUseCase.AtualizaStep` | src/main/java/com/fiap/techchallenge4/useCase/impl/PedidoUseCaseImpl.java:117-142 | Invalid id: the `IdPedido` error, nothing changed. A row in the status the signal requires moves to the signal's status, other fields kept, with one save. Anything else changes nothing. No message is ever sent, and the keys and id counter never change. |
| `PedidoUseCase.PedidoUseCaseImpl.constructor` | src/main/java/com/fiap/techchallenge4/useCase/impl/PedidoUseCaseImpl.java:28-36 | A new service starts with an empty table, id counter 1 and no calls made. |
| `PedidoUseCase.PedidoUseCaseImpl.FindByIdAndStatus` | src/main/java/com/fiap/techchallenge4/useCase/impl/PedidoUseCaseImpl.java:87 | The repository query on the service's table: a row iff id and status both match, and changes nothing. |
| `PedidoUseCase.PedidoUseCaseImpl.Save` | src/main/java/com/fiap/techchallenge4/useCase/impl/PedidoUseCaseImpl.java:59 | `save` inserts a row without an id under the next generated id, or overwrites an existing row. It journals the save and keeps the invariant. |
| `PedidoUseCase.PedidoUseCaseImpl.Send` | src/main/java/com/fiap/techchallenge4/useCase/impl/PedidoUseCaseImpl.java:61-68 | `send` appends one message to the journal and changes nothing else. |
| `PedidoUseCase.PedidoUseCaseImpl.Cria` | src/main/java/com/fiap/techchallenge4/useCase/impl/PedidoUseCaseImpl.java:39-81 | The new state and the answer are those of `CriaStep`. The invariant is kept. |
| `PedidoUseCase.PedidoUseCaseImpl.Cancela` | src/main/java/com/fiap/techchallenge4/useCase/impl/PedidoUseCaseImpl.java:84-114 | The new state and the answer are those of `CancelaStep`. The invariant is kept. |
| `PedidoUseCase.PedidoUseCaseImpl.Atualiza` | src/main/java/com/fiap/techchallenge4/useCase/impl/PedidoUseCaseImpl.java:117-142 | The new state and the outcome are those of `AtualizaStep`. The invariant is kept. |
| `PedidoLifecycle.Apply` | src/main/java/com/fiap/techchallenge4/useCase/PedidoUseCase.java:8-13 | Handling any one inbound call keeps the invariant. |
| `PedidoLifecycle.Run` | src/main/java/com/fiap/techchallenge4/useCase/PedidoUseCase.java:8-13 | Handling any sequence of calls keeps the invariant: ids are positive and below the counter, and every row holds a valid `Pedido`. |
| `PedidoLifecycle.ReachesTransitive` | src/main/java/com/fiap/techchallenge4/useCase/impl/PedidoUseCaseImpl.java:120-124 | Reachability in the state machine composes. |
| `PedidoLifecycle.TerminalStatuses` | src/main/java/com/fiap/techchallenge4/useCase/impl/PedidoUseCaseImpl.java:87-91 | Nothing is reachable from `ENTREGUE` or `CANCELADO` but themselves. |
| `PedidoLifecycle.EvolvesTransitive` | src/main/java/com/fiap/techchallenge4/useCase/impl/PedidoUseCaseImpl.java:39-142 | The "can follow" relation between states composes. |
| `PedidoLifecycle.ApplyEvolves` | src/main/java/com/fiap/techchallenge4/useCase/impl/PedidoUseCaseImpl.java:39-142 | One call deletes nothing and changes no order's cpf/ean/quantity. It moves statuses only forward, never moves the id counter back, and only appends to the journal. Orders it creates start in `CRIADO`. |
| `PedidoLifecycle.RunEvolves` | src/main/java/com/fiap/techchallenge4/useCase/impl/PedidoUseCaseImpl.java:39-142 | The same, over any sequence of calls. |
| `PedidoLifecycle.TerminalOrdersStay` | src/main/java/com/fiap/techchallenge4/useCase/impl/PedidoUseCaseImpl.java:87-91 | An order that is `ENTREGUE` or `CANCELADO` stays so whatever calls follow. |
| `PedidoLifecycle.MessagesOfSaveAndTwoSends` | src/main/java/com/fiap/techchallenge4/useCase/impl/PedidoUseCaseImpl.java:59-74 | A save followed by two sends contributes exactly those two messages. |
| `PedidoLifecycle.InitialAccounted` | src/main/java/com/fiap/techchallenge4/useCase/impl/PedidoUseCaseImpl.java:39-114 | The empty service is accounted: no rows, no messages. |
| `PedidoLifecycle.CriaAccounted` | src/main/java/com/fiap/techchallenge4/useCase/impl/PedidoUseCaseImpl.java:49-75 | `cria` keeps the accounting: the sent-message count is 2 per row plus 2 per cancelled row, and each row's withdraw and prepare messages are among those sent. |
| `PedidoLifecycle.CancellationAccounted` | src/main/java/com/fiap/techchallenge4/useCase/impl/PedidoUseCaseImpl.java:94-111 | Rewriting a row to `CANCELADO` while sending its stock-return and delivery-cancel messages keeps the accounting. |
| `PedidoLifecycle.CancelaAccounted` | src/main/java/com/fiap/techchallenge4/useCase/impl/PedidoUseCaseImpl.java:84-114 | `cancela` keeps the accounting; each cancelled row's return and cancel messages are among those sent. |
| `PedidoLifecycle.ForwardMoveAccounted` | src/main/java/com/fiap/techchallenge4/useCase/impl/PedidoUseCaseImpl.java:133-141 | A status move outside `CANCELADO` that sends nothing keeps the accounting. |
| `PedidoLifecycle.AtualizaAccounted` | src/main/java/com/fiap/techchallenge4/useCase/impl/PedidoUseCaseImpl.java:117-142 | `atualiza` keeps the accounting. |
| `PedidoLifecycle.RunAccounted` | src/main/java/com/fiap/techchallenge4/useCase/impl/PedidoUseCaseImpl.java:39-142 | Any sequence of calls keeps the accounting. |
| `PedidoLifecycle.ReachableStatesAreAccounted` | src/main/java/com/fiap/techchallenge4/useCase/impl/PedidoUseCaseImpl.java:39-142 | In every state reachable from the empty service, the sent messages number exactly 2 per order plus 2 per cancelled order. Every order's creation messages and every cancelled order's cancellation messages are among them. |
| `PedidoLifecycle.AtualizaReplayIsNoOp` | src/main/java/com/fiap/techchallenge4/useCase/impl/PedidoUseCaseImpl.java:126-130 | Delivering the same `atualiza` event a second time changes nothing. |
| `PedidoLifecycle.CancelaTwice` | src/main/java/com/fiap/techchallenge4/useCase/impl/PedidoUseCaseImpl.java:87-91 | A second `cancela` of the same id changes nothing and does not answer `true`. |
| `PedidoLifecycle.CreateCancelScenario` | src/test/java/com/fiap/techchallenge4/integrados/PedidoControllerIT.java:75-136 | Creating an order (ean 7894900011517, cpf 71622958004, qty 3) gives `true`, row 1 in `CRIADO` and 2 messages. Cancelling it gives `true`, `CANCELADO` and 4 messages. A second cancel gives `false` with no change, and a late `EM_TRANSPORTE` is ignored. |
| `PedidoLifecycle.DeliveryScenario` | src/test/java/com/fiap/techchallenge4/integrados/ConsumerAtualizaPedidoIT.java:39-160 | `ENTREGUE` on a `CRIADO` order is ignored. `EM_TRANSPORTE` moves it forward, keeping its fields, and a second `EM_TRANSPORTE` is ignored. `ENTREGUE` then completes it. Nothing is sent, and a later cancel is refused. |

## Left out

- The HTTP controller and its mapping of answers to status codes, and the Spring/Jakarta request validation. They are transport around the core.
- The Feign clients. Only their outcomes are modelled, as parameters: customer found, `null` or a throw; stock `true`, `false`, `null` or a throw. The TCP calls, timeouts and the `ClienteDTO` contents are not modelled. In `cria`, the order of the two lookup calls does not show in the model.
- The `StreamBridge` transport and the consumer binding in `ConsumerAtualizaPedido`. A send is an entry appended to the journal, and its boolean answer is ignored, as in the code.
- JPA internals. The table is a map from id to row, and IDENTITY generation is a counter starting at 1. The counter is an unbounded integer: exhausting the `Long` id range is not modelled.
- Failures of `save` or `send`. In `cria` they would be swallowed into `false`, possibly after the row was saved. In `cancela` and `atualiza` they would propagate. The model assumes the repository and the publisher do not throw.
- Signals other than `EM_TRANSPORTE` and `ENTREGUE`, and a `null` signal. The enum's other values are not part of this model, so the `: null` fallback of the status mapping and the `NullPointerException` of a null `statusEntrega` are not modelled.
- Concurrency. Calls are handled one after the other, so the check-then-act race between `findByIdAndStatusPedido` and `save` is out of scope.
- Logging (`System.out`, `printStackTrace`) produces no state and is not modelled.
- The real values of `LocalDateTime.now()`. Each operation receives an opaque timestamp.
- `PedidoUseCase.PedidoUseCaseImpl.Save`: it requires an explicit id to name an existing row. The code only saves with an id after finding that row. What JPA does with an unknown explicit id is not modelled.
