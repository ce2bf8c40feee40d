# Payment lifecycle of the order-payments service, in Dafny

This project models the payment core of a snack-bar ordering service.

- **The payment store** (`PagamentoGateway`) keeps payment rows in a table. Ids come from an
  auto-increment counter.
  - It creates a pending payment for an order.
  - It finds the newest payment of an order, or some payment that carries a given provider reference.
  - It updates a payment by id, and refuses a payment that was never saved (id 0).
- **The payment orchestrator** (`ExecutarPagamentoUseCase`) has five operations.
  - `Iniciar` starts a payment, publishes `ENVIAR_PARA_PAGAMENTO` and asks the payment provider
    for a QR code. It stores the QR data when the provider returned a reference. Otherwise it
    cancels the payment.
  - `Pago` moves the newest payment of an order to `PAGO` and publishes `ENVIADO_PARA_A_COZINHA`.
  - `Cancelar` moves it to `CANCELADO` and publishes `CANCELADO`.
  - `ConsultaStatus` and `ConsultaPedidoIntegrador` pass the store's two lookups through unchanged.
- **The controller** (`PagamentoController`) answers `{id, status, qrCode}` for the start and
  status endpoints. It also reconciles a provider notification. A `"closed"` notification whose
  reference resolves to a payment triggers `Pago` or `Cancelar` for that payment's order. Every
  failure becomes the single error `ErroTratamentoPayload`.

Layout, one module per file:

- `dominio.dfy` (`Dominio`): the status enumerations, the order, the payment, the provider's
  answers and the errors.
- `mensageria.dfy` (`Mensageria`): the order-status queue as a log of messages.
- `gateways.dfy` (`Gateways`): the store. It is a class holding the table (`map<int, RegistroPagamento>`)
  and the next id.
- `usecases.dfy` (`UseCases`): the orchestrator class and the functions that specify `Iniciar`.
- `controllers.dfy` (`Controllers`): the controller class.
- `cenarios.dfy` (`Cenarios`): the repository's test scenarios, each a method that builds a fresh store, with its outcome proved.

Outside inputs become parameters.

- The payment provider's answer to the QR-code request is a parameter `resposta: Result<QRCodePagamento>`.
  A `Failure` there stands for a rejected call.
- Its parsing of a webhook payload is a parameter `retorno: Result<Option<WebhookResposta>>`.
  `None` stands for a falsy parse result.
- The queue is `FilaMensageria`. `envios` logs every publish call in order. `disponivel` is the
  true/false answer of a send, and the orchestrator ignores it.

Modelling choices:

- Payment entities are values (`Pagamento` is a datatype). Every payment the store hands out is a
  fresh object built by `converterRepository`. So the orchestrator's field writes on it equal value updates.
- Order ids are strings throughout. Some TypeScript signatures declare them as `number`. Within the
  modelled core, every value passed as an order id is an order's string id
  (src/application/usecases/ExecutarPagamentoUseCase.ts:25) or a stored row's `pedido` column
  (src/application/usecases/ExecutarPagamentoUseCase.ts:36, src/infra/http/controllers/PagamentoController.ts:70, 73). The route's conversion of the status
  path parameter to a number is left out (see "## Left out").
- A closed notification whose reference matches no payment ends in `ErroTratamentoPayload`. The
  lookup runs inside the `try` (src/infra/http/controllers/PagamentoController.ts:66), the store
  throws "Pedido integrador não encontrado" (src/infra/database/gateways/PagamentoGateway.ts:37-39),
  and the `catch` (src/infra/http/controllers/PagamentoController.ts:83-85) turns that into the
  error (`Controllers.PagamentoController.ReceberStatusPagamentoIntegrador`,
  `Cenarios.CenarioWebhookReferenciaDesconhecida`).
- The webhook looks up the payment by reference. It then calls `pago`/`cancelar` with that payment's
  order, and these change the order's newest payment. That may be a different row than the referenced
  one. The contract states exactly this.

## Model

| member | source | states |
|---|---|---|
| `Gateways.PagamentoGateway.IniciarPagamento` | src/infra/database/gateways/PagamentoGateway.ts:60-73 | adds exactly one row under a fresh id (the old counter, not in the table before), with the order's id and total, status AGUARDANDO_RESPOSTA and empty reference and QR code; every other row is unchanged; the returned payment is the stored row |
| `Gateways.PagamentoGateway.BuscarPagamento` | src/infra/database/gateways/PagamentoGateway.ts:26-32 | answers the row with the largest id among the order's rows, converted; fails with PagamentoNaoEncontrado exactly when the order has no row; reads only |
| `Gateways.PagamentoGateway.BuscarPagamentoPeloIntegrador` | src/infra/database/gateways/PagamentoGateway.ts:34-41 | answers some stored row carrying the reference, converted; fails with PedidoIntegradorNaoEncontrado exactly when no row carries it; reads only |
| `Gateways.PagamentoGateway.AtualizarPagamento` | src/infra/database/gateways/PagamentoGateway.ts:43-58 | id 0 fails with PagamentoNaoGravado, and an id not in the table fails with PagamentoNaoEncontrado, both leaving the table unchanged; otherwise only that row changes, its reference, QR code, status and amount become the payment's while its id and order stay, and the answer is the stored row; the row is written by `Sobrescrever` (lines 51-54) |
| `Gateways.Converter` | src/infra/database/gateways/PagamentoGateway.ts:17-24 | the payment keeps the row's id and order and loses no field: writing it back into the row it came from gives that row unchanged |
| `Gateways.ConverterSobrescrito` | src/infra/database/gateways/PagamentoGateway.ts:51-57 | after an update with a payment of the same id and order, the converted row is that payment |
| `Gateways.BuscaPorPedidoUnica` | src/infra/database/gateways/PagamentoGateway.ts:27 | ordering by id descending gives the lookup by order exactly one correct answer on every table |
| `Mensageria.FilaMensageria.EnvioFila` | src/infra/sqs/sqs.ts:12-28 | appends exactly the message (order, status) to the log and answers whether the queue accepted it |
| `UseCases.ExecutarPagamentoUseCase.Iniciar` | src/application/usecases/ExecutarPagamentoUseCase.ts:19-40 | creates the row under the next id; publishes ENVIAR_PARA_PAGAMENTO for the order once, then CANCELADO only when the provider returned no reference; the final row and the answer are the provider's error, the pending row with the QR data, or the cancelled row |
| `UseCases.IniciarResultado` | src/application/usecases/ExecutarPagamentoUseCase.ts:29-37 | a started payment keeps the order's id and total; it is AGUARDANDO_RESPOSTA with the provider's reference and QR code when a reference came back, CANCELADO with empty reference and QR code otherwise |
| `UseCases.IniciarDepoisConsultar` | src/application/usecases/ExecutarPagamentoUseCase.ts:21-37 | on a table whose ids are below the new id, the lookup by order right after a successful start answers exactly the payment the start returned |
| `UseCases.FinalizadoNoMaisRecente` | src/infra/http/controllers/PagamentoController.ts:66-74 | when the referenced row is already the newest of its order, finishing that order (as the webhook does) changes exactly that row's status and nothing else |
| `UseCases.ExecutarPagamentoUseCase.Pago` | src/application/usecases/ExecutarPagamentoUseCase.ts:42-52 | without a row for the order it fails as the lookup does, with no update and no message; otherwise it sets only the newest row of the order to PAGO, answers that row and publishes ENVIADO_PARA_A_COZINHA once |
| `UseCases.ExecutarPagamentoUseCase.Cancelar` | src/application/usecases/ExecutarPagamentoUseCase.ts:54-66 | without a row for the order it fails as the lookup does, with no update and no message; otherwise it sets only the newest row of the order to CANCELADO, answers that row and publishes CANCELADO once |
| `UseCases.ExecutarPagamentoUseCase.ConsultaStatus` | src/application/usecases/ExecutarPagamentoUseCase.ts:68-71 | answers exactly a correct lookup by order (newest row, or PagamentoNaoEncontrado) and changes nothing |
| `UseCases.ExecutarPagamentoUseCase.ConsultaPedidoIntegrador` | src/application/usecases/ExecutarPagamentoUseCase.ts:73-76 | answers exactly a correct lookup by provider reference and changes nothing |
| `Controllers.PagamentoController.IniciarPagamento` | src/infra/http/controllers/PagamentoController.ts:35-42 | answers id, status and QR code of the payment the start produced, built by `ParaResposta` (lines 37-41), or its error, with the start's effect on table and queue |
| `Controllers.PagamentoController.BuscarStatusPedido` | src/infra/http/controllers/PagamentoController.ts:47-55 | answers id, status and QR code of the newest row of the order, built by `ParaResposta` (lines 49-53); fails with PagamentoNaoEncontrado exactly when the order has no row |
| `Controllers.PagamentoController.ReceberStatusPagamentoIntegrador` | src/infra/http/controllers/PagamentoController.ts:60-86 | a parse failure, or a closed notification with an unknown reference, gives ErroTratamentoPayload with nothing changed; no notification or a status other than "closed" gives ok with nothing changed; otherwise ok, only the newest row of the referenced payment's order becomes PAGO (paid) or CANCELADO, and exactly the matching message is published |
| `Cenarios.CenarioQRCodeEmitido` | tests/ExecutarPagamentoUseCase.test.ts:65-87 | with a QR code issued, the first payment stays pending and carries the provider's reference and QR code; only ENVIAR_PARA_PAGAMENTO is published |
| `Cenarios.CenarioQRCodeRecusado` | tests/ExecutarPagamentoUseCase.test.ts:89-114 | with no QR code issued, the payment is CANCELADO with an empty reference, and CANCELADO is published after ENVIAR_PARA_PAGAMENTO |
| `Cenarios.CenarioPagoSemPagamento` | tests/ExecutarPagamentoUseCase.test.ts:133-147 | confirming an order without payment fails with PagamentoNaoEncontrado, publishes nothing, stores nothing |
| `Cenarios.CenarioAtualizarNaoGravado` | tests/PagamentoGateway.test.ts:117-125 | updating a payment with id 0 fails with PagamentoNaoGravado |
| `Cenarios.CenarioWebhookAprovado` | tests/PagamentoController.test.ts:155-176 | a closed, paid notification for a started payment answers ok, and the status endpoint then shows it PAGO, whether or not the queue accepts messages |
| `Cenarios.CenarioWebhookReferenciaDesconhecida` | src/infra/http/controllers/PagamentoController.ts:62-85 | a closed notification with an unknown reference is an error and changes neither table nor queue |

## Left out

- The "Pagamento não foi criado" check of `iniciar` (src/application/usecases/ExecutarPagamentoUseCase.ts:22-24) is not modelled. The store always returns the saved row, so that branch cannot be taken.
- The `if (!pagamento)` checks of `pago`, `cancelar` and the webhook are not modelled either. The store's lookups throw instead of answering nothing.
- The `relations` option and the decimal column type of the database query are left out; the table is a map.
- Database failures are left out, and so is the transport of the webhook's rejected calls.
- The creation timestamp (`dataCriacao`) and the `console.log` calls are left out.
- The `Preco`/`Quantidade` value objects are not part of this model. Amounts are plain integers, and no sign check is assumed.
- The order's date, status, customer and items are left out. The core reads only the order's id and total.
- The description string sent with the QR-code request is left out, because the provider is a parameter.
- The payment provider's HTTP calls are not part of this model. Their outcomes are parameters.
- The queue's network send and message encoding are left out, and so is the endpoint configuration. Only the log and the true/false answer remain.
- The Express routes and HTTP status mapping are not part of this model.
- The status route converts its path parameter with `Number(...)` (src/infra/http/routes/routes.ts:48) before calling `buscarStatusPedido`. That conversion is left out, and the model takes the order id as a string.
- Asynchrony is left out. The unawaited `envioFila`, `pago` and `cancelar` calls run in sequence, at the point where they are issued.
- Concurrent requests on the same order are not modelled.
- The answer of the unawaited `pago`/`cancelar` in the webhook is ignored, as the source ignores it. It cannot be a failure there, since the order has at least the referenced row.
- `Gateways.PagamentoGateway.BuscarPagamentoPeloIntegrador`: the database picks one row among several that carry the same reference. The model leaves that choice open, so the contract only says that the answer carries the reference.
