/**
 * The repository's test scenarios, each a method that builds a fresh store, with its
 * outcome proved.
 */
module Cenarios {
  import opened Dominio
  import opened Gateways
  import opened Mensageria
  import opened UseCases
  import opened Controllers

  /** Order "1" with total 10, as in the tests. */
  const PEDIDO := Pedido("1", 10)

  /** The provider issues a QR code: the new payment stays pending and carries the provider's data. */
  method CenarioQRCodeEmitido() returns (r: Result<Pagamento>, envios: seq<Mensagem>)
    ensures r == Success(Pagamento(1, "1", 10, AGUARDANDO_RESPOSTA, "1234567897895464546", "qrcode321321354564897987"))
    ensures envios == [Mensagem("1", ENVIAR_PARA_PAGAMENTO)]
  {
    var gateway := new PagamentoGateway();
    var fila := new FilaMensageria(true);
    var useCase := new ExecutarPagamentoUseCase(gateway, fila);
    r := useCase.Iniciar(PEDIDO, Success(QRCodePagamento("1234567897895464546", "qrcode321321354564897987")));
    envios := fila.envios;
  }

  /** The provider issues no QR code: the new payment is cancelled and CANCELADO is published after ENVIAR_PARA_PAGAMENTO. */
  method CenarioQRCodeRecusado() returns (r: Result<Pagamento>, envios: seq<Mensagem>)
    ensures r == Success(Pagamento(1, "1", 10, StatusPagamento.CANCELADO, "", ""))
    ensures envios == [Mensagem("1", ENVIAR_PARA_PAGAMENTO), Mensagem("1", StatusPedido.CANCELADO)]
  {
    var gateway := new PagamentoGateway();
    var fila := new FilaMensageria(true);
    var useCase := new ExecutarPagamentoUseCase(gateway, fila);
    r := useCase.Iniciar(PEDIDO, Success(QRCodePagamento("", "")));
    envios := fila.envios;
  }

  /** Confirming the payment of an order that has none fails, publishes nothing and leaves the table empty. */
  method CenarioPagoSemPagamento() returns (r: Result<Pagamento>, envios: seq<Mensagem>, tabela: Tabela)
    ensures r == Failure(PagamentoNaoEncontrado)
    ensures envios == [] && tabela == map[]
  {
    var gateway := new PagamentoGateway();
    var fila := new FilaMensageria(true);
    var useCase := new ExecutarPagamentoUseCase(gateway, fila);
    r := useCase.Pago("1");
    envios := fila.envios;
    tabela := gateway.tabela;
  }

  /** Updating a payment whose id is 0 fails with PagamentoNaoGravado. */
  method CenarioAtualizarNaoGravado() returns (r: Result<Pagamento>)
    ensures r == Failure(PagamentoNaoGravado)
  {
    var gateway := new PagamentoGateway();
    r := gateway.AtualizarPagamento(Pagamento(0, "123", 150, AGUARDANDO_RESPOSTA, "", ""));
  }

  /**
   * A closed, paid notification for the reference of a started payment answers ok and
   * leaves that payment PAGO, as the status endpoint then shows.
   */
  method CenarioWebhookAprovado(disponivel: bool) returns (r: Result<WebhookResponse>, status: Result<PagamentoResponse>)
    ensures r == Success(WebhookResponse(true))
    ensures status == Success(PagamentoResponse(1, PAGO, "qrcode321321354564897987"))
  {
    var gateway := new PagamentoGateway();
    var fila := new FilaMensageria(disponivel);
    var controller := new PagamentoController(gateway, fila);
    var iniciado := controller.IniciarPagamento(PEDIDO, Success(QRCodePagamento("123456789789", "qrcode321321354564897987")));
    assert ComReferencia(gateway.tabela, 1, "123456789789");
    r := controller.ReceberStatusPagamentoIntegrador(Success(Some(WebhookResposta("123456789789", "closed", true))));
    assert DoPedido(gateway.tabela, 1, "1") && gateway.tabela.Keys == {1};
    status := controller.BuscarStatusPedido("1");
  }

  /** A closed notification whose reference matches no payment is an error, and nothing changes. */
  method CenarioWebhookReferenciaDesconhecida() returns (r: Result<WebhookResponse>, envios: seq<Mensagem>, tabela: Tabela)
    ensures r == Failure(ErroTratamentoPayload)
    ensures envios == [] && tabela == map[]
  {
    var gateway := new PagamentoGateway();
    var fila := new FilaMensageria(true);
    var controller := new PagamentoController(gateway, fila);
    r := controller.ReceberStatusPagamentoIntegrador(Success(Some(WebhookResposta("ZZZ", "closed", true))));
    envios := fila.envios;
    tabela := gateway.tabela;
  }
}
