/**
 * Domain values of the payments service: the two status enumerations, the order a
 * payment is collected for, the payment entity, the payment provider's answers and
 * the errors the core raises.
 */
module Dominio {

  /** Status of a payment: created pending, then paid or cancelled. */
  datatype StatusPagamento = AGUARDANDO_RESPOSTA | PAGO | CANCELADO

  /** Order status published to the order-status queue. */
  datatype StatusPedido = ENVIAR_PARA_PAGAMENTO | ENVIADO_PARA_A_COZINHA | CANCELADO

  /** The part of an order the core reads: its id and its total (an opaque amount). */
  datatype Pedido = Pedido(id: string, valorTotal: int)

  /** The payment entity; `id == 0` means "not yet saved". */
  datatype Pagamento = Pagamento(
    id: int,
    pedido: string,
    valor: int,
    status: StatusPagamento,
    identificadorPedido: string,
    qrCode: string)

  /** The provider's answer to a QR-code request; an empty reference means no code was issued. */
  datatype QRCodePagamento = QRCodePagamento(identificadorPedido: string, qrcode: string)

  /** A provider notification, as parsed from a webhook payload. */
  datatype WebhookResposta = WebhookResposta(idPagamento: string, status: string, pago: bool)

  /** The errors raised by the core, one per message of the source. */
  datatype Erro =
    | PagamentoNaoEncontrado          // "Pagamento não encontrado"
    | PedidoIntegradorNaoEncontrado   // "Pedido integrador não encontrado"
    | PagamentoNaoGravado             // "Pagamento não gravado"
    | ErroTratamentoPayload           // "Erro no tratamento do payload de retorno do integrador"
    | FalhaIntegrador(motivo: string) // a rejection coming from the payment provider

  /** A value or the error that was thrown instead of it. */
  datatype Result<+T> = Success(value: T) | Failure(error: Erro)

  datatype Option<+T> = None | Some(value: T)
}
