/**
 * The HTTP-facing payment controller without its transport: the responses of the
 * start and status endpoints, and the reconciliation of a provider notification.
 */
module Controllers {
  import opened Dominio
  import opened Gateways
  import opened Mensageria
  import opened UseCases

  /** The body answered by the start and status endpoints. */
  datatype PagamentoResponse = PagamentoResponse(id: int, status: StatusPagamento, qrCode: string)

  /** The body answered by the webhook endpoint. */
  datatype WebhookResponse = WebhookResponse(ok: bool)

  /** The public view of a payment: its id, its status and its QR code. */
  function ParaResposta(p: Pagamento): PagamentoResponse
  {
    PagamentoResponse(p.id, p.status, p.qrCode)
  }

  /** Passes an error through and maps a payment to its public view. */
  function RespostaDe(r: Result<Pagamento>): Result<PagamentoResponse>
  {
    match r
    case Success(p) => Success(ParaResposta(p))
    case Failure(e) => Failure(e)
  }

  /** The parsed notification reports a closed provider order. */
  predicate Fechado(retorno: Result<Option<WebhookResposta>>)
  {
    retorno.Success? && retorno.value.Some? && retorno.value.value.status == "closed"
  }

  /** The payment status a closed notification leads to. */
  function StatusFinal(w: WebhookResposta): StatusPagamento
  {
    if w.pago then PAGO else StatusPagamento.CANCELADO
  }

  /** The order-status message a closed notification leads to. */
  function EventoFinal(w: WebhookResposta): StatusPedido
  {
    if w.pago then ENVIADO_PARA_A_COZINHA else StatusPedido.CANCELADO
  }

  class PagamentoController {
    const pagamentoUseCase: ExecutarPagamentoUseCase

    ghost predicate Valid()
      reads pagamentoUseCase.pagamentoGateway
    {
      pagamentoUseCase.Valid()
    }

    constructor (pagamentoGateway: PagamentoGateway, fila: FilaMensageria)
      ensures pagamentoUseCase.pagamentoGateway == pagamentoGateway && pagamentoUseCase.fila == fila
    {
      pagamentoUseCase := new ExecutarPagamentoUseCase(pagamentoGateway, fila);
    }

    /** Starts a payment for `body` and answers its id, status and QR code. */
    method IniciarPagamento(body: Pedido, resposta: Result<QRCodePagamento>) returns (r: Result<PagamentoResponse>)
      requires Valid()
      modifies pagamentoUseCase.pagamentoGateway, pagamentoUseCase.fila`envios
      ensures Valid()
      ensures r == RespostaDe(ResultadoIniciar(old(pagamentoUseCase.pagamentoGateway.proximoId), body, resposta))
      ensures pagamentoUseCase.pagamentoGateway.proximoId == old(pagamentoUseCase.pagamentoGateway.proximoId) + 1
      ensures pagamentoUseCase.pagamentoGateway.tabela ==
        TabelaAposIniciar(old(pagamentoUseCase.pagamentoGateway.tabela),
                          old(pagamentoUseCase.pagamentoGateway.proximoId), body, resposta)
      ensures pagamentoUseCase.fila.envios == old(pagamentoUseCase.fila.envios) + EventosIniciar(body, resposta)
    {
      var pagamento := pagamentoUseCase.Iniciar(body, resposta);
      if pagamento.Failure? {
        return Failure(pagamento.error);
      }
      r := Success(ParaResposta(pagamento.value));
    }

    /** Answers the id, status and QR code of the newest payment of `pedido`. */
    method BuscarStatusPedido(pedido: string) returns (r: Result<PagamentoResponse>)
      requires Valid()
      ensures r.Failure? <==> forall k :: !DoPedido(pagamentoUseCase.pagamentoGateway.tabela, k, pedido)
      ensures r.Failure? ==> r.error == PagamentoNaoEncontrado
      ensures r.Success? ==>
        var t := pagamentoUseCase.pagamentoGateway.tabela;
        exists k :: MaisRecente(t, k, pedido) && r.value == PagamentoResponse(k, t[k].status, t[k].qrcode)
    {
      var pagamento := pagamentoUseCase.ConsultaStatus(pedido);
      if pagamento.Failure? {
        return Failure(pagamento.error);
      }
      r := Success(ParaResposta(pagamento.value));
    }

    /**
     * Reconciles a provider notification. `retorno` is what parsing the payload gave: a
     * rejection, no notification, or a notification. Only a closed notification whose
     * reference resolves to a payment changes anything: the newest payment of that
     * payment's order becomes paid or cancelled. Any failure becomes ErroTratamentoPayload.
     */
    method ReceberStatusPagamentoIntegrador(retorno: Result<Option<WebhookResposta>>) returns (r: Result<WebhookResponse>)
      requires Valid()
      modifies pagamentoUseCase.pagamentoGateway, pagamentoUseCase.fila`envios
      ensures Valid()
      ensures pagamentoUseCase.pagamentoGateway.proximoId == old(pagamentoUseCase.pagamentoGateway.proximoId)
      ensures retorno.Failure? ==>
        && r == Failure(ErroTratamentoPayload)
        && pagamentoUseCase.pagamentoGateway.tabela == old(pagamentoUseCase.pagamentoGateway.tabela)
        && pagamentoUseCase.fila.envios == old(pagamentoUseCase.fila.envios)
      ensures retorno.Success? && !Fechado(retorno) ==>
        && r == Success(WebhookResponse(true))
        && pagamentoUseCase.pagamentoGateway.tabela == old(pagamentoUseCase.pagamentoGateway.tabela)
        && pagamentoUseCase.fila.envios == old(pagamentoUseCase.fila.envios)
      ensures Fechado(retorno) && (forall k :: !ComReferencia(old(pagamentoUseCase.pagamentoGateway.tabela), k, retorno.value.value.idPagamento)) ==>
        && r == Failure(ErroTratamentoPayload)
        && pagamentoUseCase.pagamentoGateway.tabela == old(pagamentoUseCase.pagamentoGateway.tabela)
        && pagamentoUseCase.fila.envios == old(pagamentoUseCase.fila.envios)
      ensures Fechado(retorno) && (exists k :: ComReferencia(old(pagamentoUseCase.pagamentoGateway.tabela), k, retorno.value.value.idPagamento)) ==>
        var w := retorno.value.value;
        var t0 := old(pagamentoUseCase.pagamentoGateway.tabela);
        && r == Success(WebhookResponse(true))
        && exists k :: ComReferencia(t0, k, w.idPagamento)
             && Finalizado(t0, pagamentoUseCase.pagamentoGateway.tabela, t0[k].pedido, StatusFinal(w))
             && pagamentoUseCase.fila.envios == old(pagamentoUseCase.fila.envios) + [Mensagem(t0[k].pedido, EventoFinal(w))]
    {
      if retorno.Failure? {
        return Failure(ErroTratamentoPayload);
      }
      if retorno.value.Some? {
        var w := retorno.value.value;
        if w.status == "closed" {
          ghost var t0 := pagamentoUseCase.pagamentoGateway.tabela;
          var pagto := pagamentoUseCase.ConsultaPedidoIntegrador(w.idPagamento);
          if pagto.Failure? {
            return Failure(ErroTratamentoPayload);
          }
          var p := pagto.value;
          assert DoPedido(t0, p.id, p.pedido);
          var resultado;
          if w.pago {
            resultado := pagamentoUseCase.Pago(p.pedido);
          } else {
            resultado := pagamentoUseCase.Cancelar(p.pedido);
          }
          assert resultado.Success?;
          assert ComReferencia(t0, p.id, w.idPagamento);
          assert MaisRecente(t0, resultado.value.id, t0[p.id].pedido);
        }
      }
      r := Success(WebhookResponse(true));
    }
  }
}
