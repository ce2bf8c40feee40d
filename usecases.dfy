/**
 * The payment orchestrator: starts a payment and asks the provider for a QR code,
 * marks the newest payment of an order as paid or cancelled, and publishes the
 * matching order-status message; plus two read-through queries.
 */
module UseCases {
  import opened Dominio
  import opened Gateways
  import opened Mensageria

  /** The pending row the store creates for `pedido` under id `id`. */
  function RegistroCriado(id: int, pedido: Pedido): RegistroPagamento
  {
    RegistroPagamento(id, pedido.valorTotal, AGUARDANDO_RESPOSTA, pedido.id, "", "")
  }

  /**
   * The row a provider answer leaves behind: it carries the QR data when the provider
   * returned a reference, and it is cancelled (with no QR data) otherwise.
   */
  function RegistroAposQRCode(id: int, pedido: Pedido, qr: QRCodePagamento): RegistroPagamento
  {
    if qr.identificadorPedido != "" then
      RegistroCriado(id, pedido).(identificadorPedido := qr.identificadorPedido, qrcode := qr.qrcode)
    else
      RegistroCriado(id, pedido).(status := StatusPagamento.CANCELADO)
  }

  /** The table after starting a payment for `pedido` on table `t0` whose next id is `id`. */
  function TabelaAposIniciar(t0: Tabela, id: int, pedido: Pedido, resposta: Result<QRCodePagamento>): Tabela
  {
    match resposta
    case Failure(_) => t0[id := RegistroCriado(id, pedido)]
    case Success(qr) => t0[id := RegistroAposQRCode(id, pedido, qr)]
  }

  /** What starting a payment returns: the provider's error, or the new payment as stored. */
  function ResultadoIniciar(id: int, pedido: Pedido, resposta: Result<QRCodePagamento>): Result<Pagamento>
  {
    match resposta
    case Failure(e) => Failure(e)
    case Success(qr) => Success(Converter(RegistroAposQRCode(id, pedido, qr)))
  }

  /** The order-status messages starting a payment publishes, in order. */
  function EventosIniciar(pedido: Pedido, resposta: Result<QRCodePagamento>): seq<Mensagem>
  {
    [Mensagem(pedido.id, ENVIAR_PARA_PAGAMENTO)] +
    if resposta.Success? && resposta.value.identificadorPedido == "" then
      [Mensagem(pedido.id, StatusPedido.CANCELADO)]
    else
      []
  }

  /** `t1` is `t0` with the status of the newest row of order `pedido` set to `status`, and nothing else changed. */
  ghost predicate Finalizado(t0: Tabela, t1: Tabela, pedido: string, status: StatusPagamento)
  {
    exists m :: MaisRecente(t0, m, pedido) && t1 == t0[m := t0[m].(status := status)]
  }

  /**
   * A started payment keeps the order's id and total; it is pending with the provider's
   * reference and QR code when a reference came back, and cancelled with neither otherwise.
   */
  lemma IniciarResultado(id: int, pedido: Pedido, qr: QRCodePagamento)
    ensures ResultadoIniciar(id, pedido, Success(qr)).Success?
    ensures var p := ResultadoIniciar(id, pedido, Success(qr)).value;
      && p.id == id && p.pedido == pedido.id && p.valor == pedido.valorTotal
      && (qr.identificadorPedido != "" ==>
            p.status == AGUARDANDO_RESPOSTA && p.identificadorPedido == qr.identificadorPedido && p.qrCode == qr.qrcode)
      && (qr.identificadorPedido == "" ==>
            p.status == StatusPagamento.CANCELADO && p.identificadorPedido == "" && p.qrCode == "")
  {
  }

  /**
   * Looking up the order right after a successful start answers exactly the payment the
   * start returned, since the new row has the largest id of the table.
   */
  lemma IniciarDepoisConsultar(t0: Tabela, id: int, pedido: Pedido, qr: QRCodePagamento)
    requires forall k :: k in t0 ==> k < id
    ensures BuscaPorPedido(TabelaAposIniciar(t0, id, pedido, Success(qr)), pedido.id, ResultadoIniciar(id, pedido, Success(qr)))
  {
  }

  /**
   * When row `k` is already the newest row of its order (one payment per order), finishing
   * that order changes exactly row `k` and nothing else.
   */
  lemma FinalizadoNoMaisRecente(t0: Tabela, t1: Tabela, k: int, pedido: string, status: StatusPagamento)
    requires MaisRecente(t0, k, pedido)
    requires Finalizado(t0, t1, pedido, status)
    ensures t1 == t0[k := t0[k].(status := status)]
  {
  }

  class ExecutarPagamentoUseCase {
    const pagamentoGateway: PagamentoGateway
    const fila: FilaMensageria

    ghost predicate Valid()
      reads pagamentoGateway
    {
      pagamentoGateway.Valid()
    }

    constructor (pagamentoGateway: PagamentoGateway, fila: FilaMensageria)
      ensures this.pagamentoGateway == pagamentoGateway && this.fila == fila
    {
      this.pagamentoGateway := pagamentoGateway;
      this.fila := fila;
    }

    /**
     * Creates a pending payment for `pedido`, publishes ENVIAR_PARA_PAGAMENTO, and then
     * stores the provider's QR data or, when the provider returned no reference, cancels
     * the payment. `resposta` is the provider's answer (or its rejection).
     */
    method Iniciar(pedido: Pedido, resposta: Result<QRCodePagamento>) returns (r: Result<Pagamento>)
      requires Valid()
      modifies pagamentoGateway, fila`envios
      ensures Valid()
      ensures pagamentoGateway.proximoId == old(pagamentoGateway.proximoId) + 1
      ensures r == ResultadoIniciar(old(pagamentoGateway.proximoId), pedido, resposta)
      ensures pagamentoGateway.tabela ==
        TabelaAposIniciar(old(pagamentoGateway.tabela), old(pagamentoGateway.proximoId), pedido, resposta)
      ensures fila.envios == old(fila.envios) + EventosIniciar(pedido, resposta)
    {
      ghost var id := pagamentoGateway.proximoId;
      var pagamento := pagamentoGateway.IniciarPagamento(pedido);
      var enviado := fila.EnvioFila(pedido.id, ENVIAR_PARA_PAGAMENTO);
      match resposta
      case Failure(e) =>
        r := Failure(e);
      case Success(qr) =>
        if qr.identificadorPedido != "" {
          pagamento := pagamento.(identificadorPedido := qr.identificadorPedido, qrCode := qr.qrcode);
          r := pagamentoGateway.AtualizarPagamento(pagamento);
        } else {
          assert MaisRecente(pagamentoGateway.tabela, id, pedido.id);
          r := Cancelar(pagamento.pedido);
          assert r.Success? && DoPedido(old(pagamentoGateway.tabela)[id := RegistroCriado(id, pedido)], r.value.id, pedido.id);
        }
    }

    /** Marks the newest payment of `pedido` as PAGO and publishes ENVIADO_PARA_A_COZINHA. */
    method Pago(pedido: string) returns (r: Result<Pagamento>)
      requires Valid()
      modifies pagamentoGateway, fila`envios
      ensures Valid()
      ensures pagamentoGateway.proximoId == old(pagamentoGateway.proximoId)
      ensures r.Failure? ==>
        && BuscaPorPedido(old(pagamentoGateway.tabela), pedido, r)
        && pagamentoGateway.tabela == old(pagamentoGateway.tabela)
        && fila.envios == old(fila.envios)
      ensures r.Success? ==>
        && MaisRecente(old(pagamentoGateway.tabela), r.value.id, pedido)
        && pagamentoGateway.tabela ==
             old(pagamentoGateway.tabela)[r.value.id := old(pagamentoGateway.tabela)[r.value.id].(status := PAGO)]
        && r.value == Converter(pagamentoGateway.tabela[r.value.id])
        && fila.envios == old(fila.envios) + [Mensagem(pedido, ENVIADO_PARA_A_COZINHA)]
    {
      var busca := pagamentoGateway.BuscarPagamento(pedido);
      if busca.Failure? {
        return Failure(busca.error);
      }
      var pagamento := busca.value.(status := PAGO);
      var atualizado := pagamentoGateway.AtualizarPagamento(pagamento);
      if atualizado.Failure? {
        return Failure(atualizado.error);
      }
      var enviado := fila.EnvioFila(pedido, ENVIADO_PARA_A_COZINHA);
      r := Success(pagamento);
    }

    /** Marks the newest payment of `pedido` as CANCELADO and publishes CANCELADO. */
    method Cancelar(pedido: string) returns (r: Result<Pagamento>)
      requires Valid()
      modifies pagamentoGateway, fila`envios
      ensures Valid()
      ensures pagamentoGateway.proximoId == old(pagamentoGateway.proximoId)
      ensures r.Failure? ==>
        && BuscaPorPedido(old(pagamentoGateway.tabela), pedido, r)
        && pagamentoGateway.tabela == old(pagamentoGateway.tabela)
        && fila.envios == old(fila.envios)
      ensures r.Success? ==>
        && MaisRecente(old(pagamentoGateway.tabela), r.value.id, pedido)
        && pagamentoGateway.tabela ==
             old(pagamentoGateway.tabela)[r.value.id :=
               old(pagamentoGateway.tabela)[r.value.id].(status := StatusPagamento.CANCELADO)]
        && r.value == Converter(pagamentoGateway.tabela[r.value.id])
        && fila.envios == old(fila.envios) + [Mensagem(pedido, StatusPedido.CANCELADO)]
    {
      var busca := pagamentoGateway.BuscarPagamento(pedido);
      if busca.Failure? {
        return Failure(busca.error);
      }
      var pagamento := busca.value.(status := StatusPagamento.CANCELADO);
      var atualizado := pagamentoGateway.AtualizarPagamento(pagamento);
      if atualizado.Failure? {
        return Failure(atualizado.error);
      }
      var enviado := fila.EnvioFila(pedido, StatusPedido.CANCELADO);
      r := Success(pagamento);
    }

    /** The newest payment of `pedido`, exactly as the store's lookup answers it. */
    method ConsultaStatus(pedido: string) returns (r: Result<Pagamento>)
      requires Valid()
      ensures BuscaPorPedido(pagamentoGateway.tabela, pedido, r)
    {
      r := pagamentoGateway.BuscarPagamento(pedido);
    }

    /** A payment carrying provider reference `id`, exactly as the store's lookup answers it. */
    method ConsultaPedidoIntegrador(id: string) returns (r: Result<Pagamento>)
      requires Valid()
      ensures BuscaPorReferencia(pagamentoGateway.tabela, id, r)
    {
      r := pagamentoGateway.BuscarPagamentoPeloIntegrador(id);
    }
  }
}
