/**
 * The order-status queue, reduced to its observable effect: every `envioFila` call is
 * appended to a log, and the call answers whether the queue accepted the message.
 */
module Mensageria {
  import opened Dominio

  /** One order-status message: the order and its new status. */
  datatype Mensagem = Mensagem(pedido: string, status: StatusPedido)

  class FilaMensageria {
    /** Whether the queue currently accepts messages (decided by the environment). */
    var disponivel: bool
    /** Every message handed to the queue, oldest first. */
    var envios: seq<Mensagem>

    constructor (disponivel: bool)
      ensures this.disponivel == disponivel && envios == []
    {
      this.disponivel := disponivel;
      envios := [];
    }

    /** Publishes `status` for `pedido`; answers true when the queue accepted it. */
    method EnvioFila(pedido: string, status: StatusPedido) returns (ok: bool)
      modifies this`envios
      ensures envios == old(envios) + [Mensagem(pedido, status)]
      ensures ok == disponivel
    {
      envios := envios + [Mensagem(pedido, status)];
      ok := disponivel;
    }
  }
}
