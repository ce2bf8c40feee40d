/**
 * The payment store: a table of payment rows keyed by an auto-increment id, with
 * creation, lookup by order (newest first), lookup by provider reference and update.
 */
module Gateways {
  import opened Dominio

  /** A stored row of the payments table. */
  datatype RegistroPagamento = RegistroPagamento(
    id: int,
    valor: int,
    status: StatusPagamento,
    pedido: string,
    identificadorPedido: string,
    qrcode: string)

  /** The payments table, keyed by row id. */
  type Tabela = map<int, RegistroPagamento>

  /**
   * Builds the payment entity from a stored row. It keeps the row's id and order and
   * loses nothing: writing the payment back into the row it came from gives that row.
   */
  function Converter(reg: RegistroPagamento): (p: Pagamento)
    ensures p.id == reg.id && p.pedido == reg.pedido
    ensures Sobrescrever(reg, p) == reg
  {
    Pagamento(reg.id, reg.pedido, reg.valor, reg.status, reg.identificadorPedido, reg.qrcode)
  }

  /**
   * The row after an update has written the payment's reference, QR code, status and
   * amount into it; its id and order stay as they were.
   */
  function Sobrescrever(reg: RegistroPagamento, p: Pagamento): RegistroPagamento
  {
    reg.(identificadorPedido := p.identificadorPedido, qrcode := p.qrCode, status := p.status, valor := p.valor)
  }

  /** Updating a row with a payment of the same id and order and converting it back gives that payment. */
  lemma ConverterSobrescrito(reg: RegistroPagamento, p: Pagamento)
    requires p.id == reg.id && p.pedido == reg.pedido
    ensures Converter(Sobrescrever(reg, p)) == p
  {
  }

  /** Row `k` exists and belongs to order `pedido`. */
  ghost predicate DoPedido(t: Tabela, k: int, pedido: string)
  {
    k in t && t[k].pedido == pedido
  }

  /** Row `k` is the newest (largest id) row of order `pedido`. */
  ghost predicate MaisRecente(t: Tabela, k: int, pedido: string)
  {
    DoPedido(t, k, pedido) && forall j :: DoPedido(t, j, pedido) ==> j <= k
  }

  /** Row `k` exists and carries provider reference `codigo`. */
  ghost predicate ComReferencia(t: Tabela, k: int, codigo: string)
  {
    k in t && t[k].identificadorPedido == codigo
  }

  /** `r` is a correct answer of the lookup by order: the newest row of the order, or "not found" when it has none. */
  ghost predicate BuscaPorPedido(t: Tabela, pedido: string, r: Result<Pagamento>)
  {
    match r
    case Success(p) => MaisRecente(t, p.id, pedido) && p == Converter(t[p.id])
    case Failure(e) => e == PagamentoNaoEncontrado && forall k :: !DoPedido(t, k, pedido)
  }

  /** `r` is a correct answer of the lookup by provider reference: some row carrying it, or "not found" when none does. */
  ghost predicate BuscaPorReferencia(t: Tabela, codigo: string, r: Result<Pagamento>)
  {
    match r
    case Success(p) => ComReferencia(t, p.id, codigo) && p == Converter(t[p.id])
    case Failure(e) => e == PedidoIntegradorNaoEncontrado && forall k :: !ComReferencia(t, k, codigo)
  }

  /** The lookup by order has exactly one correct answer on every table. */
  lemma BuscaPorPedidoUnica(t: Tabela, pedido: string, r1: Result<Pagamento>, r2: Result<Pagamento>)
    requires BuscaPorPedido(t, pedido, r1) && BuscaPorPedido(t, pedido, r2)
    ensures r1 == r2
  {
  }

  class PagamentoGateway {
    /** The table of payment rows. */
    var tabela: Tabela
    /** The id the next created row receives. */
    var proximoId: int

    /** Every row sits under its own id, and ids are positive and below the next one to hand out. */
    ghost predicate Valid()
      reads this
    {
      1 <= proximoId &&
      forall k :: k in tabela ==> 1 <= k < proximoId && tabela[k].id == k
    }

    constructor ()
      ensures Valid() && tabela == map[] && proximoId == 1
    {
      tabela := map[];
      proximoId := 1;
    }

    /** Saves a new pending row for `pedido` under a fresh id and returns it as a payment. */
    method IniciarPagamento(pedido: Pedido) returns (p: Pagamento)
      requires Valid()
      modifies this
      ensures Valid()
      ensures proximoId == old(proximoId) + 1
      ensures old(proximoId) !in old(tabela)
      ensures tabela == old(tabela)[old(proximoId) :=
        RegistroPagamento(old(proximoId), pedido.valorTotal, AGUARDANDO_RESPOSTA, pedido.id, "", "")]
      ensures p == Converter(tabela[old(proximoId)])
    {
      var reg := RegistroPagamento(proximoId, pedido.valorTotal, AGUARDANDO_RESPOSTA, pedido.id, "", "");
      tabela := tabela[proximoId := reg];
      proximoId := proximoId + 1;
      p := Converter(reg);
    }

    /** The newest payment of order `pedido`, or PagamentoNaoEncontrado. */
    method BuscarPagamento(pedido: string) returns (r: Result<Pagamento>)
      requires Valid()
      ensures BuscaPorPedido(tabela, pedido, r)
    {
      var i := proximoId - 1;
      while i >= 1
        invariant 0 <= i < proximoId
        invariant forall j :: DoPedido(tabela, j, pedido) ==> j <= i
      {
        if i in tabela && tabela[i].pedido == pedido {
          assert DoPedido(tabela, i, pedido);
          return Success(Converter(tabela[i]));
        }
        i := i - 1;
      }
      return Failure(PagamentoNaoEncontrado);
    }

    /** Some payment carrying provider reference `codigo`, or PedidoIntegradorNaoEncontrado. */
    method BuscarPagamentoPeloIntegrador(codigo: string) returns (r: Result<Pagamento>)
      requires Valid()
      ensures BuscaPorReferencia(tabela, codigo, r)
    {
      if k :| k in tabela && tabela[k].identificadorPedido == codigo {
        r := Success(Converter(tabela[k]));
      } else {
        r := Failure(PedidoIntegradorNaoEncontrado);
      }
    }

    /** Writes the payment's reference, QR code, status and amount into its row. */
    method AtualizarPagamento(p: Pagamento) returns (r: Result<Pagamento>)
      requires Valid()
      modifies this`tabela
      ensures Valid()
      ensures p.id == 0 ==> r == Failure(PagamentoNaoGravado) && tabela == old(tabela)
      ensures p.id != 0 && p.id !in old(tabela) ==> r == Failure(PagamentoNaoEncontrado) && tabela == old(tabela)
      ensures p.id != 0 && p.id in old(tabela) ==>
        && tabela == old(tabela)[p.id := Sobrescrever(old(tabela)[p.id], p)]
        && r == Success(Converter(tabela[p.id]))
    {
      if p.id == 0 {
        return Failure(PagamentoNaoGravado);
      }
      if p.id !in tabela {
        return Failure(PagamentoNaoEncontrado);
      }
      var reg := Sobrescrever(tabela[p.id], p);
      tabela := tabela[p.id := reg];
      r := Success(Converter(reg));
    }
  }
}
