/**
 * The records of the quoting tool: clients, stock materials ("itens"),
 * products with their bill of materials, and quotes ("orcamentos").
 * Money and quantities are reals (fractional consumption such as half a
 * metre per unit is allowed); timestamps and dates are whole days.
 */
module Types {
  import opened Wrappers

  datatype Cliente = Cliente(
    id: string,
    nome: string,
    email: Option<string>,
    telefone: Option<string>,
    endereco: Option<string>,
    createdAt: int)

  /** A stock-tracked material. `estoqueMinimo == 0` means "never alert". */
  datatype Item = Item(
    id: string,
    nome: string,
    estoque: real,
    estoqueMinimo: real,
    unidade: string,
    custo: Option<real>,
    createdAt: int,
    updatedAt: int)

  /** One line of a product's bill of materials: material id and amount per unit. */
  datatype ItemComposicao = ItemComposicao(itemId: string, quantidade: real)

  datatype Produto = Produto(
    id: string,
    nome: string,
    descricao: Option<string>,
    valor: real,
    categoria: Option<string>,
    itensComposicao: seq<ItemComposicao>,
    createdAt: int,
    updatedAt: int)

  /** The four quote states; `EmOrcamento` is the stored string "orcamento". */
  datatype StatusOrcamento = EmOrcamento | EmAndamento | Pago | Cancelado

  /**
   * A quote line. `aprovado` and `quantidadeAprovada` are the working fields
   * of the approval dialog; `None` stands for JavaScript's `undefined`.
   */
  datatype OrcamentoItem = OrcamentoItem(
    id: string,
    produtoId: string,
    quantidade: real,
    valorUnitario: real,
    valorTotal: real,
    aprovado: Option<bool>,
    quantidadeAprovada: Option<real>)

  datatype Orcamento = Orcamento(
    id: string,
    clienteId: string,
    itens: seq<OrcamentoItem>,
    valorTotal: real,
    status: StatusOrcamento,
    observacoes: Option<string>,
    motivoCancelamento: Option<string>,
    prazoValidade: int,
    createdAt: int,
    updatedAt: int)

  /** Failures reported to the user: a missing field, or a state that forbids the operation. */
  datatype Error = Validation(message: string) | Policy(message: string)

  // Key projections, used by the generic record store.
  function ClienteId(c: Cliente): string { c.id }
  function ItemId(m: Item): string { m.id }
  function ProdutoId(p: Produto): string { p.id }
  function OrcamentoId(o: Orcamento): string { o.id }
  function LineId(x: OrcamentoItem): string { x.id }

  // What the store does to a record that replaces an existing one: clients
  // are written as given, the other three collections get a fresh `updatedAt`.
  function KeepCliente(c: Cliente, now: int): Cliente { c }
  function TouchItem(m: Item, now: int): Item { m.(updatedAt := now) }
  function TouchProduto(p: Produto, now: int): Produto { p.(updatedAt := now) }
  function TouchOrcamento(o: Orcamento, now: int): Orcamento { o.(updatedAt := now) }
}
