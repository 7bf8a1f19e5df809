/** The client record of internal/domain/cliente.go. */
module Clientes {

  /** `Cliente`; the registration date is kept as the text `YYYY-MM-DD`. */
  datatype Cliente = Cliente(id: int, nome: string, telefone: string, dataCadastro: string)
}
