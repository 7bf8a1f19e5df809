/**
 * The product entity of internal/domain/produto.go: its constructor, its ordered
 * validation, and three setters that check only their own field.
 */
module Produtos {
  import opened Wrappers
  import opened Sql
  import opened Decimals

  /** The supplier a product refers to. Its declaration is not part of this model; the
      core reads only its `Id` and `Nome`. */
  datatype Fornecedor = Fornecedor(id: int, nome: string)

  /** `domain.Produto` */
  datatype Produto = Produto(
    id: int,
    nome: string,
    fornecedor: Fornecedor,
    codigoFornecedor: string,
    quantidadeEstoque: int,
    preco: Decimal)

  const ErrNomeVazio := "nome não pode ser vazio"
  const ErrFornecedorInvalido := "fornecedor inválido"
  const ErrCodigoVazio := "código do fornecedor não pode ser vazio"
  const ErrEstoqueNegativo := "estoque não pode ser negativo"
  const ErrPrecoNegativo := "preço não pode ser negativo"
  const ErrNomeProdutoVazio := "nome do produto não pode ser vazio"
  const ErrQuantidadeNegativa := "quantidade em estoque não pode ser negativa"
  const ErrPrecoInvalido := "preço inválido"

  predicate PrecoValido(apd: Apd, x: Decimal) {
    x.Present? && apd.sign(x.dec) >= 0
  }

  /** The five constraints of a valid product. */
  predicate IsValid(apd: Apd, p: Produto) {
    && p.nome != ""
    && p.fornecedor.id > 0
    && p.codigoFornecedor != ""
    && p.quantidadeEstoque >= 0
    && PrecoValido(apd, p.preco)
  }

  /** `Validate`: the checks run in the order name, supplier, code, stock, price, and only
      the first failing one is reported. */
  function Validate(apd: Apd, p: Produto): (err: Option<Error>)
    ensures err.None? <==> IsValid(apd, p)
    ensures err == Some(Invalid(ErrNomeVazio)) <==> p.nome == ""
    ensures err == Some(Invalid(ErrFornecedorInvalido)) <==> p.nome != "" && p.fornecedor.id <= 0
    ensures err == Some(Invalid(ErrCodigoVazio)) <==>
              p.nome != "" && p.fornecedor.id > 0 && p.codigoFornecedor == ""
    ensures err == Some(Invalid(ErrEstoqueNegativo)) <==>
              p.nome != "" && p.fornecedor.id > 0 && p.codigoFornecedor != "" && p.quantidadeEstoque < 0
    ensures err == Some(Invalid(ErrPrecoNegativo)) <==>
              p.nome != "" && p.fornecedor.id > 0 && p.codigoFornecedor != "" && p.quantidadeEstoque >= 0
              && !PrecoValido(apd, p.preco)
  {
    if p.nome == "" then Some(Invalid(ErrNomeVazio))
    else if p.fornecedor.id <= 0 then Some(Invalid(ErrFornecedorInvalido))
    else if p.codigoFornecedor == "" then Some(Invalid(ErrCodigoVazio))
    else if p.quantidadeEstoque < 0 then Some(Invalid(ErrEstoqueNegativo))
    else if p.preco.Absent? || apd.sign(p.preco.dec) < 0 then Some(Invalid(ErrPrecoNegativo))
    else None
  }

  /** `NewProduto`: the price text is decoded as the JSON string `"precoStr"`; a price that
      does not decode is reported wrapped, otherwise the product is returned exactly when it
      validates, carrying the given fields and the parsed price. */
  function NewProduto(
    apd: Apd, id: int, nome: string, fornecedor: Fornecedor, codigoFornecedor: string,
    quantidadeEstoque: int, precoStr: string): (r: Result<Produto, Error>)
    ensures UnmarshalResult(apd, Quote(precoStr)).Err? ==>
              r == Err(Wrapped(ErrPrecoInvalido, UnmarshalResult(apd, Quote(precoStr)).error))
    ensures r.Ok? <==>
              && IsPlainJsonText(precoStr)
              && apd.parse(precoStr).Some?
              && IsValid(apd, Produto(id, nome, fornecedor, codigoFornecedor, quantidadeEstoque,
                                      Present(apd.parse(precoStr).value)))
    ensures r.Ok? ==>
              r.value == Produto(id, nome, fornecedor, codigoFornecedor, quantidadeEstoque,
                                 Present(apd.parse(precoStr).value))
  {
    UnmarshalQuoted(apd, precoStr);
    match UnmarshalResult(apd, Quote(precoStr))
    case Err(e) => Err(Wrapped(ErrPrecoInvalido, e))
    case Ok(dec) =>
      var p := Produto(id, nome, fornecedor, codigoFornecedor, quantidadeEstoque, dec);
      match Validate(apd, p)
      case Some(e) => Err(e)
      case None => Ok(p)
  }

  /** What `SetNome` does to a product: an empty name is refused, otherwise only the name
      changes. */
  function WithNome(p: Produto, nome: string): (r: Result<Produto, Error>)
    ensures r.Err? <==> nome == ""
    ensures r.Err? ==> r.error == Invalid(ErrNomeProdutoVazio)
    ensures r.Ok? ==> r.value == p.(nome := nome)
  {
    if nome == "" then Err(Invalid(ErrNomeProdutoVazio)) else Ok(p.(nome := nome))
  }

  /** What `SetQuantidadeEstoque` does: a negative stock is refused, otherwise only the
      stock changes. */
  function WithQuantidadeEstoque(p: Produto, quantidade: int): (r: Result<Produto, Error>)
    ensures r.Err? <==> quantidade < 0
    ensures r.Err? ==> r.error == Invalid(ErrQuantidadeNegativa)
    ensures r.Ok? ==> r.value == p.(quantidadeEstoque := quantidade)
  {
    if quantidade < 0 then Err(Invalid(ErrQuantidadeNegativa)) else Ok(p.(quantidadeEstoque := quantidade))
  }

  /** What `SetPreco` does: a price that does not decode, or is negative, is refused;
      otherwise only the price is replaced. */
  function WithPreco(apd: Apd, p: Produto, precoStr: string): (r: Result<Produto, Error>)
    ensures r.Ok? <==>
              IsPlainJsonText(precoStr) && apd.parse(precoStr).Some? && apd.sign(apd.parse(precoStr).value) >= 0
    ensures r.Ok? ==> r.value == p.(preco := Present(apd.parse(precoStr).value))
    ensures UnmarshalResult(apd, Quote(precoStr)).Err? ==>
              r == Err(Wrapped(ErrPrecoInvalido, UnmarshalResult(apd, Quote(precoStr)).error))
  {
    UnmarshalQuoted(apd, precoStr);
    match UnmarshalResult(apd, Quote(precoStr))
    case Err(e) => Err(Wrapped(ErrPrecoInvalido, e))
    case Ok(dec) =>
      if apd.sign(dec.dec) < 0 then Err(Invalid(ErrPrecoNegativo)) else Ok(p.(preco := dec))
  }

  /** A setter that succeeds on a valid product leaves it valid. */
  lemma SettersPreserveValidity(apd: Apd, p: Produto, nome: string, quantidade: int, precoStr: string)
    requires IsValid(apd, p)
    ensures WithNome(p, nome).Ok? ==> IsValid(apd, WithNome(p, nome).value)
    ensures WithQuantidadeEstoque(p, quantidade).Ok? ==> IsValid(apd, WithQuantidadeEstoque(p, quantidade).value)
    ensures WithPreco(apd, p, precoStr).Ok? ==> IsValid(apd, WithPreco(apd, p, precoStr).value)
  {
  }

  /** The setters do not re-run the full validation: a setter succeeds on a product that
      stays invalid, which only `ValidateAndUpdate` reports. */
  lemma SettersSkipValidation(apd: Apd)
    ensures var p := Produto(0, "", Fornecedor(0, ""), "", -1, Absent);
      && WithQuantidadeEstoque(p, 3).Ok?
      && Validate(apd, WithQuantidadeEstoque(p, 3).value) == Some(Invalid(ErrNomeVazio))
  {
  }

  /** A `*Produto`: the variable the setters assign through. */
  class ProdutoRef {
    var val: Produto

    constructor (p: Produto)
      ensures val == p
    {
      val := p;
    }

    method SetNome(nome: string) returns (err: Option<Error>)
      modifies this
      ensures WithNome(old(val), nome).Ok? ==> err == None && val == WithNome(old(val), nome).value
      ensures WithNome(old(val), nome).Err? ==> err == Some(WithNome(old(val), nome).error) && val == old(val)
    {
      if nome == "" {
        return Some(Invalid(ErrNomeProdutoVazio));
      }
      val := val.(nome := nome);
      err := None;
    }

    method SetQuantidadeEstoque(quantidade: int) returns (err: Option<Error>)
      modifies this
      ensures WithQuantidadeEstoque(old(val), quantidade).Ok? ==>
                err == None && val == WithQuantidadeEstoque(old(val), quantidade).value
      ensures WithQuantidadeEstoque(old(val), quantidade).Err? ==>
                err == Some(WithQuantidadeEstoque(old(val), quantidade).error) && val == old(val)
    {
      if quantidade < 0 {
        return Some(Invalid(ErrQuantidadeNegativa));
      }
      val := val.(quantidadeEstoque := quantidade);
      err := None;
    }

    method SetPreco(apd: Apd, precoStr: string) returns (err: Option<Error>)
      modifies this
      ensures WithPreco(apd, old(val), precoStr).Ok? ==> err == None && val == WithPreco(apd, old(val), precoStr).value
      ensures WithPreco(apd, old(val), precoStr).Err? ==>
                err == Some(WithPreco(apd, old(val), precoStr).error) && val == old(val)
    {
      var dec := new DecimalRef(Absent);
      var e := dec.UnmarshalJSON(apd, Quote(precoStr));
      if e.Some? {
        return Some(Wrapped(ErrPrecoInvalido, e.value));
      }
      UnmarshalQuoted(apd, precoStr);
      if apd.sign(dec.value.dec) < 0 {
        return Some(Invalid(ErrPrecoNegativo));
      }
      val := val.(preco := dec.value);
      err := None;
    }

    /** `ValidateAndUpdate` is exactly `Validate` on the current fields. */
    function ValidateAndUpdate(apd: Apd): (err: Option<Error>)
      reads this
      ensures err == Validate(apd, val)
    {
      Validate(apd, val)
    }
  }
}
