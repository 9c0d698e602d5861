/** `Umidade`: a moisture percentage and its tolerance limit. Unlike
    `Defeito` it is given the percentage directly and has no deságio. */
module Umidades {
  import opened Wrappers
  import Defeitos

  datatype Umidade = Umidade(umidadeEmPorcentagem: real, limiteToleradoEmPorcentagem: real)

  /** The invariant the `init` block establishes and both setters keep. */
  predicate Valida(u: Umidade) {
    InRange(u.umidadeEmPorcentagem) && InRange(u.limiteToleradoEmPorcentagem)
  }

  function Nova(umidade: real, limite: real): (r: Result<Umidade>)
    ensures r.Success? <==> 0.0 <= umidade <= 100.0 && 0.0 <= limite <= 100.0
    ensures r.Success? ==> r.value == Umidade(umidade, limite)
  {
    if !InRange(umidade) then IllegalArgument
    else if !InRange(limite) then IllegalArgument
    else Success(Umidade(umidade, limite))
  }

  function SetUmidadeEmPorcentagem(u: Umidade, v: real): (r: Result<Umidade>)
    ensures r.Success? <==> 0.0 <= v <= 100.0
    ensures r.Success? ==> r.value == u.(umidadeEmPorcentagem := v)
    ensures r.Success? && Valida(u) ==> Valida(r.value)
  {
    if !InRange(v) then IllegalArgument else Success(u.(umidadeEmPorcentagem := v))
  }

  function SetLimiteToleradoEmPorcentagem(u: Umidade, v: real): (r: Result<Umidade>)
    ensures r.Success? <==> 0.0 <= v <= 100.0
    ensures r.Success? ==> r.value == u.(limiteToleradoEmPorcentagem := v)
    ensures r.Success? && Valida(u) ==> Valida(r.value)
  {
    if !InRange(v) then IllegalArgument else Success(u.(limiteToleradoEmPorcentagem := v))
  }

  /** `estaAbaixoDoTolerado`: strictly below the limit. */
  predicate EstaAbaixoDoTolerado(u: Umidade) {
    u.umidadeEmPorcentagem < u.limiteToleradoEmPorcentagem
  }

  /** Defined unless out of tolerance with a limit of 100 (a division by zero). */
  predicate DescontoDefinido(u: Umidade) {
    EstaAbaixoDoTolerado(u) || u.limiteToleradoEmPorcentagem < 100.0
  }

  /** `calcularDescontoEmKg`: the lot passed in is the caller's business;
      `Graos` passes the lot net of the impurity discount. */
  function CalcularDescontoEmKg(u: Umidade, pesoInicialEmKg: real): (r: real)
    requires Valida(u) && DescontoDefinido(u)
    ensures EstaAbaixoDoTolerado(u) ==> r == 0.0
    ensures !EstaAbaixoDoTolerado(u) ==>
              r * (100.0 - u.limiteToleradoEmPorcentagem)
              == pesoInicialEmKg * (u.umidadeEmPorcentagem - u.limiteToleradoEmPorcentagem)
    ensures pesoInicialEmKg >= 0.0 ==> 0.0 <= r <= pesoInicialEmKg
  {
    if EstaAbaixoDoTolerado(u) then 0.0
    else
      var l := u.limiteToleradoEmPorcentagem;
      Defeitos.FracaoUnitaria(u.umidadeEmPorcentagem - l, 100.0 - l);
      Defeitos.ProdutoDeFracoes(pesoInicialEmKg, (u.umidadeEmPorcentagem - l) / (100.0 - l), 1.0);
      assert pesoInicialEmKg * (u.umidadeEmPorcentagem - l) / (100.0 - l)
             == pesoInicialEmKg * ((u.umidadeEmPorcentagem - l) / (100.0 - l));
      pesoInicialEmKg * (u.umidadeEmPorcentagem - l) / (100.0 - l)
  }

  /** The discount grows with the lot it is taken on: charging moisture on
      a smaller (net) lot never costs more. */
  lemma DescontoMonotono(u: Umidade, menor: real, maior: real)
    requires Valida(u) && DescontoDefinido(u)
    requires menor <= maior
    ensures CalcularDescontoEmKg(u, menor) <= CalcularDescontoEmKg(u, maior)
  {
    if !EstaAbaixoDoTolerado(u) {
      var l := u.limiteToleradoEmPorcentagem;
      var e := u.umidadeEmPorcentagem - l;
      var a, b := CalcularDescontoEmKg(u, menor), CalcularDescontoEmKg(u, maior);
      assert a * (100.0 - l) == menor * e && b * (100.0 - l) == maior * e;
      assert (b - a) * (100.0 - l) == (maior - menor) * e;
      assert e >= 0.0;
      Defeitos.ProdutoNaoNegativo(maior - menor, e);
      FatorPositivo(b - a, 100.0 - l);
    }
  }

  /** A product with a positive factor is non-negative only if the other factor is. */
  lemma FatorPositivo(x: real, c: real)
    requires c > 0.0 && x * c >= 0.0
    ensures x >= 0.0
  {
  }

  /** The moisture test scenarios: the bounds 0 and 100 are accepted, values
      just outside are rejected, and the limit itself is out of tolerance. */
  lemma CenariosDeUmidade()
    ensures Nova(0.0, 100.0).Success? && Nova(100.0, 0.0).Success?
    ensures Nova(100.0001, 14.0).IllegalArgument? && Nova(12.0, -0.0001).IllegalArgument?
    ensures EstaAbaixoDoTolerado(Umidade(12.0, 14.0))
    ensures !EstaAbaixoDoTolerado(Umidade(14.0, 14.0))
    ensures CalcularDescontoEmKg(Umidade(18.0, 14.0), 1000.0) == 1000.0 * 4.0 / 86.0
  {
  }
}
