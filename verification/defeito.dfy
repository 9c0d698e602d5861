/** The toleranced defect measurement `Defeito`: a defect kind, its weight
    and the weight of the sample it was measured in, a deságio (discount
    rate) and a tolerance limit, the last two as percentages. */
module Defeitos {
  import opened Wrappers
  import DefeitosDoMilho
  import DefeitosDaSoja

  /** The `tipo` tag of a measurement: a corn defect, a soybean defect, or
      the impurity tag that `Impurezas` sets. */
  datatype TipoDefeito =
    | DeMilho(milho: DefeitosDoMilho.DefeitoMilho)
    | DeSoja(soja: DefeitosDaSoja.DefeitoSoja)
    | Impureza

  datatype Defeito = Defeito(
    tipo: TipoDefeito,
    pesoEmGramas: real,
    amostraEmGramas: real,
    desagio: real,
    limiteToleradoEmPorcentagem: real)

  /** `isPositive`: strictly greater than zero. */
  predicate IsPositive(v: real) {
    v > 0.0
  }

  /** The invariant the `init` block establishes and every setter keeps. */
  predicate Valido(d: Defeito) {
    && IsPositive(d.pesoEmGramas)
    && IsPositive(d.amostraEmGramas)
    && d.amostraEmGramas >= d.pesoEmGramas
    && InRange(d.desagio)
    && InRange(d.limiteToleradoEmPorcentagem)
  }

  /** The constructor with its `init` checks, in the order the source runs them. */
  function Novo(tipo: TipoDefeito, peso: real, amostra: real, desagio: real, limite: real)
    : (r: Result<Defeito>)
    ensures r.Success? <==> 0.0 < peso <= amostra && InRange(desagio) && InRange(limite)
    ensures r.Success? ==> r.value == Defeito(tipo, peso, amostra, desagio, limite) && Valido(r.value)
  {
    if !IsPositive(peso) then IllegalArgument
    else if !IsPositive(amostra) then IllegalArgument
    else if !(amostra >= peso) then IllegalArgument
    else if !InRange(desagio) then IllegalArgument
    else if !InRange(limite) then IllegalArgument
    else Success(Defeito(tipo, peso, amostra, desagio, limite))
  }

  /** Setter of `pesoEmGramas`: positive and not above the sample. */
  function SetPesoEmGramas(d: Defeito, v: real): (r: Result<Defeito>)
    requires Valido(d)
    ensures r.Success? <==> 0.0 < v <= d.amostraEmGramas
    ensures r.Success? ==> r.value == d.(pesoEmGramas := v) && Valido(r.value)
  {
    if !IsPositive(v) then IllegalArgument
    else if !(v <= d.amostraEmGramas) then IllegalArgument
    else Success(d.(pesoEmGramas := v))
  }

  /** Setter of `amostraEmGramas`: positive and not below the defect
      weight; as that weight is positive, the second check implies the first. */
  function SetAmostraEmGramas(d: Defeito, v: real): (r: Result<Defeito>)
    requires Valido(d)
    ensures r.Success? <==> v >= d.pesoEmGramas
    ensures r.Success? ==> r.value == d.(amostraEmGramas := v) && Valido(r.value)
  {
    if !IsPositive(v) then IllegalArgument
    else if !(v >= d.pesoEmGramas) then IllegalArgument
    else Success(d.(amostraEmGramas := v))
  }

  function SetDesagio(d: Defeito, v: real): (r: Result<Defeito>)
    requires Valido(d)
    ensures r.Success? <==> 0.0 <= v <= 100.0
    ensures r.Success? ==> r.value == d.(desagio := v) && Valido(r.value)
  {
    if !InRange(v) then IllegalArgument else Success(d.(desagio := v))
  }

  function SetLimiteToleradoEmPorcentagem(d: Defeito, v: real): (r: Result<Defeito>)
    requires Valido(d)
    ensures r.Success? <==> 0.0 <= v <= 100.0
    ensures r.Success? ==> r.value == d.(limiteToleradoEmPorcentagem := v) && Valido(r.value)
  {
    if !InRange(v) then IllegalArgument else Success(d.(limiteToleradoEmPorcentagem := v))
  }

  /** `calcularPorcentagem`: the defect's share of the sample, in percent. */
  function CalcularPorcentagem(d: Defeito): (p: real)
    requires Valido(d)
    ensures p * d.amostraEmGramas == d.pesoEmGramas * 100.0
    ensures 0.0 < p <= 100.0
  {
    PorcentagemDe(d.pesoEmGramas, d.amostraEmGramas)
  }

  /** `parte / todo * 100`, and what it means when `todo` is positive. */
  function PorcentagemDe(parte: real, todo: real): (p: real)
    requires todo > 0.0
    ensures p * todo == parte * 100.0
    ensures 0.0 <= parte <= todo ==> 0.0 <= p <= 100.0
    ensures 0.0 < parte ==> 0.0 < p
  {
    (parte / todo) * 100.0
  }

  /** `estaAbaixoDoTolerado`: strictly below the limit. */
  function EstaAbaixoDoTolerado(d: Defeito): (b: bool)
    requires Valido(d)
    ensures b <==> d.pesoEmGramas * 100.0 < d.limiteToleradoEmPorcentagem * d.amostraEmGramas
  {
    var p := CalcularPorcentagem(d);
    MultiplicarPreservaOrdem(p, d.limiteToleradoEmPorcentagem, d.amostraEmGramas);
    p < d.limiteToleradoEmPorcentagem
  }

  /** The discount is defined unless the measurement is out of tolerance
      with a limit of 100, where the source divides by zero. */
  predicate DescontoDefinido(d: Defeito)
    requires Valido(d)
  {
    EstaAbaixoDoTolerado(d) || d.limiteToleradoEmPorcentagem < 100.0
  }

  /** `calcularDescontoEmKg`: kilograms taken off a lot of `pesoInicialEmKg`. */
  function CalcularDescontoEmKg(d: Defeito, pesoInicialEmKg: real): (r: real)
    requires Valido(d) && DescontoDefinido(d)
    ensures EstaAbaixoDoTolerado(d) ==> r == 0.0
    ensures !EstaAbaixoDoTolerado(d) ==>
              r * (100.0 - d.limiteToleradoEmPorcentagem) * 100.0
              == pesoInicialEmKg * (CalcularPorcentagem(d) - d.limiteToleradoEmPorcentagem)
                 * (100.0 - d.desagio)
    ensures pesoInicialEmKg >= 0.0 ==> 0.0 <= r <= pesoInicialEmKg
    ensures d.desagio == 100.0 ==> r == 0.0
  {
    if EstaAbaixoDoTolerado(d) then 0.0
    else
      var p := CalcularPorcentagem(d);
      var l := d.limiteToleradoEmPorcentagem;
      var excesso := (p - l) / (100.0 - l);
      var fator := (100.0 - d.desagio) / 100.0;
      FracaoUnitaria(p - l, 100.0 - l);
      FracaoUnitaria(100.0 - d.desagio, 100.0);
      ProdutoDeFracoes(pesoInicialEmKg, excesso, fator);
      EscalarFracoes(pesoInicialEmKg, p - l, 100.0 - l, 100.0 - d.desagio, 100.0);
      pesoInicialEmKg * excesso * fator
  }

  lemma MultiplicarPreservaOrdem(a: real, b: real, c: real)
    requires c > 0.0
    ensures a < b <==> a * c < b * c
  {
    if a < b {
      assert (b - a) * c > 0.0;
    } else {
      assert (a - b) * c >= 0.0;
    }
  }

  /** A non-negative numerator not above a positive denominator gives a
      fraction in [0,1]. */
  lemma FracaoUnitaria(n: real, m: real)
    requires 0.0 <= n <= m && m > 0.0
    ensures 0.0 <= n / m <= 1.0
  {
    assert n / m * m == n;
  }

  /** Scaling a non-negative weight by two fractions in [0,1] keeps it in [0, w]. */
  lemma ProdutoDeFracoes(w: real, a: real, b: real)
    requires 0.0 <= a <= 1.0 && 0.0 <= b <= 1.0
    ensures w >= 0.0 ==> 0.0 <= w * a * b <= w
    ensures b == 0.0 ==> w * a * b == 0.0
  {
    if w >= 0.0 {
      ProdutoNaoNegativo(w, 1.0 - a);
      ProdutoNaoNegativo(w, a);
      ProdutoNaoNegativo(w * a, 1.0 - b);
      ProdutoNaoNegativo(w * a, b);
    }
  }

  /** A product of two non-negative reals is non-negative. */
  lemma ProdutoNaoNegativo(x: real, y: real)
    requires x >= 0.0 && y >= 0.0
    ensures x * y >= 0.0
  {
  }

  lemma EscalarFracoes(w: real, n1: real, m1: real, n2: real, m2: real)
    requires m1 > 0.0 && m2 > 0.0
    ensures w * (n1 / m1) * (n2 / m2) * m1 * m2 == w * n1 * n2
  {
    assert (n1 / m1) * m1 == n1;
    assert (n2 / m2) * m2 == n2;
    calc {
      w * (n1 / m1) * (n2 / m2) * m1 * m2;
      == w * ((n1 / m1) * m1) * ((n2 / m2) * m2);
      == w * n1 * n2;
    }
  }

  /** Tolerance at the boundary: a percentage equal to the limit is out. */
  lemma NoLimiteEstaForaDoTolerado(d: Defeito)
    requires Valido(d) && CalcularPorcentagem(d) == d.limiteToleradoEmPorcentagem
    ensures !EstaAbaixoDoTolerado(d)
  {
  }

  /** The construction scenarios of the defect tests: a zero defect weight,
      a zero sample, a weight above the sample and a limit or deságio just
      outside [0,100] are rejected; the bounds 0 and 100 are accepted. */
  lemma CenariosDeConstrucao(t: TipoDefeito)
    ensures Novo(t, 0.0, 100.0, 0.0, 10.0).IllegalArgument?
    ensures Novo(t, -1.0, 100.0, 0.0, 10.0).IllegalArgument?
    ensures Novo(t, 10.0, 0.0, 0.0, 10.0).IllegalArgument?
    ensures Novo(t, 101.0, 100.0, 0.0, 10.0).IllegalArgument?
    ensures Novo(t, 10.0, 100.0, 100.0001, 10.0).IllegalArgument?
    ensures Novo(t, 10.0, 100.0, 0.0, -0.0001).IllegalArgument?
    ensures Novo(t, 10.0, 100.0, 0.0, 100.0).Success?
    ensures Novo(t, 100.0, 100.0, 100.0, 0.0).Success?
  {
  }

  /** The percentage and discount scenarios of the defect tests. */
  lemma CenariosDeDesconto(t: TipoDefeito)
    ensures var d := Defeito(t, 4.0, 100.0, 10.0, 2.0);
            && CalcularPorcentagem(d) == 4.0
            && !EstaAbaixoDoTolerado(d)
            && CalcularDescontoEmKg(d, 1000.0) == 1000.0 * ((4.0 - 2.0) / (100.0 - 2.0)) * ((100.0 - 10.0) / 100.0)
    ensures var d := Defeito(t, 1.0, 100.0, 10.0, 2.0);
            && EstaAbaixoDoTolerado(d)
            && CalcularDescontoEmKg(d, 1000.0) == 0.0
    ensures !EstaAbaixoDoTolerado(Defeito(t, 2.0, 100.0, 10.0, 2.0))
  {
  }
}
