/** `Impurezas`: a `Defeito` tagged as impurity whose deságio is fixed at 0. */
module Impurezas {
  import opened Wrappers
  import opened Defeitos

  /** The `Impurezas` constructor: the `Defeito` constructor with the
      impurity tag and deságio 0, so it inherits every `init` check. */
  function NovaImpurezas(peso: real, amostra: real, limite: real): (r: Result<Defeito>)
    ensures r.Success? <==> 0.0 < peso <= amostra && 0.0 <= limite <= 100.0
    ensures r.Success? ==> && Valido(r.value)
                           && r.value.tipo == Impureza
                           && r.value.desagio == 0.0
                           && r.value.pesoEmGramas == peso
                           && r.value.amostraEmGramas == amostra
                           && r.value.limiteToleradoEmPorcentagem == limite
  {
    Novo(Impureza, peso, amostra, 0.0, limite)
  }

  /** With deságio 0, an impurity out of tolerance loses exactly the
      excess over the limit, scaled to the part of the range above it. */
  lemma DescontoDeImpurezas(i: Defeito, pesoInicialEmKg: real)
    requires Valido(i) && i.desagio == 0.0
    requires !EstaAbaixoDoTolerado(i) && i.limiteToleradoEmPorcentagem < 100.0
    ensures CalcularDescontoEmKg(i, pesoInicialEmKg)
            == pesoInicialEmKg * (CalcularPorcentagem(i) - i.limiteToleradoEmPorcentagem)
               / (100.0 - i.limiteToleradoEmPorcentagem)
  {
    var l := i.limiteToleradoEmPorcentagem;
    var r := CalcularDescontoEmKg(i, pesoInicialEmKg);
    assert r * (100.0 - l) * 100.0 == pesoInicialEmKg * (CalcularPorcentagem(i) - l) * 100.0;
    assert r * (100.0 - l) == pesoInicialEmKg * (CalcularPorcentagem(i) - l);
    QuocienteUnico(r, pesoInicialEmKg * (CalcularPorcentagem(i) - l), 100.0 - l);
  }

  /** The only number that times a positive `m` gives `x` is `x / m`. */
  lemma QuocienteUnico(r: real, x: real, m: real)
    requires m > 0.0 && r * m == x
    ensures r == x / m
  {
    assert (x / m) * m == x;
    assert (r - x / m) * m == 0.0;
  }

  /** The impurity test scenarios: construction rejections, the strict
      tolerance, and 2 g in 100 g with limit 1 on 1000 kg losing 1000/99 kg. */
  lemma CenariosDeImpurezas()
    ensures NovaImpurezas(1.0, 100.0, 101.0).IllegalArgument?
    ensures NovaImpurezas(1.0, 100.0, -1.0).IllegalArgument?
    ensures NovaImpurezas(-1.0, 100.0, 1.0).IllegalArgument?
    ensures NovaImpurezas(1.0, 0.0, 1.0).IllegalArgument?
    ensures NovaImpurezas(101.0, 100.0, 1.0).IllegalArgument?
    ensures var i := NovaImpurezas(2.0, 100.0, 1.0).value;
            && CalcularPorcentagem(i) == 2.0
            && !EstaAbaixoDoTolerado(i)
            && CalcularDescontoEmKg(i, 1000.0) == 1000.0 / 99.0
    ensures EstaAbaixoDoTolerado(NovaImpurezas(0.5, 100.0, 1.0).value)
    ensures !EstaAbaixoDoTolerado(NovaImpurezas(1.0, 100.0, 1.0).value)
  {
    var i := NovaImpurezas(2.0, 100.0, 1.0).value;
    DescontoDeImpurezas(i, 1000.0);
  }
}
