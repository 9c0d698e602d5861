/** `Graos`: a lot of grain with its sample weight, initial lot weight, a
    moisture measurement, an impurity measurement and a list of toleranced
    defects. It totals the weight discount and checks every tolerance. */
module Amostras {
  import opened Wrappers
  import opened Defeitos
  import Umidades
  import Impurezas
  import DefeitosDaSoja

  /** The constructor assigns both weights through the property
      initialisers, so no setter runs and nothing is validated. */
  datatype Graos = Graos(
    amostraEmGramas: real,
    pesoInicialEmKg: real,
    umidade: Umidades.Umidade,
    impurezas: Defeito,
    defeitos: seq<Defeito>)

  /** Every defect of a list is a valid object whose discount is defined. */
  predicate DefeitosDefinidos(ds: seq<Defeito>) {
    forall i :: 0 <= i < |ds| ==> Valido(ds[i]) && DescontoDefinido(ds[i])
  }

  /** The impurity of a lot is an `Impurezas` object: the impurity tag and
      deságio 0, which its constructor fixes. */
  predicate EhImpureza(i: Defeito) {
    i.tipo == Impureza && i.desagio == 0.0
  }

  /** The parts of a lot are Kotlin objects, hence valid. */
  predicate PartesValidas(g: Graos) {
    && Umidades.Valida(g.umidade)
    && Valido(g.impurezas) && EhImpureza(g.impurezas)
    && forall d :: d in g.defeitos ==> Valido(d)
  }

  /** The impurity and every defect are valid objects, so every percentage
      a classifier reads from the lot is defined. */
  predicate PercentuaisDefinidos(g: Graos) {
    Valido(g.impurezas) && forall d :: d in g.defeitos ==> Valido(d)
  }

  /** No later defect of the list has the same kind as `ds[i]`: the one a
      classifier's mapping keeps. */
  predicate UltimaDoTipo(ds: seq<Defeito>, i: nat)
    requires i < |ds|
  {
    forall j :: i < j < |ds| ==> ds[j].tipo != ds[i].tipo
  }

  /** No part of the lot divides by zero when its discount is taken. */
  predicate DescontoDoLoteDefinido(g: Graos) {
    && Umidades.Valida(g.umidade) && Umidades.DescontoDefinido(g.umidade)
    && Valido(g.impurezas) && EhImpureza(g.impurezas) && DescontoDefinido(g.impurezas)
    && DefeitosDefinidos(g.defeitos)
  }

  /** The running total of the `for` loop over the defect list, each
      discount taken on the same lot weight. */
  function SomaDescontosDefeitos(ds: seq<Defeito>, pesoInicialEmKg: real): real
    requires DefeitosDefinidos(ds)
    decreases |ds|
  {
    if |ds| == 0 then 0.0
    else
      var init := ds[..|ds| - 1];
      var anterior := SomaDescontosDefeitos(init, pesoInicialEmKg);
      var ultimo := Defeitos.CalcularDescontoEmKg(ds[|ds| - 1], pesoInicialEmKg);
      anterior + ultimo
  }

  /** `calcularDescontoEmKg`: the defects and the impurity on the gross lot,
      the moisture on the lot net of the impurity discount. */
  function CalcularDescontoEmKg(g: Graos): (r: real)
    requires DescontoDoLoteDefinido(g)
    ensures g.pesoInicialEmKg >= 0.0 ==> 0.0 <= r
  {
    var w := g.pesoInicialEmKg;
    var impurezas := Defeitos.CalcularDescontoEmKg(g.impurezas, w);
    var umidade := Umidades.CalcularDescontoEmKg(g.umidade, w - impurezas);
    var defeitos := SomaDescontosDefeitos(g.defeitos, w);
    SomaNaoNegativa(g.defeitos, w);
    defeitos + impurezas + umidade
  }

  /** The impurity and the moisture together never take more than the
      lot: the moisture is charged on what the impurity leaves. With the
      bound of the defect total this caps the lot discount at one lot
      weight per defect plus one. */
  lemma DescontoDoLoteLimitado(g: Graos)
    requires DescontoDoLoteDefinido(g) && g.pesoInicialEmKg >= 0.0
    ensures CalcularDescontoEmKg(g) <= SomaDescontosDefeitos(g.defeitos, g.pesoInicialEmKg) + g.pesoInicialEmKg
  {
    var w := g.pesoInicialEmKg;
    var impurezas := Defeitos.CalcularDescontoEmKg(g.impurezas, w);
    assert impurezas <= w;
    assert Umidades.CalcularDescontoEmKg(g.umidade, w - impurezas) <= w - impurezas;
  }

  /** The impurity part of the lot discount has no deságio factor: out of
      tolerance it is the lot times the excess over the limit, scaled to the
      part of the range above the limit. */
  lemma DescontoDeImpurezasDoLote(g: Graos)
    requires DescontoDoLoteDefinido(g) && !EstaAbaixoDoTolerado(g.impurezas)
    ensures var i := g.impurezas;
            Defeitos.CalcularDescontoEmKg(i, g.pesoInicialEmKg)
            == g.pesoInicialEmKg * (CalcularPorcentagem(i) - i.limiteToleradoEmPorcentagem)
               / (100.0 - i.limiteToleradoEmPorcentagem)
  {
    Impurezas.DescontoDeImpurezas(g.impurezas, g.pesoInicialEmKg);
  }

  /** On a non-negative lot the defect total is never negative. */
  lemma {:induction false} SomaNaoNegativa(ds: seq<Defeito>, w: real)
    requires DefeitosDefinidos(ds)
    ensures w >= 0.0 ==> 0.0 <= SomaDescontosDefeitos(ds, w)
    decreases |ds|
  {
    if |ds| > 0 {
      SomaNaoNegativa(ds[..|ds| - 1], w);
    }
  }

  /** No defect takes more than the whole lot, so the defect total is at
      most one lot weight per defect. */
  lemma {:induction false} SomaLimitada(ds: seq<Defeito>, w: real)
    requires DefeitosDefinidos(ds) && w >= 0.0
    ensures SomaDescontosDefeitos(ds, w) <= |ds| as real * w
    decreases |ds|
  {
    if |ds| > 0 {
      var init := ds[..|ds| - 1];
      SomaLimitada(init, w);
      AcrescentarUmLote(SomaDescontosDefeitos(init, w), Defeitos.CalcularDescontoEmKg(ds[|ds| - 1], w),
                        |init| as real, w);
    }
  }

  /** Adding at most one lot to at most `k` lots gives at most `k + 1`. */
  lemma AcrescentarUmLote(s: real, u: real, k: real, w: real)
    requires s <= k * w && u <= w
    ensures s + u <= (k + 1.0) * w
  {
    assert (k + 1.0) * w == k * w + w;
  }

  /** Defects all within tolerance cost nothing. */
  lemma {:induction false} SomaNulaSeTudoTolerado(ds: seq<Defeito>, w: real)
    requires DefeitosDefinidos(ds)
    requires forall i :: 0 <= i < |ds| ==> EstaAbaixoDoTolerado(ds[i])
    ensures SomaDescontosDefeitos(ds, w) == 0.0
    decreases |ds|
  {
    if |ds| > 0 {
      SomaNulaSeTudoTolerado(ds[..|ds| - 1], w);
    }
  }

  /** The `for` loop of `calcularDescontoEmKg`, followed by the impurity and
      moisture discounts, computes the function above. */
  method CalcularDescontoEmKgIterativo(g: Graos) returns (total: real)
    requires DescontoDoLoteDefinido(g)
    ensures total == CalcularDescontoEmKg(g)
  {
    var descontosDefeitosEmKg := 0.0;
    var i := 0;
    while i < |g.defeitos|
      invariant 0 <= i <= |g.defeitos|
      invariant DefeitosDefinidos(g.defeitos[..i])
      invariant descontosDefeitosEmKg == SomaDescontosDefeitos(g.defeitos[..i], g.pesoInicialEmKg)
    {
      assert g.defeitos[..i + 1][..i] == g.defeitos[..i];
      descontosDefeitosEmKg := descontosDefeitosEmKg + Defeitos.CalcularDescontoEmKg(g.defeitos[i], g.pesoInicialEmKg);
      i := i + 1;
    }
    assert g.defeitos[..i] == g.defeitos;
    var descontoImpurezasEmKg := Defeitos.CalcularDescontoEmKg(g.impurezas, g.pesoInicialEmKg);
    var descontoUmidadeEmKg := Umidades.CalcularDescontoEmKg(g.umidade, g.pesoInicialEmKg - descontoImpurezasEmKg);
    total := descontosDefeitosEmKg + descontoImpurezasEmKg + descontoUmidadeEmKg;
  }

  /** The conjunction the loop of `verificarSeAbaixoDoTolerado` accumulates. */
  function DefeitosAbaixoDoTolerado(ds: seq<Defeito>): (b: bool)
    requires forall d :: d in ds ==> Valido(d)
    ensures b <==> forall i :: 0 <= i < |ds| ==> EstaAbaixoDoTolerado(ds[i])
    decreases |ds|
  {
    if |ds| == 0 then true
    else
      var init := ds[..|ds| - 1];
      DefeitosAbaixoDoTolerado(init) && EstaAbaixoDoTolerado(ds[|ds| - 1])
  }

  /** `verificarSeAbaixoDoTolerado`: every defect, the impurity and the
      moisture are below their limits. */
  function VerificarSeAbaixoDoTolerado(g: Graos): (b: bool)
    requires PartesValidas(g)
    ensures b <==> && (forall i :: 0 <= i < |g.defeitos| ==> EstaAbaixoDoTolerado(g.defeitos[i]))
                   && EstaAbaixoDoTolerado(g.impurezas)
                   && Umidades.EstaAbaixoDoTolerado(g.umidade)
  {
    DefeitosAbaixoDoTolerado(g.defeitos) && EstaAbaixoDoTolerado(g.impurezas)
    && Umidades.EstaAbaixoDoTolerado(g.umidade)
  }

  /** The loop of `verificarSeAbaixoDoTolerado` computes the conjunction. */
  method VerificarSeAbaixoDoToleradoIterativo(g: Graos) returns (b: bool)
    requires PartesValidas(g)
    ensures b == VerificarSeAbaixoDoTolerado(g)
  {
    var defeitosEstaoAbaixoDoTolerado := true;
    var i := 0;
    while i < |g.defeitos|
      invariant 0 <= i <= |g.defeitos|
      invariant defeitosEstaoAbaixoDoTolerado <==> forall j :: 0 <= j < i ==> EstaAbaixoDoTolerado(g.defeitos[j])
    {
      defeitosEstaoAbaixoDoTolerado := defeitosEstaoAbaixoDoTolerado && EstaAbaixoDoTolerado(g.defeitos[i]);
      i := i + 1;
    }
    b := defeitosEstaoAbaixoDoTolerado && EstaAbaixoDoTolerado(g.impurezas)
         && Umidades.EstaAbaixoDoTolerado(g.umidade);
  }

  /** A lot entirely within tolerance loses nothing. */
  lemma AbaixoDoToleradoSemDesconto(g: Graos)
    requires DescontoDoLoteDefinido(g)
    requires VerificarSeAbaixoDoTolerado(g)
    ensures CalcularDescontoEmKg(g) == 0.0
  {
    SomaNulaSeTudoTolerado(g.defeitos, g.pesoInicialEmKg);
  }

  /** With no defects the tolerance check is impurity and moisture alone. */
  lemma SemDefeitosToleranciaDeImpurezaEUmidade(g: Graos)
    requires PartesValidas(g) && g.defeitos == []
    ensures VerificarSeAbaixoDoTolerado(g)
            <==> EstaAbaixoDoTolerado(g.impurezas) && Umidades.EstaAbaixoDoTolerado(g.umidade)
  {
  }

  /** The defect total of a concatenation is the sum of the totals. */
  lemma {:induction false} SomaConcatenada(a: seq<Defeito>, b: seq<Defeito>, w: real)
    requires DefeitosDefinidos(a) && DefeitosDefinidos(b)
    ensures DefeitosDefinidos(a + b)
    ensures SomaDescontosDefeitos(a + b, w) == SomaDescontosDefeitos(a, w) + SomaDescontosDefeitos(b, w)
    decreases |b|
  {
    if |b| == 0 {
      assert a + b == a;
    } else {
      var b0 := b[..|b| - 1];
      assert (a + b)[..|a + b| - 1] == a + b0;
      assert (a + b)[|a + b| - 1] == b[|b| - 1];
      SomaConcatenada(a, b0, w);
    }
  }

  /** Removing matching elements from two lists with the same elements
      leaves two lists with the same elements. */
  lemma MultisetSemElemento(a: seq<Defeito>, b: seq<Defeito>, i: nat)
    requires multiset(a) == multiset(b) && |a| > 0 && i < |b| && b[i] == a[|a| - 1]
    ensures multiset(a[..|a| - 1]) == multiset(b[..i] + b[i + 1..])
  {
    var x := a[|a| - 1];
    assert a == a[..|a| - 1] + [x];
    assert b == b[..i] + [x] + b[i + 1..];
    assert multiset(a[..|a| - 1]) == multiset(a) - multiset{x};
    assert multiset(b[..i] + b[i + 1..]) == multiset(b) - multiset{x};
  }

  /** A reordering of a list of defined defects is a list of defined defects. */
  lemma PermutacaoDefinida(a: seq<Defeito>, b: seq<Defeito>)
    requires DefeitosDefinidos(a) && multiset(a) == multiset(b)
    ensures DefeitosDefinidos(b)
  {
    forall j | 0 <= j < |b|
      ensures Valido(b[j]) && DescontoDefinido(b[j])
    {
      assert b[j] in multiset(a);
      var k :| 0 <= k < |a| && a[k] == b[j];
    }
  }

  /** The defect total does not depend on the order of the defect list:
      the last defect of `a` sits somewhere in `b`, and taking it out of
      `b` takes exactly its discount out of the total. */
  lemma {:induction false} SomaIndependeDaOrdem(a: seq<Defeito>, b: seq<Defeito>, w: real)
    requires DefeitosDefinidos(a)
    requires multiset(a) == multiset(b)
    ensures DefeitosDefinidos(b)
    ensures SomaDescontosDefeitos(a, w) == SomaDescontosDefeitos(b, w)
    decreases |a|
  {
    PermutacaoDefinida(a, b);
    if |a| == 0 {
      assert |b| == |multiset(b)| == 0;
    } else {
      var x := a[|a| - 1];
      assert x in multiset(b);
      var i :| 0 <= i < |b| && b[i] == x;
      var antes, depois := b[..i], b[i + 1..];
      MultisetSemElemento(a, b, i);
      SomaIndependeDaOrdem(a[..|a| - 1], antes + depois, w);
      assert b == antes + [x] + depois;
      SomaConcatenada(antes, [x], w);
      SomaConcatenada(antes + [x], depois, w);
      SomaConcatenada(antes, depois, w);
      assert [x][..0] == [];
    }
  }

  /** Moisture is charged on the net lot, so it never costs more than the
      moisture discount on the gross lot would. */
  lemma UmidadeSobreLoteLiquido(g: Graos)
    requires DescontoDoLoteDefinido(g) && g.pesoInicialEmKg >= 0.0
    ensures Umidades.CalcularDescontoEmKg(g.umidade,
              g.pesoInicialEmKg - Defeitos.CalcularDescontoEmKg(g.impurezas, g.pesoInicialEmKg))
            <= Umidades.CalcularDescontoEmKg(g.umidade, g.pesoInicialEmKg)
  {
    var w := g.pesoInicialEmKg;
    Umidades.DescontoMonotono(g.umidade, w - Defeitos.CalcularDescontoEmKg(g.impurezas, w), w);
  }

  /** The setter of `amostraEmGramas` as written: it throws on a value not
      above zero and otherwise returns without storing anything. */
  function SetAmostraEmGramasComoEscrito(g: Graos, v: real): (r: Result<Graos>)
    ensures r.Success? <==> v > 0.0
    ensures r.Success? ==> r.value == g
  {
    if v <= 0.0 then IllegalArgument else Success(g)
  }

  /** The setter of `pesoInicialEmKg` as written: the exception is built
      but never thrown, and the value is never stored. */
  function SetPesoInicialEmKgComoEscrito(g: Graos, v: real): (r: Result<Graos>)
    ensures r == Success(g)
  {
    Success(g)
  }

  /** The setter of `amostraEmGramas` its documentation describes. */
  function SetAmostraEmGramas(g: Graos, v: real): (r: Result<Graos>)
    ensures r.Success? <==> v > 0.0
    ensures r.Success? ==> r.value.amostraEmGramas == v && r.value == g.(amostraEmGramas := v)
  {
    if v <= 0.0 then IllegalArgument else Success(g.(amostraEmGramas := v))
  }

  /** The setter of `pesoInicialEmKg` its documentation describes. */
  function SetPesoInicialEmKg(g: Graos, v: real): (r: Result<Graos>)
    ensures r.Success? <==> v > 0.0
    ensures r.Success? ==> r.value.pesoInicialEmKg == v && r.value == g.(pesoInicialEmKg := v)
  {
    if v <= 0.0 then IllegalArgument else Success(g.(pesoInicialEmKg := v))
  }

  /** The discrepancy: assigning a new positive sample weight or lot weight
      leaves the old one in place, and a non-positive lot weight is accepted. */
  lemma SettersNaoArmazenam(g: Graos)
    requires g.amostraEmGramas == 100.0 && g.pesoInicialEmKg == 50.0
    ensures SetAmostraEmGramasComoEscrito(g, 200.0).value.amostraEmGramas == 100.0
    ensures SetAmostraEmGramas(g, 200.0).value.amostraEmGramas == 200.0
    ensures SetPesoInicialEmKgComoEscrito(g, 75.0).value.pesoInicialEmKg == 50.0
    ensures SetPesoInicialEmKg(g, 75.0).value.pesoInicialEmKg == 75.0
    ensures SetPesoInicialEmKgComoEscrito(g, 0.0).Success?
    ensures SetPesoInicialEmKg(g, 0.0).IllegalArgument?
  {
  }

  /** The corrected setters round-trip: reading back gives the value assigned. */
  lemma SettersCorrigidosArmazenam(g: Graos, v: real)
    requires v > 0.0
    ensures SetAmostraEmGramas(g, v).value.amostraEmGramas == v
    ensures SetPesoInicialEmKg(g, v).value.pesoInicialEmKg == v
    ensures SetAmostraEmGramas(g, v).value.pesoInicialEmKg == g.pesoInicialEmKg
    ensures SetPesoInicialEmKg(g, v).value.amostraEmGramas == g.amostraEmGramas
  {
  }

  /** The lot scenario of the grain tests: 1000 kg with 2 g of impurities in
      100 g (limit 1), 18% moisture (limit 14) and three soybean defects with
      deságio 10. */
  lemma CenarioDoLote()
    ensures var g := Graos(100.0, 1000.0, Umidades.Umidade(18.0, 14.0),
                           Defeito(Impureza, 2.0, 100.0, 0.0, 1.0),
                           [ Defeito(DeSoja(DefeitosDaSoja.Esverdeados), 4.0, 100.0, 10.0, 2.0),
                             Defeito(DeSoja(DefeitosDaSoja.Queimados), 1.0, 100.0, 10.0, 0.3),
                             Defeito(DeSoja(DefeitosDaSoja.Mofados), 1.0, 100.0, 10.0, 0.5) ]);
            && DescontoDoLoteDefinido(g)
            && !VerificarSeAbaixoDoTolerado(g)
            && CalcularDescontoEmKg(g)
               == 1000.0 * (2.0 - 1.0) / (100.0 - 1.0)
                  + (1000.0 - 1000.0 * (2.0 - 1.0) / (100.0 - 1.0)) * (18.0 - 14.0) / (100.0 - 14.0)
                  + 1000.0 * ((4.0 - 2.0) / (100.0 - 2.0) * ((100.0 - 10.0) / 100.0))
                  + 1000.0 * ((1.0 - 0.3) / (100.0 - 0.3) * ((100.0 - 10.0) / 100.0))
                  + 1000.0 * ((1.0 - 0.5) / (100.0 - 0.5) * ((100.0 - 10.0) / 100.0))
  {
    var e := Defeito(DeSoja(DefeitosDaSoja.Esverdeados), 4.0, 100.0, 10.0, 2.0);
    var q := Defeito(DeSoja(DefeitosDaSoja.Queimados), 1.0, 100.0, 10.0, 0.3);
    var m := Defeito(DeSoja(DefeitosDaSoja.Mofados), 1.0, 100.0, 10.0, 0.5);
    var i := Defeito(Impureza, 2.0, 100.0, 0.0, 1.0);
    assert Defeitos.CalcularDescontoEmKg(e, 1000.0) == 1000.0 * ((4.0 - 2.0) / (100.0 - 2.0) * ((100.0 - 10.0) / 100.0));
    assert Defeitos.CalcularDescontoEmKg(q, 1000.0) == 1000.0 * ((1.0 - 0.3) / (100.0 - 0.3) * ((100.0 - 10.0) / 100.0));
    assert Defeitos.CalcularDescontoEmKg(m, 1000.0) == 1000.0 * ((1.0 - 0.5) / (100.0 - 0.5) * ((100.0 - 10.0) / 100.0));
    assert Defeitos.CalcularDescontoEmKg(i, 1000.0) == 1000.0 * (2.0 - 1.0) / (100.0 - 1.0);
    assert [e, q, m][..2] == [e, q] && [e, q][..1] == [e] && [e][..0] == [];
    assert SomaDescontosDefeitos([e], 1000.0) == Defeitos.CalcularDescontoEmKg(e, 1000.0);
    assert SomaDescontosDefeitos([e, q], 1000.0)
           == SomaDescontosDefeitos([e], 1000.0) + Defeitos.CalcularDescontoEmKg(q, 1000.0);
  }
}
