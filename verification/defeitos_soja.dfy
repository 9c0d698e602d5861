/** The soybean defect aggregate: eleven defect percentages, the validated
    record `TabelaDefeitosSoja` and its unvalidated twin `DefeitosSoja`.
    The two classes have the same fields, defaults and four aggregate
    formulas, so they share one datatype; the validated class adds the
    [0,100] checks in its constructor and setters. */
module DefeitosDaSoja {
  import opened Wrappers

  /** The soybean defect kinds; `Quebrados` fills the
      partidos/quebrados/amassados slot. */
  datatype DefeitoSoja =
    | Ardidos | Queimados | Mofados | Fermentados | Germinados | Imaturos
    | Chochos | Esverdeados | Quebrados | AtacadosPragas | DemaisDanificados

  datatype DefeitosSoja = DefeitosSoja(
    ardidosEmPorcentagem: real,
    queimadosEmPorcentagem: real,
    mofadosEmPorcentagem: real,
    fermentadosEmPorcentagem: real,
    germinadosEmPorcentagem: real,
    imaturosEmPorcentagem: real,
    chochosEmPorcentagem: real,
    atacadosPorPragaEmPorcentagem: real,
    demaisDanificadosEmPorcentagem: real,
    esverdeadosEmPorcentagem: real,
    partidosQuebradosAmassadosEmPorcentagem: real)

  /** The record built with every default argument: all slots 0. */
  const Zerado: DefeitosSoja := DefeitosSoja(0.0, 0.0, 0.0, 0.0, 0.0, 0.0, 0.0, 0.0, 0.0, 0.0, 0.0)

  function Get(t: DefeitosSoja, k: DefeitoSoja): real {
    match k
    case Ardidos => t.ardidosEmPorcentagem
    case Queimados => t.queimadosEmPorcentagem
    case Mofados => t.mofadosEmPorcentagem
    case Fermentados => t.fermentadosEmPorcentagem
    case Germinados => t.germinadosEmPorcentagem
    case Imaturos => t.imaturosEmPorcentagem
    case Chochos => t.chochosEmPorcentagem
    case Esverdeados => t.esverdeadosEmPorcentagem
    case Quebrados => t.partidosQuebradosAmassadosEmPorcentagem
    case AtacadosPragas => t.atacadosPorPragaEmPorcentagem
    case DemaisDanificados => t.demaisDanificadosEmPorcentagem
  }

  /** Plain assignment of one slot, as the unvalidated data class does it. */
  function Put(t: DefeitosSoja, k: DefeitoSoja, v: real): (r: DefeitosSoja)
    ensures Get(r, k) == v
    ensures forall j :: j != k ==> Get(r, j) == Get(t, j)
    ensures Valida(t) && InRange(v) ==> Valida(r)
  {
    match k
    case Ardidos => t.(ardidosEmPorcentagem := v)
    case Queimados => t.(queimadosEmPorcentagem := v)
    case Mofados => t.(mofadosEmPorcentagem := v)
    case Fermentados => t.(fermentadosEmPorcentagem := v)
    case Germinados => t.(germinadosEmPorcentagem := v)
    case Imaturos => t.(imaturosEmPorcentagem := v)
    case Chochos => t.(chochosEmPorcentagem := v)
    case Esverdeados => t.(esverdeadosEmPorcentagem := v)
    case Quebrados => t.(partidosQuebradosAmassadosEmPorcentagem := v)
    case AtacadosPragas => t.(atacadosPorPragaEmPorcentagem := v)
    case DemaisDanificados => t.(demaisDanificadosEmPorcentagem := v)
  }

  /** The invariant of `TabelaDefeitosSoja`: every slot in [0,100]. */
  predicate Valida(t: DefeitosSoja) {
    && InRange(t.ardidosEmPorcentagem)
    && InRange(t.queimadosEmPorcentagem)
    && InRange(t.mofadosEmPorcentagem)
    && InRange(t.fermentadosEmPorcentagem)
    && InRange(t.germinadosEmPorcentagem)
    && InRange(t.imaturosEmPorcentagem)
    && InRange(t.chochosEmPorcentagem)
    && InRange(t.atacadosPorPragaEmPorcentagem)
    && InRange(t.demaisDanificadosEmPorcentagem)
    && InRange(t.esverdeadosEmPorcentagem)
    && InRange(t.partidosQuebradosAmassadosEmPorcentagem)
  }

  /** The `TabelaDefeitosSoja` constructor with its `init` checks, given
      the eleven arguments as a record. */
  function NovaTabela(t: DefeitosSoja): (r: Result<DefeitosSoja>)
    ensures r.Success? <==> forall k :: InRange(Get(t, k))
    ensures r.Success? ==> r.value == t
  {
    if !InRange(t.ardidosEmPorcentagem) then assert !InRange(Get(t, Ardidos)); IllegalArgument
    else if !InRange(t.queimadosEmPorcentagem) then assert !InRange(Get(t, Queimados)); IllegalArgument
    else if !InRange(t.mofadosEmPorcentagem) then assert !InRange(Get(t, Mofados)); IllegalArgument
    else if !InRange(t.fermentadosEmPorcentagem) then assert !InRange(Get(t, Fermentados)); IllegalArgument
    else if !InRange(t.germinadosEmPorcentagem) then assert !InRange(Get(t, Germinados)); IllegalArgument
    else if !InRange(t.imaturosEmPorcentagem) then assert !InRange(Get(t, Imaturos)); IllegalArgument
    else if !InRange(t.chochosEmPorcentagem) then assert !InRange(Get(t, Chochos)); IllegalArgument
    else if !InRange(t.atacadosPorPragaEmPorcentagem) then assert !InRange(Get(t, AtacadosPragas)); IllegalArgument
    else if !InRange(t.demaisDanificadosEmPorcentagem) then assert !InRange(Get(t, DemaisDanificados)); IllegalArgument
    else if !InRange(t.esverdeadosEmPorcentagem) then assert !InRange(Get(t, Esverdeados)); IllegalArgument
    else if !InRange(t.partidosQuebradosAmassadosEmPorcentagem) then assert !InRange(Get(t, Quebrados)); IllegalArgument
    else Success(t)
  }

  /** A validating setter of `TabelaDefeitosSoja`: stores exactly slot `k`
      when `v` is in range, and throws otherwise. */
  function Set(t: DefeitosSoja, k: DefeitoSoja, v: real): (r: Result<DefeitosSoja>)
    ensures r.Success? <==> InRange(v)
    ensures r.Success? ==> Get(r.value, k) == v
    ensures r.Success? ==> forall j :: j != k ==> Get(r.value, j) == Get(t, j)
    ensures r.Success? && Valida(t) ==> Valida(r.value)
  {
    if InRange(v) then Success(Put(t, k, v)) else IllegalArgument
  }

  function CalcularArdidosQueimadosEmPorcentagem(t: DefeitosSoja): real {
    t.ardidosEmPorcentagem + t.queimadosEmPorcentagem
  }

  function CalcularDanificadosEmPorcentagem(t: DefeitosSoja): real {
    t.atacadosPorPragaEmPorcentagem / 4.0 + t.demaisDanificadosEmPorcentagem
  }

  function CalcularAvariadosEmPorcentagem(t: DefeitosSoja): real {
    CalcularArdidosQueimadosEmPorcentagem(t) + t.mofadosEmPorcentagem + t.fermentadosEmPorcentagem
    + t.germinadosEmPorcentagem + t.imaturosEmPorcentagem + t.chochosEmPorcentagem
    + CalcularDanificadosEmPorcentagem(t)
  }

  function CalcularDefeitosGravesEmPorcentagem(t: DefeitosSoja): real {
    t.queimadosEmPorcentagem + t.ardidosEmPorcentagem + t.mofadosEmPorcentagem
  }

  /** The weight of one point of each kind in each aggregate. */
  function PesoEmArdidosQueimados(k: DefeitoSoja): real {
    match k
    case Ardidos => 1.0
    case Queimados => 1.0
    case _ => 0.0
  }

  function PesoEmDanificados(k: DefeitoSoja): real {
    match k
    case AtacadosPragas => 0.25
    case DemaisDanificados => 1.0
    case _ => 0.0
  }

  function PesoEmAvariados(k: DefeitoSoja): real {
    match k
    case Esverdeados => 0.0
    case Quebrados => 0.0
    case AtacadosPragas => 0.25
    case _ => 1.0
  }

  function PesoEmGraves(k: DefeitoSoja): real {
    match k
    case Queimados => 1.0
    case Ardidos => 1.0
    case Mofados => 1.0
    case _ => 0.0
  }

  /** Each aggregate is linear in the slots with the weights above: it is 0
      on the all-zero record and every assignment moves it by the kind's
      weight times the change. */
  lemma AgregadosAoAtribuir(t: DefeitosSoja, k: DefeitoSoja, v: real)
    ensures CalcularArdidosQueimadosEmPorcentagem(Put(t, k, v))
            == CalcularArdidosQueimadosEmPorcentagem(t) + PesoEmArdidosQueimados(k) * (v - Get(t, k))
    ensures CalcularDanificadosEmPorcentagem(Put(t, k, v))
            == CalcularDanificadosEmPorcentagem(t) + PesoEmDanificados(k) * (v - Get(t, k))
    ensures CalcularAvariadosEmPorcentagem(Put(t, k, v))
            == CalcularAvariadosEmPorcentagem(t) + PesoEmAvariados(k) * (v - Get(t, k))
    ensures CalcularDefeitosGravesEmPorcentagem(Put(t, k, v))
            == CalcularDefeitosGravesEmPorcentagem(t) + PesoEmGraves(k) * (v - Get(t, k))
  {
  }

  lemma AgregadosDoZerado()
    ensures CalcularArdidosQueimadosEmPorcentagem(Zerado) == 0.0
    ensures CalcularDanificadosEmPorcentagem(Zerado) == 0.0
    ensures CalcularAvariadosEmPorcentagem(Zerado) == 0.0
    ensures CalcularDefeitosGravesEmPorcentagem(Zerado) == 0.0
  {
  }

  /** Every default slot is 0, and the default record is valid. */
  lemma ZeradoValido()
    ensures forall k :: Get(Zerado, k) == 0.0
    ensures Valida(Zerado)
  {
  }

  /** esverdeados and partidos/quebrados/amassados enter no aggregate. */
  lemma EsverdeadosEPartidosForaDosAgregados(t: DefeitosSoja, e: real, p: real)
    ensures var u := t.(esverdeadosEmPorcentagem := e, partidosQuebradosAmassadosEmPorcentagem := p);
            && CalcularArdidosQueimadosEmPorcentagem(u) == CalcularArdidosQueimadosEmPorcentagem(t)
            && CalcularDanificadosEmPorcentagem(u) == CalcularDanificadosEmPorcentagem(t)
            && CalcularAvariadosEmPorcentagem(u) == CalcularAvariadosEmPorcentagem(t)
            && CalcularDefeitosGravesEmPorcentagem(u) == CalcularDefeitosGravesEmPorcentagem(t)
  {
  }

  /** With non-negative slots the severe defects are part of the damaged
      ones: graves <= avariados, and ardidos+queimados <= graves. */
  lemma GravesDentroDeAvariados(t: DefeitosSoja)
    requires Valida(t)
    ensures CalcularArdidosQueimadosEmPorcentagem(t) <= CalcularDefeitosGravesEmPorcentagem(t)
    ensures CalcularDefeitosGravesEmPorcentagem(t) <= CalcularAvariadosEmPorcentagem(t)
  {
  }
}
