/** The corn defect aggregate: eight defect percentages, the validated
    record `TabelaDefeitosMilho` and its unvalidated twin `DefeitosMilho`.
    Both classes have the same fields, defaults and `avariados` formula, so
    they share one datatype here; the validated class differs only in that
    its constructor and setters reject values outside [0,100]. */
module DefeitosDoMilho {
  import opened Wrappers

  /** The corn defect kinds; each one names the slot it is mapped into. */
  datatype DefeitoMilho =
    | Ardidos | Mofados | Fermentados | Germinados
    | ChochosImaturos | Gessados | Carunchados | Quebrados

  datatype DefeitosMilho = DefeitosMilho(
    ardidosEmPorcentagem: real,
    mofadosEmPorcentagem: real,
    fermentadosEmPorcentagem: real,
    germinadosEmPorcentagem: real,
    chochosImaturosEmPorcentagem: real,
    gessadosEmPorcentagem: real,
    carunchadosEmPorcentagem: real,
    quebradosEmPorcentagem: real)

  /** The record built with every default argument: all slots 0. */
  const Zerado: DefeitosMilho := DefeitosMilho(0.0, 0.0, 0.0, 0.0, 0.0, 0.0, 0.0, 0.0)

  /** The slot a defect kind is stored in. */
  function Get(t: DefeitosMilho, k: DefeitoMilho): real {
    match k
    case Ardidos => t.ardidosEmPorcentagem
    case Mofados => t.mofadosEmPorcentagem
    case Fermentados => t.fermentadosEmPorcentagem
    case Germinados => t.germinadosEmPorcentagem
    case ChochosImaturos => t.chochosImaturosEmPorcentagem
    case Gessados => t.gessadosEmPorcentagem
    case Carunchados => t.carunchadosEmPorcentagem
    case Quebrados => t.quebradosEmPorcentagem
  }

  /** Plain assignment of one slot, as the unvalidated data class does it. */
  function Put(t: DefeitosMilho, k: DefeitoMilho, v: real): (r: DefeitosMilho)
    ensures Get(r, k) == v
    ensures forall j :: j != k ==> Get(r, j) == Get(t, j)
    ensures Valida(t) && InRange(v) ==> Valida(r)
  {
    match k
    case Ardidos => t.(ardidosEmPorcentagem := v)
    case Mofados => t.(mofadosEmPorcentagem := v)
    case Fermentados => t.(fermentadosEmPorcentagem := v)
    case Germinados => t.(germinadosEmPorcentagem := v)
    case ChochosImaturos => t.(chochosImaturosEmPorcentagem := v)
    case Gessados => t.(gessadosEmPorcentagem := v)
    case Carunchados => t.(carunchadosEmPorcentagem := v)
    case Quebrados => t.(quebradosEmPorcentagem := v)
  }

  /** The invariant of `TabelaDefeitosMilho`: every slot in [0,100]. */
  predicate Valida(t: DefeitosMilho) {
    && InRange(t.ardidosEmPorcentagem)
    && InRange(t.mofadosEmPorcentagem)
    && InRange(t.fermentadosEmPorcentagem)
    && InRange(t.germinadosEmPorcentagem)
    && InRange(t.chochosImaturosEmPorcentagem)
    && InRange(t.gessadosEmPorcentagem)
    && InRange(t.carunchadosEmPorcentagem)
    && InRange(t.quebradosEmPorcentagem)
  }

  /** The `TabelaDefeitosMilho` constructor with its `init` checks, given
      the eight arguments as a record. */
  function NovaTabela(t: DefeitosMilho): (r: Result<DefeitosMilho>)
    ensures r.Success? <==> forall k :: InRange(Get(t, k))
    ensures r.Success? ==> r.value == t
  {
    if !InRange(t.ardidosEmPorcentagem) then assert !InRange(Get(t, Ardidos)); IllegalArgument
    else if !InRange(t.mofadosEmPorcentagem) then assert !InRange(Get(t, Mofados)); IllegalArgument
    else if !InRange(t.fermentadosEmPorcentagem) then assert !InRange(Get(t, Fermentados)); IllegalArgument
    else if !InRange(t.germinadosEmPorcentagem) then assert !InRange(Get(t, Germinados)); IllegalArgument
    else if !InRange(t.chochosImaturosEmPorcentagem) then assert !InRange(Get(t, ChochosImaturos)); IllegalArgument
    else if !InRange(t.gessadosEmPorcentagem) then assert !InRange(Get(t, Gessados)); IllegalArgument
    else if !InRange(t.carunchadosEmPorcentagem) then assert !InRange(Get(t, Carunchados)); IllegalArgument
    else if !InRange(t.quebradosEmPorcentagem) then assert !InRange(Get(t, Quebrados)); IllegalArgument
    else Success(t)
  }

  /** A validating setter of `TabelaDefeitosMilho`: stores exactly slot `k`
      when `v` is in range, and throws otherwise. */
  function Set(t: DefeitosMilho, k: DefeitoMilho, v: real): (r: Result<DefeitosMilho>)
    ensures r.Success? <==> InRange(v)
    ensures r.Success? ==> Get(r.value, k) == v
    ensures r.Success? ==> forall j :: j != k ==> Get(r.value, j) == Get(t, j)
    ensures r.Success? && Valida(t) ==> Valida(r.value)
  {
    if InRange(v) then Success(Put(t, k, v)) else IllegalArgument
  }

  /** `calcularAvariadosEmPorcentagem`, the same in both classes. */
  function CalcularAvariadosEmPorcentagem(t: DefeitosMilho): real {
    t.ardidosEmPorcentagem + t.mofadosEmPorcentagem + t.fermentadosEmPorcentagem
    + t.germinadosEmPorcentagem + t.chochosImaturosEmPorcentagem + t.gessadosEmPorcentagem
  }

  /** How much one point of each kind weighs in `avariados`. */
  function PesoEmAvariados(k: DefeitoMilho): real {
    match k
    case Carunchados => 0.0
    case Quebrados => 0.0
    case _ => 1.0
  }

  /** `avariados` is linear in the slots with the weights above: starting
      from the all-zero record, every assignment moves it by the weight of
      the kind times the change. In particular carunchados and quebrados
      never move it. */
  lemma AvariadosAoAtribuir(t: DefeitosMilho, k: DefeitoMilho, v: real)
    ensures CalcularAvariadosEmPorcentagem(Put(t, k, v))
            == CalcularAvariadosEmPorcentagem(t) + PesoEmAvariados(k) * (v - Get(t, k))
    ensures CalcularAvariadosEmPorcentagem(Zerado) == 0.0
  {
  }

  /** avariados ignores carunchados and quebrados. */
  lemma AvariadosIgnoraCarunchadosEQuebrados(t: DefeitosMilho, c: real, q: real)
    ensures CalcularAvariadosEmPorcentagem(t.(carunchadosEmPorcentagem := c, quebradosEmPorcentagem := q))
            == CalcularAvariadosEmPorcentagem(t)
  {
  }

  /** With non-negative slots, avariados is at least ardidos and, for a
      validated record, at most 600. */
  lemma AvariadosLimites(t: DefeitosMilho)
    requires Valida(t)
    ensures t.ardidosEmPorcentagem <= CalcularAvariadosEmPorcentagem(t) <= 600.0
  {
  }

  /** Every default slot is 0, and the default record is valid. */
  lemma ZeradoValido()
    ensures forall k :: Get(Zerado, k) == 0.0
    ensures Valida(Zerado)
  {
  }
}
