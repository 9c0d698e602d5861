/** Corn colour percentages (yellow, white, coloured). The validated
    class `CoresMilhoPorcentagem` and the record `CoresMilho`
    have the same three fields, defaults and `init` checks, so they share
    one datatype: the first re-checks every assignment (`Set`), the second
    is a data class whose later assignments are unchecked (`Put`). */
module CoresDoMilho {
  import opened Wrappers

  datatype Campo = Amarelos | Brancos | Coloridos

  datatype CoresMilho = CoresMilho(
    amarelosEmPorcentagem: real,
    brancosEmPorcentagem: real,
    coloridosEmPorcentagem: real)

  /** The record built with every default argument. */
  const Zeradas: CoresMilho := CoresMilho(0.0, 0.0, 0.0)

  function Get(c: CoresMilho, k: Campo): real {
    match k
    case Amarelos => c.amarelosEmPorcentagem
    case Brancos => c.brancosEmPorcentagem
    case Coloridos => c.coloridosEmPorcentagem
  }

  /** Plain assignment of one field, as the data class does it. */
  function Put(c: CoresMilho, k: Campo, v: real): (r: CoresMilho)
    ensures Get(r, k) == v
    ensures forall j :: j != k ==> Get(r, j) == Get(c, j)
  {
    match k
    case Amarelos => c.(amarelosEmPorcentagem := v)
    case Brancos => c.(brancosEmPorcentagem := v)
    case Coloridos => c.(coloridosEmPorcentagem := v)
  }

  /** What the `init` block checks: each field in [0,100]. */
  predicate Valida(c: CoresMilho) {
    InRange(c.amarelosEmPorcentagem) && InRange(c.brancosEmPorcentagem) && InRange(c.coloridosEmPorcentagem)
  }

  /** Construction with the `init` checks; no relation between the three
      fields is required, in particular they need not add up to 100. */
  function Nova(amarelos: real, brancos: real, coloridos: real): (r: Result<CoresMilho>)
    ensures r.Success? <==> forall k :: 0.0 <= Get(CoresMilho(amarelos, brancos, coloridos), k) <= 100.0
    ensures r.Success? ==> r.value == CoresMilho(amarelos, brancos, coloridos)
  {
    var c := CoresMilho(amarelos, brancos, coloridos);
    if !InRange(amarelos) then assert !InRange(Get(c, Amarelos)); IllegalArgument
    else if !InRange(brancos) then assert !InRange(Get(c, Brancos)); IllegalArgument
    else if !InRange(coloridos) then assert !InRange(Get(c, Coloridos)); IllegalArgument
    else Success(c)
  }

  /** A validating setter of `CoresMilhoPorcentagem`. */
  function Set(c: CoresMilho, k: Campo, v: real): (r: Result<CoresMilho>)
    ensures r.Success? <==> 0.0 <= v <= 100.0
    ensures r.Success? ==> Get(r.value, k) == v && forall j :: j != k ==> Get(r.value, j) == Get(c, j)
    ensures r.Success? && Valida(c) ==> Valida(r.value)
  {
    if InRange(v) then Success(Put(c, k, v)) else IllegalArgument
  }

  /** The defaults are valid; the bounds are inclusive; the fields need not
      add up to 100; and a plain assignment can leave the range, which the
      validated setter refuses. */
  lemma CenariosDeCores()
    ensures Nova(0.0, 0.0, 0.0) == Success(Zeradas)
    ensures Nova(100.0, 100.0, 100.0).Success?
    ensures Nova(-0.0001, 50.0, 50.0).IllegalArgument?
    ensures Nova(50.0, 100.0001, 50.0).IllegalArgument?
    ensures !Valida(Put(Zeradas, Amarelos, 150.0))
    ensures Set(Zeradas, Amarelos, 150.0).IllegalArgument?
  {
  }
}
