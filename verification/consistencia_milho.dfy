/** Corn consistency percentages (hard, semi-hard, dented). The validated
    class `ConsistenciaMilhoPorcentagem` and the record `ConsistenciaMilho`
    have the same three fields, defaults and `init` checks, so they share
    one datatype: the first re-checks every assignment (`Set`), the second
    is a data class whose later assignments are unchecked (`Put`). */
module ConsistenciasDoMilho {
  import opened Wrappers

  datatype Campo = Duro | Semiduro | Dentado

  datatype ConsistenciaMilho = ConsistenciaMilho(
    duroEmPorcentagem: real,
    semiduroEmPorcentagem: real,
    dentadoEmPorcentagem: real)

  /** The record built with every default argument. */
  const Zerada: ConsistenciaMilho := ConsistenciaMilho(0.0, 0.0, 0.0)

  function Get(c: ConsistenciaMilho, k: Campo): real {
    match k
    case Duro => c.duroEmPorcentagem
    case Semiduro => c.semiduroEmPorcentagem
    case Dentado => c.dentadoEmPorcentagem
  }

  /** Plain assignment of one field, as the data class does it. */
  function Put(c: ConsistenciaMilho, k: Campo, v: real): (r: ConsistenciaMilho)
    ensures Get(r, k) == v
    ensures forall j :: j != k ==> Get(r, j) == Get(c, j)
  {
    match k
    case Duro => c.(duroEmPorcentagem := v)
    case Semiduro => c.(semiduroEmPorcentagem := v)
    case Dentado => c.(dentadoEmPorcentagem := v)
  }

  /** What the `init` block checks: each field in [0,100]. */
  predicate Valida(c: ConsistenciaMilho) {
    InRange(c.duroEmPorcentagem) && InRange(c.semiduroEmPorcentagem) && InRange(c.dentadoEmPorcentagem)
  }

  /** Construction with the `init` checks; no relation between the three
      fields is required, in particular they need not add up to 100. */
  function Nova(duro: real, semiduro: real, dentado: real): (r: Result<ConsistenciaMilho>)
    ensures r.Success? <==> forall k :: 0.0 <= Get(ConsistenciaMilho(duro, semiduro, dentado), k) <= 100.0
    ensures r.Success? ==> r.value == ConsistenciaMilho(duro, semiduro, dentado)
  {
    var c := ConsistenciaMilho(duro, semiduro, dentado);
    if !InRange(duro) then assert !InRange(Get(c, Duro)); IllegalArgument
    else if !InRange(semiduro) then assert !InRange(Get(c, Semiduro)); IllegalArgument
    else if !InRange(dentado) then assert !InRange(Get(c, Dentado)); IllegalArgument
    else Success(c)
  }

  /** A validating setter of `ConsistenciaMilhoPorcentagem`. */
  function Set(c: ConsistenciaMilho, k: Campo, v: real): (r: Result<ConsistenciaMilho>)
    ensures r.Success? <==> 0.0 <= v <= 100.0
    ensures r.Success? ==> Get(r.value, k) == v && forall j :: j != k ==> Get(r.value, j) == Get(c, j)
    ensures r.Success? && Valida(c) ==> Valida(r.value)
  {
    if InRange(v) then Success(Put(c, k, v)) else IllegalArgument
  }

  /** The defaults are valid; the bounds are inclusive; the fields need not
      add up to 100; and a plain assignment can leave the range, which the
      validated setter refuses. */
  lemma CenariosDeConsistencia()
    ensures Nova(0.0, 0.0, 0.0) == Success(Zerada)
    ensures Nova(100.0, 100.0, 100.0).Success?
    ensures Nova(-0.0001, 50.0, 50.0).IllegalArgument?
    ensures Nova(50.0, 100.0001, 50.0).IllegalArgument?
    ensures !Valida(Put(Zerada, Duro, 150.0))
    ensures Set(Zerada, Duro, 150.0).IllegalArgument?
  {
  }
}
