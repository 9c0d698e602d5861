/** `CoresSoja`: the gram weights of the soybean class sample and of its
    yellow and other-coloured grains. Every field must be non-negative;
    zero is accepted, and no relation between the sample and its parts is
    checked. */
module CoresDaSoja {
  import opened Wrappers

  datatype Campo = AmostraClasse | GraosAmarelos | GraosOutrasCores

  datatype CoresSoja = CoresSoja(
    amostraClasseEmGramas: real,
    graosAmarelosEmGramas: real,
    graosOutrasCoresEmGramas: real)

  function Get(c: CoresSoja, k: Campo): real {
    match k
    case AmostraClasse => c.amostraClasseEmGramas
    case GraosAmarelos => c.graosAmarelosEmGramas
    case GraosOutrasCores => c.graosOutrasCoresEmGramas
  }

  /** `isPositive`, which in this class means "not negative". */
  predicate IsPositive(v: real) {
    v >= 0.0
  }

  /** The invariant the `init` block establishes and the setters keep. */
  predicate Valida(c: CoresSoja) {
    IsPositive(c.amostraClasseEmGramas) && IsPositive(c.graosAmarelosEmGramas)
    && IsPositive(c.graosOutrasCoresEmGramas)
  }

  function Nova(amostra: real, amarelos: real, outras: real): (r: Result<CoresSoja>)
    ensures r.Success? <==> forall k :: Get(CoresSoja(amostra, amarelos, outras), k) >= 0.0
    ensures r.Success? ==> r.value == CoresSoja(amostra, amarelos, outras)
  {
    var c := CoresSoja(amostra, amarelos, outras);
    if !IsPositive(amostra) then assert Get(c, AmostraClasse) < 0.0; IllegalArgument
    else if !IsPositive(amarelos) then assert Get(c, GraosAmarelos) < 0.0; IllegalArgument
    else if !IsPositive(outras) then assert Get(c, GraosOutrasCores) < 0.0; IllegalArgument
    else Success(c)
  }

  /** A validating setter: rejects a negative value, otherwise stores exactly
      its own field. */
  function Set(c: CoresSoja, k: Campo, v: real): (r: Result<CoresSoja>)
    ensures r.Success? <==> v >= 0.0
    ensures r.Success? ==> Get(r.value, k) == v && forall j :: j != k ==> Get(r.value, j) == Get(c, j)
    ensures r.Success? && Valida(c) ==> Valida(r.value)
  {
    if !IsPositive(v) then IllegalArgument
    else
      match k
      case AmostraClasse => Success(c.(amostraClasseEmGramas := v))
      case GraosAmarelos => Success(c.(graosAmarelosEmGramas := v))
      case GraosOutrasCores => Success(c.(graosOutrasCoresEmGramas := v))
  }

  /** A zero class sample is accepted, as are more yellow grams than the
      sample holds; a negative weight is refused. */
  lemma CenariosDeCoresSoja()
    ensures Nova(0.0, 0.0, 0.0).Success?
    ensures Nova(100.0, 150.0, 0.0).Success?
    ensures Nova(-1.0, 10.0, 10.0).IllegalArgument?
    ensures Set(CoresSoja(100.0, 90.0, 10.0), GraosAmarelos, -0.5).IllegalArgument?
  {
  }
}
