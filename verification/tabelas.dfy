/** The reference tables the classifiers read: per-tier type limits for
    corn and soybean, the soybean disqualification limits, and the class
    and group minimums, each with the defaults of its data class. */
module Tabelas {

  /** A type limit: a finite bound, or the positive infinity some corn
      limits default to, which every value meets. */
  datatype Limite = Ate(valor: real) | SemLimite

  /** `value <= limit`, with every value below infinity. */
  predicate Atende(v: real, l: Limite) {
    match l
    case Ate(x) => v <= x
    case SemLimite => true
  }

  /** `a <= b` between limits. */
  predicate LimiteLe(a: Limite, b: Limite) {
    b.SemLimite? || (a.Ate? && a.valor <= b.valor)
  }

  /** A value within a limit is within every larger one. */
  lemma AtendeMonotono(v: real, a: Limite, b: Limite)
    requires LimiteLe(a, b)
    ensures Atende(v, a) ==> Atende(v, b)
  {
  }

  datatype TipoMilhoData = TipoMilhoData(
    limiteArdidosQueimados: Limite,
    limiteAvariados: Limite,
    limiteQuebrados: Limite,
    limiteImpurezas: Limite,
    limiteCarunchados: Limite)

  /** Every limit of `a` is at most the same limit of `b`. */
  predicate TipoMilhoLe(a: TipoMilhoData, b: TipoMilhoData) {
    && LimiteLe(a.limiteArdidosQueimados, b.limiteArdidosQueimados)
    && LimiteLe(a.limiteAvariados, b.limiteAvariados)
    && LimiteLe(a.limiteQuebrados, b.limiteQuebrados)
    && LimiteLe(a.limiteImpurezas, b.limiteImpurezas)
    && LimiteLe(a.limiteCarunchados, b.limiteCarunchados)
  }

  datatype TabelaTipoMilho = TabelaTipoMilho(
    tipo1: TipoMilhoData,
    tipo2: TipoMilhoData,
    tipo3: TipoMilhoData,
    foraDeTipo: TipoMilhoData)

  const TabelaTipoMilhoPadrao: TabelaTipoMilho := TabelaTipoMilho(
    TipoMilhoData(Ate(1.0), Ate(6.0), Ate(3.0), Ate(1.0), Ate(2.0)),
    TipoMilhoData(Ate(2.0), Ate(10.0), Ate(4.0), Ate(1.5), Ate(3.0)),
    TipoMilhoData(Ate(3.0), Ate(15.0), Ate(5.0), Ate(2.0), Ate(4.0)),
    TipoMilhoData(Ate(5.0), Ate(20.0), SemLimite, SemLimite, Ate(8.0)))

  /** The tiers of a corn table loosen from tipo1 to foraDeTipo. */
  predicate TabelaMilhoAninhada(t: TabelaTipoMilho) {
    TipoMilhoLe(t.tipo1, t.tipo2) && TipoMilhoLe(t.tipo2, t.tipo3) && TipoMilhoLe(t.tipo3, t.foraDeTipo)
  }

  datatype GrupoSoja = Grupo1 | Grupo2

  datatype TipoSojaData = TipoSojaData(
    limiteArdidosQueimados: real,
    limiteQueimados: real,
    limiteMofados: real,
    limiteAvariados: real,
    limiteEsverdeados: real,
    limitePartidosQuebradosAmassados: real,
    limiteImpurezas: real,
    grupo: GrupoSoja)

  /** Every limit of `a` is at most the same limit of `b`; the group tag is
      not a limit. */
  predicate TipoSojaLe(a: TipoSojaData, b: TipoSojaData) {
    && a.limiteArdidosQueimados <= b.limiteArdidosQueimados
    && a.limiteQueimados <= b.limiteQueimados
    && a.limiteMofados <= b.limiteMofados
    && a.limiteAvariados <= b.limiteAvariados
    && a.limiteEsverdeados <= b.limiteEsverdeados
    && a.limitePartidosQuebradosAmassados <= b.limitePartidosQuebradosAmassados
    && a.limiteImpurezas <= b.limiteImpurezas
  }

  datatype LimiteForaDoTipoSoja = LimiteForaDoTipoSoja(
    limiteDefeitosGravesGrupo1: real,
    limiteDefeitosGravesGrupo2: real)

  datatype TabelaTipoSoja = TabelaTipoSoja(
    tipo1: TipoSojaData,
    tipo2: TipoSojaData,
    padrao: TipoSojaData,
    limiteForaDoTipo: LimiteForaDoTipoSoja)

  const TabelaTipoSojaPadrao: TabelaTipoSoja := TabelaTipoSoja(
    TipoSojaData(1.0, 0.3, 0.5, 4.0, 2.0, 8.0, 1.0, Grupo1),
    TipoSojaData(2.0, 1.0, 1.5, 6.0, 4.0, 15.0, 1.0, Grupo1),
    TipoSojaData(4.0, 1.0, 6.0, 8.0, 8.0, 30.0, 1.0, Grupo2),
    LimiteForaDoTipoSoja(12.0, 40.0))

  /** The tiers of a soybean table loosen from tipo1 to padrao. */
  predicate TabelaSojaAninhada(t: TabelaTipoSoja) {
    TipoSojaLe(t.tipo1, t.tipo2) && TipoSojaLe(t.tipo2, t.padrao)
  }

  /** A type table of either commodity; the classifiers reject the other one. */
  datatype TabelaTipo = TipoDeMilho(milho: TabelaTipoMilho) | TipoDeSoja(soja: TabelaTipoSoja)

  datatype TabelaClasseMilho = TabelaClasseMilho(
    minimoGraosAmarelos: real,
    minimoGraosBrancos: real,
    minimoGraosOutrasCores: real)

  const TabelaClasseMilhoPadrao: TabelaClasseMilho := TabelaClasseMilho(95.0, 95.0, 95.0)

  datatype TabelaClasseSoja = TabelaClasseSoja(minimoGraosAmarelos: real)

  const TabelaClasseSojaPadrao: TabelaClasseSoja := TabelaClasseSoja(90.0)

  /** A class table of either commodity. */
  datatype TabelaClasse = ClasseDeMilho(milho: TabelaClasseMilho) | ClasseDeSoja(soja: TabelaClasseSoja)

  datatype TabelaGrupoMilho = TabelaGrupoMilho(
    minimoGraosDuros: real,
    minimoGraosSemiduros: real,
    minimoGraosDentados: real)

  const TabelaGrupoMilhoPadrao: TabelaGrupoMilho := TabelaGrupoMilho(85.0, 85.0, 85.0)

  /** The default tables are nested tier by tier; the corn foraDeTipo tier
      leaves quebrados and impurities unbounded; the soybean tiers are
      tagged with groups but the disqualification limits grow from Grupo1
      to Grupo2. */
  lemma TabelasPadraoAninhadas()
    ensures TabelaMilhoAninhada(TabelaTipoMilhoPadrao)
    ensures TabelaSojaAninhada(TabelaTipoSojaPadrao)
    ensures TabelaTipoMilhoPadrao.foraDeTipo.limiteQuebrados == SemLimite
    ensures TabelaTipoMilhoPadrao.foraDeTipo.limiteImpurezas == SemLimite
    ensures TabelaTipoSojaPadrao.limiteForaDoTipo.limiteDefeitosGravesGrupo1
            < TabelaTipoSojaPadrao.limiteForaDoTipo.limiteDefeitosGravesGrupo2
  {
  }
}
