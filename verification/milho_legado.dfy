/** The older corn classifier of the `model.graos` package. Its class has
    the same fields, mapping, percentages and tier check as the newer one;
    it differs in the result enums (`TipoMilho`, `GrupoMilho`,
    `ClasseMilho` instead of the `...Enum` ones). Its three cascades are
    written out here in its own terms and shown to agree with the newer
    classifier under the renaming of the results. */
module ClassificacaoMilhoLegada {
  import opened Wrappers
  import opened Tabelas
  import opened Defeitos
  import N = ClassificacaoMilho

  datatype TipoMilho = Tipo1 | Tipo2 | Tipo3 | ForaDeTipo | Desclassificado
  datatype GrupoMilho = Duro | Semiduro | Dentado | Misturado
  datatype ClasseMilho = Amarela | Branca | Cor | Misturada

  /** The newer enum value with the same name. */
  function TipoNovo(t: TipoMilho): N.TipoMilhoEnum {
    match t
    case Tipo1 => N.Tipo1
    case Tipo2 => N.Tipo2
    case Tipo3 => N.Tipo3
    case ForaDeTipo => N.ForaDeTipo
    case Desclassificado => N.Desclassificado
  }

  function GrupoNovo(g: GrupoMilho): N.GrupoMilhoEnum {
    match g
    case Duro => N.Duro
    case Semiduro => N.Semiduro
    case Dentado => N.Dentado
    case Misturado => N.Misturado
  }

  function ClasseNova(c: ClasseMilho): N.ClasseMilhoEnum {
    match c
    case Amarela => N.Amarela
    case Branca => N.Branca
    case Cor => N.Cor
    case Misturada => N.Misturada
  }

  /** The legacy enum value with the same name. */
  function TipoLegado(t: N.TipoMilhoEnum): TipoMilho {
    match t
    case Tipo1 => Tipo1
    case Tipo2 => Tipo2
    case Tipo3 => Tipo3
    case ForaDeTipo => ForaDeTipo
    case Desclassificado => Desclassificado
  }

  function GrupoLegado(g: N.GrupoMilhoEnum): GrupoMilho {
    match g
    case Duro => Duro
    case Semiduro => Semiduro
    case Dentado => Dentado
    case Misturado => Misturado
  }

  function ClasseLegada(c: N.ClasseMilhoEnum): ClasseMilho {
    match c
    case Amarela => Amarela
    case Branca => Branca
    case Cor => Cor
    case Misturada => Misturada
  }

  /** The renamings each way are inverse to each other, so agreement under
      them loses nothing: each legacy result names exactly one newer result. */
  lemma RenomeacaoBijetora(t: TipoMilho, nt: N.TipoMilhoEnum, g: GrupoMilho, ng: N.GrupoMilhoEnum,
                           c: ClasseMilho, nc: N.ClasseMilhoEnum)
    ensures TipoLegado(TipoNovo(t)) == t && TipoNovo(TipoLegado(nt)) == nt
    ensures GrupoLegado(GrupoNovo(g)) == g && GrupoNovo(GrupoLegado(ng)) == ng
    ensures ClasseLegada(ClasseNova(c)) == c && ClasseNova(ClasseLegada(nc)) == nc
  {
  }

  /** `determinarTipo` of the older class: reject a non-corn table, map the
      defects, and try the four tiers in order. It names the same result
      as the newer classifier. */
  function DeterminarTipo(m: N.Milho, tabela: TabelaTipo): (r: Result<TipoMilho>)
    requires N.Classificavel(m)
    ensures r.IllegalArgument? <==> !tabela.TipoDeMilho?
    ensures r.Success? ==> N.DeterminarTipo(m, tabela) == Success(TipoNovo(r.value))
  {
    if !tabela.TipoDeMilho? then IllegalArgument
    else
      var tab := tabela.milho;
      var d := N.MapearDefeitos(m.graos.defeitos);
      var p := CalcularPorcentagem(m.graos.impurezas);
      if N.VerificarSeDoTipo(d, p, tab.tipo1) then Success(Tipo1)
      else if N.VerificarSeDoTipo(d, p, tab.tipo2) then Success(Tipo2)
      else if N.VerificarSeDoTipo(d, p, tab.tipo3) then Success(Tipo3)
      else if N.VerificarSeDoTipo(d, p, tab.foraDeTipo) then Success(ForaDeTipo)
      else Success(Desclassificado)
  }

  /** `determinarGrupo` of the older class, strict `>` in the same order. */
  function DeterminarGrupo(m: N.Milho, tab: TabelaGrupoMilho): (r: GrupoMilho)
    requires m.amostraGrupoEmGramas != 0.0
    ensures N.DeterminarGrupo(m, tab) == GrupoNovo(r)
  {
    var c := N.CalcularPorcentagensConsistencia(m);
    if c.duroEmPorcentagem > tab.minimoGraosDuros then Duro
    else if c.semiduroEmPorcentagem > tab.minimoGraosSemiduros then Semiduro
    else if c.dentadoEmPorcentagem > tab.minimoGraosDentados then Dentado
    else Misturado
  }

  /** `determinarClasse` of the older class, `>=` in the same order. */
  function DeterminarClasse(m: N.Milho, tabela: TabelaClasse): (r: Result<ClasseMilho>)
    requires tabela.ClasseDeMilho? ==> m.amostraClasseEmGramas != 0.0
    ensures r.IllegalArgument? <==> !tabela.ClasseDeMilho?
    ensures r.Success? ==> N.DeterminarClasse(m, tabela) == Success(ClasseNova(r.value))
  {
    if !tabela.ClasseDeMilho? then IllegalArgument
    else
      var tab := tabela.milho;
      var c := N.CalcularPorcentagensCores(m);
      if c.amarelosEmPorcentagem >= tab.minimoGraosAmarelos then Success(Amarela)
      else if c.brancosEmPorcentagem >= tab.minimoGraosBrancos then Success(Branca)
      else if c.coloridosEmPorcentagem >= tab.minimoGraosOutrasCores then Success(Cor)
      else Success(Misturada)
  }
}
