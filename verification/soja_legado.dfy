/** The older soybean classifier of the `model.graos` package. It keeps
    the class-sample weights as three plain fields instead of a
    `CoresSoja`, so nothing checks them; it maps into the unvalidated
    `DefeitosSoja`, and its results and the group come from the older
    enums. Its cascades are written out in its own terms and shown to
    agree with the newer classifier under the renaming of the results. */
module ClassificacaoSojaLegada {
  import opened Wrappers
  import T = Tabelas
  import opened Defeitos
  import Amostras
  import CoresDaSoja
  import DefeitosDaSoja
  import N = ClassificacaoSoja

  datatype TipoSoja = Tipo1 | Tipo2 | Padrao | ForaDeTipo | Desclassificado
  datatype ClasseSoja = Amarela | Misturada

  datatype SojaLegada = SojaLegada(
    graos: Amostras.Graos,
    amostraClasseEmGramas: real,
    graosAmarelosEmGramas: real,
    graosOutrasCoresEmGramas: real)

  /** The same sample as the newer class sees it. */
  function ComoNova(s: SojaLegada): N.Soja {
    N.Soja(s.graos, CoresDaSoja.CoresSoja(s.amostraClasseEmGramas, s.graosAmarelosEmGramas, s.graosOutrasCoresEmGramas))
  }

  function TipoNovo(t: TipoSoja): N.TipoSojaEnum {
    match t
    case Tipo1 => N.Tipo1
    case Tipo2 => N.Tipo2
    case Padrao => N.Padrao
    case ForaDeTipo => N.ForaDeTipo
    case Desclassificado => N.Desclassificado
  }

  function TipoLegado(t: N.TipoSojaEnum): TipoSoja {
    match t
    case Tipo1 => Tipo1
    case Tipo2 => Tipo2
    case Padrao => Padrao
    case ForaDeTipo => ForaDeTipo
    case Desclassificado => Desclassificado
  }

  /** The older group enum is the one the tiers are tagged with. */
  function GrupoNovo(g: T.GrupoSoja): N.GrupoSojaEnum {
    match g
    case Grupo1 => N.Grupo1
    case Grupo2 => N.Grupo2
  }

  function GrupoLegado(g: N.GrupoSojaEnum): T.GrupoSoja {
    match g
    case Grupo1 => T.Grupo1
    case Grupo2 => T.Grupo2
  }

  function ClasseNova(c: ClasseSoja): N.ClasseSojaEnum {
    match c
    case Amarela => N.Amarela
    case Misturada => N.Misturada
  }

  function ClasseLegada(c: N.ClasseSojaEnum): ClasseSoja {
    match c
    case Amarela => Amarela
    case Misturada => Misturada
  }

  /** The renamings each way are inverse to each other. */
  lemma RenomeacaoBijetora(t: TipoSoja, nt: N.TipoSojaEnum, g: T.GrupoSoja, ng: N.GrupoSojaEnum,
                           c: ClasseSoja, nc: N.ClasseSojaEnum)
    ensures TipoLegado(TipoNovo(t)) == t && TipoNovo(TipoLegado(nt)) == nt
    ensures GrupoLegado(GrupoNovo(g)) == g && GrupoNovo(GrupoLegado(ng)) == ng
    ensures ClasseLegada(ClasseNova(c)) == c && ClasseNova(ClasseLegada(nc)) == nc
  {
  }

  /** `determinarTipo` of the older class: reject a non-soybean table, map
      the defects, check the severe defects against the limit of the
      group (GRUPO_1 or any other), then the three tiers. It names the same
      result as the newer classifier. */
  function DeterminarTipo(s: SojaLegada, tabela: T.TabelaTipo, grupo: T.GrupoSoja): (r: Result<TipoSoja>)
    requires Amostras.PercentuaisDefinidos(s.graos)
    ensures r.IllegalArgument? <==> !tabela.TipoDeSoja?
    ensures r.Success? ==> N.DeterminarTipo(ComoNova(s), tabela, GrupoNovo(grupo)) == Success(TipoNovo(r.value))
  {
    if !tabela.TipoDeSoja? then IllegalArgument
    else
      var tab := tabela.soja;
      var d := N.MapearDefeitos(s.graos.defeitos);
      var p := CalcularPorcentagem(s.graos.impurezas);
      var limite := if grupo == T.Grupo1 then tab.limiteForaDoTipo.limiteDefeitosGravesGrupo1
                    else tab.limiteForaDoTipo.limiteDefeitosGravesGrupo2;
      if DefeitosDaSoja.CalcularDefeitosGravesEmPorcentagem(d) > limite then Success(Desclassificado)
      else if N.VerificarSeDoTipo(d, p, tab.tipo1) then Success(Tipo1)
      else if N.VerificarSeDoTipo(d, p, tab.tipo2) then Success(Tipo2)
      else if N.VerificarSeDoTipo(d, p, tab.padrao) then Success(Padrao)
      else Success(ForaDeTipo)
  }

  /** `determinarClasse` of the older class: the same comparison on the
      plain fields. As the fields are unchecked, agreement with the newer
      class is stated for the weights a `CoresSoja` accepts; for any
      weights the result is AMARELA exactly when the yellow percentage
      reaches the minimum. */
  function DeterminarClasse(s: SojaLegada, tabela: T.TabelaClasse): (r: Result<ClasseSoja>)
    requires tabela.ClasseDeSoja? ==> s.amostraClasseEmGramas != 0.0
    ensures r.IllegalArgument? <==> !tabela.ClasseDeSoja?
    ensures r.Success? ==>
              (r.value == Amarela <==> N.CalcularPorcentagemAmarelos(ComoNova(s)) >= tabela.soja.minimoGraosAmarelos)
    ensures r.Success? && CoresDaSoja.Valida(ComoNova(s).coresSoja) ==>
              N.DeterminarClasse(ComoNova(s), tabela) == Success(ClasseNova(r.value))
  {
    if !tabela.ClasseDeSoja? then IllegalArgument
    else if (s.graosAmarelosEmGramas / s.amostraClasseEmGramas) * 100.0 >= tabela.soja.minimoGraosAmarelos
    then Success(Amarela)
    else Success(Misturada)
  }

  /** With unchecked fields a negative class sample turns the comparison
      around: 95 g of yellow grains in a sample of -100 g are MISTURADA,
      -95 g in -100 g are AMARELA. The newer class rejects such weights. */
  lemma PesosNegativosInvertemAClasse(g: Amostras.Graos)
    ensures DeterminarClasse(SojaLegada(g, -100.0, 95.0, 0.0), T.ClasseDeSoja(T.TabelaClasseSojaPadrao))
            == Success(Misturada)
    ensures DeterminarClasse(SojaLegada(g, -100.0, -95.0, 0.0), T.ClasseDeSoja(T.TabelaClasseSojaPadrao))
            == Success(Amarela)
    ensures CoresDaSoja.Nova(-100.0, 95.0, 0.0).IllegalArgument?
  {
  }
}
