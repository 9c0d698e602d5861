/** The soybean classifier `Soja`: a lot of grain plus its class sample
    (`CoresSoja`). The Type first checks the severe defects against the
    limit of the chosen group, then tries the tipo1, tipo2 and padrao
    tiers; the Class compares the yellow share with one minimum. */
module ClassificacaoSoja {
  import opened Wrappers
  import T = Tabelas
  import opened Defeitos
  import Amostras
  import opened DefeitosDaSoja
  import CoresDaSoja
  import Umidades

  datatype TipoSojaEnum = Tipo1 | Tipo2 | Padrao | ForaDeTipo | Desclassificado
  datatype GrupoSojaEnum = Grupo1 | Grupo2
  datatype ClasseSojaEnum = Amarela | Misturada

  datatype Soja = Soja(graos: Amostras.Graos, coresSoja: CoresDaSoja.CoresSoja)

  /** The defects and the impurity are Kotlin objects, hence valid, and so
      is the class sample. */
  predicate Classificavel(s: Soja) {
    Amostras.PercentuaisDefinidos(s.graos)
  }

  /** `mapearDefeitos`: each soybean defect overwrites the slot of its kind
      with its percentage, in list order; other kinds are skipped. The
      percentages lie in (0,100], so the validating setters never throw. */
  function MapearDefeitos(ds: seq<Defeito>): (t: DefeitosSoja)
    requires forall d :: d in ds ==> Valido(d)
    ensures Valida(t)
    decreases |ds|
  {
    if |ds| == 0 then Zerado
    else
      var init, ultimo := ds[..|ds| - 1], ds[|ds| - 1];
      assert forall d :: d in init ==> d in ds;
      var anterior := MapearDefeitos(init);
      match ultimo.tipo
      case DeSoja(k) =>
        var p := CalcularPorcentagem(ultimo);
        Put(anterior, k, p)
      case _ => anterior
  }

  /** Kinds that never occur in the list keep the default 0. */
  lemma {:induction false} MapeamentoZeraAusentes(ds: seq<Defeito>, k: DefeitoSoja)
    requires forall d :: d in ds ==> Valido(d)
    requires forall i :: 0 <= i < |ds| ==> ds[i].tipo != DeSoja(k)
    ensures Get(MapearDefeitos(ds), k) == 0.0
    decreases |ds|
  {
    if |ds| > 0 {
      var init := ds[..|ds| - 1];
      assert forall d :: d in init ==> d in ds;
      assert forall i :: 0 <= i < |init| ==> init[i] == ds[i];
      MapeamentoZeraAusentes(init, k);
    }
  }

  /** The slot of a kind holds the percentage of its last occurrence. */
  lemma {:induction false} MapeamentoGuardaAUltima(ds: seq<Defeito>, i: nat)
    requires forall d :: d in ds ==> Valido(d)
    requires i < |ds| && ds[i].tipo.DeSoja? && Amostras.UltimaDoTipo(ds, i)
    ensures Get(MapearDefeitos(ds), ds[i].tipo.soja) == CalcularPorcentagem(ds[i])
    decreases |ds|
  {
    var init := ds[..|ds| - 1];
    assert forall d :: d in init ==> d in ds;
    if i < |ds| - 1 {
      assert init[i] == ds[i];
      assert Amostras.UltimaDoTipo(init, i);
      MapeamentoGuardaAUltima(init, i);
    }
  }

  /** `verificarSeDoTipo`: the mapped record and the impurity percentage
      meet the seven limits of a tier, each with `<=`; the tier's group tag
      is not read. */
  predicate VerificarSeDoTipo(d: DefeitosSoja, porcentagemImpurezas: real, tipo: T.TipoSojaData) {
    && d.queimadosEmPorcentagem <= tipo.limiteQueimados
    && CalcularArdidosQueimadosEmPorcentagem(d) <= tipo.limiteArdidosQueimados
    && d.mofadosEmPorcentagem <= tipo.limiteMofados
    && CalcularAvariadosEmPorcentagem(d) <= tipo.limiteAvariados
    && d.esverdeadosEmPorcentagem <= tipo.limiteEsverdeados
    && d.partidosQuebradosAmassadosEmPorcentagem <= tipo.limitePartidosQuebradosAmassados
    && porcentagemImpurezas <= tipo.limiteImpurezas
  }

  /** The severe-defect limit of the chosen group: GRUPO_1 selects the
      Grupo1 limit, any other group the Grupo2 one. */
  function LimiteDeGraves(grupo: GrupoSojaEnum, tab: T.TabelaTipoSoja): real {
    if grupo == Grupo1 then tab.limiteForaDoTipo.limiteDefeitosGravesGrupo1
    else tab.limiteForaDoTipo.limiteDefeitosGravesGrupo2
  }

  /** `foiDesclassificado`: severe defects strictly above that limit. */
  predicate FoiDesclassificado(d: DefeitosSoja, grupo: GrupoSojaEnum, tab: T.TabelaTipoSoja) {
    CalcularDefeitosGravesEmPorcentagem(d) > LimiteDeGraves(grupo, tab)
  }

  /** The tiers in the order they are tried. */
  function Tier(tab: T.TabelaTipoSoja, i: nat): T.TipoSojaData
    requires i < 3
  {
    if i == 0 then tab.tipo1 else if i == 1 then tab.tipo2 else tab.padrao
  }

  /** The position of a tier result in the cascade, 3 for FORA_DE_TIPO. */
  function Posicao(r: TipoSojaEnum): nat {
    match r
    case Tipo1 => 0
    case Tipo2 => 1
    case Padrao => 2
    case ForaDeTipo => 3
    case Desclassificado => 3
  }

  /** DESCLASSIFICADO exactly on the gate; otherwise first match over the
      tiers, FORA_DE_TIPO when none holds. */
  predicate PrimeiroQueAtende(d: DefeitosSoja, p: real, grupo: GrupoSojaEnum, tab: T.TabelaTipoSoja, r: TipoSojaEnum) {
    && (r == Desclassificado <==> FoiDesclassificado(d, grupo, tab))
    && (r != Desclassificado ==>
          && (forall j :: 0 <= j < Posicao(r) && j < 3 ==> !VerificarSeDoTipo(d, p, Tier(tab, j)))
          && (Posicao(r) < 3 ==> VerificarSeDoTipo(d, p, Tier(tab, Posicao(r)))))
  }

  /** The cascade of `determinarTipo` once the defects are mapped. */
  function ClassificarTipo(d: DefeitosSoja, p: real, grupo: GrupoSojaEnum, tab: T.TabelaTipoSoja): (r: TipoSojaEnum)
    ensures PrimeiroQueAtende(d, p, grupo, tab, r)
  {
    if FoiDesclassificado(d, grupo, tab) then Desclassificado
    else if VerificarSeDoTipo(d, p, tab.tipo1) then Tipo1
    else if VerificarSeDoTipo(d, p, tab.tipo2) then Tipo2
    else if VerificarSeDoTipo(d, p, tab.padrao) then Padrao
    else ForaDeTipo
  }

  /** `determinarTipo`: a non-soybean table is rejected; otherwise the
      defects are mapped and the cascade runs on the mapped record and the
      impurity percentage. */
  function DeterminarTipo(s: Soja, tabela: T.TabelaTipo, grupo: GrupoSojaEnum): (r: Result<TipoSojaEnum>)
    requires Classificavel(s)
    ensures r.IllegalArgument? <==> !tabela.TipoDeSoja?
    ensures r.Success? ==>
              PrimeiroQueAtende(MapearDefeitos(s.graos.defeitos), CalcularPorcentagem(s.graos.impurezas),
                                grupo, tabela.soja, r.value)
  {
    if !tabela.TipoDeSoja? then IllegalArgument
    else Success(ClassificarTipo(MapearDefeitos(s.graos.defeitos), CalcularPorcentagem(s.graos.impurezas),
                                 grupo, tabela.soja))
  }

  /** A looser tier accepts whatever a stricter one accepts. */
  lemma VerificarSeDoTipoMonotono(d: DefeitosSoja, p: real, a: T.TipoSojaData, b: T.TipoSojaData)
    requires T.TipoSojaLe(a, b) && VerificarSeDoTipo(d, p, a)
    ensures VerificarSeDoTipo(d, p, b)
  {
  }

  /** With nested tiers, a sample that passes the gate is FORA_DE_TIPO
      exactly when it fails the padrao tier. */
  lemma ForaDeTipoSeFalhaPadrao(d: DefeitosSoja, p: real, grupo: GrupoSojaEnum, tab: T.TabelaTipoSoja)
    requires T.TabelaSojaAninhada(tab) && !FoiDesclassificado(d, grupo, tab)
    ensures ClassificarTipo(d, p, grupo, tab) == ForaDeTipo <==> !VerificarSeDoTipo(d, p, tab.padrao)
  {
    if VerificarSeDoTipo(d, p, tab.tipo1) {
      VerificarSeDoTipoMonotono(d, p, tab.tipo1, tab.tipo2);
      VerificarSeDoTipoMonotono(d, p, tab.tipo2, tab.padrao);
    } else if VerificarSeDoTipo(d, p, tab.tipo2) {
      VerificarSeDoTipoMonotono(d, p, tab.tipo2, tab.padrao);
    }
  }

  /** The group decides only the gate: with a Grupo1 limit not above the
      Grupo2 one, a Grupo2 disqualification is also a Grupo1 one, and a
      sample that passes both gates gets the same type under both groups. */
  lemma GrupoSoDecideOPortao(d: DefeitosSoja, p: real, tab: T.TabelaTipoSoja)
    requires tab.limiteForaDoTipo.limiteDefeitosGravesGrupo1 <= tab.limiteForaDoTipo.limiteDefeitosGravesGrupo2
    ensures ClassificarTipo(d, p, Grupo2, tab) == Desclassificado ==> ClassificarTipo(d, p, Grupo1, tab) == Desclassificado
    ensures ClassificarTipo(d, p, Grupo1, tab) != Desclassificado ==>
              ClassificarTipo(d, p, Grupo2, tab) == ClassificarTipo(d, p, Grupo1, tab)
  {
  }

  /** The group tag carried by each tier is never read: retagging the
      tiers does not change the result. */
  lemma GrupoDoTierIgnorado(d: DefeitosSoja, p: real, grupo: GrupoSojaEnum, tab: T.TabelaTipoSoja,
                            g1: T.GrupoSoja, g2: T.GrupoSoja, g3: T.GrupoSoja)
    ensures ClassificarTipo(d, p, grupo, tab.(tipo1 := tab.tipo1.(grupo := g1), tipo2 := tab.tipo2.(grupo := g2),
                                               padrao := tab.padrao.(grupo := g3)))
            == ClassificarTipo(d, p, grupo, tab)
  {
  }

  /** With the default table a sample is DESCLASSIFICADO exactly when its
      severe defects exceed 12% in Grupo1 or 40% in Grupo2, whatever the
      tiers say. */
  lemma DesclassificadoComTabelaPadrao(s: Soja, grupo: GrupoSojaEnum)
    requires Classificavel(s)
    ensures var g := CalcularDefeitosGravesEmPorcentagem(MapearDefeitos(s.graos.defeitos));
            DeterminarTipo(s, T.TipoDeSoja(T.TabelaTipoSojaPadrao), grupo).value == Desclassificado
            <==> (if grupo == Grupo1 then g > 12.0 else g > 40.0)
  {
  }

  /** `calcularPorcentagemAmarelos`: the yellow grains' share of the class
      sample, in percent. */
  function CalcularPorcentagemAmarelos(s: Soja): (r: real)
    requires s.coresSoja.amostraClasseEmGramas != 0.0
    ensures r * s.coresSoja.amostraClasseEmGramas == s.coresSoja.graosAmarelosEmGramas * 100.0
  {
    var a := s.coresSoja.amostraClasseEmGramas;
    assert (s.coresSoja.graosAmarelosEmGramas / a) * a == s.coresSoja.graosAmarelosEmGramas;
    (s.coresSoja.graosAmarelosEmGramas / a) * 100.0
  }

  /** `determinarClasse`: a non-soybean table is rejected; otherwise
      AMARELA when the yellow share reaches the minimum (`>=`), else
      MISTURADA. Cross-multiplied, the yellow grains must weigh at least
      the minimum share of the sample. */
  function DeterminarClasse(s: Soja, tabela: T.TabelaClasse): (r: Result<ClasseSojaEnum>)
    requires CoresDaSoja.Valida(s.coresSoja)
    requires tabela.ClasseDeSoja? ==> s.coresSoja.amostraClasseEmGramas != 0.0
    ensures r.IllegalArgument? <==> !tabela.ClasseDeSoja?
    ensures r.Success? ==>
              (r.value == Amarela <==>
                 s.coresSoja.graosAmarelosEmGramas * 100.0
                 >= tabela.soja.minimoGraosAmarelos * s.coresSoja.amostraClasseEmGramas)
  {
    if !tabela.ClasseDeSoja? then IllegalArgument
    else
      var p := CalcularPorcentagemAmarelos(s);
      MultiplicarPreservaOrdem(p, tabela.soja.minimoGraosAmarelos, s.coresSoja.amostraClasseEmGramas);
      if p >= tabela.soja.minimoGraosAmarelos then Success(Amarela) else Success(Misturada)
  }

  /** A sample as the soybean tests build it: 100 g of sample, 1000 kg,
      moisture 12% of 14%, 0.5 g of impurities in 100 g with a 1% limit,
      one MOFADOS and one QUEIMADOS measurement in 100 g, and a class
      sample of 100 g with 2 g of other colours. */
  function AmostraDeTeste(mofados: real, queimados: real, amarelos: real): Soja {
    Soja(
      Amostras.Graos(100.0, 1000.0, Umidades.Umidade(12.0, 14.0), Defeito(Impureza, 0.5, 100.0, 0.0, 1.0),
                     [Defeito(DeSoja(Mofados), mofados, 100.0, 0.0, 1.5), Defeito(DeSoja(Queimados), queimados, 100.0, 0.0, 1.0)]),
      CoresDaSoja.CoresSoja(100.0, amarelos, 2.0))
  }

  /** How the test defects map: mofados and queimados at their
      percentages, every other slot 0. */
  lemma MapeamentoDeTeste(mofados: real, queimados: real)
    requires 0.0 < mofados <= 100.0 && 0.0 < queimados <= 100.0
    ensures MapearDefeitos([Defeito(DeSoja(Mofados), mofados, 100.0, 0.0, 1.5),
                            Defeito(DeSoja(Queimados), queimados, 100.0, 0.0, 1.0)])
            == Zerado.(mofadosEmPorcentagem := mofados, queimadosEmPorcentagem := queimados)
  {
    var a := Defeito(DeSoja(Mofados), mofados, 100.0, 0.0, 1.5);
    var q := Defeito(DeSoja(Queimados), queimados, 100.0, 0.0, 1.0);
    assert [a, q][..1] == [a];
    assert [a][..0] == [];
    assert MapearDefeitos([a]) == Zerado.(mofadosEmPorcentagem := mofados);
  }

  /** The Grupo1 scenarios of the soybean tests with the default table:
      mofados and queimados at 7% disqualify, at 5% are FORA_DE_TIPO,
      1.4% and 0.9% are TIPO_2, 0.4% and 0.2% are TIPO_1. */
  lemma CenariosDoGrupo1()
    ensures DeterminarTipo(AmostraDeTeste(7.0, 7.0, 98.0), T.TipoDeSoja(T.TabelaTipoSojaPadrao), Grupo1)
            == Success(Desclassificado)
    ensures DeterminarTipo(AmostraDeTeste(5.0, 5.0, 98.0), T.TipoDeSoja(T.TabelaTipoSojaPadrao), Grupo1)
            == Success(ForaDeTipo)
    ensures DeterminarTipo(AmostraDeTeste(1.4, 0.9, 98.0), T.TipoDeSoja(T.TabelaTipoSojaPadrao), Grupo1)
            == Success(Tipo2)
    ensures DeterminarTipo(AmostraDeTeste(0.4, 0.2, 98.0), T.TipoDeSoja(T.TabelaTipoSojaPadrao), Grupo1)
            == Success(Tipo1)
  {
    MapeamentoDeTeste(7.0, 7.0);
    MapeamentoDeTeste(5.0, 5.0);
    MapeamentoDeTeste(1.4, 0.9);
    MapeamentoDeTeste(0.4, 0.2);
  }

  /** The Grupo2 and class scenarios: 21% and 21% disqualify, 7% and 2% are
      FORA_DE_TIPO, 5% and 0.5% are PADRAO; 91 g of yellow grains in 100 g
      are AMARELA, 89 g MISTURADA; a corn table is rejected. */
  lemma CenariosDoGrupo2EClasse()
    ensures DeterminarTipo(AmostraDeTeste(21.0, 21.0, 98.0), T.TipoDeSoja(T.TabelaTipoSojaPadrao), Grupo2)
            == Success(Desclassificado)
    ensures DeterminarTipo(AmostraDeTeste(7.0, 2.0, 98.0), T.TipoDeSoja(T.TabelaTipoSojaPadrao), Grupo2)
            == Success(ForaDeTipo)
    ensures DeterminarTipo(AmostraDeTeste(5.0, 0.5, 98.0), T.TipoDeSoja(T.TabelaTipoSojaPadrao), Grupo2)
            == Success(Padrao)
    ensures DeterminarClasse(AmostraDeTeste(5.0, 0.5, 91.0), T.ClasseDeSoja(T.TabelaClasseSojaPadrao))
            == Success(Amarela)
    ensures DeterminarClasse(AmostraDeTeste(5.0, 0.5, 89.0), T.ClasseDeSoja(T.TabelaClasseSojaPadrao))
            == Success(Misturada)
    ensures DeterminarClasse(AmostraDeTeste(5.0, 0.5, 91.0), T.ClasseDeMilho(T.TabelaClasseMilhoPadrao))
            == IllegalArgument
  {
    MapeamentoDeTeste(21.0, 21.0);
    MapeamentoDeTeste(7.0, 2.0);
    MapeamentoDeTeste(5.0, 0.5);
  }
}
