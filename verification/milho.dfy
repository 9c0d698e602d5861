/** The corn classifier `Milho`: a lot of grain plus the gram weights of
    the group (consistency) and class (colour) samples. It maps the lot's
    defects into a corn defect record and from there decides the Type; the
    Group and the Class come from the consistency and colour percentages. */
module ClassificacaoMilho {
  import opened Wrappers
  import opened Tabelas
  import opened Defeitos
  import Amostras
  import opened DefeitosDoMilho
  import ConsistenciasDoMilho
  import CoresDoMilho
  import Umidades

  datatype TipoMilhoEnum = Tipo1 | Tipo2 | Tipo3 | ForaDeTipo | Desclassificado
  datatype GrupoMilhoEnum = Duro | Semiduro | Dentado | Misturado
  datatype ClasseMilhoEnum = Amarela | Branca | Cor | Misturada

  datatype Milho = Milho(
    graos: Amostras.Graos,
    amostraGrupoEmGramas: real,
    graosDurosEmGramas: real,
    graosSemidurosEmGramas: real,
    graosDentadosEmGramas: real,
    amostraClasseEmGramas: real,
    graosAmarelosEmGramas: real,
    graosBrancosEmGramas: real,
    graosColoridosEmGramas: real)

  /** The defects and the impurity are Kotlin objects, hence valid: their
      percentages are defined. */
  predicate Classificavel(m: Milho) {
    Amostras.PercentuaisDefinidos(m.graos)
  }

  /** `mapearDefeitos`: each corn defect overwrites the slot of its kind
      with its percentage, in list order; other kinds are skipped. The
      percentages lie in (0,100], so the validating setters never throw. */
  function MapearDefeitos(ds: seq<Defeito>): (t: DefeitosMilho)
    requires forall d :: d in ds ==> Valido(d)
    ensures Valida(t)
    decreases |ds|
  {
    if |ds| == 0 then Zerado
    else
      var init, ultimo := ds[..|ds| - 1], ds[|ds| - 1];
      assert forall d :: d in init ==> d in ds;
      var anterior := MapearDefeitos(init);
      match ultimo.tipo
      case DeMilho(k) =>
        var p := CalcularPorcentagem(ultimo);
        Put(anterior, k, p)
      case _ => anterior
  }

  /** Kinds that never occur in the list keep the default 0. */
  lemma {:induction false} MapeamentoZeraAusentes(ds: seq<Defeito>, k: DefeitoMilho)
    requires forall d :: d in ds ==> Valido(d)
    requires forall i :: 0 <= i < |ds| ==> ds[i].tipo != DeMilho(k)
    ensures Get(MapearDefeitos(ds), k) == 0.0
    decreases |ds|
  {
    if |ds| > 0 {
      var init := ds[..|ds| - 1];
      assert forall d :: d in init ==> d in ds;
      assert forall i :: 0 <= i < |init| ==> init[i] == ds[i];
      MapeamentoZeraAusentes(init, k);
    }
  }

  /** The slot of a kind holds the percentage of its last occurrence. */
  lemma {:induction false} MapeamentoGuardaAUltima(ds: seq<Defeito>, i: nat)
    requires forall d :: d in ds ==> Valido(d)
    requires i < |ds| && ds[i].tipo.DeMilho? && Amostras.UltimaDoTipo(ds, i)
    ensures Get(MapearDefeitos(ds), ds[i].tipo.milho) == CalcularPorcentagem(ds[i])
    decreases |ds|
  {
    var init := ds[..|ds| - 1];
    assert forall d :: d in init ==> d in ds;
    if i < |ds| - 1 {
      assert init[i] == ds[i];
      assert Amostras.UltimaDoTipo(init, i);
      MapeamentoGuardaAUltima(init, i);
    }
  }

  /** `verificarSeDoTipo`: the mapped record and the impurity percentage
      meet all five limits of a tier (each a non-strict `<=`). */
  predicate VerificarSeDoTipo(d: DefeitosMilho, porcentagemImpurezas: real, tipo: TipoMilhoData) {
    && Atende(d.ardidosEmPorcentagem, tipo.limiteArdidosQueimados)
    && Atende(CalcularAvariadosEmPorcentagem(d), tipo.limiteAvariados)
    && Atende(d.quebradosEmPorcentagem, tipo.limiteQuebrados)
    && Atende(porcentagemImpurezas, tipo.limiteImpurezas)
    && Atende(d.carunchadosEmPorcentagem, tipo.limiteCarunchados)
  }

  /** The tiers in the order they are tried. */
  function Tier(tab: TabelaTipoMilho, i: nat): TipoMilhoData
    requires i < 4
  {
    if i == 0 then tab.tipo1 else if i == 1 then tab.tipo2 else if i == 2 then tab.tipo3 else tab.foraDeTipo
  }

  /** The position of a result in the cascade: the tier that gives it, or 4
      for the terminal fallback. */
  function Posicao(r: TipoMilhoEnum): nat {
    match r
    case Tipo1 => 0
    case Tipo2 => 1
    case Tipo3 => 2
    case ForaDeTipo => 3
    case Desclassificado => 4
  }

  /** First match: every tier before the result's position fails, and the
      tier at that position, if any, holds. */
  predicate PrimeiroQueAtende(d: DefeitosMilho, p: real, tab: TabelaTipoMilho, r: TipoMilhoEnum) {
    && (forall j :: 0 <= j < Posicao(r) && j < 4 ==> !VerificarSeDoTipo(d, p, Tier(tab, j)))
    && (Posicao(r) < 4 ==> VerificarSeDoTipo(d, p, Tier(tab, Posicao(r))))
  }

  /** The cascade of `determinarTipo` once the defects are mapped: the
      first tier met, or DESCLASSIFICADO when none is. */
  function ClassificarTipo(d: DefeitosMilho, p: real, tab: TabelaTipoMilho): (r: TipoMilhoEnum)
    ensures PrimeiroQueAtende(d, p, tab, r)
  {
    if VerificarSeDoTipo(d, p, tab.tipo1) then Tipo1
    else if VerificarSeDoTipo(d, p, tab.tipo2) then Tipo2
    else if VerificarSeDoTipo(d, p, tab.tipo3) then Tipo3
    else if VerificarSeDoTipo(d, p, tab.foraDeTipo) then ForaDeTipo
    else Desclassificado
  }

  /** `determinarTipo`: a non-corn table is rejected; otherwise the defects
      are mapped and the cascade runs on the mapped record and the impurity
      percentage. */
  function DeterminarTipo(m: Milho, tabela: TabelaTipo): (r: Result<TipoMilhoEnum>)
    requires Classificavel(m)
    ensures r.IllegalArgument? <==> !tabela.TipoDeMilho?
    ensures r.Success? ==>
              PrimeiroQueAtende(MapearDefeitos(m.graos.defeitos), CalcularPorcentagem(m.graos.impurezas),
                                tabela.milho, r.value)
  {
    if !tabela.TipoDeMilho? then IllegalArgument
    else Success(ClassificarTipo(MapearDefeitos(m.graos.defeitos), CalcularPorcentagem(m.graos.impurezas), tabela.milho))
  }

  /** First match determines the result: two results that both satisfy it
      are equal. */
  lemma PrimeiroQueAtendeUnico(d: DefeitosMilho, p: real, tab: TabelaTipoMilho, r1: TipoMilhoEnum, r2: TipoMilhoEnum)
    requires PrimeiroQueAtende(d, p, tab, r1) && PrimeiroQueAtende(d, p, tab, r2)
    ensures r1 == r2
  {
  }

  /** A looser tier accepts whatever a stricter one accepts. */
  lemma VerificarSeDoTipoMonotono(d: DefeitosMilho, p: real, a: TipoMilhoData, b: TipoMilhoData)
    requires TipoMilhoLe(a, b) && VerificarSeDoTipo(d, p, a)
    ensures VerificarSeDoTipo(d, p, b)
  {
  }

  /** With nested tiers, meeting tier `i` puts the result at position `i`
      or earlier. */
  lemma TiersAninhadosLimitamOResultado(d: DefeitosMilho, p: real, tab: TabelaTipoMilho, i: nat)
    requires TabelaMilhoAninhada(tab) && i < 4
    requires VerificarSeDoTipo(d, p, Tier(tab, i))
    ensures Posicao(ClassificarTipo(d, p, tab)) <= i
  {
  }

  /** With nested tiers, DESCLASSIFICADO is exactly "fails foraDeTipo". */
  lemma DesclassificadoSeFalhaForaDeTipo(d: DefeitosMilho, p: real, tab: TabelaTipoMilho)
    requires TabelaMilhoAninhada(tab)
    ensures ClassificarTipo(d, p, tab) == Desclassificado <==> !VerificarSeDoTipo(d, p, tab.foraDeTipo)
  {
    if VerificarSeDoTipo(d, p, tab.foraDeTipo) {
      TiersAninhadosLimitamOResultado(d, p, tab, 3);
    }
  }

  /** With the default table a sample is DESCLASSIFICADO exactly when
      ardidos exceeds 5, avariados exceeds 20 or carunchados exceeds 8:
      quebrados and impurities are unbounded in the last tier. */
  lemma DesclassificadoComTabelaPadrao(m: Milho)
    requires Classificavel(m)
    ensures var d := MapearDefeitos(m.graos.defeitos);
            DeterminarTipo(m, TipoDeMilho(TabelaTipoMilhoPadrao)).value == Desclassificado
            <==> d.ardidosEmPorcentagem > 5.0 || CalcularAvariadosEmPorcentagem(d) > 20.0
                 || d.carunchadosEmPorcentagem > 8.0
  {
    DesclassificadoNaTabelaPadrao(MapearDefeitos(m.graos.defeitos), CalcularPorcentagem(m.graos.impurezas));
  }

  /** The same, on the mapped record and the impurity percentage. */
  lemma DesclassificadoNaTabelaPadrao(d: DefeitosMilho, p: real)
    ensures ClassificarTipo(d, p, TabelaTipoMilhoPadrao) == Desclassificado
            <==> d.ardidosEmPorcentagem > 5.0 || CalcularAvariadosEmPorcentagem(d) > 20.0
                 || d.carunchadosEmPorcentagem > 8.0
  {
    TabelasPadraoAninhadas();
    DesclassificadoSeFalhaForaDeTipo(d, p, TabelaTipoMilhoPadrao);
  }

  /** `x / todo * 100` times `todo` gives back `x * 100`. */
  lemma PorcentagemCruzada(x: real, todo: real)
    requires todo != 0.0
    ensures (x / todo) * 100.0 * todo == x * 100.0
  {
    assert (x / todo) * todo == x;
  }

  /** The gram weight behind each consistency percentage. */
  function GramasDeConsistencia(m: Milho, k: ConsistenciasDoMilho.Campo): real {
    match k
    case Duro => m.graosDurosEmGramas
    case Semiduro => m.graosSemidurosEmGramas
    case Dentado => m.graosDentadosEmGramas
  }

  /** `calcularPorcentagensConsistencia`: a default record whose fields are
      then assigned without checks, each the share of its grams in the
      group sample, in percent. */
  function CalcularPorcentagensConsistencia(m: Milho): (c: ConsistenciasDoMilho.ConsistenciaMilho)
    requires m.amostraGrupoEmGramas != 0.0
    ensures forall k :: ConsistenciasDoMilho.Get(c, k) * m.amostraGrupoEmGramas == GramasDeConsistencia(m, k) * 100.0
  {
    var a := m.amostraGrupoEmGramas;
    PorcentagemCruzada(m.graosDurosEmGramas, a);
    PorcentagemCruzada(m.graosSemidurosEmGramas, a);
    PorcentagemCruzada(m.graosDentadosEmGramas, a);
    var c := ConsistenciasDoMilho.Put(ConsistenciasDoMilho.Zerada, ConsistenciasDoMilho.Duro, (m.graosDurosEmGramas / a) * 100.0);
    var c := ConsistenciasDoMilho.Put(c, ConsistenciasDoMilho.Semiduro, (m.graosSemidurosEmGramas / a) * 100.0);
    ConsistenciasDoMilho.Put(c, ConsistenciasDoMilho.Dentado, (m.graosDentadosEmGramas / a) * 100.0)
  }

  /** The gram weight behind each colour percentage. */
  function GramasDeCor(m: Milho, k: CoresDoMilho.Campo): real {
    match k
    case Amarelos => m.graosAmarelosEmGramas
    case Brancos => m.graosBrancosEmGramas
    case Coloridos => m.graosColoridosEmGramas
  }

  /** `calcularPorcentagensCores`, the same over the class sample. */
  function CalcularPorcentagensCores(m: Milho): (c: CoresDoMilho.CoresMilho)
    requires m.amostraClasseEmGramas != 0.0
    ensures forall k :: CoresDoMilho.Get(c, k) * m.amostraClasseEmGramas == GramasDeCor(m, k) * 100.0
  {
    var a := m.amostraClasseEmGramas;
    PorcentagemCruzada(m.graosAmarelosEmGramas, a);
    PorcentagemCruzada(m.graosBrancosEmGramas, a);
    PorcentagemCruzada(m.graosColoridosEmGramas, a);
    var c := CoresDoMilho.Put(CoresDoMilho.Zeradas, CoresDoMilho.Amarelos, (m.graosAmarelosEmGramas / a) * 100.0);
    var c := CoresDoMilho.Put(c, CoresDoMilho.Brancos, (m.graosBrancosEmGramas / a) * 100.0);
    CoresDoMilho.Put(c, CoresDoMilho.Coloridos, (m.graosColoridosEmGramas / a) * 100.0)
  }

  /** The percentage records are filled without checks, so they are valid
      records only when every part lies between 0 and the sample. */
  lemma PorcentagensValidasSeAsPartesCabemNaAmostra(m: Milho)
    requires m.amostraGrupoEmGramas > 0.0 && m.amostraClasseEmGramas > 0.0
    ensures ConsistenciasDoMilho.Valida(CalcularPorcentagensConsistencia(m))
            <==> forall k :: 0.0 <= GramasDeConsistencia(m, k) <= m.amostraGrupoEmGramas
    ensures CoresDoMilho.Valida(CalcularPorcentagensCores(m))
            <==> forall k :: 0.0 <= GramasDeCor(m, k) <= m.amostraClasseEmGramas
  {
    var c := CalcularPorcentagensConsistencia(m);
    forall k: ConsistenciasDoMilho.Campo
      ensures 0.0 <= ConsistenciasDoMilho.Get(c, k) <= 100.0
              <==> 0.0 <= GramasDeConsistencia(m, k) <= m.amostraGrupoEmGramas
    {
      EscalaPreservaFaixa(ConsistenciasDoMilho.Get(c, k), GramasDeConsistencia(m, k), m.amostraGrupoEmGramas);
    }
    assert ConsistenciasDoMilho.Valida(c) <==> forall k :: 0.0 <= ConsistenciasDoMilho.Get(c, k) <= 100.0 by {
      assert ConsistenciasDoMilho.Get(c, ConsistenciasDoMilho.Duro) == c.duroEmPorcentagem;
      assert ConsistenciasDoMilho.Get(c, ConsistenciasDoMilho.Semiduro) == c.semiduroEmPorcentagem;
      assert ConsistenciasDoMilho.Get(c, ConsistenciasDoMilho.Dentado) == c.dentadoEmPorcentagem;
    }
    var e := CalcularPorcentagensCores(m);
    forall k: CoresDoMilho.Campo
      ensures 0.0 <= CoresDoMilho.Get(e, k) <= 100.0 <==> 0.0 <= GramasDeCor(m, k) <= m.amostraClasseEmGramas
    {
      EscalaPreservaFaixa(CoresDoMilho.Get(e, k), GramasDeCor(m, k), m.amostraClasseEmGramas);
    }
    assert CoresDoMilho.Valida(e) <==> forall k :: 0.0 <= CoresDoMilho.Get(e, k) <= 100.0 by {
      assert CoresDoMilho.Get(e, CoresDoMilho.Amarelos) == e.amarelosEmPorcentagem;
      assert CoresDoMilho.Get(e, CoresDoMilho.Brancos) == e.brancosEmPorcentagem;
      assert CoresDoMilho.Get(e, CoresDoMilho.Coloridos) == e.coloridosEmPorcentagem;
    }
  }

  /** A percentage `p` with `p * a == x * 100` lies in [0,100] exactly when
      `x` lies in [0,a]. */
  lemma EscalaPreservaFaixa(p: real, x: real, a: real)
    requires a > 0.0 && p * a == x * 100.0
    ensures 0.0 <= p <= 100.0 <==> 0.0 <= x <= a
  {
    MultiplicarPreservaOrdem(p, 0.0, a);
    MultiplicarPreservaOrdem(100.0, p, a);
    MultiplicarPreservaOrdem(x, 0.0, 100.0);
    MultiplicarPreservaOrdem(a, x, 100.0);
    assert 0.0 * a == 0.0 && 0.0 * 100.0 == 0.0;
    assert 100.0 * a == a * 100.0;
    assert p < 0.0 <==> x < 0.0;
    assert 100.0 < p <==> a < x;
  }

  /** The groups in the order they are tried, each with the consistency
      field it reads and the minimum it must strictly exceed. */
  function OrdemGrupo(g: GrupoMilhoEnum): nat {
    match g
    case Duro => 0
    case Semiduro => 1
    case Dentado => 2
    case Misturado => 3
  }

  function ConsistenciaNaOrdem(i: nat): ConsistenciasDoMilho.Campo
    requires i < 3
  {
    if i == 0 then ConsistenciasDoMilho.Duro else if i == 1 then ConsistenciasDoMilho.Semiduro
    else ConsistenciasDoMilho.Dentado
  }

  function MinimoDoGrupo(tab: TabelaGrupoMilho, k: ConsistenciasDoMilho.Campo): real {
    match k
    case Duro => tab.minimoGraosDuros
    case Semiduro => tab.minimoGraosSemiduros
    case Dentado => tab.minimoGraosDentados
  }

  predicate QualificaGrupo(c: ConsistenciasDoMilho.ConsistenciaMilho, tab: TabelaGrupoMilho, i: nat)
    requires i < 3
  {
    ConsistenciasDoMilho.Get(c, ConsistenciaNaOrdem(i)) > MinimoDoGrupo(tab, ConsistenciaNaOrdem(i))
  }

  /** First match over the groups with strict `>`, MISTURADO when none qualifies. */
  predicate PrimeiroGrupo(c: ConsistenciasDoMilho.ConsistenciaMilho, tab: TabelaGrupoMilho, g: GrupoMilhoEnum) {
    && (forall j :: 0 <= j < OrdemGrupo(g) && j < 3 ==> !QualificaGrupo(c, tab, j))
    && (OrdemGrupo(g) < 3 ==> QualificaGrupo(c, tab, OrdemGrupo(g)))
  }

  /** `determinarGrupo`: no commodity guard; DURO, SEMIDURO, DENTADO by
      strict `>` in that order, else MISTURADO. */
  function DeterminarGrupo(m: Milho, tab: TabelaGrupoMilho): (r: GrupoMilhoEnum)
    requires m.amostraGrupoEmGramas != 0.0
    ensures PrimeiroGrupo(CalcularPorcentagensConsistencia(m), tab, r)
  {
    var c := CalcularPorcentagensConsistencia(m);
    if c.duroEmPorcentagem > tab.minimoGraosDuros then Duro
    else if c.semiduroEmPorcentagem > tab.minimoGraosSemiduros then Semiduro
    else if c.dentadoEmPorcentagem > tab.minimoGraosDentados then Dentado
    else Misturado
  }

  /** The classes in the order they are tried, each with the colour field it
      reads and the minimum it must reach. */
  function OrdemClasse(c: ClasseMilhoEnum): nat {
    match c
    case Amarela => 0
    case Branca => 1
    case Cor => 2
    case Misturada => 3
  }

  function CorNaOrdem(i: nat): CoresDoMilho.Campo
    requires i < 3
  {
    if i == 0 then CoresDoMilho.Amarelos else if i == 1 then CoresDoMilho.Brancos else CoresDoMilho.Coloridos
  }

  function MinimoDaClasse(tab: TabelaClasseMilho, k: CoresDoMilho.Campo): real {
    match k
    case Amarelos => tab.minimoGraosAmarelos
    case Brancos => tab.minimoGraosBrancos
    case Coloridos => tab.minimoGraosOutrasCores
  }

  predicate QualificaClasse(c: CoresDoMilho.CoresMilho, tab: TabelaClasseMilho, i: nat)
    requires i < 3
  {
    CoresDoMilho.Get(c, CorNaOrdem(i)) >= MinimoDaClasse(tab, CorNaOrdem(i))
  }

  /** First match over the classes with `>=`, MISTURADA when none qualifies. */
  predicate PrimeiraClasse(c: CoresDoMilho.CoresMilho, tab: TabelaClasseMilho, r: ClasseMilhoEnum) {
    && (forall j :: 0 <= j < OrdemClasse(r) && j < 3 ==> !QualificaClasse(c, tab, j))
    && (OrdemClasse(r) < 3 ==> QualificaClasse(c, tab, OrdemClasse(r)))
  }

  /** `determinarClasse`: a non-corn table is rejected before any
      percentage is computed; otherwise AMARELA, BRANCA, COR by `>=` in
      that order, else MISTURADA. */
  function DeterminarClasse(m: Milho, tabela: TabelaClasse): (r: Result<ClasseMilhoEnum>)
    requires tabela.ClasseDeMilho? ==> m.amostraClasseEmGramas != 0.0
    ensures r.IllegalArgument? <==> !tabela.ClasseDeMilho?
    ensures r.Success? ==> PrimeiraClasse(CalcularPorcentagensCores(m), tabela.milho, r.value)
  {
    if !tabela.ClasseDeMilho? then IllegalArgument
    else
      var tab := tabela.milho;
      var c := CalcularPorcentagensCores(m);
      if c.amarelosEmPorcentagem >= tab.minimoGraosAmarelos then Success(Amarela)
      else if c.brancosEmPorcentagem >= tab.minimoGraosBrancos then Success(Branca)
      else if c.coloridosEmPorcentagem >= tab.minimoGraosOutrasCores then Success(Cor)
      else Success(Misturada)
  }

  /** At the boundary the two cascades differ: hard grains at exactly the
      minimum do not make the group DURO, yellow grains at exactly the
      minimum make the class AMARELA. */
  lemma NoMinimo(m: Milho, grupo: TabelaGrupoMilho, classe: TabelaClasseMilho)
    requires m.amostraGrupoEmGramas > 0.0 && m.amostraClasseEmGramas > 0.0
    requires m.graosDurosEmGramas * 100.0 == grupo.minimoGraosDuros * m.amostraGrupoEmGramas
    requires m.graosAmarelosEmGramas * 100.0 == classe.minimoGraosAmarelos * m.amostraClasseEmGramas
    ensures DeterminarGrupo(m, grupo) != Duro
    ensures DeterminarClasse(m, ClasseDeMilho(classe)) == Success(Amarela)
  {
    var c := CalcularPorcentagensConsistencia(m);
    assert ConsistenciasDoMilho.Get(c, ConsistenciasDoMilho.Duro) * m.amostraGrupoEmGramas
           == grupo.minimoGraosDuros * m.amostraGrupoEmGramas;
    MultiplicarPreservaOrdem(grupo.minimoGraosDuros, c.duroEmPorcentagem, m.amostraGrupoEmGramas);
    var e := CalcularPorcentagensCores(m);
    assert CoresDoMilho.Get(e, CoresDoMilho.Amarelos) * m.amostraClasseEmGramas
           == classe.minimoGraosAmarelos * m.amostraClasseEmGramas;
    MultiplicarPreservaOrdem(e.amarelosEmPorcentagem, classe.minimoGraosAmarelos, m.amostraClasseEmGramas);
  }

  /** The three results read disjoint inputs: the Type reads only the lot,
      the Group only the group sample, the Class only the class sample.
      Each clause lets every other field of `n` differ from `m`. */
  lemma ResultadosIndependentes(m: Milho, n: Milho, tipo: TabelaTipo, grupo: TabelaGrupoMilho, classe: TabelaClasse)
    requires Classificavel(m)
    ensures m.graos == n.graos ==> DeterminarTipo(m, tipo) == DeterminarTipo(n, tipo)
    ensures m.amostraGrupoEmGramas != 0.0
            && n == m.(graos := n.graos, amostraClasseEmGramas := n.amostraClasseEmGramas,
                       graosAmarelosEmGramas := n.graosAmarelosEmGramas, graosBrancosEmGramas := n.graosBrancosEmGramas,
                       graosColoridosEmGramas := n.graosColoridosEmGramas)
            ==> DeterminarGrupo(m, grupo) == DeterminarGrupo(n, grupo)
    ensures (classe.ClasseDeMilho? ==> m.amostraClasseEmGramas != 0.0)
            && n == m.(graos := n.graos, amostraGrupoEmGramas := n.amostraGrupoEmGramas,
                       graosDurosEmGramas := n.graosDurosEmGramas, graosSemidurosEmGramas := n.graosSemidurosEmGramas,
                       graosDentadosEmGramas := n.graosDentadosEmGramas)
            ==> DeterminarClasse(m, classe) == DeterminarClasse(n, classe)
  {
  }

  /** A sample as the corn tests build it: 100 g of sample, 1000 kg, 12%
      moisture, 0.5 g of impurities in 100 g, and one ARDIDOS and one
      QUEBRADOS measurement in 100 g; group and class samples of 100 g. */
  function AmostraDeTeste(ardidos: real, quebrados: real, duros: real, semiduros: real, dentados: real,
                          amarelos: real, brancos: real, coloridos: real): Milho
  {
    Milho(
      Amostras.Graos(100.0, 1000.0, Umidades.Umidade(12.0, 14.0), Defeito(Impureza, 0.5, 100.0, 0.0, 100.0),
                     [Defeito(DeMilho(Ardidos), ardidos, 100.0, 0.0, 5.0), Defeito(DeMilho(Quebrados), quebrados, 100.0, 0.0, 100.0)]),
      100.0, duros, semiduros, dentados, 100.0, amarelos, brancos, coloridos)
  }

  /** How the test defects map: ardidos and quebrados at their percentages,
      every other slot 0. */
  lemma MapeamentoDeTeste(ardidos: real, quebrados: real)
    requires 0.0 < ardidos <= 100.0 && 0.0 < quebrados <= 100.0
    ensures MapearDefeitos([Defeito(DeMilho(Ardidos), ardidos, 100.0, 0.0, 5.0),
                            Defeito(DeMilho(Quebrados), quebrados, 100.0, 0.0, 100.0)])
            == Zerado.(ardidosEmPorcentagem := ardidos, quebradosEmPorcentagem := quebrados)
  {
    var a := Defeito(DeMilho(Ardidos), ardidos, 100.0, 0.0, 5.0);
    var q := Defeito(DeMilho(Quebrados), quebrados, 100.0, 0.0, 100.0);
    assert [a, q][..1] == [a];
    assert [a][..0] == [];
    assert MapearDefeitos([a]) == Zerado.(ardidosEmPorcentagem := ardidos);
  }

  /** The type scenarios of the corn tests with the default tables:
      ardidos 6% is DESCLASSIFICADO and 4% with quebrados 6% is FORA_DE_TIPO. */
  lemma CenariosDeTipoForaDosTiers()
    ensures DeterminarTipo(AmostraDeTeste(6.0, 6.0, 86.0, 7.0, 7.0, 96.0, 2.0, 2.0), TipoDeMilho(TabelaTipoMilhoPadrao))
            == Success(Desclassificado)
    ensures DeterminarTipo(AmostraDeTeste(4.0, 6.0, 86.0, 7.0, 7.0, 96.0, 2.0, 2.0), TipoDeMilho(TabelaTipoMilhoPadrao))
            == Success(ForaDeTipo)
  {
    MapeamentoDeTeste(6.0, 6.0);
    MapeamentoDeTeste(4.0, 6.0);
  }

  /** ardidos 2.5% with quebrados 4.5% is TIPO_3, 1.5% with 3.5% is TIPO_2
      and 0.5% with 2.5% is TIPO_1. */
  lemma CenariosDeTipoNosTiers()
    ensures DeterminarTipo(AmostraDeTeste(2.5, 4.5, 86.0, 7.0, 7.0, 96.0, 2.0, 2.0), TipoDeMilho(TabelaTipoMilhoPadrao))
            == Success(Tipo3)
    ensures DeterminarTipo(AmostraDeTeste(1.5, 3.5, 86.0, 7.0, 7.0, 96.0, 2.0, 2.0), TipoDeMilho(TabelaTipoMilhoPadrao))
            == Success(Tipo2)
    ensures DeterminarTipo(AmostraDeTeste(0.5, 2.5, 86.0, 7.0, 7.0, 96.0, 2.0, 2.0), TipoDeMilho(TabelaTipoMilhoPadrao))
            == Success(Tipo1)
  {
    MapeamentoDeTeste(2.5, 4.5);
    MapeamentoDeTeste(1.5, 3.5);
    MapeamentoDeTeste(0.5, 2.5);
  }

  /** The group and class scenarios of the corn tests with the default
      tables, and the rejection of a soybean table. */
  lemma CenariosDeGrupoEClasse()
    ensures DeterminarGrupo(AmostraDeTeste(0.5, 2.5, 86.0, 7.0, 7.0, 96.0, 2.0, 2.0), TabelaGrupoMilhoPadrao) == Duro
    ensures DeterminarGrupo(AmostraDeTeste(0.5, 2.5, 7.0, 86.0, 7.0, 96.0, 2.0, 2.0), TabelaGrupoMilhoPadrao) == Semiduro
    ensures DeterminarGrupo(AmostraDeTeste(0.5, 2.5, 7.0, 7.0, 86.0, 96.0, 2.0, 2.0), TabelaGrupoMilhoPadrao) == Dentado
    ensures DeterminarGrupo(AmostraDeTeste(0.5, 2.5, 33.0, 34.0, 33.0, 96.0, 2.0, 2.0), TabelaGrupoMilhoPadrao) == Misturado
    ensures DeterminarClasse(AmostraDeTeste(0.5, 2.5, 33.0, 34.0, 33.0, 96.0, 2.0, 2.0), ClasseDeMilho(TabelaClasseMilhoPadrao))
            == Success(Amarela)
    ensures DeterminarClasse(AmostraDeTeste(0.5, 2.5, 33.0, 34.0, 33.0, 2.0, 96.0, 2.0), ClasseDeMilho(TabelaClasseMilhoPadrao))
            == Success(Branca)
    ensures DeterminarClasse(AmostraDeTeste(0.5, 2.5, 33.0, 34.0, 33.0, 2.0, 2.0, 96.0), ClasseDeMilho(TabelaClasseMilhoPadrao))
            == Success(Cor)
    ensures DeterminarClasse(AmostraDeTeste(0.5, 2.5, 33.0, 34.0, 33.0, 50.0, 50.0, 0.0), ClasseDeMilho(TabelaClasseMilhoPadrao))
            == Success(Misturada)
    ensures DeterminarClasse(AmostraDeTeste(0.5, 2.5, 33.0, 34.0, 33.0, 96.0, 2.0, 2.0), ClasseDeSoja(TabelaClasseSojaPadrao))
            == IllegalArgument
    ensures DeterminarTipo(AmostraDeTeste(0.5, 2.5, 86.0, 7.0, 7.0, 96.0, 2.0, 2.0), TipoDeSoja(TabelaTipoSojaPadrao))
            == IllegalArgument
  {
  }
}
