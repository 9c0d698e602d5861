# Grain grading of corn and soybean

This project models the grading core of `classigrao-core`, a Kotlin library. The library grades a lot of corn (*milho*) or soybean (*soja*) the way Brazilian grain standards do.

A lot (`Graos`) has:
- a sample weight;
- an initial weight in kg;
- a moisture measurement (`Umidade`);
- an impurity measurement (`Impurezas`);
- a list of toleranced defect measurements (`Defeito`).

Every measurement yields a percentage and a tolerance verdict. A measurement outside its tolerance yields a weight discount. The lot adds up these discounts.

On top of the lot sit the two classifiers:
- **Corn.** `Milho` maps its defects into an eight-slot record (`TabelaDefeitosMilho`). It then tries the tiers TIPO_1, TIPO_2, TIPO_3 and FORA_DE_TIPO in order, and falls back to DESCLASSIFICADO. Its Group comes from the consistency percentages (hard, semi-hard, dented; strict `>`). Its Class comes from the colour percentages (yellow, white, coloured; `>=`).
- **Soybean.** `Soja` maps its defects into an eleven-slot record (`TabelaDefeitosSoja`). The first check is a gate: severe defects above the limit of the chosen group give DESCLASSIFICADO. Otherwise it tries TIPO_1, TIPO_2 and PADRAO, and falls back to FORA_DE_TIPO. Its Class is AMARELA when the yellow share reaches the minimum, else MISTURADA.

The repository also keeps an older copy of each classifier in the `model.graos` package. Each is modelled in its own terms and proved equal to the newer one under renaming of the result enums.

Modelling conventions:
- Kotlin `Double` is `real`.
- The `+∞` limits of the corn table are `Tabelas.SemLimite`.
- A `require` that fails, or an `IllegalArgumentException` that is thrown, is `Wrappers.IllegalArgument`.
- The invariant a Kotlin class keeps through its `init` block and setters is a predicate (`Valido`, `Valida`). The operations on the class require it.
- A validated class and its unvalidated data-class twin have the same fields, so they share one datatype:
  - `Set` is the validating setter;
  - `Put` is the plain assignment.
- The source divides by zero in two places: a discount with a limit of 100, and a percentage over an empty group or class sample. The model excludes both with a precondition.

Modules:
- `Wrappers`: `Result` and `InRange`.
- `Defeitos`: `Defeito`.
- `Impurezas`.
- `Umidades`: `Umidade`.
- `DefeitosDoMilho`, `DefeitosDaSoja`: the defect records.
- `ConsistenciasDoMilho`, `CoresDoMilho`, `CoresDaSoja`: the group and class samples.
- `Tabelas`: the tables and their defaults.
- `Amostras`: `Graos`.
- `ClassificacaoMilho`, `ClassificacaoSoja`, with their legacy counterparts `ClassificacaoMilhoLegada` and `ClassificacaoSojaLegada`.

## Model

| member | source | states |
|---|---|---|
| Defeitos.Novo | src/main/kotlin/domain/parametros/defeitos/Defeito.kt:24-53 | construction succeeds exactly when 0 < peso <= amostra and deságio and limit lie in [0,100]; the object built is valid and holds the arguments |
| Defeitos.SetPesoEmGramas | src/main/kotlin/domain/parametros/defeitos/Defeito.kt:65-70 | accepts exactly a value in (0, amostra], stores only it, keeps the invariant |
| Defeitos.SetAmostraEmGramas | src/main/kotlin/domain/parametros/defeitos/Defeito.kt:77-82 | accepts exactly a value not below the defect weight (positivity then follows), stores only it, keeps the invariant |
| Defeitos.SetDesagio | src/main/kotlin/domain/parametros/defeitos/Defeito.kt:89-93 | accepts exactly [0,100], stores only the deságio, keeps the invariant |
| Defeitos.SetLimiteToleradoEmPorcentagem | src/main/kotlin/domain/parametros/defeitos/Defeito.kt:100-104 | accepts exactly [0,100], stores only the limit, keeps the invariant |
| Defeitos.CalcularPorcentagem | src/main/kotlin/domain/parametros/defeitos/Defeito.kt:127-129 | the percentage times the sample is the defect weight times 100, and it lies in (0,100] |
| Defeitos.PorcentagemDe | src/main/kotlin/domain/parametros/defeitos/Defeito.kt:127-129 | `parte / todo * 100` cross-multiplies back to the part; a part within [0, todo] gives a percentage within [0,100] |
| Defeitos.EstaAbaixoDoTolerado | src/main/kotlin/domain/parametros/defeitos/Defeito.kt:136-138 | within tolerance exactly when weight·100 < limit·sample, that is, the percentage is strictly below the limit |
| Defeitos.CalcularDescontoEmKg | src/main/kotlin/domain/parametros/defeitos/Defeito.kt:148-151 | 0 within tolerance; out of tolerance the discount times (100−L)·100 equals lot·(p−L)·(100−deságio); never negative and never above the lot; 0 with deságio 100 |
| Defeitos.NoLimiteEstaForaDoTolerado | src/main/kotlin/domain/parametros/defeitos/Defeito.kt:136-138 | a percentage equal to the limit is out of tolerance (strict comparison) |
| Defeitos.CenariosDeConstrucao | src/test/kotlin/domain/parametros/defeitos/DefeitoTest.kt:11-86 | the rejected constructions of the defect tests, and the inclusive bounds 0 and 100 |
| Defeitos.CenariosDeDesconto | src/test/kotlin/domain/parametros/defeitos/DefeitoTest.kt:88-140 | percentage 4 of 100 g, the tolerance verdicts and the discount 1000·(2/98)·(90/100) |
| Impurezas.NovaImpurezas | src/main/kotlin/model/parametros/Impurezas.kt:16-29 | an impurity is a defect with the impurity tag and deságio 0, accepted exactly under the defect's checks |
| Impurezas.DescontoDeImpurezas | src/main/kotlin/model/parametros/Impurezas.kt:22-29 | with deságio 0 an impurity out of tolerance loses exactly lot·(p−L)/(100−L) |
| Impurezas.CenariosDeImpurezas | src/test/kotlin/domain/parametros/impurezas/ImpurezasTest.kt:13-99 | the rejected constructions, percentage 2 of 100 g, the strict tolerance verdicts and the discount 1000/99 |
| Umidades.Nova | src/main/kotlin/domain/parametros/umidade/Umidade.kt:18-40 | construction succeeds exactly when moisture and limit lie in [0,100] |
| Umidades.SetUmidadeEmPorcentagem | src/main/kotlin/domain/parametros/umidade/Umidade.kt:47-51 | accepts exactly [0,100], stores only the moisture, keeps the invariant |
| Umidades.SetLimiteToleradoEmPorcentagem | src/main/kotlin/domain/parametros/umidade/Umidade.kt:58-62 | accepts exactly [0,100], stores only the limit, keeps the invariant |
| Umidades.CalcularDescontoEmKg | src/main/kotlin/domain/parametros/umidade/Umidade.kt:77-94 | 0 within tolerance (u < L); out of tolerance the discount times (100−L) is lot·(u−L); within [0, lot] for a non-negative lot |
| Umidades.DescontoMonotono | src/main/kotlin/domain/parametros/umidade/Umidade.kt:91-94 | the moisture discount grows with the lot it is taken on |
| Umidades.CenariosDeUmidade | src/test/kotlin/domain/parametros/umidade/UmidadeTest.kt:8-48 | bounds accepted, out-of-range values rejected, 12 of 14 within tolerance, 14 of 14 out |
| DefeitosDoMilho.NovaTabela | src/main/kotlin/domain/parametros/defeitos/TabelaDefeitosMilho.kt:16-51 | construction succeeds exactly when every slot lies in [0,100] |
| DefeitosDoMilho.Set | src/main/kotlin/domain/parametros/defeitos/TabelaDefeitosMilho.kt:59-147 | a setter accepts exactly [0,100], stores exactly its slot, leaves the others, keeps validity |
| DefeitosDoMilho.Put | src/main/kotlin/domain/parametros/defeitos/DefeitosMilho.kt:16-25 | the data-class assignment changes exactly one slot; an in-range value keeps a valid record valid |
| DefeitosDoMilho.AvariadosAoAtribuir | src/main/kotlin/domain/parametros/defeitos/TabelaDefeitosMilho.kt:160-162 | avariados is linear in the slots: 0 on the default record, and each assignment moves it by the weight of the kind times the change |
| DefeitosDoMilho.AvariadosIgnoraCarunchadosEQuebrados | src/main/kotlin/domain/parametros/defeitos/TabelaDefeitosMilho.kt:160-162 | carunchados and quebrados do not enter avariados |
| DefeitosDoMilho.AvariadosLimites | src/main/kotlin/domain/parametros/defeitos/DefeitosMilho.kt:32-34 | for a valid record, ardidos <= avariados <= 600 |
| DefeitosDoMilho.ZeradoValido | src/main/kotlin/domain/parametros/defeitos/TabelaDefeitosMilho.kt:16-25 | every default slot is 0 and the default record is valid |
| DefeitosDaSoja.NovaTabela | src/main/kotlin/domain/parametros/defeitos/TabelaDefeitosSoja.kt:19-63 | construction succeeds exactly when every slot lies in [0,100] |
| DefeitosDaSoja.Set | src/main/kotlin/domain/parametros/defeitos/TabelaDefeitosSoja.kt:71-195 | a setter accepts exactly [0,100], stores exactly its slot, leaves the others, keeps validity |
| DefeitosDaSoja.Put | src/main/kotlin/model/parametros/defeitos/DefeitosSoja.kt:18-30 | the data-class assignment changes exactly one slot; an in-range value keeps a valid record valid |
| DefeitosDaSoja.AgregadosAoAtribuir | src/main/kotlin/domain/parametros/defeitos/TabelaDefeitosSoja.kt:208-231 | each of the four aggregates is linear in the slots with the stated weights (pest-attacked grains weigh a quarter) |
| DefeitosDaSoja.AgregadosDoZerado | src/main/kotlin/model/parametros/defeitos/DefeitosSoja.kt:37-59 | all four aggregates are 0 on the default record |
| DefeitosDaSoja.EsverdeadosEPartidosForaDosAgregados | src/main/kotlin/domain/parametros/defeitos/TabelaDefeitosSoja.kt:208-231 | green and broken grains enter no aggregate |
| DefeitosDaSoja.GravesDentroDeAvariados | src/main/kotlin/domain/parametros/defeitos/TabelaDefeitosSoja.kt:208-231 | for a valid record, ardidos+queimados <= graves <= avariados |
| DefeitosDaSoja.ZeradoValido | src/main/kotlin/domain/parametros/defeitos/TabelaDefeitosSoja.kt:19-31 | every default slot is 0 and the default record is valid |
| ConsistenciasDoMilho.Nova | src/main/kotlin/domain/parametros/consistencia/ConsistenciaMilhoPorcentagem.kt:15-33 | construction succeeds exactly when the three percentages lie in [0,100], with no relation required among them |
| ConsistenciasDoMilho.Set | src/main/kotlin/domain/parametros/consistencia/ConsistenciaMilhoPorcentagem.kt:40-66 | a setter accepts exactly [0,100], stores only its field, keeps validity |
| ConsistenciasDoMilho.Put | src/main/kotlin/domain/parametros/consistencia/ConsistenciaMilho.kt:3-7 | the data-class assignment changes exactly one field |
| ConsistenciasDoMilho.CenariosDeConsistencia | src/test/kotlin/domain/parametros/consistencia/ConsistenciaMilhoPorcentagemTest.kt:11-43 | defaults accepted, out-of-range values rejected, and a plain assignment of 150 leaves an invalid record |
| CoresDoMilho.Nova | src/main/kotlin/domain/parametros/cores/CoresMilhoPorcentagem.kt:15-33 | construction succeeds exactly when the three percentages lie in [0,100] |
| CoresDoMilho.Set | src/main/kotlin/domain/parametros/cores/CoresMilhoPorcentagem.kt:40-66 | a setter accepts exactly [0,100], stores only its field, keeps validity |
| CoresDoMilho.Put | src/main/kotlin/domain/parametros/cores/CoresMilho.kt:3-12 | the data-class assignment changes exactly one field |
| CoresDoMilho.CenariosDeCores | src/test/kotlin/domain/parametros/cores/CoresMilhoPorcentagemTest.kt:10-42 | defaults accepted, out-of-range values rejected |
| CoresDaSoja.Nova | src/main/kotlin/domain/parametros/cores/CoresSoja.kt:15-33 | construction succeeds exactly when no weight is negative; zero is accepted |
| CoresDaSoja.Set | src/main/kotlin/domain/parametros/cores/CoresSoja.kt:40-66 | a setter rejects exactly a negative value, stores only its field, keeps validity |
| CoresDaSoja.CenariosDeCoresSoja | src/main/kotlin/domain/parametros/cores/CoresSoja.kt:29-33 | a zero sample and more yellow grams than the sample are both accepted; a negative weight is not |
| Tabelas.AtendeMonotono | src/main/kotlin/domain/tabelas/tipo/dataModels/TipoMilhoData.kt:17-23 | a value within a limit is within every looser limit, an infinite one included |
| Tabelas.TabelasPadraoAninhadas | src/main/kotlin/data/tipo/TabelaTipoMilho.kt:18-47 | the default corn and soybean tiers loosen tier by tier; the last corn tier leaves quebrados and impurities unbounded; the Grupo1 gate is tighter than the Grupo2 one |
| Amostras.SomaNaoNegativa | src/main/kotlin/domain/graos/Graos.kt:58-61 | the defect total is never negative on a non-negative lot |
| Amostras.SomaLimitada | src/main/kotlin/domain/graos/Graos.kt:58-61 | no defect takes more than the lot, so the defect total is at most one lot weight per defect |
| Amostras.SomaNulaSeTudoTolerado | src/main/kotlin/domain/graos/Graos.kt:58-61 | the defect total is 0 when every defect is within tolerance |
| Amostras.CalcularDescontoEmKg | src/main/kotlin/domain/graos/Graos.kt:57-67 | the lot discount is never negative on a non-negative lot |
| Amostras.DescontoDoLoteLimitado | src/main/kotlin/domain/graos/Graos.kt:57-67 | impurity and moisture together take at most one lot, so the lot discount is at most the defect total plus one lot weight |
| Amostras.DescontoDeImpurezasDoLote | src/main/kotlin/domain/graos/Graos.kt:63 | the impurity of a lot is an `Impurezas` (impurity tag, deságio 0), so out of tolerance its part of the lot discount is exactly lot·(p−L)/(100−L) |
| Amostras.CalcularDescontoEmKgIterativo | src/main/kotlin/domain/graos/Graos.kt:57-67 | the loop with its running total computes the lot discount |
| Amostras.DefeitosAbaixoDoTolerado | src/main/kotlin/domain/graos/Graos.kt:75-78 | the accumulated conjunction holds exactly when every defect is within tolerance |
| Amostras.VerificarSeAbaixoDoTolerado | src/main/kotlin/domain/graos/Graos.kt:74-83 | the lot is within tolerance exactly when every defect, the impurity and the moisture are |
| Amostras.VerificarSeAbaixoDoToleradoIterativo | src/main/kotlin/domain/graos/Graos.kt:74-83 | the loop computes that conjunction |
| Amostras.AbaixoDoToleradoSemDesconto | src/main/kotlin/domain/graos/Graos.kt:57-83 | a lot within tolerance loses nothing |
| Amostras.SemDefeitosToleranciaDeImpurezaEUmidade | src/main/kotlin/domain/graos/Graos.kt:74-83 | with no defects, the tolerance check is that of impurity and moisture alone |
| Amostras.SomaConcatenada | src/main/kotlin/domain/graos/Graos.kt:58-61 | the defect total of a concatenation is the sum of the two totals |
| Amostras.SomaIndependeDaOrdem | src/main/kotlin/domain/graos/Graos.kt:58-61 | any permutation of the defect list gives the same total, because removing one defect removes exactly its discount |
| Amostras.UmidadeSobreLoteLiquido | src/main/kotlin/domain/graos/Graos.kt:63-64 | moisture is charged on the lot net of impurities, so it costs no more than on the gross lot |
| Amostras.SetAmostraEmGramasComoEscrito | src/main/kotlin/domain/graos/Graos.kt:35-38 | the setter as written throws on v <= 0 and otherwise leaves the lot unchanged |
| Amostras.SetPesoInicialEmKgComoEscrito | src/main/kotlin/domain/graos/Graos.kt:45-48 | the setter as written never throws and never changes the lot |
| Amostras.SetAmostraEmGramas | src/main/kotlin/domain/graos/Graos.kt:29-38 | the setter as documented: accepts exactly v > 0 and stores exactly that field |
| Amostras.SetPesoInicialEmKg | src/main/kotlin/domain/graos/Graos.kt:40-48 | the setter as documented: accepts exactly v > 0 and stores exactly that field |
| Amostras.SettersNaoArmazenam | src/main/kotlin/domain/graos/Graos.kt:35-48 | assigning 200 g or 75 kg as written leaves 100 g and 50 kg; a lot weight of 0 is accepted; the corrected setters store 200 and 75 and reject 0 |
| Amostras.SettersCorrigidosArmazenam | src/main/kotlin/domain/graos/Graos.kt:29-48 | reading a field back after a corrected assignment gives the assigned value, and the other weight is untouched |
| Amostras.CenarioDoLote | src/test/kotlin/domain/graos/GraosTest.kt:68-115 | the discount of the lot test, as an exact sum of the five partial discounts |
| ClassificacaoMilho.MapearDefeitos | src/main/kotlin/domain/graos/milho/Milho.kt:169-184 | the mapped record is always valid: no validating setter throws |
| ClassificacaoMilho.MapeamentoZeraAusentes | src/main/kotlin/domain/graos/milho/Milho.kt:169-184 | a corn kind absent from the list keeps the default 0 |
| ClassificacaoMilho.MapeamentoGuardaAUltima | src/main/kotlin/domain/graos/milho/Milho.kt:169-184 | the slot of a kind holds the percentage of its last occurrence in the list |
| ClassificacaoMilho.ClassificarTipo | src/main/kotlin/domain/graos/milho/Milho.kt:80-84 | first match: every earlier tier fails and the tier of the result holds; DESCLASSIFICADO when all four fail |
| ClassificacaoMilho.PrimeiroQueAtendeUnico | src/main/kotlin/domain/graos/milho/Milho.kt:80-84 | at most one result is the first tier met, so the cascade has a single answer |
| ClassificacaoMilho.DeterminarTipo | src/main/kotlin/domain/graos/milho/Milho.kt:75-85 | rejects exactly a non-corn table; otherwise the first tier met by the mapped record and the impurity percentage |
| ClassificacaoMilho.VerificarSeDoTipoMonotono | src/main/kotlin/domain/graos/milho/Milho.kt:152-162 | a looser tier accepts whatever a stricter one accepts |
| ClassificacaoMilho.TiersAninhadosLimitamOResultado | src/main/kotlin/domain/graos/milho/Milho.kt:80-84 | with nested tiers, meeting tier i places the result at tier i or earlier |
| ClassificacaoMilho.DesclassificadoSeFalhaForaDeTipo | src/main/kotlin/domain/graos/milho/Milho.kt:80-84 | with nested tiers, DESCLASSIFICADO holds exactly when the FORA_DE_TIPO tier fails |
| ClassificacaoMilho.DesclassificadoComTabelaPadrao | src/main/kotlin/data/tipo/TabelaTipoMilho.kt:40-46 | with the default table: DESCLASSIFICADO exactly when ardidos > 5, avariados > 20 or carunchados > 8 |
| ClassificacaoMilho.DesclassificadoNaTabelaPadrao | src/main/kotlin/data/tipo/TabelaTipoMilho.kt:40-46 | the same criterion stated on the mapped record and impurity percentage |
| ClassificacaoMilho.CalcularPorcentagensConsistencia | src/main/kotlin/domain/graos/milho/Milho.kt:125-131 | each consistency percentage times the group sample is its grams times 100 |
| ClassificacaoMilho.CalcularPorcentagensCores | src/main/kotlin/domain/graos/milho/Milho.kt:138-144 | each colour percentage times the class sample is its grams times 100 |
| ClassificacaoMilho.PorcentagensValidasSeAsPartesCabemNaAmostra | src/main/kotlin/domain/graos/milho/Milho.kt:125-144 | the unchecked percentage records are valid exactly when every part weighs between 0 and its sample |
| ClassificacaoMilho.DeterminarGrupo | src/main/kotlin/domain/graos/milho/Milho.kt:111-118 | first group whose percentage strictly exceeds its minimum, in the order DURO, SEMIDURO, DENTADO; else MISTURADO |
| ClassificacaoMilho.DeterminarClasse | src/main/kotlin/domain/graos/milho/Milho.kt:94-103 | rejects exactly a non-corn table; otherwise the first class whose percentage reaches its minimum, in the order AMARELA, BRANCA, COR; else MISTURADA |
| ClassificacaoMilho.NoMinimo | src/main/kotlin/domain/graos/milho/Milho.kt:99-116 | exactly at the minimum, hard grains do not make the group DURO, while yellow grains do make the class AMARELA |
| ClassificacaoMilho.ResultadosIndependentes | src/main/kotlin/domain/graos/milho/Milho.kt:75-144 | for any two samples: equal lots give equal Types, whatever the group and class samples; equal group samples give equal Groups, whatever the lot and the class sample; equal class samples give equal Classes, whatever the lot and the group sample |
| ClassificacaoMilho.CenariosDeTipoForaDosTiers | src/test/kotlin/domain/graos/milho/MilhoTest.kt:24-71 | ardidos 6% gives DESCLASSIFICADO; ardidos 4% with quebrados 6% gives FORA_DE_TIPO |
| ClassificacaoMilho.CenariosDeTipoNosTiers | src/test/kotlin/domain/graos/milho/MilhoTest.kt:72-143 | 2.5/4.5 gives TIPO_3, 1.5/3.5 gives TIPO_2, 0.5/2.5 gives TIPO_1 |
| ClassificacaoMilho.CenariosDeGrupoEClasse | src/test/kotlin/domain/graos/milho/MilhoTest.kt:144-285 | the group and class scenarios of the corn tests, and the rejection of soybean tables |
| ClassificacaoMilhoLegada.RenomeacaoBijetora | src/main/kotlin/domain/graos/Milho.kt:9-14 | the renamings between the older and the newer result enums are mutually inverse |
| ClassificacaoMilhoLegada.DeterminarTipo | src/main/kotlin/domain/graos/Milho.kt:74-84 | rejects exactly a non-corn table; otherwise gives the newer classifier's type, renamed |
| ClassificacaoMilhoLegada.DeterminarGrupo | src/main/kotlin/domain/graos/Milho.kt:110-117 | gives the newer classifier's group, renamed |
| ClassificacaoMilhoLegada.DeterminarClasse | src/main/kotlin/domain/graos/Milho.kt:93-102 | rejects exactly a non-corn table; otherwise gives the newer classifier's class, renamed |
| ClassificacaoSoja.MapearDefeitos | src/main/kotlin/domain/graos/soja/Soja.kt:143-161 | the mapped record is always valid: no validating setter throws |
| ClassificacaoSoja.MapeamentoZeraAusentes | src/main/kotlin/domain/graos/soja/Soja.kt:143-161 | a soybean kind absent from the list keeps the default 0 |
| ClassificacaoSoja.MapeamentoGuardaAUltima | src/main/kotlin/domain/graos/soja/Soja.kt:143-161 | the slot of a kind holds the percentage of its last occurrence |
| ClassificacaoSoja.ClassificarTipo | src/main/kotlin/domain/graos/soja/Soja.kt:69-73 | DESCLASSIFICADO exactly on the severe-defect gate; otherwise first match over TIPO_1, TIPO_2, PADRAO; else FORA_DE_TIPO |
| ClassificacaoSoja.DeterminarTipo | src/main/kotlin/domain/graos/soja/Soja.kt:64-74 | rejects exactly a non-soybean table; otherwise the gated cascade on the mapped record and the impurity percentage |
| ClassificacaoSoja.VerificarSeDoTipoMonotono | src/main/kotlin/domain/graos/soja/Soja.kt:124-136 | a looser tier accepts whatever a stricter one accepts |
| ClassificacaoSoja.ForaDeTipoSeFalhaPadrao | src/main/kotlin/domain/graos/soja/Soja.kt:69-73 | with nested tiers, a sample past the gate is FORA_DE_TIPO exactly when it fails PADRAO |
| ClassificacaoSoja.GrupoSoDecideOPortao | src/main/kotlin/domain/graos/soja/Soja.kt:106-117 | the group only moves the gate: with Grupo1's limit not above Grupo2's, disqualification under Grupo2 implies it under Grupo1, and past both gates the type is the same |
| ClassificacaoSoja.GrupoDoTierIgnorado | src/main/kotlin/domain/graos/soja/Soja.kt:124-136 | the group tag carried by each tier never affects the result |
| ClassificacaoSoja.DesclassificadoComTabelaPadrao | src/main/kotlin/domain/tabelas/tipo/TabelaTipoSoja.kt:55-58 | with the default table: DESCLASSIFICADO exactly when the severe defects exceed 12% (GRUPO_1) or 40% (GRUPO_2) |
| ClassificacaoSoja.CalcularPorcentagemAmarelos | src/main/kotlin/domain/graos/soja/Soja.kt:96-98 | the yellow percentage times the class sample is the yellow grams times 100 |
| ClassificacaoSoja.DeterminarClasse | src/main/kotlin/domain/graos/soja/Soja.kt:83-88 | rejects exactly a non-soybean table; AMARELA exactly when yellow grams·100 >= minimum·sample |
| ClassificacaoSoja.CenariosDoGrupo1 | src/test/kotlin/domain/graos/soja/SojaTest.kt:20-83 | the four Grupo1 scenarios of the soybean tests |
| ClassificacaoSoja.CenariosDoGrupo2EClasse | src/test/kotlin/domain/graos/soja/SojaTest.kt:84-162 | the three Grupo2 scenarios, the two class scenarios, and the rejection of a corn table |
| ClassificacaoSojaLegada.RenomeacaoBijetora | src/main/kotlin/model/graos/Soja.kt:8-14 | the renamings between the older and the newer enums are mutually inverse |
| ClassificacaoSojaLegada.DeterminarTipo | src/main/kotlin/model/graos/Soja.kt:60-70 | rejects exactly a non-soybean table; otherwise gives the newer classifier's type, renamed, for the renamed group |
| ClassificacaoSojaLegada.DeterminarClasse | src/main/kotlin/model/graos/Soja.kt:79-94 | rejects exactly a non-soybean table; AMARELA exactly when the yellow percentage reaches the minimum; equal to the newer class for weights a `CoresSoja` accepts |
| ClassificacaoSojaLegada.PesosNegativosInvertemAClasse | src/main/kotlin/model/graos/Soja.kt:37-39 | the unchecked fields admit a negative sample, which turns the class comparison around; `CoresSoja` rejects such a sample |

## Left out

- Floating point: all arithmetic is on exact reals. Rounding, NaN and the IEEE behaviour of `x / 0.0` are not modelled. The two divisions by zero the source can reach are preconditions:
  - a discount out of tolerance with a limit of 100;
  - a percentage over a group or class sample of 0.
- The soybean tier limits are finite reals. Only the corn table uses `Double.POSITIVE_INFINITY`, as `SemLimite`.
- The Kotlin interfaces `TabelaTipo`, `TabelaClasse`, `Toleravel` and `Descontavel`, and the enum declarations, are not part of this model. A table of the other commodity is a second constructor of `TabelaTipo`/`TabelaClasse`, and each classifier rejects it. A defect whose tag belongs to the other commodity is skipped by the mapping, as the statement-form `when` does.
- `lateinit var defeitosMilho`/`defeitosSoja`: the mapping is recomputed as a pure value instead of being cached in a field.
- The older soybean classifier uses `model.parametros.Defeito`, `model.parametros.Impurezas` and `model.parametros.Umidade`, which are not part of this model; it is modelled over the same `Defeito` as the newer one. The older corn classifier already uses the `domain.parametros` classes the newer one uses.
- Defeitos.Novo: the Kotlin default argument `desagio = 0.0` is not a separate constructor; a call that omits it is `Novo` with deságio 0, as `Impurezas.NovaImpurezas` is.
- `Amostras.Graos`: the constructor does not validate its weights, because the property initialisers bypass the setters. The lot tests that expect the constructor to throw on a non-positive weight describe behaviour the code does not have.
- The group tag of each soybean tier: the table declares it with `GrupoSojaEnum`, while `TipoSojaData` declares its field with the older `GrupoSoja`. The model uses the older enum there, and `ClassificacaoSoja.GrupoDoTierIgnorado` shows the tag is never read.

## Findings

| source | as written | input that shows it | evidently intended | confidence | as-written member | corrected member |
|---|---|---|---|---|---|---|
| src/main/kotlin/domain/graos/Graos.kt:35-38 | the custom setter of `amostraEmGramas` checks the value but never assigns `field` | a lot of 100 g assigned 200 g still reports 100 g | store a positive value, throw on a non-positive one | high (not executed) | Amostras.SetAmostraEmGramasComoEscrito | Amostras.SetAmostraEmGramas |
| src/main/kotlin/domain/graos/Graos.kt:45-48 | the custom setter of `pesoInicialEmKg` builds an exception without `throw` and never assigns `field` | a lot of 50 kg assigned 75 kg still reports 50 kg; assigning 0 raises nothing | store a positive value, throw on a non-positive one | high (not executed) | Amostras.SetPesoInicialEmKgComoEscrito | Amostras.SetPesoInicialEmKg |

For both rows, the discrepancy is exhibited by `Amostras.SettersNaoArmazenam`. The round trip of the corrected setters is proved by `Amostras.SettersCorrigidosArmazenam`.
