/** Exact evaluation of the order conditions of Tsitouras 5(4): its stage vectors
    and, tree by tree, the dot products of its solution weights and embedded weights with the
    elementary weight vectors. */
module Tsit5Evaluation {
  import opened Vectors
  import opened Butcher
  import opened OrderConditions
  import opened Constants

  /** How closely the truncated decimals meet the identities of the
      method: the largest residual is below 4e-84. */
  const Tolerance: real := 1.0e-83

  /** Full node vector. */
  function N(): (r: seq<real>) {
    Nodes(ConstructTsit5())
  }

  /** Full stage matrix. */
  function R(): (r: seq<seq<real>>) {
    Rows(ConstructTsit5())
  }

  // The stage vectors the elementary weights are built from, written out
  // exactly, each with the product that yields it.

  /** c^2 */
  function C2(): (r: seq<real>) {
    [0.0,
     0.025921,
     0.106929,
     0.81,
     0.96045006082517678720331301141103191823609281532094874638598679075405602050472079845896996109812844112291706279844226387421605966220416673920166499644801734611796209180816,
     1.0,
     1.0]
  }

  lemma EvalC2()
    ensures Had(N(), N()) == C2()
  {
  }

  /** A c */
  function Ac(): (r: seq<real>) {
    [0.0,
     0.0,
     0.0540123855342694751556527267542871547226945095603422930375164467134923650691624267262609,
     0.402599399662366071655943087154624077777710164392483690415822780374617146715081393637253,
     0.476225551585281427467459468448170945534360108163801972719246922730965742728972026054226,
     0.495706375304454673208087009112789941929348097358057848014341992060775615793136153800219076438158686142864069418365333274126560636276791342710028383208897349632842771895576,
     0.4999999999999999999999999999999999999999999999999999999999999999999999999999999999999194018999592800898220079556526488640638840027180049948351694083008688190042590933092]
  }

  lemma EvalAc()
    ensures MatVec(R(), N()) == Ac()
  {
  }

  /** c^3 */
  function C3(): (r: seq<real>) {
    [0.0,
     0.004173281,
     0.034965783,
     0.729,
     0.941265590371963109150549753514915857804507009177318049359390994962952880021056618669782811696507951109602943930816975029345529742933280658485050552553339660810637459195651810704933205712149902487966627725215045756032111388041603793167276246515524231644864,
     1.0,
     1.0]
  }

  lemma EvalC3()
    ensures Had(N(), C2()) == C3()
  {
  }

  /** c (A c) */
  function CAc(): (r: seq<real>) {
    [0.0,
     0.0,
     0.0176620500697061183758984416486518995943211046262319298232678780753120033776161135394873143,
     0.3623394596961294644903487784391616699999391479532353213742405023371554320435732542735277,
     0.4667132037849139110066762587286242427442334929033586765460550951472096544432379262412351046192883618178341412114287234160675034742223376104055839936030913931901296193004504,
     0.495706375304454673208087009112789941929348097358057848014341992060775615793136153800219076438158686142864069418365333274126560636276791342710028383208897349632842771895576,
     0.4999999999999999999999999999999999999999999999999999999999999999999999999999999999999194018999592800898220079556526488640638840027180049948351694083008688190042590933092]
  }

  lemma EvalCAc()
    ensures Had(N(), Ac()) == CAc()
  {
  }

  /** A c^2 */
  function AC2(): (r: seq<real>) {
    [0.0,
     0.0,
     0.0086959940710173855000600890074402319103538160392151091790401479208722707761351507029280049,
     0.301612624032667555689471111317932197112523101259172206038528303633139805339563844710307447,
     0.422026711778772982600951998372116980229407660026399890289595658826954218690712390731310347,
     0.4524137648105473736639321760902412660052978122688043575668404372212772637722233001860621139767605388861608540424365232974076159928015967647991887212608508976489269831865125524575386961718958311859389623288107810639150228148425565001580799248239128768879904,
     0.33333333333333333333333333333333333333333333333333333333333333333333333333333333333329990779981312042611160242935835659348080860033666374585709608823592532126859480506839735178166680229190418933081847922928139351194059247631133828301367544405846077371568]
  }

  lemma EvalAC2()
    ensures MatVec(R(), C2()) == AC2()
  {
  }

  /** A A c */
  function AAc(): (r: seq<real>) {
    [0.0,
     0.0,
     0.0,
     0.2356179827345347773538649127032678338351160894226808458090411369108461508012987326446518658660686703428671759500343163997547592460663541202870798327032799454620904472705893,
     0.36761350258647734291483289948756578627599247059176618246071877261820628740644237218852678568278505548757111785878837955390644144127165977852104769188956946940809162989833115,
     0.39842441326919174737780007669210358674331778325878193797688749853551339830890116022839721630868457107346783295725446520816706220618733728069651606270378184640587179631881929,
     0.166666666666666666666666666666666666666666666666666666666666666666666666666666666669528877193206025371705427086952814581988926790865137116907534485901840905568741693674599343185054550879155489958855470055758883775381720676954838763583854245229948760731416]
  }

  lemma EvalAAc()
    ensures MatVec(R(), Ac()) == AAc()
  {
  }

  /** c^4 */
  function C4(): (r: seq<real>) {
    [0.0,
     0.000671898241,
     0.011433811041,
     0.6561,
     0.9224643193390857902409751581561943051277763671791822340036602294723941153913263510910096959072641910290202655632781420925641839018075740463496434819434318406178080352672534808405255772476677703393983209871439359100929910260544753596858446322433046165183945412643042838165660762557141561305041449303597055483502809496354237904767685782425856,
     1.0,
     1.0]
  }

  lemma EvalC4()
    ensures Had(N(), C3()) == C4()
  {
  }

  /** c^2 (A c) */
  function C2Ac(): (r: seq<real>) {
    [0.0,
     0.0,
     0.0057754903727939007089187904191091711673430012127778410522085961306270251044804691274123517761,
     0.32610551372651651804131390059524550299994523315791178923681645210343988883921592884617493,
     0.45739085998658691276927523033066893503744936076425104552099958186701743672583749790927464589149111184413169053786907601432527890262969817413912355888720934509274268125199909783997589535686415114487842333377308386304140160515096903008804572190501092254928416,
     0.495706375304454673208087009112789941929348097358057848014341992060775615793136153800219076438158686142864069418365333274126560636276791342710028383208897349632842771895576,
     0.4999999999999999999999999999999999999999999999999999999999999999999999999999999999999194018999592800898220079556526488640638840027180049948351694083008688190042590933092]
  }

  lemma EvalC2Ac()
    ensures Had(N(), CAc()) == C2Ac()
  {
  }

  /** (A c)^2 */
  function AcAc(): (r: seq<real>) {
    [0.0,
     0.0,
     0.00291733779110256245715397209060134263776416382743908995071489170660116819875901135621160835320161836359161923511946022902586470540162395148379950642443556672240803334169486881,
     0.162086276608497566172076056214238479875169908906389612516238886317651324050494750769962471095432889044258250827973084557405309234971190477122526242201955806071975272949386009,
     0.226790775982705541914069189202141665693115551611878036448144505028798018416201402258212584995797968541415725385861352574634402858676132437873431560085495420987150166692459076,
     0.245724810517480869908273511982029190173780470046103518263065206652615936679685733458192409435523691225566590656970955945216704654429397284787111715739083392364300234060094458666055585736415644904891134593348084023274511446645701539528954085512860189948573955207181848065956439210824060242338348297848826534117500433301036396524036764248371776,
     0.24999999999999999999999999999999999999999999999999999999999999999999999999999999999991940189995928008982200795565264886406388400271800499483516940830086881900425909330920649605373017389478669175226392822326334680335945015503195231867792596830208281632424129514280915498111665535145588707806984236604965141394026765511775154541647220680464]
  }

  lemma EvalAcAc()
    ensures Had(Ac(), Ac()) == AcAc()
  {
  }

  /** c (A c^2) */
  function CAC2(): (r: seq<real>) {
    [0.0,
     0.0,
     0.0028435900612226850585196491054329558346856978448233407015461283701252325437961942798574576023,
     0.2714513616294008001205240001861389774012707911332549854346754732698258248056074602392767023,
     0.4135969564871436012515117622416485626373078792673654482760507801486849949345756222794047319734355212619648524374712508212062309973546123008085681594404836971612613752196243588,
     0.4524137648105473736639321760902412660052978122688043575668404372212772637722233001860621139767605388861608540424365232974076159928015967647991887212608508976489269831865125524575386961718958311859389623288107810639150228148425565001580799248239128768879904,
     0.33333333333333333333333333333333333333333333333333333333333333333333333333333333333329990779981312042611160242935835659348080860033666374585709608823592532126859480506839735178166680229190418933081847922928139351194059247631133828301367544405846077371568]
  }

  lemma EvalCAC2()
    ensures Had(N(), AC2()) == CAC2()
  {
  }

  /** c (A A c) */
  function CAAc(): (r: seq<real>) {
    [0.0,
     0.0,
     0.0,
     0.21205618446108129961847842143294105045160448048041276122813702321976153572116885938018667927946180330858045835503088475977928332145971870825837184943295195091588140254353037,
     0.36027062171611382838240370859521275696707794992622270910753024811713559082307831182404565816748879461969968321245905048129929442433555313598608836740543797069996510563175421574291050859902405504817964124041338119819433906283359414004268105880239453965993146,
     0.39842441326919174737780007669210358674331778325878193797688749853551339830890116022839721630868457107346783295725446520816706220618733728069651606270378184640587179631881929,
     0.166666666666666666666666666666666666666666666666666666666666666666666666666666666669528877193206025371705427086952814581988926790865137116907534485901840905568741693674599343185054550879155489958855470055758883775381720676954838763583854245229948760731416]
  }

  lemma EvalCAAc()
    ensures Had(N(), AAc()) == CAAc()
  {
  }

  /** A c^3 */
  function AC3(): (r: seq<real>) {
    [0.0,
     0.0,
     0.0014000550454337990655096743301978773375669643823136325778254638152604355949577592631714087889,
     0.125991309933917180601991466613721418368148166389704947697479990254589756082598266087809575445,
     0.145627106204613346668659004181967159586141633668386566509245441991158070288843353423694216509,
     0.15258172167245679018583702746163538819664875503602128037247236526068559534430174330391830690369940580916358016773496092117642705272189497605389099730728468585990815051674122820179001841108165320214812533093842442500802737367161344372978710248912597714949910200465506945766056813187943820465972627121583995576189889878604638761239314454470016,
     0.250000000000000000000000000000000000000000000000000000000000000000000000000000000000008724504071231575955286417582034937823463417861448576488871228436547261240567363025276928532822895544365191125532883478370089041163179478163545591192356886794362236509659043145365251617922803088988649853540450806584034886799718462827226702199370385963072]
  }

  lemma EvalAC3()
    ensures MatVec(R(), C3()) == AC3()
  {
  }

  /** A (c (A c)) */
  function ACAc(): (r: seq<real>) {
    [0.0,
     0.0,
     0.0,
     0.0770470803541928721947138264539685816640829612412166365795564517698466913120246855748011601382044552021175665356612214627198062734636977973338751052939725421661035762574827011,
     0.0988719788034963480091502167566088910636984729884619011845854528222623866233866713588957083237034676606869015244374753513045299134383154340205005509711013061409865509017444729,
     0.104979564743287368068361010762828348025446481828675566524243606552051125238715254935789155595513954403137824377813025849068065237923586990161171937196707368804034390836008922905269771821872248256759238912069126732716521223005769040827876606756429305785504176,
     0.1250000000000000000000000000000000000000000000000000000000000000000000000000000000028378850780998606655245755907350005893832100548776189048574648257302712850582808336326038669304124852888047910593733189480724929753941981728571392312754341294854707937160952]
  }

  lemma EvalACAc()
    ensures MatVec(R(), CAc()) == ACAc()
  {
  }

  /** A A c^2 */
  function AAC2(): (r: seq<real>) {
    [0.0,
     0.0,
     0.0,
     0.0379344952202600991539722509452261212474536903970516161752556230426462302790090959557889504044370559252016153279555249403605162386166830133662198530652280712193965620105648773,
     0.03728348600940284366787256802901968087289338428807480532749391059398222517887578439175223805749959269240724165282922702669279831571089522408316459628061812424233661187540617125,
     0.03743258885363900208497588676114946351350222830215416777191038321967368669255302771132543673397916512017934241508776514979133667261338777620389070256150664805308668159034553413,
     0.0833333333333333333333333333333333333333333333333333333333333333333333333333333333337581509709671729755732093705117745486130711246824705496236998380571888854967755368221935804708334420203187220989685875760780884491774386276477348874980275125572551423496933321449170229928110515275704038452523765684731238469903449198435683346080881649407264]
  }

  lemma EvalAAC2()
    ensures MatVec(R(), AC2()) == AAC2()
  {
  }

  /** A A A c */
  function AAAc(): (r: seq<real>) {
    [0.0,
     0.0,
     0.0,
     0.0,
     -0.021793500949053696784086872235816349800112967771590086249285082690947699490484635044909326540888808015752462260662763832061674151054853510646150883458233158001575764635535680239432040059022045562470197201429661680785507862789622810580238989820797744021569055,
     -0.027258791628826389340462033695435610895799151576680428941453364573373892485194830310275458366486898670968343793032775447553750782907148563679076444953416429109853316946971937803194635358088271533454268603294427025129313645845951221753247001201651025423769824,
     0.04166666666666666666666666666666666666666666666666666666666666666666666666666666666667927097612837904194720445010870891709617219237440083842849619148067194208954112988880027331437646594111853968556838414989421593108587688279726981079069226075023227470647264]
  }

  lemma EvalAAAc()
    ensures MatVec(R(), AAc()) == AAAc()
  {
  }

  lemma EvalPhi0()
    ensures ElementaryWeight(Trees()[0], N(), R()) == Ones(7)
  {
  }

  lemma SumSol()
    ensures Sum(ConstructTsit5().bSol) == 0.99999999999999999999999999999999999999999999999999999999999999999999999999999999999986
  {
  }

  lemma SumLow()
    ensures Sum(Tsit5LowOrderWeights()) == 51562500000000000000000000000000000000000000000000000000000000000000000000000000000041.0 / 51562500000000000000000000000000000000000000000000000000000000000000000000000000000000.0
  {
  }

  lemma Tree0()
    ensures TreeCondition(ConstructTsit5().bSol, N(), R(), Trees()[0], 1.0, Tolerance)
      && TreeCondition(Tsit5LowOrderWeights(), N(), R(), Trees()[0], 1.0, Tolerance)
  {
    EvalPhi0();
    SumSol();
    DotOnes(ConstructTsit5().bSol, 7);
    SumLow();
    DotOnes(Tsit5LowOrderWeights(), 7);
    Coefficient0();
  }

  lemma EvalPhi1()
    ensures ElementaryWeight(Trees()[1], N(), R()) == N()
  {
  }

  lemma Dot1Sol()
    ensures Dot(ConstructTsit5().bSol, N()) == 0.4999999999999999999999999999999999999999999999999999999999999999999999999999999999999194018999592800898220079556526488640638840027180049948351694083008688190042590933092
  {
  }

  lemma Dot1Low()
    ensures Dot(Tsit5LowOrderWeights(), N()) == 20625000000000000000000000000000000000000000000000000000000000000000000000000000000032023906255042249684038604581284758743728607094222234062110407490908450854521901836467.0 / 41250000000000000000000000000000000000000000000000000000000000000000000000000000000000000000000000000000000000000000000000000000000000000000000000000000000000000000000000.0
  {
  }

  lemma Tree1()
    ensures TreeCondition(ConstructTsit5().bSol, N(), R(), Trees()[1], 1.0, Tolerance)
      && TreeCondition(Tsit5LowOrderWeights(), N(), R(), Trees()[1], 1.0, Tolerance)
  {
    EvalPhi1();
    Dot1Sol();
    Dot1Low();
    Coefficient1();
  }

  lemma EvalPhi2()
    ensures ElementaryWeight(Trees()[2], N(), R()) == C2()
  {
    EvalC2();
  }

  lemma Dot2Sol()
    ensures Dot(ConstructTsit5().bSol, C2()) == 0.33333333333333333333333333333333333333333333333333333333333333333333333333333333333329990779981312042611160242935835659348080860033666374585709608823592532126859480506839735178166680229190418933081847922928139351194059247631133828301367544405846077371568
  {
  }

  lemma Dot2Low()
    ensures Dot(Tsit5LowOrderWeights(), C2()) == 34375000000000000000000000000000000000000000000000000000000000000000000000000000000079925807584957772204664443269441535159001241289601048841945168490471067991913395617774841226854145671667591961828126739872804741208445526187938225143863535023471920565017.0 / 103125000000000000000000000000000000000000000000000000000000000000000000000000000000000000000000000000000000000000000000000000000000000000000000000000000000000000000000000000000000000000000000000000000000000000000000000000000000000000000000000000000000000.0
  {
  }

  lemma Tree2()
    ensures TreeCondition(ConstructTsit5().bSol, N(), R(), Trees()[2], 1.0, Tolerance)
      && TreeCondition(Tsit5LowOrderWeights(), N(), R(), Trees()[2], 1.0, Tolerance)
  {
    EvalPhi2();
    Dot2Sol();
    Dot2Low();
    Coefficient2();
  }

  lemma EvalPhi3()
    ensures ElementaryWeight(Trees()[3], N(), R()) == Ac()
  {
    EvalAc();
  }

  lemma Dot3Sol()
    ensures Dot(ConstructTsit5().bSol, Ac()) == 0.166666666666666666666666666666666666666666666666666666666666666666666666666666666669528877193206025371705427086952814581988926790865137116907534485901840905568741693674599343185054550879155489958855470055758883775381720676954838763583854245229948760731416
  {
  }

  lemma Dot3Low()
    ensures Dot(Tsit5LowOrderWeights(), Ac()) == 62500000000000000000000000000000000000000000000000000000000000000000000000000000001027680614570512944090070954055144472855449498725166333203130363103404766387847593217541418338671529946411625275543577243461710964997701312257252745034739803125044846794849.0 / 375000000000000000000000000000000000000000000000000000000000000000000000000000000000000000000000000000000000000000000000000000000000000000000000000000000000000000000000000000000000000000000000000000000000000000000000000000000000000000000000000000000000000.0
  {
  }

  lemma Tree3()
    ensures TreeCondition(ConstructTsit5().bSol, N(), R(), Trees()[3], 1.0, Tolerance)
      && TreeCondition(Tsit5LowOrderWeights(), N(), R(), Trees()[3], 1.0, Tolerance)
  {
    EvalPhi3();
    Dot3Sol();
    Dot3Low();
    Coefficient3();
  }

  lemma EvalPhi4()
    ensures ElementaryWeight(Trees()[4], N(), R()) == C3()
  {
    EvalC2();
    EvalC3();
  }

  lemma Dot4Sol()
    ensures Dot(ConstructTsit5().bSol, C3()) == 0.250000000000000000000000000000000000000000000000000000000000000000000000000000000000008724504071231575955286417582034937823463417861448576488871228436547261240567363025276928532822895544365191125532883478370089041163179478163545591192356886794362236509659043145365251617922803088988649853540450806584034886799718462827226702199370385963072
  {
  }

  lemma Dot4Low()
    ensures Dot(Tsit5LowOrderWeights(), C3()) == 64453125000000000000000000000000000000000000000000000000000000000000000000000000000200702065030402860610828828716638863278499834260946598330378101943984179785720459574877994166093977214161325404932642260099069592287369738768980081424813267447778895871817578207842259392060230842436251916532912219417913048847600243757408406867547254101067.0 / 257812500000000000000000000000000000000000000000000000000000000000000000000000000000000000000000000000000000000000000000000000000000000000000000000000000000000000000000000000000000000000000000000000000000000000000000000000000000000000000000000000000000000000000000000000000000000000000000000000000000000000000000000000000000000000000000000.0
  {
  }

  lemma Tree4()
    ensures TreeCondition(ConstructTsit5().bSol, N(), R(), Trees()[4], 1.0, Tolerance)
      && TreeCondition(Tsit5LowOrderWeights(), N(), R(), Trees()[4], 1.0, Tolerance)
  {
    EvalPhi4();
    Dot4Sol();
    Dot4Low();
    Coefficient4();
  }

  lemma EvalPhi5()
    ensures ElementaryWeight(Trees()[5], N(), R()) == CAc()
  {
    EvalAc();
    EvalCAc();
  }

  lemma Dot5Sol()
    ensures Dot(ConstructTsit5().bSol, CAc()) == 0.1250000000000000000000000000000000000000000000000000000000000000000000000000000000028378850780998606655245755907350005893832100548776189048574648257302712850582808336326038669304124852888047910593733189480724929753941981728571392312754341294854707937160952
  {
  }

  lemma Dot5Low()
    ensures Dot(Tsit5LowOrderWeights(), CAc()) == 117187500000000000000000000000000000000000000000000000000000000000000000000000000002535141896797228007419952840246565652495506666865491034341100448846020169488858955188888506701289962889672557166698361468452317450022577642467724868553372522671119415311203.0 / 937500000000000000000000000000000000000000000000000000000000000000000000000000000000000000000000000000000000000000000000000000000000000000000000000000000000000000000000000000000000000000000000000000000000000000000000000000000000000000000000000000000000000.0
  {
  }

  lemma Tree5()
    ensures TreeCondition(ConstructTsit5().bSol, N(), R(), Trees()[5], 1.0, Tolerance)
      && TreeCondition(Tsit5LowOrderWeights(), N(), R(), Trees()[5], 1.0, Tolerance)
  {
    EvalPhi5();
    Dot5Sol();
    Dot5Low();
    Coefficient5();
  }

  lemma EvalPhi6()
    ensures ElementaryWeight(Trees()[6], N(), R()) == AC2()
  {
    EvalC2();
    EvalAC2();
  }

  lemma Dot6Sol()
    ensures Dot(ConstructTsit5().bSol, AC2()) == 0.0833333333333333333333333333333333333333333333333333333333333333333333333333333333337581509709671729755732093705117745486130711246824705496236998380571888854967755368221935804708334420203187220989685875760780884491774386276477348874980275125572551423496933321449170229928110515275704038452523765684731238469903449198435683346080881649407264
  {
  }

  lemma Dot6Low()
    ensures Dot(Tsit5LowOrderWeights(), AC2()) == 286458333333333333333333333333333333333333333333333333333333333333333333333333333335702517430303202505999351195060301379682562425477901866031540772540509102960318354849433334601794252896345996865329678650008241964152796343758586634397098850343847547846602283273255233857425662355007562156206760241399466613420186972547213468640788392779563.0 / 3437500000000000000000000000000000000000000000000000000000000000000000000000000000000000000000000000000000000000000000000000000000000000000000000000000000000000000000000000000000000000000000000000000000000000000000000000000000000000000000000000000000000000000000000000000000000000000000000000000000000000000000000000000000000000000000000000.0
  {
  }

  lemma Tree6()
    ensures TreeCondition(ConstructTsit5().bSol, N(), R(), Trees()[6], 1.0, Tolerance)
      && TreeCondition(Tsit5LowOrderWeights(), N(), R(), Trees()[6], 1.0, Tolerance)
  {
    EvalPhi6();
    Dot6Sol();
    Dot6Low();
    Coefficient6();
  }

  lemma EvalPhi7()
    ensures ElementaryWeight(Trees()[7], N(), R()) == AAc()
  {
    EvalAc();
    EvalAAc();
  }

  lemma Dot7Sol()
    ensures Dot(ConstructTsit5().bSol, AAc()) == 0.04166666666666666666666666666666666666666666666666666666666666666666666666666666666667927097612837904194720445010870891709617219237440083842849619148067194208954112988880027331437646594111853968556838414989421593108587688279726981079069226075023227470647264
  {
  }

  lemma Dot7Low()
    ensures Dot(Tsit5LowOrderWeights(), AAc()) == 45833333333333333333333333333333333333333333333333333333333333333333333333333333333712051035216138723467286359918181398488874413422440083101400318035498679883792761063074809492615904956898999786800799473442160612477222789990969599939828232743009532958731091.0 / 1100000000000000000000000000000000000000000000000000000000000000000000000000000000000000000000000000000000000000000000000000000000000000000000000000000000000000000000000000000000000000000000000000000000000000000000000000000000000000000000000000000000000000000.0
  {
  }

  lemma Tree7()
    ensures TreeCondition(ConstructTsit5().bSol, N(), R(), Trees()[7], 1.0, Tolerance)
      && TreeCondition(Tsit5LowOrderWeights(), N(), R(), Trees()[7], 1.0, Tolerance)
  {
    EvalPhi7();
    Dot7Sol();
    Dot7Low();
    Coefficient7();
  }

  lemma EvalPhi8()
    ensures ElementaryWeight(Trees()[8], N(), R()) == C4()
  {
    EvalC2();
    EvalC3();
    EvalC4();
  }

  lemma Dot8Sol()
    ensures Dot(ConstructTsit5().bSol, C4()) == 0.2000000000000000000000000000000000000000000000000000000000000000000000000000000000000474908620830111944876372522627731094502915003638118851586110374848376327168716616122892396106828799698779485132206606469892912794163205064621792566435744986655058653170458545166369846416607586930523972246445382350074326283516558905169149957478857517099617836505700044571163886174696226729512769589014151459066607993070181645451111729439488
  {
  }

  lemma Dot8Low()
    ensures Dot(Tsit5LowOrderWeights(), C4()) == 128530993314352345595639600383513184797076309317757531389489151693084142153942732537702147606005665781757317728926415373680448295962036829778426337684007004244706101092842583065027531804655430737565610547180780192760321221062932426600488692537630012945163275748309138598064619288239884709532092549290711647199500582772259349240009493194978285694064126293867508912491866123917958523630504654103019026743581744289838089819617.0 / 644531250000000000000000000000000000000000000000000000000000000000000000000000000000000000000000000000000000000000000000000000000000000000000000000000000000000000000000000000000000000000000000000000000000000000000000000000000000000000000000000000000000000000000000000000000000000000000000000000000000000000000000000000000000000000000000000000000000000000000000000000000000000000000000000000000000000000000000000000000000000.0
  {
  }

  /** The condition of tree 8 fails for these weights. */
  lemma Witness8Low()
    ensures Dot(Tsit5LowOrderWeights(), ElementaryWeight(Trees()[8], N(), R())) == 128530993314352345595639600383513184797076309317757531389489151693084142153942732537702147606005665781757317728926415373680448295962036829778426337684007004244706101092842583065027531804655430737565610547180780192760321221062932426600488692537630012945163275748309138598064619288239884709532092549290711647199500582772259349240009493194978285694064126293867508912491866123917958523630504654103019026743581744289838089819617.0 / 644531250000000000000000000000000000000000000000000000000000000000000000000000000000000000000000000000000000000000000000000000000000000000000000000000000000000000000000000000000000000000000000000000000000000000000000000000000000000000000000000000000000000000000000000000000000000000000000000000000000000000000000000000000000000000000000000000000000000000000000000000000000000000000000000000000000000000000000000000000000000.0
  {
    EvalPhi8();
    Dot8Low();
  }

  lemma Tree8()
    ensures TreeCondition(ConstructTsit5().bSol, N(), R(), Trees()[8], 1.0, Tolerance)
  {
    EvalPhi8();
    Dot8Sol();
    Coefficient8();
  }

  lemma EvalPhi9()
    ensures ElementaryWeight(Trees()[9], N(), R()) == C2Ac()
  {
    EvalAc();
    EvalCAc();
    EvalC2Ac();
  }

  lemma Dot9Sol()
    ensures Dot(ConstructTsit5().bSol, C2Ac()) == 0.10000000000000000000000000000000000000000000000000000000000000000000000000000000000281263403641745642699520458679397596800997854408587092842018875400116276899069450817972473194999529714823380330800536859635771517692916579772758091720857675407364495478255265098554625747864876209465648529331337589036636054737261787038150552112089148318646368
  {
  }

  lemma Tree9()
    ensures TreeCondition(ConstructTsit5().bSol, N(), R(), Trees()[9], 1.0, Tolerance)
  {
    EvalPhi9();
    Dot9Sol();
    Coefficient9();
  }

  lemma EvalPhi10()
    ensures ElementaryWeight(Trees()[10], N(), R()) == AcAc()
  {
    EvalAc();
    EvalAcAc();
  }

  lemma Dot10Sol()
    ensures Dot(ConstructTsit5().bSol, AcAc()) == 0.050000000000000000000000000000000000000000000000000000000000000000000000000000000002777546489469308085898183293335212051631763188510644846347620346205599434020345706915788065444831986084606927091491811546472613550826035617319400502630860515429123641296128325330244556131874844939726335507160937294019287691920685794293491864218920489235216097309005732972308546297922280154500767271428290975312283249764258871525879534534615616
  {
  }

  lemma Tree10()
    ensures TreeCondition(ConstructTsit5().bSol, N(), R(), Trees()[10], 1.0, Tolerance)
  {
    EvalPhi10();
    Dot10Sol();
    Coefficient10();
  }

  lemma EvalPhi11()
    ensures ElementaryWeight(Trees()[11], N(), R()) == CAC2()
  {
    EvalC2();
    EvalAC2();
    EvalCAC2();
  }

  lemma Dot11Sol()
    ensures Dot(ConstructTsit5().bSol, CAC2()) == 0.0666666666666666666666666666666666666666666666666666666666666666666666666666666666670987846966681798167122245004421308828793691020484993715565878642908168934347366460592128085739069763566791825159697959582125572762197484682794123571988206644727081362061236245449170229928110515275704038452523765684731238469903449198435683346080881649407264
  {
  }

  lemma Tree11()
    ensures TreeCondition(ConstructTsit5().bSol, N(), R(), Trees()[11], 1.0, Tolerance)
  {
    EvalPhi11();
    Dot11Sol();
    Coefficient11();
  }

  lemma EvalPhi12()
    ensures ElementaryWeight(Trees()[12], N(), R()) == CAAc()
  {
    EvalAc();
    EvalAAc();
    EvalCAAc();
  }

  lemma Dot12Sol()
    ensures Dot(ConstructTsit5().bSol, CAAc()) == 0.03333333333333333333333333333333333333333333333333333333333333333333333333333333333335768401572262850782220601074704033080048330894981619410147142716569945431987690375238412415535343335439136904250731889583532742650129785573697469778102480113294332554642601480865780979753192294669180816277091300406216769287755289717978031665235487721094158
  {
  }

  lemma Tree12()
    ensures TreeCondition(ConstructTsit5().bSol, N(), R(), Trees()[12], 1.0, Tolerance)
  {
    EvalPhi12();
    Dot12Sol();
    Coefficient12();
  }

  lemma EvalPhi13()
    ensures ElementaryWeight(Trees()[13], N(), R()) == AC3()
  {
    EvalC2();
    EvalC3();
    EvalAC3();
  }

  lemma Dot13Sol()
    ensures Dot(ConstructTsit5().bSol, AC3()) == 0.05000000000000000000000000000000000000000000000000000000000000000000000000000000000005248301005540806989767351331367869668208729600804538889676797007573805941964298694932346140532082745821913664092711543001897900399841192356675299891355532316797404993842855147089392249291559756512486844007045628343697891754698223068952416196426246526008276648287683496043008419193311775995230024867659829231336399769319360570791122355715456
  {
  }

  lemma Tree13()
    ensures TreeCondition(ConstructTsit5().bSol, N(), R(), Trees()[13], 1.0, Tolerance)
  {
    EvalPhi13();
    Dot13Sol();
    Coefficient13();
  }

  lemma EvalPhi14()
    ensures ElementaryWeight(Trees()[14], N(), R()) == ACAc()
  {
    EvalAc();
    EvalCAc();
    EvalACAc();
  }

  lemma Dot14Sol()
    ensures Dot(ConstructTsit5().bSol, ACAc()) == 0.025000000000000000000000000000000000000000000000000000000000000000000000000000000000031251614366735950512028333088632414380780640780759104175964245054808589791209022790635540137847917347626732327497660140282736774584327932648340605089879810252064894493390444987383731834229328764644711319394762161108038532107220039646623439080764868237764016
  {
  }

  lemma Tree14()
    ensures TreeCondition(ConstructTsit5().bSol, N(), R(), Trees()[14], 1.0, Tolerance)
  {
    EvalPhi14();
    Dot14Sol();
    Coefficient14();
  }

  lemma EvalPhi15()
    ensures ElementaryWeight(Trees()[15], N(), R()) == AAC2()
  {
    EvalC2();
    EvalAC2();
    EvalAAC2();
  }

  lemma Dot15Sol()
    ensures Dot(ConstructTsit5().bSol, AAC2()) == 0.01666666666666666666666666666666666666666666666666666666666666666666666666666666666666831261591737558183758132410219791347913727618959108642604838010339558983277246103954607003584123040111684314250051356553167718679244767324654691527723688983287320935751981338
  {
  }

  lemma Tree15()
    ensures TreeCondition(ConstructTsit5().bSol, N(), R(), Trees()[15], 1.0, Tolerance)
  {
    EvalPhi15();
    Dot15Sol();
    Coefficient15();
  }

  lemma EvalPhi16()
    ensures ElementaryWeight(Trees()[16], N(), R()) == AAAc()
  {
    EvalAc();
    EvalAAc();
    EvalAAAc();
  }

  lemma Dot16Sol()
    ensures Dot(ConstructTsit5().bSol, AAAc()) == 0.008333333333333333333333333333333333333333333333333333333333333333333333333333333333333045214832847883155052301793717617515232263450648495013828325524147953275667870633821657489166364500493484591885728109727029669872243659533230998786682314565132089508257587104389427949764358170685503497324258921483113825480485221899022062656492909508635251
  {
  }

  lemma Tree16()
    ensures TreeCondition(ConstructTsit5().bSol, N(), R(), Trees()[16], 1.0, Tolerance)
  {
    EvalPhi16();
    Dot16Sol();
    Coefficient16();
  }

  lemma Facts0(k: nat)
    requires k == 0
    ensures TreeCondition(ConstructTsit5().bSol, N(), R(), Trees()[k], 1.0, Tolerance)
      && (Order(Trees()[k]) <= 4 ==> TreeCondition(Tsit5LowOrderWeights(), N(), R(), Trees()[k], 1.0, Tolerance))
  {
    Tree0();
    TreeOrder0();
  }

  lemma Facts1(k: nat)
    requires k == 1
    ensures TreeCondition(ConstructTsit5().bSol, N(), R(), Trees()[k], 1.0, Tolerance)
      && (Order(Trees()[k]) <= 4 ==> TreeCondition(Tsit5LowOrderWeights(), N(), R(), Trees()[k], 1.0, Tolerance))
  {
    Tree1();
    TreeOrder1();
  }

  lemma TreeFacts0To1(k: nat)
    requires k < 2
    ensures TreeCondition(ConstructTsit5().bSol, N(), R(), Trees()[k], 1.0, Tolerance)
      && (Order(Trees()[k]) <= 4 ==> TreeCondition(Tsit5LowOrderWeights(), N(), R(), Trees()[k], 1.0, Tolerance))
  {
    if k < 1 {
      Facts0(k);
    } else {
      Facts1(k);
    }
  }

  lemma Facts2(k: nat)
    requires k == 2
    ensures TreeCondition(ConstructTsit5().bSol, N(), R(), Trees()[k], 1.0, Tolerance)
      && (Order(Trees()[k]) <= 4 ==> TreeCondition(Tsit5LowOrderWeights(), N(), R(), Trees()[k], 1.0, Tolerance))
  {
    Tree2();
    TreeOrder2();
  }

  lemma Facts3(k: nat)
    requires k == 3
    ensures TreeCondition(ConstructTsit5().bSol, N(), R(), Trees()[k], 1.0, Tolerance)
      && (Order(Trees()[k]) <= 4 ==> TreeCondition(Tsit5LowOrderWeights(), N(), R(), Trees()[k], 1.0, Tolerance))
  {
    Tree3();
    TreeOrder3();
  }

  lemma TreeFacts2To3(k: nat)
    requires 2 <= k < 4
    ensures TreeCondition(ConstructTsit5().bSol, N(), R(), Trees()[k], 1.0, Tolerance)
      && (Order(Trees()[k]) <= 4 ==> TreeCondition(Tsit5LowOrderWeights(), N(), R(), Trees()[k], 1.0, Tolerance))
  {
    if k < 3 {
      Facts2(k);
    } else {
      Facts3(k);
    }
  }

  lemma TreeFacts0To3(k: nat)
    requires k < 4
    ensures TreeCondition(ConstructTsit5().bSol, N(), R(), Trees()[k], 1.0, Tolerance)
      && (Order(Trees()[k]) <= 4 ==> TreeCondition(Tsit5LowOrderWeights(), N(), R(), Trees()[k], 1.0, Tolerance))
  {
    if k < 2 {
      TreeFacts0To1(k);
    } else {
      TreeFacts2To3(k);
    }
  }

  lemma Facts4(k: nat)
    requires k == 4
    ensures TreeCondition(ConstructTsit5().bSol, N(), R(), Trees()[k], 1.0, Tolerance)
      && (Order(Trees()[k]) <= 4 ==> TreeCondition(Tsit5LowOrderWeights(), N(), R(), Trees()[k], 1.0, Tolerance))
  {
    Tree4();
    TreeOrder4();
  }

  lemma Facts5(k: nat)
    requires k == 5
    ensures TreeCondition(ConstructTsit5().bSol, N(), R(), Trees()[k], 1.0, Tolerance)
      && (Order(Trees()[k]) <= 4 ==> TreeCondition(Tsit5LowOrderWeights(), N(), R(), Trees()[k], 1.0, Tolerance))
  {
    Tree5();
    TreeOrder5();
  }

  lemma TreeFacts4To5(k: nat)
    requires 4 <= k < 6
    ensures TreeCondition(ConstructTsit5().bSol, N(), R(), Trees()[k], 1.0, Tolerance)
      && (Order(Trees()[k]) <= 4 ==> TreeCondition(Tsit5LowOrderWeights(), N(), R(), Trees()[k], 1.0, Tolerance))
  {
    if k < 5 {
      Facts4(k);
    } else {
      Facts5(k);
    }
  }

  lemma Facts6(k: nat)
    requires k == 6
    ensures TreeCondition(ConstructTsit5().bSol, N(), R(), Trees()[k], 1.0, Tolerance)
      && (Order(Trees()[k]) <= 4 ==> TreeCondition(Tsit5LowOrderWeights(), N(), R(), Trees()[k], 1.0, Tolerance))
  {
    Tree6();
    TreeOrder6();
  }

  lemma Facts7(k: nat)
    requires k == 7
    ensures TreeCondition(ConstructTsit5().bSol, N(), R(), Trees()[k], 1.0, Tolerance)
      && (Order(Trees()[k]) <= 4 ==> TreeCondition(Tsit5LowOrderWeights(), N(), R(), Trees()[k], 1.0, Tolerance))
  {
    Tree7();
    TreeOrder7();
  }

  lemma TreeFacts6To7(k: nat)
    requires 6 <= k < 8
    ensures TreeCondition(ConstructTsit5().bSol, N(), R(), Trees()[k], 1.0, Tolerance)
      && (Order(Trees()[k]) <= 4 ==> TreeCondition(Tsit5LowOrderWeights(), N(), R(), Trees()[k], 1.0, Tolerance))
  {
    if k < 7 {
      Facts6(k);
    } else {
      Facts7(k);
    }
  }

  lemma TreeFacts4To7(k: nat)
    requires 4 <= k < 8
    ensures TreeCondition(ConstructTsit5().bSol, N(), R(), Trees()[k], 1.0, Tolerance)
      && (Order(Trees()[k]) <= 4 ==> TreeCondition(Tsit5LowOrderWeights(), N(), R(), Trees()[k], 1.0, Tolerance))
  {
    if k < 6 {
      TreeFacts4To5(k);
    } else {
      TreeFacts6To7(k);
    }
  }

  lemma TreeFacts0To7(k: nat)
    requires k < 8
    ensures TreeCondition(ConstructTsit5().bSol, N(), R(), Trees()[k], 1.0, Tolerance)
      && (Order(Trees()[k]) <= 4 ==> TreeCondition(Tsit5LowOrderWeights(), N(), R(), Trees()[k], 1.0, Tolerance))
  {
    if k < 4 {
      TreeFacts0To3(k);
    } else {
      TreeFacts4To7(k);
    }
  }

  lemma Facts8(k: nat)
    requires k == 8
    ensures TreeCondition(ConstructTsit5().bSol, N(), R(), Trees()[k], 1.0, Tolerance)
      && (Order(Trees()[k]) <= 4 ==> TreeCondition(Tsit5LowOrderWeights(), N(), R(), Trees()[k], 1.0, Tolerance))
  {
    Tree8();
    TreeOrder8();
  }

  lemma Facts9(k: nat)
    requires k == 9
    ensures TreeCondition(ConstructTsit5().bSol, N(), R(), Trees()[k], 1.0, Tolerance)
      && (Order(Trees()[k]) <= 4 ==> TreeCondition(Tsit5LowOrderWeights(), N(), R(), Trees()[k], 1.0, Tolerance))
  {
    Tree9();
    TreeOrder9();
  }

  lemma TreeFacts8To9(k: nat)
    requires 8 <= k < 10
    ensures TreeCondition(ConstructTsit5().bSol, N(), R(), Trees()[k], 1.0, Tolerance)
      && (Order(Trees()[k]) <= 4 ==> TreeCondition(Tsit5LowOrderWeights(), N(), R(), Trees()[k], 1.0, Tolerance))
  {
    if k < 9 {
      Facts8(k);
    } else {
      Facts9(k);
    }
  }

  lemma Facts10(k: nat)
    requires k == 10
    ensures TreeCondition(ConstructTsit5().bSol, N(), R(), Trees()[k], 1.0, Tolerance)
      && (Order(Trees()[k]) <= 4 ==> TreeCondition(Tsit5LowOrderWeights(), N(), R(), Trees()[k], 1.0, Tolerance))
  {
    Tree10();
    TreeOrder10();
  }

  lemma Facts11(k: nat)
    requires k == 11
    ensures TreeCondition(ConstructTsit5().bSol, N(), R(), Trees()[k], 1.0, Tolerance)
      && (Order(Trees()[k]) <= 4 ==> TreeCondition(Tsit5LowOrderWeights(), N(), R(), Trees()[k], 1.0, Tolerance))
  {
    Tree11();
    TreeOrder11();
  }

  lemma TreeFacts10To11(k: nat)
    requires 10 <= k < 12
    ensures TreeCondition(ConstructTsit5().bSol, N(), R(), Trees()[k], 1.0, Tolerance)
      && (Order(Trees()[k]) <= 4 ==> TreeCondition(Tsit5LowOrderWeights(), N(), R(), Trees()[k], 1.0, Tolerance))
  {
    if k < 11 {
      Facts10(k);
    } else {
      Facts11(k);
    }
  }

  lemma TreeFacts8To11(k: nat)
    requires 8 <= k < 12
    ensures TreeCondition(ConstructTsit5().bSol, N(), R(), Trees()[k], 1.0, Tolerance)
      && (Order(Trees()[k]) <= 4 ==> TreeCondition(Tsit5LowOrderWeights(), N(), R(), Trees()[k], 1.0, Tolerance))
  {
    if k < 10 {
      TreeFacts8To9(k);
    } else {
      TreeFacts10To11(k);
    }
  }

  lemma Facts12(k: nat)
    requires k == 12
    ensures TreeCondition(ConstructTsit5().bSol, N(), R(), Trees()[k], 1.0, Tolerance)
      && (Order(Trees()[k]) <= 4 ==> TreeCondition(Tsit5LowOrderWeights(), N(), R(), Trees()[k], 1.0, Tolerance))
  {
    Tree12();
    TreeOrder12();
  }

  lemma Facts13(k: nat)
    requires k == 13
    ensures TreeCondition(ConstructTsit5().bSol, N(), R(), Trees()[k], 1.0, Tolerance)
      && (Order(Trees()[k]) <= 4 ==> TreeCondition(Tsit5LowOrderWeights(), N(), R(), Trees()[k], 1.0, Tolerance))
  {
    Tree13();
    TreeOrder13();
  }

  lemma TreeFacts12To13(k: nat)
    requires 12 <= k < 14
    ensures TreeCondition(ConstructTsit5().bSol, N(), R(), Trees()[k], 1.0, Tolerance)
      && (Order(Trees()[k]) <= 4 ==> TreeCondition(Tsit5LowOrderWeights(), N(), R(), Trees()[k], 1.0, Tolerance))
  {
    if k < 13 {
      Facts12(k);
    } else {
      Facts13(k);
    }
  }

  lemma Facts14(k: nat)
    requires k == 14
    ensures TreeCondition(ConstructTsit5().bSol, N(), R(), Trees()[k], 1.0, Tolerance)
      && (Order(Trees()[k]) <= 4 ==> TreeCondition(Tsit5LowOrderWeights(), N(), R(), Trees()[k], 1.0, Tolerance))
  {
    Tree14();
    TreeOrder14();
  }

  lemma Facts15(k: nat)
    requires k == 15
    ensures TreeCondition(ConstructTsit5().bSol, N(), R(), Trees()[k], 1.0, Tolerance)
      && (Order(Trees()[k]) <= 4 ==> TreeCondition(Tsit5LowOrderWeights(), N(), R(), Trees()[k], 1.0, Tolerance))
  {
    Tree15();
    TreeOrder15();
  }

  lemma Facts16(k: nat)
    requires k == 16
    ensures TreeCondition(ConstructTsit5().bSol, N(), R(), Trees()[k], 1.0, Tolerance)
      && (Order(Trees()[k]) <= 4 ==> TreeCondition(Tsit5LowOrderWeights(), N(), R(), Trees()[k], 1.0, Tolerance))
  {
    Tree16();
    TreeOrder16();
  }

  lemma TreeFacts15To16(k: nat)
    requires 15 <= k < 17
    ensures TreeCondition(ConstructTsit5().bSol, N(), R(), Trees()[k], 1.0, Tolerance)
      && (Order(Trees()[k]) <= 4 ==> TreeCondition(Tsit5LowOrderWeights(), N(), R(), Trees()[k], 1.0, Tolerance))
  {
    if k < 16 {
      Facts15(k);
    } else {
      Facts16(k);
    }
  }

  lemma TreeFacts14To16(k: nat)
    requires 14 <= k < 17
    ensures TreeCondition(ConstructTsit5().bSol, N(), R(), Trees()[k], 1.0, Tolerance)
      && (Order(Trees()[k]) <= 4 ==> TreeCondition(Tsit5LowOrderWeights(), N(), R(), Trees()[k], 1.0, Tolerance))
  {
    if k < 15 {
      Facts14(k);
    } else {
      TreeFacts15To16(k);
    }
  }

  lemma TreeFacts12To16(k: nat)
    requires 12 <= k < 17
    ensures TreeCondition(ConstructTsit5().bSol, N(), R(), Trees()[k], 1.0, Tolerance)
      && (Order(Trees()[k]) <= 4 ==> TreeCondition(Tsit5LowOrderWeights(), N(), R(), Trees()[k], 1.0, Tolerance))
  {
    if k < 14 {
      TreeFacts12To13(k);
    } else {
      TreeFacts14To16(k);
    }
  }

  lemma TreeFacts8To16(k: nat)
    requires 8 <= k < 17
    ensures TreeCondition(ConstructTsit5().bSol, N(), R(), Trees()[k], 1.0, Tolerance)
      && (Order(Trees()[k]) <= 4 ==> TreeCondition(Tsit5LowOrderWeights(), N(), R(), Trees()[k], 1.0, Tolerance))
  {
    if k < 12 {
      TreeFacts8To11(k);
    } else {
      TreeFacts12To16(k);
    }
  }

  /** The conditions of tree `k` that the weight vectors of this tableau meet. */
  lemma TreeFacts(k: nat)
    requires k < 17
    ensures TreeCondition(ConstructTsit5().bSol, N(), R(), Trees()[k], 1.0, Tolerance)
      && (Order(Trees()[k]) <= 4 ==> TreeCondition(Tsit5LowOrderWeights(), N(), R(), Trees()[k], 1.0, Tolerance))
  {
    if k < 8 {
      TreeFacts0To7(k);
    } else {
      TreeFacts8To16(k);
    }
  }

}

