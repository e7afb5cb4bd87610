/** The stand-in for the InfoSimples service (`InfoSimplesCorreiosMockClient`): codes that
    start with "OK" are found with a fixed two-event history, every other code is not found.
    The clock readings it stamps into a response are parameters. */
module InfoSimplesMockClient {
  import opened Common
  import opened InfoSimples

  /** The moments a mock response mentions, as the runtime renders them: now and one day
      earlier, in the locale format and in ISO 8601. */
  datatype Clock = Clock(nowLocal: string, nowIso: string, yesterdayLocal: string, yesterdayIso: string)

  const FoundSituation: string := "Em trânsito para Rio de Janeiro/RJ"
  const NotFoundError: string := "Objeto não encontrado na base de dados dos Correios."
  const PostedDescription: string := "Objeto postado"
  const TransferDescription: string := "Objeto em transferência - por favor aguarde"

  /** `config.timeout ?? 500`: the default applies only when no timeout is given, so 0 is kept. */
  function MockDelay(config: ClientConfig): (d: int)
    ensures config.timeout.Some? ==> d == config.timeout.value
    ensures config.timeout.None? ==> d == 500
  {
    config.timeout.GetOr(500)
  }

  /** The header both mock responses carry, echoing the code; only the price differs. */
  function MockHeader(trackingCode: string, price: string, requestedAt: string, delay: int): Header {
    Header("v2", "2.2.23-mock", "Consultas", "correios/rastreamento", trackingCode,
      "Mock Client", "Mock Token", false, price, requestedAt, delay, "127.0.0.1", "mock-signature")
  }

  const RibeiraoPreto: string := "Ribeirao Preto"

  /** The fixed history: posted yesterday, then in transfer today towards Rio de Janeiro. */
  function MockHistory(clock: Clock): seq<HistoryEvent> {
    [ HistoryEvent(clock.yesterdayLocal, RibeiraoPreto, "SP", PostedDescription,
        Place("Agência dos Correios", RibeiraoPreto, "SP"), None, clock.yesterdayIso),
      HistoryEvent(clock.nowLocal, RibeiraoPreto, "SP", TransferDescription,
        Place("Unidade de Tratamento", RibeiraoPreto, "SP"),
        Some(Place("Unidade de Tratamento", "Rio de Janeiro", "RJ")), clock.nowIso) ]
  }

  /** `generateSuccessResponse` */
  function SuccessResponse(trackingCode: string, clock: Clock, delay: int): (r: ApiResponse)
    ensures r.header.trackingCode == trackingCode && r.header.elapsedMilliseconds == delay
    ensures r.code == 200 && r.dataCount == |r.data| == 1 && r.errors == []
    ensures r.data[0].situacao == FoundSituation
  {
    var data := TrackingData(clock.nowLocal, MockHistory(clock), clock.nowIso, "", None,
      FoundSituation, "mock-receipt-url");
    ApiResponse(200, "A requisição foi processada com sucesso.",
      MockHeader(trackingCode, "0.0", clock.nowIso, delay), 1, [data], [], ["mock-receipt-url"])
  }

  /** `generateNotFoundResponse` */
  function NotFoundResponse(trackingCode: string, clock: Clock, delay: int): (r: ApiResponse)
    ensures r.header.trackingCode == trackingCode && r.header.elapsedMilliseconds == delay
    ensures r.code == 612 && r.dataCount == |r.data| == 0 && r.errors == [NotFoundError]
  {
    ApiResponse(612,
      "A consulta não retornou dados no site ou aplicativo de origem no qual a automação foi executada.",
      MockHeader(trackingCode, "0.2", clock.nowIso, delay), 0, [], [NotFoundError], [])
  }

  /** The mock client, configured once with its delay. */
  class MockClient {
    const mockDelay: int

    constructor(config: ClientConfig)
      ensures mockDelay == MockDelay(config)
    {
      mockDelay := MockDelay(config);
    }

    /** `trackPackage`: dispatch on the code's prefix. */
    function TrackPackage(trackingCode: string, clock: Clock): (r: ApiResponse)
      ensures r.header.trackingCode == trackingCode
      ensures r.header.elapsedMilliseconds == mockDelay
      ensures r.dataCount == |r.data|
      ensures StartsWith(trackingCode, "OK") ==>
        r.code == 200 && r.dataCount == 1 && r.errors == [] && r.data[0].situacao == FoundSituation
      ensures !StartsWith(trackingCode, "OK") ==>
        r.code == 612 && r.dataCount == 0 && r.errors == [NotFoundError]
    {
      if StartsWith(trackingCode, "OK") then SuccessResponse(trackingCode, clock, mockDelay)
      else if StartsWith(trackingCode, "NF") then NotFoundResponse(trackingCode, clock, mockDelay)
      else NotFoundResponse(trackingCode, clock, mockDelay)
    }

    /** `trackingCodeExists`: only codes that start with "OK" exist. */
    function TrackingCodeExists(trackingCode: string): (exists_: bool)
      ensures exists_ <==> |trackingCode| >= 2 && trackingCode[0] == 'O' && trackingCode[1] == 'K'
    {
      StartsWith(trackingCode, "OK")
    }

    /** The two mock operations agree: a code exists exactly when its lookup reports it found,
        by the same test the real client applies. */
    lemma ExistsIffLookupFinds(trackingCode: string, clock: Clock)
      ensures TrackingCodeExists(trackingCode) <==> ReportsFound(TrackPackage(trackingCode, clock))
      ensures TrackingCodeExists(trackingCode) <==> TrackPackage(trackingCode, clock).code == 200
    {
    }

    /** A code starting with "NF" gets the same answer as any other unknown code. */
    lemma NotFoundPrefixIsDefault(a: string, b: string, clock: Clock)
      requires StartsWith(a, "NF") && !StartsWith(b, "OK") && !StartsWith(b, "NF")
      ensures TrackPackage(a, clock) == TrackPackage(b, clock).(header := TrackPackage(b, clock).header.(trackingCode := a))
    {
      assert !StartsWith(a, "OK") by {
        assert a[1] == 'F';
      }
    }

    /** A found object's history has two events: posted first, then in transfer. */
    lemma FoundHistory(trackingCode: string, clock: Clock)
      requires StartsWith(trackingCode, "OK")
      ensures |TrackPackage(trackingCode, clock).data[0].historico| == 2
      ensures TrackPackage(trackingCode, clock).data[0].historico[0].descricao == PostedDescription
      ensures TrackPackage(trackingCode, clock).data[0].historico[1].descricao == TransferDescription
      ensures TrackPackage(trackingCode, clock).data[0].historico[1].destino.Some?
    {
    }
  }
}
