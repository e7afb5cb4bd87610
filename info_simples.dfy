/** The response of the InfoSimples tracking service (`InfoSimplesApiResponse`) and the
    configuration its clients take, shared by the real client, the mock and the tracking
    procedures. */
module InfoSimples {
  import opened Common

  datatype Place = Place(nome: string, cidade: string, uf: string)

  datatype HistoryEvent = HistoryEvent(
    datahora: string, cidade: string, uf: string, descricao: string,
    origem: Place, destino: Option<Place>, normalizadoDatahora: string)

  datatype TrackingData = TrackingData(
    datahora: string, historico: seq<HistoryEvent>, normalizadoDatahora: string,
    normalizadoPrevisaoEntrega: string, previsaoEntrega: Option<string>,
    situacao: string, siteReceipt: string)

  datatype Header = Header(
    apiVersion: string, apiVersionFull: string, product: string, service: string,
    trackingCode: string, clientName: string, tokenName: string, billable: bool,
    price: string, requestedAt: string, elapsedMilliseconds: int, remoteIp: string,
    signature: string)

  datatype ApiResponse = ApiResponse(
    code: int, codeMessage: string, header: Header, dataCount: int,
    data: seq<TrackingData>, errors: seq<string>, siteReceipts: seq<string>)

  /** `InfoSimplesClientConfig`: an API token and optional timeout and base URL. */
  datatype ClientConfig = ClientConfig(token: string, timeout: Option<int>, baseUrl: Option<string>)

  /** The service found the object: code 200 and at least one data entry. This is the test
      `trackingCodeExists` and the tracking procedures apply to a response. */
  predicate ReportsFound(r: ApiResponse) {
    r.code == 200 && r.dataCount > 0
  }
}
