/** The shape of the OpenCost cloudCost API response and of the exchange-rate
    response (pkg/types/types.go). These types carry no behaviour. */
module Types {

  /** One byte of an HTTP body. */
  newtype byte = x: int | 0 <= x < 256

  /** A cost amount with the fraction of it attributed to Kubernetes. Amounts are
      modelled as exact reals rather than IEEE doubles. */
  datatype CostValue = CostValue(cost: real, kubernetesPercent: real)

  /** The time window an item covers (opaque strings). */
  datatype Window = Window(start: string, end: string)

  /** Identifying properties of a cost item. A label map absent from the JSON
      decodes to a nil Go map, which reads like the empty map here. */
  datatype Properties = Properties(
    providerId: string,
    provider: string,
    accountId: string,
    accountName: string,
    invoiceEntityId: string,
    invoiceEntityName: string,
    availabilityZone: string,
    regionId: string,
    service: string,
    category: string,
    labels: map<string, string>)

  /** One cost entry with its five cost figures. */
  datatype CostItem = CostItem(
    properties: Properties,
    window: Window,
    listCost: CostValue,
    netCost: CostValue,
    amortizedNetCost: CostValue,
    invoicedCost: CostValue,
    amortizedCost: CostValue)

  /** A set of items. types.go keys items by an opaque identifier in a Go map;
      the sequence is one iteration order of that map (identifiers are never read). */
  datatype CostSet = CostSet(cloudCosts: seq<CostItem>)

  datatype CostData = CostData(sets: seq<CostSet>)

  /** A whole snapshot as fetched from the cost API. */
  datatype CostResponse = CostResponse(code: int, data: CostData)

  /** Exchange rates relative to `base`; `rates` is one iteration order of the
      decoded currency-to-rate map. */
  datatype ExchangeRateResponse = ExchangeRateResponse(
    amount: real,
    base: string,
    date: string,
    rates: seq<(string, real)>)
}
