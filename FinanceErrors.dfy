/**
 * The error types the finance service passes around. `YahooError` comes from
 * the market-data client library and `FinanceServiceError` from the service's
 * own module; only the variants the modelled code builds or matches appear.
 */
module FinanceErrors {

  datatype YahooError =
    | ParseError(message: string)
    | ClientError(message: string)   // every other failure the client reports

  datatype FinanceServiceError =
    | Yahoo(cause: YahooError)
    | NotFound(message: string)
}
