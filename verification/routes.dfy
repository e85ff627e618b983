/** The routes of the modelled handlers and the verbs each one registers
    (Flask registers GET alone when a route lists no methods). */
module Routes {
  import opened Outcomes

  datatype Route =
    | StocksList          // '/stocks/'
    | StocksV2Detail      // '/stocks/v2/<code>/'
    | SheetList           // '/stocks/sheets/'
    | SheetDetail         // '/stocks/sheets/<code>/'
    | AnalysisDetail      // '/stocks/<code>/analysis/'
    | StocksDetail        // '/stocks/<code>/'
    | FundsDetail         // '/funds/<symbol>/'
    | GoogleSearchDetail  // '/stocks/google-search/<code>/'

  /** The verbs a route registers besides the HEAD Flask adds to every GET
      route (HEAD runs the GET branch); POST to a route without it never
      reaches the handler. */
  function AllowedVerbs(route: Route): (verbs: set<Verb>)
    ensures Get in verbs
    ensures Post in verbs <==> route == SheetList || route == SheetDetail
  {
    match route
    case SheetList => {Get, Post}
    case SheetDetail => {Get, Post}
    case _ => {Get}
  }
}
