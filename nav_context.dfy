/** The navigation context: three state cells, each with its setter, shared
    by every component under the provider. */
module NavContext {

  /** The pages the application can show. */
  datatype Page = Dashboard | Expenses | Analytics

  /** The string value each page has in the source. */
  function Name(p: Page): (r: string)
    ensures r in {"dashboard", "expenses", "analytics"}
  {
    match p
    case Dashboard => "dashboard"
    case Expenses => "expenses"
    case Analytics => "analytics"
  }

  /** Distinct pages have distinct names. */
  lemma NameInjective(p: Page, q: Page)
    ensures Name(p) == Name(q) <==> p == q
  {
  }

  const DefaultCurrency: string := "INR"

  /** The provider's state. */
  class Nav {
    var currentPage: Page
    var selectedCurrency: string
    var conversionRates: map<string, real>

    /** The provider's initial state: the dashboard, INR, no rates. */
    constructor()
      ensures currentPage == Dashboard
      ensures selectedCurrency == DefaultCurrency
      ensures conversionRates == map[]
    {
      currentPage := Dashboard;
      selectedCurrency := DefaultCurrency;
      conversionRates := map[];
    }

    method SetCurrentPage(page: Page)
      modifies this
      ensures currentPage == page
      ensures selectedCurrency == old(selectedCurrency) && conversionRates == old(conversionRates)
    {
      currentPage := page;
    }

    method SetSelectedCurrency(currency: string)
      modifies this
      ensures selectedCurrency == currency
      ensures currentPage == old(currentPage) && conversionRates == old(conversionRates)
    {
      selectedCurrency := currency;
    }

    method SetConversionRates(rates: map<string, real>)
      modifies this
      ensures conversionRates == rates
      ensures currentPage == old(currentPage) && selectedCurrency == old(selectedCurrency)
    {
      conversionRates := rates;
    }
  }

  /** What `useNav` yields: the context, or the error it throws. */
  datatype Context = Provided(nav: Nav) | Raised(message: string)

  const OutsideProvider: string := "useNav must be used within NavProvider"

  /** `useNav`: a component outside the provider sees no context and gets
      the error; inside it gets the provider's state itself. */
  function UseNav(context: Nav?): (r: Context)
    ensures r.Raised? <==> context == null
    ensures r.Provided? ==> r.nav == context
    ensures r.Raised? ==> r.message == OutsideProvider
  {
    if context == null then Raised(OutsideProvider) else Provided(context)
  }
}
