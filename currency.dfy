/** The currency picker: switching the selected currency through the
    conversion endpoint, with a loading flag around the request. */
module CurrencySelector {
  import opened Records
  import opened NavContext
  import opened Api

  /** The argument `onCurrencyChange` receives: a non-empty converted list.
      An empty list and a response that is not a list (whose `length` is
      undefined) are not forwarded. */
  function Forwarded(c: Converted): (r: Option<seq<Expense>>)
    ensures r.Some? <==> c.ConvertedList? && |c.items| > 0
    ensures r.Some? ==> r.value == c.items
  {
    match c
    case ConvertedList(items) => if |items| > 0 then Some(items) else None
    case NotAList => None
  }

  class Selector {
    const nav: Nav
    var isLoading: bool

    constructor(nav: Nav)
      ensures this.nav == nav && !isLoading
    {
      this.nav := nav;
      isLoading := false;
    }

    /** The part before the request: choosing the current currency again is
        a no-op; otherwise the picker turns its loading flag on. */
    method BeginChange(newCurrency: string) returns (started: bool)
      modifies this
      ensures started <==> newCurrency != nav.selectedCurrency
      ensures isLoading == (if started then true else old(isLoading))
    {
      if newCurrency == nav.selectedCurrency {
        return false;
      }
      isLoading := true;
      return true;
    }

    /** The part after the request settles: on success the new currency is
        selected whatever came back, and the list is forwarded when it is
        non-empty; on failure the selection stays. The loading flag is off
        on every path. */
    method FinishChange(newCurrency: string, res: Settled<Converted>) returns (forwarded: Option<seq<Expense>>)
      modifies this, nav
      ensures !isLoading
      ensures res.Fulfilled? ==> nav.selectedCurrency == newCurrency && forwarded == Forwarded(res.value)
      ensures res.Rejected? ==> nav.selectedCurrency == old(nav.selectedCurrency) && forwarded.None?
      ensures nav.currentPage == old(nav.currentPage) && nav.conversionRates == old(nav.conversionRates)
    {
      forwarded := None;
      match res {
        case Fulfilled(converted) =>
          nav.SetSelectedCurrency(newCurrency);
          forwarded := Forwarded(converted);
        case Rejected =>
      }
      isLoading := false;
    }

    /** `handleCurrencyChange`, with the conversion endpoint given as the
        function from the requested currency to how the request settles.
        `requested` tells whether the endpoint was called at all. */
    method HandleCurrencyChange(newCurrency: string, convert: string -> Settled<Converted>)
      returns (requested: bool, forwarded: Option<seq<Expense>>)
      modifies this, nav
      ensures requested <==> newCurrency != old(nav.selectedCurrency)
      ensures !requested ==> isLoading == old(isLoading) && nav.selectedCurrency == old(nav.selectedCurrency) && forwarded.None?
      ensures requested ==> !isLoading
      ensures requested && convert(newCurrency).Fulfilled? ==>
        nav.selectedCurrency == newCurrency && forwarded == Forwarded(convert(newCurrency).value)
      ensures requested && convert(newCurrency).Rejected? ==>
        nav.selectedCurrency == old(nav.selectedCurrency) && forwarded.None?
      ensures nav.currentPage == old(nav.currentPage) && nav.conversionRates == old(nav.conversionRates)
    {
      requested := BeginChange(newCurrency);
      forwarded := None;
      if requested {
        forwarded := FinishChange(newCurrency, convert(newCurrency));
      }
    }
  }

  /** With the real client, the conversion never fails: a change always ends
      on the new currency, and only a non-empty list is forwarded. */
  lemma ChangeWithClient(newCurrency: string, o: HttpOutcome<ListJson>)
    ensures ConvertCurrency(o).Fulfilled?
    ensures Forwarded(ConvertCurrency(o).value).Some? ==> o.Ok? && |ConvertCurrency(o).value.items| > 0
  {
  }
}
