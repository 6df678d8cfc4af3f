/** The responses a SvelteKit route handler produces: `redirect(...)`, `error(...)`, or an escaping error. */
module Http {

  /** Why a handler answered with an error; each stands for one of the source's messages. */
  datatype Reason =
    | InvalidQuantity          // "Ugyldig tal: må vera mellom 1 og 9"
    | InvalidDeliveryMethod    // "Ugyldig leveringsmetode"
    | InsufficientStock        // "Ikkje nok varer på lager"
    | StockUnverifiable        // "Kunne ikkje stadfeste lagerstatus. Prøv igjen seinare."
    | SessionWithoutUrl        // "Kunne ikkje opprette Stripe-sesjon"
    | PaymentFailed            // "Noko gjekk gale med betalinga"
    | MissingSessionId         // "Mangler session_id"
    | PaymentNotCompleted      // "Betalingen ble ikke fullført"
    | ConfirmationFailed       // "Kunne ikke bekrefte ordren"

  datatype Response =
    | Redirect(status: int, location: string)
    | HttpError(status: int, reason: Reason)
      /** An error object that is not a SvelteKit `HttpError` leaves the handler; `status` is its own field. */
    | Escaped(status: int)
}
