/** Shared vocabulary: optional values and the money unit of the ledger. */
module Basics {

  datatype Option<+T> = None | Some(value: T)

  /** Identifiers (uuids, Stripe ids) are natural numbers; only equality of identifiers matters. */
  type Id = nat

  /** 1 EUR = 1_000_000 micros = 100 cents. */
  const MICROS_PER_CENT: nat := 10000

  /** Smallest amount, in cents, that Stripe accepts for a card charge. */
  const STRIPE_MINIMUM_CENTS: nat := 50

  /** Lifetime of a Stripe idempotency key, in seconds. */
  const KEY_LIFETIME: nat := 86400

  /** Billing conversion: whole cents contained in an amount, never rounded up. */
  function MicrosToCents(micros: nat): (cents: nat)
    ensures cents * MICROS_PER_CENT <= micros < (cents + 1) * MICROS_PER_CENT
  {
    micros / MICROS_PER_CENT
  }
}
