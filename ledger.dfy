/**
 * Values the Radix ledger hands to the blueprints, as the model sees them.
 * A `Decimal` is a fixed-point number with 18 decimal places, kept here as an
 * integer number of attos (10^-18); its 192-bit bound is not modelled.
 * URLs, component and resource addresses are opaque strings, an epoch a
 * natural number supplied by the caller.
 */
module Ledger {

  newtype uint32 = x: int | 0 <= x < 0x1_0000_0000

  type Decimal = int
  type Url = string
  type ComponentAddress = string
  type ResourceAddress = string
  type Epoch = nat

  /** The ways a call aborts its transaction. */
  datatype Error =
    | InvalidLocalId(id: string)            // NonFungibleLocalId::string(..).unwrap() panics
    | NonFungibleNotFound(localId: string)  // get/update of a missing non-fungible
    | NonFungibleExists(localId: string)    // mint under an id already in use
    | InvalidAmount(amount: Decimal)        // Bucket::take of a negative amount
    | InsufficientBalance(requested: Decimal, available: Decimal)
    | AssertionFailed(message: string)      // assert! / check_with_message
}
