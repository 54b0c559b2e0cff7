// Names of assets and accounts, and the integer width of balances.

module Identifiers {

  type AssetId = nat

  /** Account addresses. Only a user account signs calls; the lending pallet and each exchange
      pool own an address that nobody signs for, and different pools have different addresses. */
  datatype AccountId =
    | User(n: nat)
    | LendingPallet
    | Exchange(inherent: AssetId, paired: AssetId)

  const U128_MAX: nat := 0xFFFF_FFFF_FFFF_FFFF_FFFF_FFFF_FFFF_FFFF

  type u128 = n: nat | n <= U128_MAX
}
