/**
 The records the dashboard passes around. Optional boolean flags of a wallet
 are `false` when absent (an absent flag is falsy wherever it is read), and
 absent labels are the empty list.
 */
module Types {

  import opened JsValues

  datatype Source = Debot | Telegram | External

  datatype Wallet = Wallet(
    id: string,
    address: string,
    displayAddress: Option<string>,
    balance: string,
    source: Source,
    isSafety: bool,
    isVanity: bool,
    isCustodied: bool,
    labels: seq<string>
  )

  datatype UserStatus = UserStatus(tradingVolume: int, unlockedVanityLevel: int)

  datatype VanityStyle = SystemRecommended | Custom

  datatype Chain = EVM | Solana

  /** One row of the vanity requirement table. */
  datatype VanityRequirement = VanityRequirement(
    vipLevel: int,
    volume: int,
    labelText: string,
    chain: Chain,
    digits: int
  )
}
