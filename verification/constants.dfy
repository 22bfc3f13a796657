/**
 The fixed data of the dashboard: the four wallets it starts with and the
 vanity requirement table (trading volume needed for each vanity length,
 per chain), with the facts about them that the selection and lookup rules
 depend on.
 */
module Constants {

  import opened JsValues
  import opened Types

  const InitialWallets: seq<Wallet> := [
    Wallet("w1", "85ay4kP7u9mZ8xJsc8", None, "0.001", Debot, false, false, false, ["warning", "lock"]),
    Wallet("w2", "4W21vYqN2zL8RwoB", None, "0.003", Debot, false, false, false, ["warning", "lock"]),
    Wallet("w3", "EbpNy9Q1xL7iH6C", None, "0.000", Telegram, false, false, false, []),
    Wallet("w4", "安全钱包", None, "0.007", Debot, true, false, false, [])
  ]

  /** The wallet selected when the dashboard opens. */
  const InitialSelectedId: string := "w1"

  const VanityRequirements: seq<VanityRequirement> := [
    VanityRequirement(0, 0, "6 位靓号", EVM, 6),
    VanityRequirement(1, 500000, "7 位靓号", EVM, 7),
    VanityRequirement(3, 3000000, "8 位靓号", EVM, 8),
    VanityRequirement(0, 0, "3 位靓号", Solana, 3),
    VanityRequirement(1, 500000, "4 位靓号", Solana, 4),
    VanityRequirement(3, 3000000, "5 位靓号", Solana, 5)
  ]

  /** The trading volume the dashboard assumes for its user ($1.28M). */
  const UserTradingVolume: int := 1280000

  /** Within one chain, a later row needs strictly more volume and grants
      strictly more digits. */
  ghost predicate OrderedPerChain(table: seq<VanityRequirement>) {
    forall i, j :: 0 <= i < j < |table| && table[i].chain == table[j].chain ==>
      table[i].volume < table[j].volume && table[i].digits < table[j].digits
  }

  /** Every chain has a row that needs no volume at all. */
  ghost predicate ZeroTierFor(table: seq<VanityRequirement>, chain: Chain) {
    exists i :: 0 <= i < |table| && table[i].chain == chain && table[i].volume == 0
  }

  lemma RequirementsOrdered()
    ensures OrderedPerChain(VanityRequirements)
  {
  }

  lemma RequirementsHaveZeroTier(chain: Chain)
    ensures ZeroTierFor(VanityRequirements, chain)
  {
    if chain == EVM {
      assert VanityRequirements[0].chain == EVM && VanityRequirements[0].volume == 0;
    } else {
      assert VanityRequirements[3].chain == Solana && VanityRequirements[3].volume == 0;
    }
  }

  /** Ids of the initial wallets are pairwise distinct and include the
      initially selected one. */
  lemma InitialIdsDistinct()
    ensures forall i, j :: 0 <= i < j < |InitialWallets| ==> InitialWallets[i].id != InitialWallets[j].id
    ensures exists i :: 0 <= i < |InitialWallets| && InitialWallets[i].id == InitialSelectedId
  {
    assert InitialWallets[0].id == InitialSelectedId;
  }

  /** Every initial wallet has an address whose first character exists,
      and none of them is a custodied wallet. */
  lemma InitialWalletsWellFormed()
    ensures forall i :: 0 <= i < |InitialWallets| ==> |InitialWallets[i].address| > 0
    ensures forall i :: 0 <= i < |InitialWallets| ==> !InitialWallets[i].isCustodied && !InitialWallets[i].isVanity
  {
  }
}
