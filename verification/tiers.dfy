/**
 Which vanity tier a user has reached on a chain, and how many digits the
 vanity modal uses for it. The modal filters the requirement table by chain,
 keeps the rows whose volume the user's trading volume reaches, and takes the
 last row kept. The digit count falls back to 3 when generating
 recommendations but to 4 when it is shown or used as an input length.
 */
module Tiers {

  import opened JsValues
  import opened JsArrays
  import opened Types
  import opened Constants

  /** A row is reached on `chain` by a user with trading volume `volume`. */
  predicate Reaches(row: VanityRequirement, chain: Chain, volume: int) {
    row.chain == chain && volume >= row.volume
  }

  /** Row `i` is the last row of `table` reached on `chain`. */
  ghost predicate LastReachedAt(table: seq<VanityRequirement>, chain: Chain, volume: int, i: int) {
    && 0 <= i < |table|
    && Reaches(table[i], chain, volume)
    && forall j :: i < j < |table| ==> !Reaches(table[j], chain, volume)
  }

  /** `VANITY_REQUIREMENTS.filter(r => r.chain === selectedChain)`. */
  function ChainRequirements(table: seq<VanityRequirement>, chain: Chain): seq<VanityRequirement> {
    Filter(table, (row: VanityRequirement) => row.chain == chain)
  }

  /** `chainRequirements.filter(r => userVolume >= r.volume)`. */
  function ReachedRequirements(rows: seq<VanityRequirement>, volume: int): seq<VanityRequirement> {
    Filter(rows, (row: VanityRequirement) => volume >= row.volume)
  }

  /** `maxAllowedRequirement`: the last reached row, or `null`. */
  function MaxAllowed(table: seq<VanityRequirement>, chain: Chain, volume: int): (r: Option<VanityRequirement>)
    ensures r.Some? ==> r.value in table && Reaches(r.value, chain, volume)
  {
    var reached := ReachedRequirements(ChainRequirements(table, chain), volume);
    if |reached| > 0 then Some(reached[|reached| - 1]) else None
  }

  /** The two filters together keep exactly the rows reached on the chain. */
  lemma ReachedIsOneFilter(table: seq<VanityRequirement>, chain: Chain, volume: int)
    ensures ReachedRequirements(ChainRequirements(table, chain), volume)
         == Filter(table, (row: VanityRequirement) => Reaches(row, chain, volume))
  {
    FilterFilter(table, (row: VanityRequirement) => row.chain == chain,
                 (row: VanityRequirement) => volume >= row.volume,
                 (row: VanityRequirement) => Reaches(row, chain, volume));
  }

  /** Tier selection finds no tier exactly when no row of the chain is
      reached, and otherwise returns the row at index `i`, the last reached
      row of the chain. */
  lemma MaxAllowedIsLastReached(table: seq<VanityRequirement>, chain: Chain, volume: int) returns (i: int)
    ensures MaxAllowed(table, chain, volume).None? <==>
      forall j :: 0 <= j < |table| ==> !Reaches(table[j], chain, volume)
    ensures MaxAllowed(table, chain, volume).Some? ==>
      LastReachedAt(table, chain, volume, i) && MaxAllowed(table, chain, volume).value == table[i]
  {
    var p := (row: VanityRequirement) => Reaches(row, chain, volume);
    ReachedIsOneFilter(table, chain, volume);
    FilterEmpty(table, p);
    i := 0;
    if |Filter(table, p)| > 0 {
      i := FilterLast(table, p);
    }
  }

  /** When the rows of each chain are ordered by volume, the last reached
      row is the highest reached tier: no reached row of the chain needs
      more volume or grants more digits. */
  lemma MaxAllowedIsHighest(table: seq<VanityRequirement>, chain: Chain, volume: int)
    requires OrderedPerChain(table)
    ensures MaxAllowed(table, chain, volume).Some? ==>
      forall j :: 0 <= j < |table| && Reaches(table[j], chain, volume) ==>
        table[j].volume <= MaxAllowed(table, chain, volume).value.volume
        && table[j].digits <= MaxAllowed(table, chain, volume).value.digits
  {
    var i := MaxAllowedIsLastReached(table, chain, volume);
  }

  /** A table with a zero-volume row on the chain always yields a tier for
      a non-negative volume. */
  lemma ZeroTierIsReached(table: seq<VanityRequirement>, chain: Chain, volume: int)
    requires ZeroTierFor(table, chain)
    requires volume >= 0
    ensures MaxAllowed(table, chain, volume).Some?
  {
    var i := MaxAllowedIsLastReached(table, chain, volume);
    var z :| 0 <= z < |table| && table[z].chain == chain && table[z].volume == 0;
    assert Reaches(table[z], chain, volume);
  }

  /** `maxAllowedRequirement?.digits || 3`: the length recommendations are
      generated with. */
  function GenerationDigits(tier: Option<VanityRequirement>): (d: int)
    ensures tier.None? ==> d == 3
    ensures tier.Some? && tier.value.digits != 0 ==> d == tier.value.digits
  {
    OrElseNumber(if tier.Some? then Some(tier.value.digits) else None, 3)
  }

  /** `maxAllowedRequirement?.digits || 4`: the length shown next to each
      recommendation and used as the prefix input's length. */
  function DisplayDigits(tier: Option<VanityRequirement>): (d: int)
    ensures tier.None? ==> d == 4
    ensures tier.Some? && tier.value.digits != 0 ==> d == tier.value.digits
  {
    OrElseNumber(if tier.Some? then Some(tier.value.digits) else None, 4)
  }

  /** The two fallbacks disagree exactly when no tier (or a zero-digit
      tier) is found: then 3 digits are generated while 4 are shown. */
  lemma DigitFallbacksDisagree(tier: Option<VanityRequirement>)
    ensures GenerationDigits(tier) != DisplayDigits(tier) <==> (tier.None? || tier.value.digits == 0)
    ensures GenerationDigits(tier) != DisplayDigits(tier) ==>
      GenerationDigits(tier) == 3 && DisplayDigits(tier) == 4
  {
  }

  /** With the dashboard's table, a non-negative volume always finds a tier,
      so the disagreeing fallbacks are never used. */
  lemma TableNeverFallsBack(chain: Chain, volume: int)
    requires volume >= 0
    ensures MaxAllowed(VanityRequirements, chain, volume).Some?
    ensures GenerationDigits(MaxAllowed(VanityRequirements, chain, volume))
         == DisplayDigits(MaxAllowed(VanityRequirements, chain, volume))
  {
    RequirementsHaveZeroTier(chain);
    ZeroTierIsReached(VanityRequirements, chain, volume);
  }

  /** For the dashboard's user (volume 1,280,000) the selected tier grants
      4 digits on Solana and 7 on EVM. */
  lemma DashboardUserTiers()
    ensures MaxAllowed(VanityRequirements, Solana, UserTradingVolume) == Some(VanityRequirements[4])
    ensures MaxAllowed(VanityRequirements, EVM, UserTradingVolume) == Some(VanityRequirements[1])
    ensures GenerationDigits(MaxAllowed(VanityRequirements, Solana, UserTradingVolume)) == 4
    ensures GenerationDigits(MaxAllowed(VanityRequirements, EVM, UserTradingVolume)) == 7
  {
    var s := MaxAllowedIsLastReached(VanityRequirements, Solana, UserTradingVolume);
    assert Reaches(VanityRequirements[4], Solana, UserTradingVolume);
    var e := MaxAllowedIsLastReached(VanityRequirements, EVM, UserTradingVolume);
    assert Reaches(VanityRequirements[1], EVM, UserTradingVolume);
  }
}
