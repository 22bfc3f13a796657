/**
 The vanity application modal as a state machine: three steps (chain,
 style, custody confirmation), a batch of ten recommended addresses with a
 daily refresh budget of five, a case-insensitive search over the batch,
 sanitised prefix/suffix inputs for the custom style, and the payload the
 confirm button hands to the dashboard.
 */
module Modal {

  import opened JsValues
  import opened JsStrings
  import opened JsArrays
  import opened Types
  import opened Constants
  import opened Tiers
  import opened Recommend

  datatype ModalState = ModalState(
    step: int,
    chain: Chain,
    style: VanityStyle,
    recommendations: seq<string>,
    selectedPool: string,
    refreshRemaining: int,
    searchQuery: string,
    customPrefix: string,
    customSuffix: string
  )

  /** What the confirm button passes on: `text` for the recommended style,
      `prefix` and `suffix` for the custom style, `undefined` otherwise. */
  datatype VanityConfig = VanityConfig(
    chain: Chain,
    style: VanityStyle,
    text: Option<string>,
    prefix: Option<string>,
    suffix: Option<string>
  )

  const DailyRefreshLimit: int := 5
  const FirstStep: int := 1
  const LastStep: int := 3

  /** The modal's state when it is first rendered. */
  const InitialModal: ModalState :=
    ModalState(FirstStep, Solana, SystemRecommended, [], "", DailyRefreshLimit, "", "", "")

  /** The tier of the user on the modal's current chain. */
  function Tier(s: ModalState, volume: int): Option<VanityRequirement> {
    MaxAllowed(VanityRequirements, s.chain, volume)
  }

  /** Ten pattern choices, each naming one of the ten patterns. */
  predicate ValidChoices(choices: seq<nat>) {
    |choices| == BatchSize && forall k :: 0 <= k < |choices| ==> choices[k] < |Patterns|
  }

  /** Every recommendation of a fresh batch contains `".."`. */
  lemma BatchHasDots(chain: Chain, digits: int, choices: seq<nat>)
    requires ValidChoices(choices)
    ensures forall k :: 0 <= k < BatchSize ==> Includes(Batch(chain, digits, choices)[k], "..")
  {
    forall k | 0 <= k < BatchSize
      ensures Includes(Batch(chain, digits, choices)[k], "..")
    {
      GeneratedSplitsAtDots(chain, digits, choices[k]);
    }
  }

  /** The effect run while the modal is open (and again when the chain
      changes): a batch generated with the tier's digits (3 when no tier),
      whose first element becomes the selection. */
  function Regenerate(s: ModalState, volume: int, choices: seq<nat>): (r: ModalState)
    requires ValidChoices(choices)
    ensures |r.recommendations| == BatchSize
    ensures r.selectedPool == r.recommendations[0]
    ensures forall k :: 0 <= k < BatchSize ==>
      r.recommendations[k] == Generate(s.chain, GenerationDigits(Tier(s, volume)), choices[k])
    ensures r == s.(recommendations := r.recommendations, selectedPool := r.selectedPool)
  {
    var batch := Batch(s.chain, GenerationDigits(Tier(s, volume)), choices);
    s.(recommendations := batch, selectedPool := batch[0])
  }

  /** `handleRefresh`: with budget left, a fresh batch replaces the old one,
      its first element is selected, the budget drops by one and the search
      is cleared; with no budget left nothing happens. */
  function Refresh(s: ModalState, volume: int, choices: seq<nat>): (r: ModalState)
    requires ValidChoices(choices)
    ensures s.refreshRemaining <= 0 ==> r == s
    ensures s.refreshRemaining > 0 ==>
      && r.refreshRemaining == s.refreshRemaining - 1
      && |r.recommendations| == BatchSize
      && r.selectedPool == r.recommendations[0]
      && r.searchQuery == ""
      && (forall k :: 0 <= k < BatchSize ==>
            r.recommendations[k] == Generate(s.chain, GenerationDigits(Tier(s, volume)), choices[k]))
      && r == s.(recommendations := r.recommendations, selectedPool := r.selectedPool,
                 refreshRemaining := r.refreshRemaining, searchQuery := "")
  {
    if s.refreshRemaining <= 0 then s
    else
      var batch := Batch(s.chain, GenerationDigits(Tier(s, volume)), choices);
      s.(recommendations := batch, selectedPool := batch[0],
         refreshRemaining := s.refreshRemaining - 1, searchQuery := "")
  }

  /** `handleNext`: one step forward, never past the last step. */
  function Next(s: ModalState): (r: ModalState)
    ensures r.step <= LastStep
    ensures s.step < LastStep ==> r.step == s.step + 1
    ensures s.step == LastStep ==> r == s
    ensures r == s.(step := r.step)
  {
    s.(step := Min(LastStep, s.step + 1))
  }

  /** `handlePrev`: one step back, never before the first step. */
  function Prev(s: ModalState): (r: ModalState)
    ensures r.step >= FirstStep
    ensures s.step > FirstStep ==> r.step == s.step - 1
    ensures s.step == FirstStep ==> r == s
    ensures r == s.(step := r.step)
  {
    s.(step := Max(FirstStep, s.step - 1))
  }

  /** The search test: `addr.toUpperCase().includes(query.toUpperCase())`. */
  predicate Matches(addr: string, query: string) {
    Includes(Upper(addr), Upper(query))
  }

  /** `filteredRecommendations`: the recommendations that match the search,
      in their order; every recommendation when the search is empty. */
  function Filtered(s: ModalState): (r: seq<string>)
    ensures IsSubsequence(r, s.recommendations)
    ensures forall k :: 0 <= k < |r| ==> r[k] in s.recommendations && Matches(r[k], s.searchQuery)
    ensures forall k :: 0 <= k < |s.recommendations| && Matches(s.recommendations[k], s.searchQuery) ==>
      multiset(r)[s.recommendations[k]] == multiset(s.recommendations)[s.recommendations[k]]
    ensures multiset(r) <= multiset(s.recommendations)
    ensures s.searchQuery == "" ==> r == s.recommendations
  {
    var p := (addr: string) => Matches(addr, s.searchQuery);
    FilterIsSubsequence(s.recommendations, p);
    FilterCounts(s.recommendations, p);
    if s.searchQuery == "" then
      forall k | 0 <= k < |s.recommendations|
        ensures p(s.recommendations[k])
      {
        IncludesEmpty(Upper(s.recommendations[k]));
      }
      FilterAll(s.recommendations, p);
      Filter(s.recommendations, p)
    else
      Filter(s.recommendations, p)
  }

  /** What the prefix and suffix inputs accept: capital letters and digits. */
  predicate IsSanitized(s: string) {
    forall k :: 0 <= k < |s| ==> IsUpperAlnum(s[k])
  }

  /** `value.toUpperCase().replace(/[^A-Z0-9]/g, '')` on ASCII input: the
      upper-cased letters and digits of `raw`, in order. */
  function Sanitize(raw: string): (r: string)
    requires IsAscii(raw)
    ensures IsSanitized(r)
    ensures IsSubsequence(r, Upper(raw))
    ensures forall k :: 0 <= k < |raw| && IsUpperAlnum(UpperChar(raw[k])) ==>
      multiset(r)[UpperChar(raw[k])] == multiset(Upper(raw))[UpperChar(raw[k])]
    ensures multiset(r) <= multiset(Upper(raw))
  {
    FilterIsSubsequence(Upper(raw), IsUpperAlnum);
    FilterCounts(Upper(raw), IsUpperAlnum);
    Filter(Upper(raw), IsUpperAlnum)
  }

  /** Sanitising a sanitised string changes nothing, so sanitising twice is
      sanitising once. */
  lemma {:induction false} SanitizeIdempotent(raw: string)
    requires IsAscii(raw)
    ensures IsAscii(Sanitize(raw))
    ensures Sanitize(Sanitize(raw)) == Sanitize(raw)
  {
    var once := Sanitize(raw);
    assert Upper(once) == once;
    FilterAll(once, IsUpperAlnum);
  }

  /** The payload of the confirm button. */
  function ConfirmPayload(s: ModalState): (c: VanityConfig)
    ensures c.chain == s.chain && c.style == s.style
    ensures c.text.Some? <==> s.style == SystemRecommended
    ensures c.prefix.Some? <==> s.style == Custom
    ensures c.suffix.Some? <==> s.style == Custom
    ensures c.text.Some? ==> c.text.value == s.selectedPool
    ensures c.prefix.Some? ==> c.prefix.value == s.customPrefix
    ensures c.suffix.Some? ==> c.suffix.value == s.customSuffix
  {
    VanityConfig(
      s.chain,
      s.style,
      if s.style == SystemRecommended then Some(s.selectedPool) else None,
      if s.style == Custom then Some(s.customPrefix) else None,
      if s.style == Custom then Some(s.customSuffix) else None)
  }

  /** What the user (or the open effect) can do to the modal. `PressRefresh`
      is `handleRefresh`, which the modal defines but binds to no element,
      so no rendered control triggers it; it is kept so that the refresh
      budget's rules are stated, and a run without it never spends the
      budget. */
  datatype ModalAction =
    | NextStep
    | PrevStep
    | ChooseChain(chain: Chain)
    | ChooseStyle(style: VanityStyle)
    | EditSearch(query: string)
    | PickAddress(index: nat)
    | PressRefresh(choices: seq<nat>)
    | OpenEffect(choices: seq<nat>)
    | EditPrefix(raw: string)
    | EditSuffix(raw: string)

  /** Random choices name patterns, and typed text is ASCII. */
  predicate WellFormedAction(a: ModalAction) {
    match a
    case PressRefresh(choices) => ValidChoices(choices)
    case OpenEffect(choices) => ValidChoices(choices)
    case EditPrefix(raw) => IsAscii(raw)
    case EditSuffix(raw) => IsAscii(raw)
    case _ => true
  }

  /** One action applied to the modal: each handler changes only the part
      of the state it owns. */
  function Step(s: ModalState, a: ModalAction, volume: int): (r: ModalState)
    requires WellFormedAction(a)
    ensures a.NextStep? ==> r == s.(step := r.step) && r.step == Min(LastStep, s.step + 1)
    ensures a.PrevStep? ==> r == s.(step := r.step) && r.step == Max(FirstStep, s.step - 1)
    ensures a.ChooseChain? ==> r == s.(chain := a.chain)
    ensures a.ChooseStyle? ==> r == s.(style := a.style)
    ensures a.EditSearch? ==> r == s.(searchQuery := a.query)
    ensures a.PickAddress? && a.index < |Filtered(s)| ==>
      r == s.(selectedPool := Filtered(s)[a.index])
      && r.selectedPool in s.recommendations && Matches(r.selectedPool, s.searchQuery)
    ensures a.PickAddress? && a.index >= |Filtered(s)| ==> r == s
    ensures a.PressRefresh? && s.refreshRemaining <= 0 ==> r == s
    ensures a.PressRefresh? && s.refreshRemaining > 0 ==>
      r.refreshRemaining == s.refreshRemaining - 1 && r.searchQuery == ""
      && |r.recommendations| == BatchSize && r.selectedPool == r.recommendations[0]
    ensures a.OpenEffect? ==>
      r == s.(recommendations := r.recommendations, selectedPool := r.selectedPool)
      && |r.recommendations| == BatchSize && r.selectedPool == r.recommendations[0]
    ensures a.PressRefresh? ==> r == Refresh(s, volume, a.choices)
    ensures a.OpenEffect? ==> r == Regenerate(s, volume, a.choices)
    ensures a.EditPrefix? ==> r == s.(customPrefix := Sanitize(a.raw)) && IsSanitized(r.customPrefix)
    ensures a.EditSuffix? ==> r == s.(customSuffix := Sanitize(a.raw)) && IsSanitized(r.customSuffix)
    ensures !a.PressRefresh? ==> r.refreshRemaining == s.refreshRemaining
  {
    match a
    case NextStep => Next(s)
    case PrevStep => Prev(s)
    case ChooseChain(chain) => s.(chain := chain)
    case ChooseStyle(style) => s.(style := style)
    case EditSearch(query) => s.(searchQuery := query)
    case PickAddress(index) =>
      var shown := Filtered(s);
      if index < |shown| then s.(selectedPool := shown[index]) else s
    case PressRefresh(choices) => Refresh(s, volume, choices)
    case OpenEffect(choices) => Regenerate(s, volume, choices)
    case EditPrefix(raw) => s.(customPrefix := Sanitize(raw))
    case EditSuffix(raw) => s.(customSuffix := Sanitize(raw))
  }

  /** A sequence of actions applied in order; without a refresh among them
      the budget is untouched. */
  function Run(s: ModalState, actions: seq<ModalAction>, volume: int): (r: ModalState)
    requires forall k :: 0 <= k < |actions| ==> WellFormedAction(actions[k])
    ensures (forall k :: 0 <= k < |actions| ==> !actions[k].PressRefresh?) ==>
      r.refreshRemaining == s.refreshRemaining
    decreases |actions|
  {
    if |actions| == 0 then s else Run(Step(s, actions[0], volume), actions[1..], volume)
  }

  /** What every reachable modal state satisfies: the step is within 1..3,
      the refresh budget within 0..5, the selection is empty with no batch
      or one of the batch's ten addresses, and the inputs are sanitised. */
  ghost predicate Inv(s: ModalState) {
    && FirstStep <= s.step <= LastStep
    && 0 <= s.refreshRemaining <= DailyRefreshLimit
    && ((|s.recommendations| == 0 && s.selectedPool == "")
        || (|s.recommendations| == BatchSize && s.selectedPool in s.recommendations))
    && IsSanitized(s.customPrefix)
    && IsSanitized(s.customSuffix)
  }

  lemma InitialModalInv()
    ensures Inv(InitialModal)
  {
  }

  lemma StepKeepsInv(s: ModalState, a: ModalAction, volume: int)
    requires Inv(s)
    requires WellFormedAction(a)
    ensures Inv(Step(s, a, volume))
    ensures Step(s, a, volume).refreshRemaining <= s.refreshRemaining
  {
  }

  /** From any reachable state, any run of actions keeps the invariant and
      never raises the refresh budget. */
  lemma {:induction false} RunKeepsInv(s: ModalState, actions: seq<ModalAction>, volume: int)
    requires Inv(s)
    requires forall k :: 0 <= k < |actions| ==> WellFormedAction(actions[k])
    ensures Inv(Run(s, actions, volume))
    ensures Run(s, actions, volume).refreshRemaining <= s.refreshRemaining
    decreases |actions|
  {
    if |actions| > 0 {
      StepKeepsInv(s, actions[0], volume);
      RunKeepsInv(Step(s, actions[0], volume), actions[1..], volume);
    }
  }

  /** Starting from the initial modal, the step never leaves 1..3 and the
      refresh budget never goes below 0 or above 5. */
  lemma InitialRunStaysInRange(actions: seq<ModalAction>, volume: int)
    requires forall k :: 0 <= k < |actions| ==> WellFormedAction(actions[k])
    ensures var s := Run(InitialModal, actions, volume);
      FirstStep <= s.step <= LastStep && 0 <= s.refreshRemaining <= DailyRefreshLimit
  {
    InitialModalInv();
    RunKeepsInv(InitialModal, actions, volume);
  }

  /** Every batch installed contains only addresses with `".."`, so the
      recommended-style payload always carries such an address once a
      batch is installed. */
  lemma {:induction false} RunKeepsPoolDots(s: ModalState, actions: seq<ModalAction>, volume: int)
    requires forall k :: 0 <= k < |actions| ==> WellFormedAction(actions[k])
    requires PoolHasDots(s)
    ensures PoolHasDots(Run(s, actions, volume))
    decreases |actions|
  {
    if |actions| > 0 {
      var a := actions[0];
      match a {
        case PressRefresh(choices) =>
          BatchHasDots(s.chain, GenerationDigits(Tier(s, volume)), choices);
        case OpenEffect(choices) =>
          BatchHasDots(s.chain, GenerationDigits(Tier(s, volume)), choices);
        case _ =>
      }
      RunKeepsPoolDots(Step(s, a, volume), actions[1..], volume);
    }
  }

  /** Every recommendation, and the selection when it is not empty,
      contains `".."`. */
  ghost predicate PoolHasDots(s: ModalState) {
    && (forall k :: 0 <= k < |s.recommendations| ==> Includes(s.recommendations[k], ".."))
    && (s.selectedPool == "" || Includes(s.selectedPool, ".."))
  }
}
