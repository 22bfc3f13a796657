/**
 The dashboard's own state: the wallet list, the selected wallet, the
 generate menu, the vanity modal's visibility and the status of a vanity
 generation. Creating a wallet prepends it and selects it; a vanity request
 runs through three transitions (started, completed, status cleared) that
 the dashboard spaces out with timers. Fresh ids, random addresses and the
 random middle of a custom vanity address are parameters.
 */
module App {

  import opened JsValues
  import opened JsStrings
  import opened JsArrays
  import opened Types
  import opened Constants
  import opened Recommend
  import opened Modal

  datatype GenerationStatus = Generating | Succeeded

  datatype AppState = AppState(
    wallets: seq<Wallet>,
    selectedId: string,
    isVanityModalOpen: bool,
    showGenerateMenu: bool,
    status: Option<GenerationStatus>
  )

  const InitialApp: AppState := AppState(InitialWallets, InitialSelectedId, false, false, None)

  /** Pool text used when a request carries neither prefix, suffix nor text. */
  const DefaultPoolText: string := "666x..666"

  /** Prefix or suffix used when the other one is given but this one is not. */
  const DefaultAffix: string := "1234"

  const NewWalletBalance: string := "0.000"

  /** `wallets.findIndex(w => w.id === id)`, as an option. */
  function FindIndex(wallets: seq<Wallet>, id: string): (r: Option<nat>)
    ensures r.Some? ==> r.value < |wallets| && wallets[r.value].id == id
    ensures r.Some? ==> forall j :: 0 <= j < r.value ==> wallets[j].id != id
    ensures r.None? ==> forall j :: 0 <= j < |wallets| ==> wallets[j].id != id
    decreases |wallets|
  {
    if |wallets| == 0 then None
    else if wallets[0].id == id then Some(0)
    else
      match FindIndex(wallets[1..], id)
      case None => None
      case Some(i) => Some(i + 1)
  }

  /** `activeWallet`: the first wallet with the selected id, else the first
      wallet; `undefined` when there are no wallets. */
  function ActiveWallet(wallets: seq<Wallet>, selectedId: string): (r: Option<Wallet>)
    ensures r.None? <==> |wallets| == 0
    ensures r.Some? ==> r.value in wallets
    ensures (exists i :: 0 <= i < |wallets| && wallets[i].id == selectedId) ==>
      r.Some? && r.value.id == selectedId
    ensures forall i :: 0 <= i < |wallets| && wallets[i].id == selectedId ==>
      (forall j :: 0 <= j < i ==> wallets[j].id != selectedId) ==> r == Some(wallets[i])
    ensures (forall i :: 0 <= i < |wallets| ==> wallets[i].id != selectedId) && |wallets| > 0 ==>
      r == Some(wallets[0])
  {
    match FindIndex(wallets, selectedId)
    case Some(i) => Some(wallets[i])
    case None => if |wallets| > 0 then Some(wallets[0]) else None
  }

  /** Ids are pairwise distinct. */
  ghost predicate DistinctIds(wallets: seq<Wallet>) {
    forall i, j :: 0 <= i < j < |wallets| ==> wallets[i].id != wallets[j].id
  }

  /** With distinct ids the active wallet is the unique wallet carrying the
      selected id. */
  lemma ActiveWalletIsUnique(wallets: seq<Wallet>, selectedId: string, i: nat)
    requires DistinctIds(wallets)
    requires i < |wallets| && wallets[i].id == selectedId
    ensures ActiveWallet(wallets, selectedId) == Some(wallets[i])
  {
  }

  /** `address.slice(0, 4) + '..' + address.slice(-4)`: the first and the
      last four characters around two dots; a string shorter than four
      appears whole on both sides. */
  function Abbreviate(address: string): (r: string)
    ensures |address| >= 4 ==>
      && |r| == 10
      && r[..4] == address[..4]
      && r[4..6] == ".."
      && r[6..] == address[|address| - 4..]
    ensures |address| < 4 ==> r == address + ".." + address
  {
    SliceHead(address, 4);
    SliceTail(address, 4);
    Slice(address, 0, 4) + ".." + SliceFrom(address, -4)
  }

  /** The address shown in a wallet row: a vanity wallet shows its display
      address (or the abbreviation when it has none); any other wallet shows
      its address when it has at most ten characters, else the
      abbreviation. */
  function RowAddress(w: Wallet): (r: string)
    ensures !w.isVanity ==> |r| <= 10
    ensures !w.isVanity && |w.address| <= 10 ==> r == w.address
    ensures !w.isVanity && |w.address| > 10 ==> |r| == 10 && r == Abbreviate(w.address)
    ensures w.isVanity && Truthy(w.displayAddress) ==> r == w.displayAddress.value
    ensures w.isVanity && !Truthy(w.displayAddress) ==> r == Abbreviate(w.address)
  {
    if w.isVanity then OrElse(w.displayAddress, Abbreviate(w.address))
    else if |w.address| > 10 then Abbreviate(w.address)
    else w.address
  }

  /** `handleCreateOrdinaryWallet` with the fresh id and random address
      given: the new wallet is prepended, selected and active, and the
      generate menu closes. */
  function CreateOrdinaryWallet(s: AppState, newId: string, newAddress: string): (r: AppState)
    ensures |r.wallets| == |s.wallets| + 1
    ensures r.wallets[1..] == s.wallets
    ensures var w := r.wallets[0];
      && w.id == newId && w.address == newAddress && w.balance == NewWalletBalance && w.source == Debot
      && !w.isVanity && !w.isCustodied && !w.isSafety && w.displayAddress.None? && w.labels == []
    ensures r.selectedId == newId
    ensures ActiveWallet(r.wallets, r.selectedId) == Some(r.wallets[0])
    ensures !r.showGenerateMenu
    ensures r.isVanityModalOpen == s.isVanityModalOpen && r.status == s.status
  {
    var w := Wallet(newId, newAddress, None, NewWalletBalance, Debot, false, false, false, []);
    s.(wallets := [w] + s.wallets, selectedId := newId, showGenerateMenu := false)
  }

  /** The address and display address a vanity request produces. */
  datatype Composed = Composed(address: string, display: string)

  /** The address composition of `handleApplyVanity`, with the random
      middle of a custom address given. A request with a non-empty prefix
      or suffix yields prefix + middle + suffix, the missing side defaulting
      to `'1234'`; any other request takes its text (default `'666x..666'`)
      as the address, displayed as is when it contains `".."` and
      abbreviated otherwise. */
  function ComposeVanity(config: VanityConfig, middle: string): (c: Composed)
    ensures Truthy(config.prefix) || Truthy(config.suffix) ==>
      var prefix := OrElse(config.prefix, DefaultAffix);
      var suffix := OrElse(config.suffix, DefaultAffix);
      && |c.address| == |prefix| + |middle| + |suffix|
      && c.address[..|prefix|] == prefix
      && c.address[|prefix|..|prefix| + |middle|] == middle
      && c.address[|c.address| - |suffix|..] == suffix
      && c.display == prefix + ".." + suffix
    ensures !Truthy(config.prefix) && !Truthy(config.suffix) ==>
      && c.address == OrElse(config.text, DefaultPoolText)
      && (Includes(c.address, "..") ==> c.display == c.address)
      && (!Includes(c.address, "..") ==> c.display == Abbreviate(c.address))
    ensures Includes(c.display, "..")
  {
    if Truthy(config.prefix) || Truthy(config.suffix) then
      var prefix := OrElse(config.prefix, DefaultAffix);
      var suffix := OrElse(config.suffix, DefaultAffix);
      IncludesMiddle(prefix, "..", suffix);
      Composed(prefix + middle + suffix, prefix + ".." + suffix)
    else
      var raw := OrElse(config.text, DefaultPoolText);
      var display := if Includes(raw, "..") then raw else Abbreviate(raw);
      AbbreviationHasDots(raw);
      Composed(raw, display)
  }

  lemma AbbreviationHasDots(address: string)
    ensures Includes(Abbreviate(address), "..")
  {
    var a := Abbreviate(address);
    if |address| >= 4 {
      assert a == a[..4] + ".." + a[6..];
      IncludesMiddle(a[..4], "..", a[6..]);
    } else {
      IncludesMiddle(address, "..", address);
    }
  }

  /** The first transition of `handleApplyVanity`: the modal and the menu
      close and the status becomes `generating`. */
  function StartVanity(s: AppState): (r: AppState)
    ensures r.status == Some(Generating)
    ensures !r.isVanityModalOpen && !r.showGenerateMenu
    ensures r.wallets == s.wallets && r.selectedId == s.selectedId
  {
    s.(isVanityModalOpen := false, showGenerateMenu := false, status := Some(Generating))
  }

  /** The vanity wallet a request produces. */
  function VanityWallet(config: VanityConfig, newId: string, middle: string): Wallet {
    var c := ComposeVanity(config, middle);
    Wallet(newId, c.address, Some(c.display), NewWalletBalance, Debot, false, true, true, [])
  }

  /** The second transition: the vanity wallet is prepended and selected,
      and the status becomes `success`. */
  function CompleteVanity(s: AppState, config: VanityConfig, newId: string, middle: string): (r: AppState)
    ensures |r.wallets| == |s.wallets| + 1
    ensures r.wallets[1..] == s.wallets
    ensures var w := r.wallets[0];
      && w.id == newId && w.isVanity && w.isCustodied && !w.isSafety
      && w.balance == NewWalletBalance && w.source == Debot
      && w.address == ComposeVanity(config, middle).address
      && w.displayAddress == Some(ComposeVanity(config, middle).display)
    ensures r.selectedId == newId
    ensures ActiveWallet(r.wallets, r.selectedId) == Some(r.wallets[0])
    ensures r.status == Some(Succeeded)
    ensures r.isVanityModalOpen == s.isVanityModalOpen && r.showGenerateMenu == s.showGenerateMenu
  {
    s.(wallets := [VanityWallet(config, newId, middle)] + s.wallets, selectedId := newId,
       status := Some(Succeeded))
  }

  /** The third transition: the status is cleared. */
  function ClearStatus(s: AppState): (r: AppState)
    ensures r.status.None?
    ensures r == s.(status := None)
  {
    s.(status := None)
  }

  /** The three states a vanity request passes through when nothing else
      happens in between: status `generating`, then `success`, then none;
      at the end the vanity wallet heads the list and is active. */
  function ApplyVanityTrace(s: AppState, config: VanityConfig, newId: string, middle: string): (t: seq<AppState>)
    ensures |t| == 3
    ensures t[0].status == Some(Generating) && t[1].status == Some(Succeeded) && t[2].status.None?
    ensures t[0].wallets == s.wallets
    ensures t[2].wallets == [VanityWallet(config, newId, middle)] + s.wallets
    ensures ActiveWallet(t[2].wallets, t[2].selectedId) == Some(VanityWallet(config, newId, middle))
    ensures !t[2].isVanityModalOpen && !t[2].showGenerateMenu
  {
    var started := StartVanity(s);
    var completed := CompleteVanity(started, config, newId, middle);
    [started, completed, ClearStatus(completed)]
  }

  /** A vanity wallet's row shows exactly the display address composed for
      it. */
  lemma VanityRowShowsDisplay(config: VanityConfig, newId: string, middle: string)
    ensures RowAddress(VanityWallet(config, newId, middle)) == ComposeVanity(config, middle).display
  {
  }

  /** Confirming a recommended address: the new wallet's address and its
      row both show the recommendation unchanged. */
  lemma RecommendedWalletShowsPoolAddress(chain: Chain, digits: int, choice: nat, newId: string, middle: string)
    requires choice < |Patterns|
    ensures var text := Generate(chain, digits, choice);
      var w := VanityWallet(VanityConfig(chain, SystemRecommended, Some(text), None, None), newId, middle);
      w.address == text && RowAddress(w) == text
  {
    var text := Generate(chain, digits, choice);
    var config := VanityConfig(chain, SystemRecommended, Some(text), None, None);
    GeneratedSplitsAtDots(chain, digits, choice);
    VanityRowShowsDisplay(config, newId, middle);
  }

  /** Confirming the custom style with a prefix typed: the wallet's address
      starts with the prefix and ends with the suffix (`'1234'` when none
      was typed), and its row shows prefix, two dots and suffix. */
  lemma CustomWalletShowsAffixes(s: ModalState, newId: string, middle: string)
    requires s.style == Custom && s.customPrefix != ""
    ensures var suffix := if s.customSuffix != "" then s.customSuffix else DefaultAffix;
      var w := VanityWallet(ConfirmPayload(s), newId, middle);
      && w.address[..|s.customPrefix|] == s.customPrefix
      && w.address[|w.address| - |suffix|..] == suffix
      && RowAddress(w) == s.customPrefix + ".." + suffix
  {
    VanityRowShowsDisplay(ConfirmPayload(s), newId, middle);
  }

  /** Confirming the custom style with both inputs empty does not use a
      custom address at all: the request falls through to the pool default
      `'666x..666'`. */
  lemma EmptyCustomUsesPoolDefault(chain: Chain, middle: string)
    ensures var c := ComposeVanity(VanityConfig(chain, Custom, None, Some(""), Some("")), middle);
      c.address == DefaultPoolText && c.display == DefaultPoolText
  {
    IncludesMiddle("666x", "..", "666");
    assert "666x" + ".." + "666" == DefaultPoolText;
  }

  /** `activeWallet.isCustodied && !activeWallet.isVanity`; `None` when
      there is no active wallet to read. */
  function CustodyBanner(s: AppState): (r: Option<bool>)
    ensures r.None? <==> |s.wallets| == 0
    ensures |s.wallets| > 0 ==>
      var w := ActiveWallet(s.wallets, s.selectedId).value;
      r == Some(w.isCustodied && !w.isVanity)
  {
    match ActiveWallet(s.wallets, s.selectedId)
    case None => None
    case Some(w) => Some(w.isCustodied && !w.isVanity)
  }

  /** What the user (or a timer) can do to the dashboard's wallet state.
      `OpenVanityModal(fromMenu)` is the modal's entry from the wallet-list
      link (`false`) or from the generate menu (`true`), which also closes
      the menu; `CloseGenerateMenu` is a click outside the menu. */
  datatype AppAction =
    | SelectWallet(id: string)
    | ToggleGenerateMenu
    | CloseGenerateMenu
    | OpenVanityModal(fromMenu: bool)
    | CloseVanityModal
    | CreateOrdinary(newId: string, newAddress: string)
    | ApplyVanity
    | VanityDone(config: VanityConfig, newId: string, middle: string)
    | VanityStatusCleared

  /** One action applied to the dashboard. Only creating a wallet and
      completing a vanity request change the list, and both only prepend. */
  function AppStep(s: AppState, a: AppAction): (r: AppState)
    ensures a.SelectWallet? ==> r == s.(selectedId := a.id)
    ensures a.SelectWallet? && (exists i :: 0 <= i < |s.wallets| && s.wallets[i].id == a.id) ==>
      ActiveWallet(r.wallets, r.selectedId).value.id == a.id
    ensures a.ToggleGenerateMenu? ==> r == s.(showGenerateMenu := !s.showGenerateMenu)
    ensures a.CloseGenerateMenu? ==> r == s.(showGenerateMenu := false)
    ensures a.OpenVanityModal? ==> r.isVanityModalOpen && r.wallets == s.wallets && r.selectedId == s.selectedId
    ensures a.OpenVanityModal? && a.fromMenu ==> r == s.(isVanityModalOpen := true, showGenerateMenu := false)
    ensures a.OpenVanityModal? && !a.fromMenu ==> r == s.(isVanityModalOpen := true)
    ensures a.CloseVanityModal? ==> r == s.(isVanityModalOpen := false)
    ensures a.CreateOrdinary? || a.VanityDone? <==> |r.wallets| == |s.wallets| + 1
    ensures r.wallets == s.wallets || (|r.wallets| > 0 && r.wallets[1..] == s.wallets)
    ensures a.CreateOrdinary? || a.VanityDone? ==> r.selectedId == r.wallets[0].id
    ensures a.CreateOrdinary? ==> r == CreateOrdinaryWallet(s, a.newId, a.newAddress)
    ensures a.ApplyVanity? ==> r == StartVanity(s)
    ensures a.VanityDone? ==> r == CompleteVanity(s, a.config, a.newId, a.middle)
    ensures a.VanityStatusCleared? ==> r == ClearStatus(s)
  {
    match a
    case SelectWallet(id) => s.(selectedId := id)
    case ToggleGenerateMenu => s.(showGenerateMenu := !s.showGenerateMenu)
    case CloseGenerateMenu => s.(showGenerateMenu := false)
    case OpenVanityModal(fromMenu) =>
      if fromMenu then s.(isVanityModalOpen := true, showGenerateMenu := false)
      else s.(isVanityModalOpen := true)
    case CloseVanityModal => s.(isVanityModalOpen := false)
    case CreateOrdinary(newId, newAddress) => CreateOrdinaryWallet(s, newId, newAddress)
    case ApplyVanity => StartVanity(s)
    case VanityDone(config, newId, middle) => CompleteVanity(s, config, newId, middle)
    case VanityStatusCleared => ClearStatus(s)
  }

  function AppRun(s: AppState, actions: seq<AppAction>): AppState
    decreases |actions|
  {
    if |actions| == 0 then s else AppRun(AppStep(s, actions[0]), actions[1..])
  }

  /** No wallet is ever removed: after any run of actions the starting list
      is the tail of the list. */
  lemma {:induction false} AppRunKeepsWallets(s: AppState, actions: seq<AppAction>)
    ensures IsSuffix(s.wallets, AppRun(s, actions).wallets)
    decreases |actions|
  {
    if |actions| > 0 {
      var next := AppStep(s, actions[0]);
      AppStepKeepsTail(s, actions[0]);
      AppRunKeepsWallets(next, actions[1..]);
      SuffixOfSuffix(s.wallets, next.wallets, AppRun(next, actions[1..]).wallets);
    }
  }

  /** One action leaves the old list as the tail of the new one. */
  lemma AppStepKeepsTail(s: AppState, a: AppAction)
    ensures IsSuffix(s.wallets, AppStep(s, a).wallets)
  {
  }

  /** Every reachable dashboard state has a wallet, no wallet that is
      custodied without being a vanity wallet, and a display address on
      every vanity wallet. */
  ghost predicate AppInv(s: AppState) {
    && |s.wallets| > 0
    && (forall i :: 0 <= i < |s.wallets| ==> s.wallets[i].isCustodied ==> s.wallets[i].isVanity)
    && (forall i :: 0 <= i < |s.wallets| ==> s.wallets[i].isVanity ==> s.wallets[i].displayAddress.Some?)
  }

  lemma InitialAppInv()
    ensures AppInv(InitialApp)
  {
    InitialWalletsWellFormed();
  }

  lemma {:induction false} AppRunKeepsInv(s: AppState, actions: seq<AppAction>)
    requires AppInv(s)
    ensures AppInv(AppRun(s, actions))
    decreases |actions|
  {
    if |actions| > 0 {
      var next := AppStep(s, actions[0]);
      assert AppInv(next) by {
        match actions[0] {
          case CreateOrdinary(newId, newAddress) =>
            forall i | 0 <= i < |next.wallets|
              ensures (next.wallets[i].isCustodied ==> next.wallets[i].isVanity)
                   && (next.wallets[i].isVanity ==> next.wallets[i].displayAddress.Some?)
            {
              if i > 0 { assert next.wallets[i] == s.wallets[i - 1]; }
            }
          case VanityDone(config, newId, middle) =>
            forall i | 0 <= i < |next.wallets|
              ensures (next.wallets[i].isCustodied ==> next.wallets[i].isVanity)
                   && (next.wallets[i].isVanity ==> next.wallets[i].displayAddress.Some?)
            {
              if i > 0 { assert next.wallets[i] == s.wallets[i - 1]; }
            }
          case _ =>
        }
      }
      AppRunKeepsInv(next, actions[1..]);
    }
  }

  /** The custody banner's condition never holds: every custodied wallet
      the dashboard can hold is a vanity wallet, so from the initial state
      the banner is never shown. */
  lemma CustodyBannerNeverShown(actions: seq<AppAction>)
    ensures CustodyBanner(AppRun(InitialApp, actions)) == Some(false)
  {
    InitialAppInv();
    AppRunKeepsInv(InitialApp, actions);
  }
}
