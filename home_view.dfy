/**
 * The home screen: which settings changes it follows, the discreet-mode
 * switch, how it tracks the default account, where the account button leads,
 * and which parts of the screen it shows.
 */
module HomeView {
  import opened Common

  /** An account as the screen sees it; `valid` is the stored record's
      `isValid()` (the record has not been deleted). */
  datatype Account = Account(address: string, valid: bool, isDefault: bool, balance: real)

  /** `account?.isValid()`. */
  predicate IsValid(a: Option<Account>) {
    a.Some? && a.value.valid
  }

  /** The three settings the screen follows. */
  datatype CoreSettings = CoreSettings(discreetMode: bool, developerMode: bool, defaultNode: string)

  /** The keys present in a settings change set, each with its new value. */
  datatype SettingsChanges = SettingsChanges(
    discreetMode: Option<bool>,
    developerMode: Option<bool>,
    defaultNode: Option<string>)

  // ---------------------------------------------------------------------------
  // The account button
  // ---------------------------------------------------------------------------

  /** The header's account button shows the account count (with a badge) or "add account". */
  datatype SwitchLabel = AccountsWithCount(count: int) | AddAccount

  function SwitchButtonLabel(accountsCount: Option<int>): (l: SwitchLabel)
    ensures l.AccountsWithCount? <==> accountsCount.Some? && accountsCount.value > 1
    ensures l.AccountsWithCount? ==> accountsCount == Some(l.count)
  {
    if accountsCount.Some? && accountsCount.value > 1 then AccountsWithCount(accountsCount.value) else AddAccount
  }

  /** Where the account button leads: the add-account screen, or the
      account switcher overlay (which is told the discreet mode). */
  datatype SwitchTarget = PushAddAccount | ShowSwitchAccount(discreetMode: bool)

  /** onSwitchButtonPress as the source writes it: only a count of exactly one
      leads to the add-account screen. */
  function SwitchActionAsWritten(accountsCount: Option<int>, discreetMode: bool): (a: SwitchTarget)
    ensures a == PushAddAccount <==> accountsCount == Some(1)
    ensures a.ShowSwitchAccount? ==> a.discreetMode == discreetMode
  {
    if accountsCount == Some(1) then PushAddAccount else ShowSwitchAccount(discreetMode)
  }

  /** With no visible account counted, the button as written says "add account"
      but opens the account switcher. */
  lemma AsWrittenLabelMismatch()
    ensures SwitchButtonLabel(Some(0)) == AddAccount
    ensures SwitchActionAsWritten(Some(0), false) == ShowSwitchAccount(false)
  {
  }

  /** onSwitchButtonPress as its comment describes it ("zero or 1"): the
      button leads to the add-account screen exactly when its label says so. */
  function SwitchAction(accountsCount: Option<int>, discreetMode: bool): (a: SwitchTarget)
    ensures a == PushAddAccount <==> SwitchButtonLabel(accountsCount) == AddAccount
    ensures a.ShowSwitchAccount? ==> a.discreetMode == discreetMode
  {
    if accountsCount.Some? && accountsCount.value > 1 then ShowSwitchAccount(discreetMode) else PushAddAccount
  }

  /** The correction changes nothing when at least one account is counted. */
  lemma SwitchActionAgreesFromOne(accountsCount: int, discreetMode: bool)
    requires accountsCount >= 1
    ensures SwitchAction(Some(accountsCount), discreetMode) == SwitchActionAsWritten(Some(accountsCount), discreetMode)
  {
  }

  // ---------------------------------------------------------------------------
  // What the screen shows
  // ---------------------------------------------------------------------------

  datatype ButtonRow = SendAndRequest | ShowAccountQR

  datatype AssetsPane = InactiveAccount | AssetsList(discreetMode: bool, spendable: bool)

  datatype Screen =
    | EmptyView
    | AccountView(switchLabel: SwitchLabel, address: string, buttons: ButtonRow, assets: AssetsPane)

  /** What stands in for the address in discreet mode: 32 bullets. */
  const MaskedAddress: string := "••••••••••••••••••••••••••••••••"

  // ---------------------------------------------------------------------------
  // The screen
  // ---------------------------------------------------------------------------

  class HomeView {
    var accountsCount: Option<int>
    var account: Option<Account>
    var isSpendable: bool
    var isSignable: bool
    var defaultNode: string
    var developerMode: bool
    var discreetMode: bool

    constructor (settings: CoreSettings)
      ensures accountsCount == None && account == None
      ensures !isSpendable && !isSignable
      ensures defaultNode == settings.defaultNode
      ensures developerMode == settings.developerMode
      ensures discreetMode == settings.discreetMode
    {
      accountsCount := None;
      account := None;
      isSpendable := false;
      isSignable := false;
      defaultNode := settings.defaultNode;
      developerMode := settings.developerMode;
      discreetMode := settings.discreetMode;
    }

    /** Follows a settings change. `headerRefreshed` says that the developer-mode
        header was redrawn from the new developer mode and node. */
    method OnCoreSettingsUpdate(settings: CoreSettings, changes: SettingsChanges) returns (headerRefreshed: bool)
      modifies this
      ensures discreetMode ==
        if changes.discreetMode.Some? && old(discreetMode) != changes.discreetMode.value
        then settings.discreetMode else old(discreetMode)
      ensures headerRefreshed <==> changes.developerMode.Some? || changes.defaultNode.Some?
      ensures headerRefreshed ==> developerMode == settings.developerMode && defaultNode == settings.defaultNode
      ensures !headerRefreshed ==> developerMode == old(developerMode) && defaultNode == old(defaultNode)
      ensures accountsCount == old(accountsCount) && account == old(account)
      ensures isSpendable == old(isSpendable) && isSignable == old(isSignable)
    {
      if changes.discreetMode.Some? && discreetMode != changes.discreetMode.value {
        discreetMode := settings.discreetMode;
      }
      headerRefreshed := false;
      if changes.developerMode.Some? || changes.defaultNode.Some? {
        developerMode := settings.developerMode;
        defaultNode := settings.defaultNode;
        headerRefreshed := true;
      }
    }

    method ToggleDiscreetMode()
      modifies this
      ensures discreetMode == !old(discreetMode)
      ensures accountsCount == old(accountsCount) && account == old(account)
      ensures isSpendable == old(isSpendable) && isSignable == old(isSignable)
      ensures developerMode == old(developerMode) && defaultNode == old(defaultNode)
    {
      discreetMode := !discreetMode;
    }

    /** Refreshes the spendable and signable flags of a valid displayed account
        from the repository's answers: the addresses of the spendable accounts
        and whether the account can sign. */
    method UpdateAccountStatus(spendable: seq<string>, signable: bool)
      modifies this
      ensures IsValid(account) ==> isSignable == signable && isSpendable == (account.value.address in spendable)
      ensures !IsValid(account) ==> isSignable == old(isSignable) && isSpendable == old(isSpendable)
      ensures account == old(account) && accountsCount == old(accountsCount)
      ensures discreetMode == old(discreetMode) && developerMode == old(developerMode) && defaultNode == old(defaultNode)
    {
      if IsValid(account) {
        isSignable := signable;
        isSpendable := account.value.address in spendable;
      }
    }

    /** Follows an update of a stored account. `hiddenChanged` says the change
        set has the `hidden` key; `visibleCount`, `spendable` and `signable`
        are the repository's answers. */
    method UpdateDefaultAccount(updated: Option<Account>, hiddenChanged: bool,
                                visibleCount: int, spendable: seq<string>, signable: bool)
      modifies this
      ensures accountsCount == if IsValid(updated) && hiddenChanged then Some(visibleCount) else old(accountsCount)
      ensures account == if IsValid(updated) && updated.value.isDefault then updated else old(account)
      ensures IsValid(updated) && updated.value.isDefault ==>
        isSignable == signable && isSpendable == (updated.value.address in spendable)
      ensures !(IsValid(updated) && updated.value.isDefault) ==>
        isSignable == old(isSignable) && isSpendable == old(isSpendable)
      ensures discreetMode == old(discreetMode) && developerMode == old(developerMode) && defaultNode == old(defaultNode)
    {
      if IsValid(updated) && hiddenChanged {
        accountsCount := Some(visibleCount);
      }
      if IsValid(updated) && updated.value.isDefault {
        account := updated;
        UpdateAccountStatus(spendable, signable);
      }
    }

    /** Reloads the default account and the visible account count from the repository. */
    method GetDefaultAccount(defaultAccount: Option<Account>, visibleCount: int,
                             spendable: seq<string>, signable: bool)
      modifies this
      ensures account == defaultAccount && accountsCount == Some(visibleCount)
      ensures IsValid(defaultAccount) ==>
        isSignable == signable && isSpendable == (defaultAccount.value.address in spendable)
      ensures !IsValid(defaultAccount) ==> isSignable == old(isSignable) && isSpendable == old(isSpendable)
      ensures discreetMode == old(discreetMode) && developerMode == old(developerMode) && defaultNode == old(defaultNode)
    {
      account := defaultAccount;
      accountsCount := Some(visibleCount);
      UpdateAccountStatus(spendable, signable);
    }

    /** Where the account button leads, as the handler is written: only a
        count of exactly one leads to the add-account screen. */
    method OnSwitchButtonPress() returns (a: SwitchTarget)
      ensures a == PushAddAccount <==> accountsCount == Some(1)
      ensures a.ShowSwitchAccount? ==> a.discreetMode == discreetMode
      ensures a == SwitchActionAsWritten(accountsCount, discreetMode)
    {
      if accountsCount == Some(1) {
        return PushAddAccount;
      }
      return ShowSwitchAccount(discreetMode);
    }

    /** What the screen shows for its current state. */
    function Render(): (s: Screen)
      reads this
      ensures s == EmptyView <==> !IsValid(account)
      ensures s.AccountView? ==> (s.assets == InactiveAccount <==> account.value.balance == 0.0)
      ensures s.AccountView? ==> (s.buttons == SendAndRequest <==> isSpendable)
      ensures s.AccountView? && s.assets.AssetsList? ==>
        s.assets.discreetMode == discreetMode && s.assets.spendable == isSpendable
      ensures s.AccountView? ==> s.address == if discreetMode then MaskedAddress else account.value.address
      ensures s.AccountView? ==> s.switchLabel == SwitchButtonLabel(accountsCount)
    {
      if !IsValid(account) then EmptyView
      else
        var a := account.value;
        AccountView(
          SwitchButtonLabel(accountsCount),
          if discreetMode then MaskedAddress else a.address,
          if isSpendable then SendAndRequest else ShowAccountQR,
          if a.balance == 0.0 then InactiveAccount else AssetsList(discreetMode, isSpendable))
    }
  }
}
