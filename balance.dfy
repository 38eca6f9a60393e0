/** BalancePresenter: the list of accounts the balance screen offers. It
    filters out archived HD accounts and archived imported (legacy)
    addresses, puts an "All Accounts" entry first when there is more than
    one non-archived account or a non-archived imported address, then the
    non-archived accounts in wallet order, then an "Imported Addresses"
    entry when a non-archived imported address exists; the chosen account
    is picked from that list by index. */
module Balance {
  import opened JavaTypes

  /** `LegacyAddress.ARCHIVED_ADDRESS`, the tag of an archived imported address. */
  const ArchivedAddress: int := 2

  datatype LegacyAddress = LegacyAddress(address: string, tag: int)

  /** An HD account of the wallet payload. */
  datatype Account = Account(displayLabel: string, xpub: string, isArchived: bool)

  datatype ConsolidatedType = AllAccounts | AllImportedAddresses

  /** What an entry stands for: one account, or a consolidated view. */
  datatype AccountObject =
    | HdAccount(account: Account)
    | Consolidated(displayLabel: string, kind: ConsolidatedType)

  /** `ItemAccount`: one entry of the list. */
  datatype ItemAccount = ItemAccount(displayLabel: string, displayBalance: string, absoluteBalance: Long, accountObject: AccountObject)

  /** What the presenter reads from the wallet payload; balances are
      `BigInteger`s. */
  datatype Payload = Payload(
    legacyAddresses: seq<LegacyAddress>,
    accounts: seq<Account>,
    addressBalance: string -> int,
    walletBalance: int,
    importedAddressesBalance: int)

  /** The localised labels and the balance formatter. */
  datatype Labels = Labels(allAccounts: string, importedAddresses: string, balanceString: Long -> string)

  datatype Outcome = Done | IndexOutOfBounds(index: int)

  /** Kotlin's `filter`: the elements that pass, in their order. */
  function Filter<T(!new)>(s: seq<T>, keep: T -> bool): (r: seq<T>)
    ensures forall x :: x in r <==> x in s && keep(x)
    ensures |r| <= |s|
  {
    if s == [] then []
    else (if keep(s[0]) then [s[0]] else []) + Filter(s[1..], keep)
  }

  /** Filtering a concatenation filters each part: the order is kept. */
  lemma {:induction false} FilterAppend<T(!new)>(a: seq<T>, b: seq<T>, keep: T -> bool)
    ensures Filter(a + b, keep) == Filter(a, keep) + Filter(b, keep)
  {
    if a == [] {
      assert a + b == b;
    } else {
      assert (a + b)[0] == a[0] && (a + b)[1..] == a[1..] + b;
      FilterAppend(a[1..], b, keep);
    }
  }

  predicate IsActiveLegacy(address: LegacyAddress) {
    address.tag != ArchivedAddress
  }

  predicate IsActiveAccount(account: Account) {
    !account.isArchived
  }

  /** The entry of one account: its own label, the balance of its xpub. */
  function AccountItem(payload: Payload, labels: Labels, account: Account): ItemAccount {
    var balance := Wrap(payload.addressBalance(account.xpub));
    ItemAccount(account.displayLabel, labels.balanceString(balance), balance, HdAccount(account))
  }

  /** The "All Accounts" entry: the wallet balance. */
  function AllAccountsItem(payload: Payload, labels: Labels): ItemAccount {
    var balance := Wrap(payload.walletBalance);
    ItemAccount(labels.allAccounts, labels.balanceString(balance), balance, Consolidated(labels.allAccounts, AllAccounts))
  }

  /** The "Imported Addresses" entry: the balance of the imported addresses. */
  function ImportedAddressesItem(payload: Payload, labels: Labels): ItemAccount {
    var balance := Wrap(payload.importedAddressesBalance);
    ItemAccount(labels.importedAddresses, labels.balanceString(balance), balance,
                Consolidated(labels.importedAddresses, AllImportedAddresses))
  }

  function ActiveLegacy(payload: Payload): seq<LegacyAddress> {
    Filter(payload.legacyAddresses, IsActiveLegacy)
  }

  function ActiveAccounts(payload: Payload): seq<Account> {
    Filter(payload.accounts, IsActiveAccount)
  }

  /** The list, as three parts: the optional "All Accounts" entry, one entry
      per active account, the optional "Imported Addresses" entry. */
  function DisplayableAccounts(payload: Payload, labels: Labels): seq<ItemAccount> {
    var active := ActiveAccounts(payload);
    var hasLegacy := ActiveLegacy(payload) != [];
    (if |active| > 1 || hasLegacy then [AllAccountsItem(payload, labels)] else [])
    + seq(|active|, i requires 0 <= i < |active| => AccountItem(payload, labels, active[i]))
    + (if hasLegacy then [ImportedAddressesItem(payload, labels)] else [])
  }

  /** There are active imported addresses. */
  predicate HasActiveLegacy(payload: Payload) {
    exists a :: a in payload.legacyAddresses && IsActiveLegacy(a)
  }

  /** "All Accounts" is shown: more than one active account, or an active
      imported address. */
  predicate ShowsAllAccounts(payload: Payload) {
    |ActiveAccounts(payload)| > 1 || HasActiveLegacy(payload)
  }

  /** Where the accounts start in the list. */
  function AccountsOffset(payload: Payload): nat {
    if ShowsAllAccounts(payload) then 1 else 0
  }

  lemma ActiveLegacyNonEmpty(payload: Payload)
    ensures ActiveLegacy(payload) != [] <==> HasActiveLegacy(payload)
  {
    var active := ActiveLegacy(payload);
    if HasActiveLegacy(payload) {
      var a :| a in payload.legacyAddresses && IsActiveLegacy(a);
      assert a in active;
    }
    if active != [] {
      assert active[0] in active;
    }
  }

  /** The length: one per active account, one per consolidated entry shown. */
  lemma DisplayableAccountsLength(payload: Payload, labels: Labels)
    ensures |DisplayableAccounts(payload, labels)|
      == |ActiveAccounts(payload)| + AccountsOffset(payload) + (if HasActiveLegacy(payload) then 1 else 0)
  {
    ActiveLegacyNonEmpty(payload);
  }

  /** "All Accounts" is first exactly when it is shown. */
  lemma AllAccountsFirstIff(payload: Payload, labels: Labels)
    ensures var list := DisplayableAccounts(payload, labels);
      ShowsAllAccounts(payload) <==>
        |list| > 0 && list[0].accountObject == Consolidated(labels.allAccounts, AllAccounts)
  {
    ActiveLegacyNonEmpty(payload);
    var list := DisplayableAccounts(payload, labels);
    if !ShowsAllAccounts(payload) && |list| > 0 {
      assert list[0] == AccountItem(payload, labels, ActiveAccounts(payload)[0]);
    }
  }

  /** The active accounts follow, contiguous and in wallet order. */
  lemma AccountsInOrder(payload: Payload, labels: Labels)
    ensures var list := DisplayableAccounts(payload, labels);
      var active := ActiveAccounts(payload);
      AccountsOffset(payload) + |active| <= |list|
      && forall i :: 0 <= i < |active| ==>
           list[AccountsOffset(payload) + i] == AccountItem(payload, labels, active[i])
  {
    ActiveLegacyNonEmpty(payload);
  }

  /** "Imported Addresses" is last exactly when an active imported address exists. */
  lemma ImportedAddressesLastIff(payload: Payload, labels: Labels)
    ensures var list := DisplayableAccounts(payload, labels);
      HasActiveLegacy(payload) <==>
        |list| > 0 && list[|list| - 1].accountObject == Consolidated(labels.importedAddresses, AllImportedAddresses)
  {
    ActiveLegacyNonEmpty(payload);
    var list := DisplayableAccounts(payload, labels);
    if !HasActiveLegacy(payload) && |list| > 0 {
      var active := ActiveAccounts(payload);
      if |active| > 0 {
        assert list[|list| - 1] == AccountItem(payload, labels, active[|active| - 1]);
      }
    }
  }

  /** No archived account or address is ever listed, and every account
      entry is an account of the wallet. */
  lemma NoArchivedEntries(payload: Payload, labels: Labels)
    ensures forall item :: item in DisplayableAccounts(payload, labels) && item.accountObject.HdAccount? ==>
      item.accountObject.account in payload.accounts && !item.accountObject.account.isArchived
  {
    var list := DisplayableAccounts(payload, labels);
    var active := ActiveAccounts(payload);
    forall item | item in list && item.accountObject.HdAccount?
      ensures item.accountObject.account in payload.accounts && !item.accountObject.account.isArchived
    {
      var k :| 0 <= k < |list| && list[k] == item;
      AccountsInOrder(payload, labels);
      ActiveLegacyNonEmpty(payload);
      var i := k - AccountsOffset(payload);
      assert 0 <= i < |active| && item.accountObject.account == active[i];
    }
  }

  /** Each entry's balance comes from its own source: an account's xpub, the
      whole wallet, or the imported addresses, truncated to a `long`. */
  lemma EntryBalanceSource(payload: Payload, labels: Labels)
    ensures forall item :: item in DisplayableAccounts(payload, labels) ==>
      item.absoluteBalance == match item.accountObject
        case HdAccount(account) => Wrap(payload.addressBalance(account.xpub))
        case Consolidated(_, AllAccounts) => Wrap(payload.walletBalance)
        case Consolidated(_, AllImportedAddresses) => Wrap(payload.importedAddressesBalance)
  {
  }

  /** The list is empty exactly when nothing is active. */
  lemma DisplayableAccountsEmptyIff(payload: Payload, labels: Labels)
    ensures DisplayableAccounts(payload, labels) == [] <==>
      (forall a :: a in payload.accounts ==> a.isArchived)
      && (forall a :: a in payload.legacyAddresses ==> a.tag == ArchivedAddress)
  {
    DisplayableAccountsLength(payload, labels);
    var active := ActiveAccounts(payload);
    if |active| > 0 {
      assert active[0] in active;
    }
  }

  /** `getAllDisplayableAccounts`: assembles the list by appending. */
  method GetAllDisplayableAccounts(payload: Payload, labels: Labels) returns (list: seq<ItemAccount>)
    ensures list == DisplayableAccounts(payload, labels)
  {
    list := [];
    var legacyAddresses := Filter(payload.legacyAddresses, IsActiveLegacy);
    var activeAccounts := Filter(payload.accounts, IsActiveAccount);
    var accounts := seq(|activeAccounts|, i requires 0 <= i < |activeAccounts| => AccountItem(payload, labels, activeAccounts[i]));
    if |accounts| > 1 || legacyAddresses != [] {
      list := list + [AllAccountsItem(payload, labels)];
    }
    list := list + accounts;
    if legacyAddresses != [] {
      list := list + [ImportedAddressesItem(payload, labels)];
    }
  }

  class BalancePresenter {
    var activeAccountAndAddressList: seq<ItemAccount>
    var chosenAccount: Option<ItemAccount>

    constructor ()
      ensures activeAccountAndAddressList == [] && chosenAccount == None
    {
      activeAccountAndAddressList := [];
      chosenAccount := None;
    }

    /** `onViewReady`: build the list and choose its first entry; indexing an
        empty list throws. */
    method OnViewReady(payload: Payload, labels: Labels) returns (o: Outcome)
      modifies this
      ensures activeAccountAndAddressList == DisplayableAccounts(payload, labels)
      ensures activeAccountAndAddressList != [] ==>
        o == Done && chosenAccount == Some(activeAccountAndAddressList[0])
      ensures activeAccountAndAddressList == [] ==>
        o == IndexOutOfBounds(0) && chosenAccount == old(chosenAccount)
    {
      activeAccountAndAddressList := GetAllDisplayableAccounts(payload, labels);
      if |activeAccountAndAddressList| == 0 {
        return IndexOutOfBounds(0);
      }
      chosenAccount := Some(activeAccountAndAddressList[0]);
      o := Done;
    }

    /** `onAccountChosen`: choose the entry at `position`; out of range throws. */
    method OnAccountChosen(position: int) returns (o: Outcome)
      modifies this
      ensures activeAccountAndAddressList == old(activeAccountAndAddressList)
      ensures 0 <= position < |activeAccountAndAddressList| ==>
        o == Done && chosenAccount == Some(activeAccountAndAddressList[position])
      ensures !(0 <= position < |activeAccountAndAddressList|) ==>
        o == IndexOutOfBounds(position) && chosenAccount == old(chosenAccount)
    {
      if !(0 <= position < |activeAccountAndAddressList|) {
        return IndexOutOfBounds(position);
      }
      chosenAccount := Some(activeAccountAndAddressList[position]);
      o := Done;
    }
  }
}
