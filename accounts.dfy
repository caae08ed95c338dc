/**
 * The accounts list page: the case-insensitive search over name, BU owner
 * and key people, the key-people column's text and the portfolio header.
 */
module Accounts {
  import opened Wrappers
  import opened Text
  import opened Types
  import opened Lists
  import opened TagCodec

  /** `text.toLowerCase().includes(search.toLowerCase())`. */
  predicate MatchesIgnoringCase(text: string, search: string) {
    Contains(ToLower(text), ToLower(search))
  }

  /** The key-people test: an empty search passes; otherwise some listed person must match. */
  predicate MatchesKey(acc: Account, searchKeyPeople: string) {
    searchKeyPeople == "" ||
    (acc.keyPeople.Some? &&
     exists i :: 0 <= i < |acc.keyPeople.value| && MatchesIgnoringCase(acc.keyPeople.value[i], searchKeyPeople))
  }

  /** The three searches together, as the filter callback combines them. */
  predicate MatchesAccount(acc: Account, searchName: string, searchBuOwner: string, searchKeyPeople: string) {
    MatchesIgnoringCase(acc.name, searchName) &&
    MatchesIgnoringCase(acc.buOwner.name, searchBuOwner) &&
    MatchesKey(acc, searchKeyPeople)
  }

  function AccountFilter(searchName: string, searchBuOwner: string, searchKeyPeople: string): Account -> bool {
    acc => MatchesAccount(acc, searchName, searchBuOwner, searchKeyPeople)
  }

  /** `filteredAccounts`: the accounts passing all three searches, in their loaded order. */
  function FilterAccounts(accounts: seq<Account>, searchName: string, searchBuOwner: string,
                          searchKeyPeople: string): (r: seq<Account>)
    ensures |r| <= |accounts|
    ensures forall acc :: acc in r <==> acc in accounts && MatchesAccount(acc, searchName, searchBuOwner, searchKeyPeople)
  {
    Filter(accounts, AccountFilter(searchName, searchBuOwner, searchKeyPeople))
  }

  /** The filter keeps relative order: filtering a concatenation filters each part. */
  lemma FilterAccountsKeepsOrder(xs: seq<Account>, ys: seq<Account>, searchName: string, searchBuOwner: string,
                                 searchKeyPeople: string)
    ensures FilterAccounts(xs + ys, searchName, searchBuOwner, searchKeyPeople) ==
            FilterAccounts(xs, searchName, searchBuOwner, searchKeyPeople) +
            FilterAccounts(ys, searchName, searchBuOwner, searchKeyPeople)
  {
    FilterAppend(xs, ys, AccountFilter(searchName, searchBuOwner, searchKeyPeople));
  }

  /** With all three searches empty every account is listed, in order. */
  lemma EmptySearchKeepsAll(accounts: seq<Account>)
    ensures FilterAccounts(accounts, "", "", "") == accounts
  {
    forall i | 0 <= i < |accounts|
      ensures AccountFilter("", "", "")(accounts[i])
    {
      ContainsEmpty(ToLower(accounts[i].name));
      ContainsEmpty(ToLower(accounts[i].buOwner.name));
    }
    FilterKeepsAll(accounts, AccountFilter("", "", ""));
  }

  /** A non-empty key-people search lists only accounts with a key person it matches. */
  lemma KeySearchNeedsKeyPeople(accounts: seq<Account>, searchName: string, searchBuOwner: string,
                                searchKeyPeople: string, acc: Account)
    requires searchKeyPeople != ""
    requires acc in FilterAccounts(accounts, searchName, searchBuOwner, searchKeyPeople)
    ensures acc.keyPeople.Some? && |acc.keyPeople.value| > 0
    ensures exists i :: 0 <= i < |acc.keyPeople.value| && MatchesIgnoringCase(acc.keyPeople.value[i], searchKeyPeople)
  {
  }

  /** Lower-casing the search first does not change a case-insensitive match. */
  lemma LoweredSearchMatches(text: string, search: string)
    ensures MatchesIgnoringCase(text, ToLower(search)) == MatchesIgnoringCase(text, search)
  {
    ToLowerIdempotent(search);
  }

  /** The case of the search text does not matter. */
  lemma SearchIgnoresCase(acc: Account, searchName: string, searchBuOwner: string, searchKeyPeople: string)
    ensures MatchesAccount(acc, searchName, searchBuOwner, searchKeyPeople) ==
            MatchesAccount(acc, ToLower(searchName), ToLower(searchBuOwner), ToLower(searchKeyPeople))
  {
    LoweredSearchMatches(acc.name, searchName);
    LoweredSearchMatches(acc.buOwner.name, searchBuOwner);
    if acc.keyPeople.Some? {
      forall i | 0 <= i < |acc.keyPeople.value|
        ensures MatchesIgnoringCase(acc.keyPeople.value[i], ToLower(searchKeyPeople)) ==
                MatchesIgnoringCase(acc.keyPeople.value[i], searchKeyPeople)
      {
        LoweredSearchMatches(acc.keyPeople.value[i], searchKeyPeople);
      }
    }
    assert ToLower(searchKeyPeople) == "" <==> searchKeyPeople == "";
  }

  const NoKeyPeople := "—"
  const NoPortfolio := "No Portfolio"

  /** The key-people column: the names joined with ", ", or a dash for an absent or empty list. */
  function KeyPeopleCell(acc: Account): (cell: string)
    ensures acc.keyPeople.None? || acc.keyPeople.value == [] ==> cell == NoKeyPeople
    ensures acc.keyPeople.Some? && acc.keyPeople.value != [] ==> cell == Encode(acc.keyPeople.value)
  {
    if acc.keyPeople.Some? && |acc.keyPeople.value| > 0 then Encode(acc.keyPeople.value) else NoKeyPeople
  }

  /** A non-empty list of names without ", " can be read back from its cell. */
  lemma KeyPeopleCellReadBack(acc: Account)
    requires acc.keyPeople.Some? && acc.keyPeople.value != [] && acc.keyPeople.value != [""]
    requires forall i :: 0 <= i < |acc.keyPeople.value| ==> Clean(acc.keyPeople.value[i])
    ensures Decode(KeyPeopleCell(acc)) == acc.keyPeople.value
  {
    DecodeEncode(acc.keyPeople.value);
  }

  /** The header: the first loaded account's portfolio name, or "No Portfolio" before any account is loaded. */
  function PortfolioName(accounts: seq<Account>): (name: string)
    ensures accounts == [] ==> name == NoPortfolio
    ensures accounts != [] ==> name == accounts[0].portfolio.name
  {
    if |accounts| > 0 then accounts[0].portfolio.name else NoPortfolio
  }

  /** When the loaded accounts share one portfolio, the header names it, whatever the searches. */
  lemma SharedPortfolioNamed(accounts: seq<Account>, portfolio: Portfolio)
    requires accounts != []
    requires forall i :: 0 <= i < |accounts| ==> accounts[i].portfolio == portfolio
    ensures PortfolioName(accounts) == portfolio.name
  {
  }
}
