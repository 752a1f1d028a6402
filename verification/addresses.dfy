/** The two address summarisers of the script: `getFrom` keeps the first
    sender, `getTo` condenses the recipient list into one display string. */
module Addresses {

  /** One entry of a parsed address list: the parts before and after `@`. */
  datatype Address = Address(mailbox: string, host: string)

  /** The `mailbox@host` form of one address. */
  function Format(a: Address): string
  {
    a.mailbox + "@" + a.host
  }

  /** The suffix that marks a summary standing for several recipients. */
  const Others: string := " + others"

  /** The formatted addresses in list order, built by appending one entry
      per address as the script's `foreach` does. */
  function Destinations(arr: seq<Address>): (dest: seq<string>)
    ensures |dest| == |arr|
    ensures forall i :: 0 <= i < |arr| ==> dest[i] == Format(arr[i])
  {
    if arr == [] then [] else Destinations(arr[..|arr| - 1]) + [Format(arr[|arr| - 1])]
  }

  /** True when `login` is, character for character, one of the formatted
      recipient addresses. */
  predicate Addressed(login: string, arr: seq<Address>)
  {
    exists i :: 0 <= i < |arr| && Format(arr[i]) == login
  }

  /** The sender summary: the first sender's address, or the empty string
      when there is no sender. */
  function GetFrom(arr: seq<Address>): (r: string)
    ensures r == "" <==> arr == []
    ensures arr != [] ==> r == Format(arr[0])
  {
    if |arr| > 0 then Format(arr[0]) else ""
  }

  /** The recipient summary for the account whose login is `login`. */
  function GetTo(login: string, arr: seq<Address>): (r: string)
    ensures r == "" <==> arr == []
    ensures |arr| == 1 ==> r == Format(arr[0])
    ensures |arr| >= 2 && Addressed(login, arr) ==> r == login + Others
    ensures |arr| >= 2 && !Addressed(login, arr) ==> r == Format(arr[0]) + Others
  {
    var dest := Destinations(arr);
    if |dest| == 0 then ""
    else if |dest| == 1 then dest[0]
    else if login in dest then login + Others
    else dest[0] + Others
  }

  /** Senders after the first never influence the sender summary. */
  lemma GetFromIgnoresLaterSenders(arr: seq<Address>, arr': seq<Address>)
    requires arr != [] && arr' != [] && arr[0] == arr'[0]
    ensures GetFrom(arr) == GetFrom(arr')
  {
  }

  /** Whatever the list, a non-empty recipient summary leads with one of
      the recipients' own addresses, followed by nothing or by the
      ` + others` marker, which appears exactly when there are several. */
  lemma GetToLeadsWithRecipient(login: string, arr: seq<Address>)
    requires arr != []
    ensures exists i :: 0 <= i < |arr| && GetTo(login, arr) == Format(arr[i]) + (if |arr| >= 2 then Others else "")
  {
    if |arr| >= 2 && Addressed(login, arr) {
      var i :| 0 <= i < |arr| && Format(arr[i]) == login;
      assert GetTo(login, arr) == Format(arr[i]) + Others;
    } else {
      assert GetTo(login, arr) == Format(arr[0]) + (if |arr| >= 2 then Others else "");
    }
  }

  /** Whether the account's own address is among the recipients depends
      only on which addresses occur, not on their order. */
  lemma AddressedIgnoresOrder(login: string, arr: seq<Address>, arr': seq<Address>)
    requires multiset(arr) == multiset(arr')
    ensures Addressed(login, arr) ==> Addressed(login, arr')
  {
    if Addressed(login, arr) {
      var i :| 0 <= i < |arr| && Format(arr[i]) == login;
      assert arr[i] in multiset(arr');
      var j :| 0 <= j < |arr'| && arr'[j] == arr[i];
    }
  }

  /** With several recipients the summary does not depend on their order:
      any reordering of the list gives the same summary as long as the
      first entry is kept or the account's own address is among them. */
  lemma GetToStableUnderReordering(login: string, arr: seq<Address>, arr': seq<Address>)
    requires |arr| >= 2 && multiset(arr) == multiset(arr')
    requires Addressed(login, arr) || arr[0] == arr'[0]
    ensures GetTo(login, arr) == GetTo(login, arr')
  {
    assert |arr'| == |multiset(arr')| == |arr|;
    AddressedIgnoresOrder(login, arr, arr');
    AddressedIgnoresOrder(login, arr', arr);
  }
}
