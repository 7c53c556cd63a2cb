/**
 * Followees: people followed on social media. A followee's legal name is
 * formatted in two ways; accounts are unique per platform and user id,
 * and aliases per account, handle and role.
 */
module Followees {
  import opened Base
  import opened Text

  datatype LegalName = LegalName(first: string, middle: string, last: string)

  /** A LegalName created without a middle name: `middle` defaults to the empty string. */
  function NewLegalName(first: string, last: string): (n: LegalName)
    ensures n.first == first && n.middle == "" && n.last == last
    ensures GetFullName(n) == first + " " + last
  {
    LegalName(first, "", last)
  }

  /** `get_full_name()`, which is also `str(legal_name)`. */
  function GetFullName(n: LegalName): string
  {
    if n.middle != "" then n.first + " " + n.middle + " " + n.last else n.first + " " + n.last
  }

  /** `get_last_name_first_name()`: the middle name shrinks to its initial. */
  function GetLastNameFirstName(n: LegalName): string
  {
    if n.middle != "" then n.last + ", " + n.first + " " + [n.middle[0]] else n.last + ", " + n.first
  }

  /** No part of the name contains a space. */
  predicate SingleWords(n: LegalName)
  {
    ' ' !in n.first && ' ' !in n.middle && ' ' !in n.last
  }

  /**
   * The full name is its parts in order, one space apart: for names of
   * single words, splitting it at spaces gives back first, middle (when
   * there is one) and last.
   */
  lemma FullNameSplits(n: LegalName)
    requires SingleWords(n)
    ensures Split(GetFullName(n), ' ') == (if n.middle != "" then [n.first, n.middle, n.last] else [n.first, n.last])
  {
    if n.middle != "" {
      SplitConcat(n.middle, n.last, ' ');
      assert n.first + " " + n.middle + " " + n.last == n.first + [' '] + (n.middle + [' '] + n.last);
      SplitConcat(n.first, n.middle + [' '] + n.last, ' ');
    } else {
      assert n.first + " " + n.last == n.first + [' '] + n.last;
      SplitConcat(n.first, n.last, ' ');
    }
  }

  /**
   * The sorting form is the last name and a comma, then the first name,
   * then the middle initial when there is a middle name.
   */
  lemma LastNameFirstNameSplits(n: LegalName)
    requires SingleWords(n)
    ensures Split(GetLastNameFirstName(n), ' ')
            == [n.last + ","] + [n.first] + (if n.middle != "" then [[n.middle[0]]] else [])
  {
    var head := n.last + ",";
    assert ' ' !in head;
    if n.middle != "" {
      assert ' ' !in [n.middle[0]];
      SplitConcat(n.first, [n.middle[0]], ' ');
      assert GetLastNameFirstName(n) == head + [' '] + (n.first + [' '] + [n.middle[0]]);
      SplitConcat(head, n.first + [' '] + [n.middle[0]], ' ');
    } else {
      assert GetLastNameFirstName(n) == head + [' '] + n.first;
      SplitConcat(head, n.first, ' ');
    }
  }

  datatype Account = Account(followee: nat, platform: string, userId: string, username: string)

  datatype Alias = Alias(account: nat, handle: string, role: string)

  /** `unique_together = ('platform', 'user_id')`. */
  ghost predicate AccountsUnique(accounts: seq<Account>)
  {
    forall i, j :: 0 <= i < j < |accounts| ==>
      !(accounts[i].platform == accounts[j].platform && accounts[i].userId == accounts[j].userId)
  }

  /** Saving an account: refused when the platform already has that user id. */
  function AddAccount(accounts: seq<Account>, a: Account): (r: Option<seq<Account>>)
    ensures r.None? <==> exists i :: 0 <= i < |accounts| && accounts[i].platform == a.platform && accounts[i].userId == a.userId
    ensures r.Some? ==> r.value == accounts + [a]
    ensures r.Some? && AccountsUnique(accounts) ==> AccountsUnique(r.value)
  {
    if exists i :: 0 <= i < |accounts| && accounts[i].platform == a.platform && accounts[i].userId == a.userId
    then None else Some(accounts + [a])
  }

  /** `unique_together = ('account', 'handle', 'role')`. */
  ghost predicate AliasesUnique(aliases: seq<Alias>)
  {
    forall i, j :: 0 <= i < j < |aliases| ==> aliases[i] != aliases[j]
  }

  /** Saving an alias: refused when the account already has that handle in that role. */
  function AddAlias(aliases: seq<Alias>, a: Alias): (r: Option<seq<Alias>>)
    ensures r.None? <==> a in aliases
    ensures r.Some? ==> r.value == aliases + [a]
    ensures r.Some? && AliasesUnique(aliases) ==> AliasesUnique(r.value)
  {
    if a in aliases then None else Some(aliases + [a])
  }
}
