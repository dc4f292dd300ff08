/**
 * cmd/tui_functions.go: the three interactive prompts create-database falls back on.
 * The Cloud Manager listings and the user's pick in the select prompt are inputs; what
 * is modelled is how the options are built, how the answer is read back, and which
 * failures are returned and which end the process.
 */
module Tui {
  import opened Wrappers
  import opened Text
  import DatabaseList

  /** objects.Account: the fields an option shows. */
  datatype Account = Account(accountID: string, lastName: string, firstName: string, email: string)

  /** What a listing request gives: an error, a body that does not decode, or the items. */
  datatype Fetch<T> = FetchFailed(err: string) | Undecodable | Fetched(items: seq<T>)

  /** What the select prompt gives: the position of the picked option, or its error. */
  datatype Choice = Picked(index: nat) | Cancelled(err: string)

  /** How a prompt ends: a (value, error) pair returned to the caller, or the process exits. */
  datatype Outcome = Returned(value: string, err: Option<string>) | Exited

  /** The prompt can only pick one of the options it shows. */
  predicate PicksAmong(choice: Choice, count: nat) {
    choice.Picked? ==> choice.index < count
  }

  const CspList: seq<string> := ["NONE", "OP", "AWS", "AZ", "GCP"]

  /** "<id> (<last>, <first> <<email>>)" */
  function AccountOption(a: Account): string {
    a.accountID + " (" + a.lastName + ", " + a.firstName + " <" + a.email + ">)"
  }

  /** strings.TrimSpace(strings.Split(answer, "(")[0]) */
  function AccountIDOf(answer: string): string {
    TrimSpace(BeforeFirst(answer, '('))
  }

  /** The account options, one per account in the order listed. */
  method AccountOptions(accounts: seq<Account>) returns (options: seq<string>)
    ensures |options| == |accounts|
    ensures forall i :: 0 <= i < |accounts| ==> options[i] == AccountOption(accounts[i])
  {
    options := [];
    for i := 0 to |accounts|
      invariant |options| == i
      invariant forall j :: 0 <= j < i ==> options[j] == AccountOption(accounts[j])
    {
      options := options + [AccountOption(accounts[i])];
    }
  }

  /** The database options: each workspace's DcosAppId in the order listed. */
  method DatabaseOptions(clusters: seq<DatabaseList.ClusterInfo>) returns (options: seq<string>)
    ensures |options| == |clusters|
    ensures forall i :: 0 <= i < |clusters| ==> options[i] == clusters[i].dcosAppId
  {
    options := [];
    for i := 0 to |clusters|
      invariant |options| == i
      invariant forall j :: 0 <= j < i ==> options[j] == clusters[j].dcosAppId
    {
      options := options + [clusters[i].dcosAppId];
    }
  }

  /** promptForCSP: the picked provider, or "" with the prompt's error. */
  method PromptForCSP(choice: Choice) returns (outcome: Outcome)
    requires PicksAmong(choice, |CspList|)
    ensures choice.Cancelled? ==> outcome == Returned("", Some(choice.err))
    ensures choice.Picked? ==> outcome == Returned(CspList[choice.index], None)
  {
    match choice
    case Cancelled(err) =>
      outcome := Returned("", Some(err));
    case Picked(i) =>
      outcome := Returned(CspList[i], None);
  }

  /**
   * promptForAccountID: a failed listing or prompt is returned as ("", err); a listing
   * that does not decode ends the process; a pick gives the account id read back from
   * the option.
   */
  method PromptForAccountID(listing: Fetch<Account>, choice: Choice) returns (outcome: Outcome)
    requires listing.Fetched? ==> PicksAmong(choice, |listing.items|)
    ensures listing.FetchFailed? ==> outcome == Returned("", Some(listing.err))
    ensures listing.Undecodable? ==> outcome.Exited?
    ensures listing.Fetched? && choice.Cancelled? ==> outcome == Returned("", Some(choice.err))
    ensures listing.Fetched? && choice.Picked? ==>
      outcome == Returned(AccountIDOf(AccountOption(listing.items[choice.index])), None)
  {
    match listing
    case FetchFailed(err) =>
      outcome := Returned("", Some(err));
    case Undecodable =>
      outcome := Exited;
    case Fetched(accounts) =>
      var options := AccountOptions(accounts);
      match choice
      case Cancelled(err) =>
        outcome := Returned("", Some(err));
      case Picked(i) =>
        outcome := Returned(AccountIDOf(options[i]), None);
  }

  /**
   * promptForDatabaseName: a failed listing is returned; a listing that does not decode
   * and a failed prompt both end the process; a pick gives that workspace's name.
   */
  method PromptForDatabaseName(listing: Fetch<DatabaseList.ClusterInfo>, choice: Choice) returns (outcome: Outcome)
    requires listing.Fetched? ==> PicksAmong(choice, |listing.items|)
    ensures listing.FetchFailed? ==> outcome == Returned("", Some(listing.err))
    ensures listing.Undecodable? || (listing.Fetched? && choice.Cancelled?) ==> outcome.Exited?
    ensures listing.Fetched? && choice.Picked? ==>
      outcome == Returned(listing.items[choice.index].dcosAppId, None)
  {
    match listing
    case FetchFailed(err) =>
      outcome := Returned("", Some(err));
    case Undecodable =>
      outcome := Exited;
    case Fetched(clusters) =>
      var options := DatabaseOptions(clusters);
      match choice
      case Cancelled(_) =>
        outcome := Exited;
      case Picked(i) =>
        outcome := Returned(options[i], None);
  }

  /**
   * The name a workspace command goes on with: the one given by flags, or else the one
   * picked from the prompt; None is the fatal exit when the prompt fails.
   */
  function ResolvedName(given: string, listing: Fetch<DatabaseList.ClusterInfo>, choice: Choice): (r: Option<string>)
    requires listing.Fetched? ==> PicksAmong(choice, |listing.items|)
    ensures given != "" ==> r == Some(given)
    ensures given == "" && r.Some? ==> listing.Fetched? && choice.Picked? && r.value == listing.items[choice.index].dcosAppId
    ensures given == "" && listing.Fetched? && choice.Picked? ==> r.Some?
  {
    if given != "" then Some(given)
    else if listing.Fetched? && choice.Picked? then Some(listing.items[choice.index].dcosAppId)
    else None
  }

  /** The prompt fallback of the workspace commands' Run: prompt only when no name was given. */
  method ResolveDatabaseName(given: string, listing: Fetch<DatabaseList.ClusterInfo>, choice: Choice) returns (name: Option<string>)
    requires listing.Fetched? ==> PicksAmong(choice, |listing.items|)
    ensures name == ResolvedName(given, listing, choice)
  {
    name := Some(given);
    if given == "" {
      var answer := PromptForDatabaseName(listing, choice);
      if answer.Exited? || answer.err.Some? {
        name := None;
      } else {
        name := Some(answer.value);
      }
    }
  }

  /** The part before the first separator, when the separator follows text without one. */
  lemma {:induction false} BeforeFirstOfJoin(a: string, sep: char, b: string)
    requires sep !in a
    ensures BeforeFirst(a + [sep] + b, sep) == a
  {
    if |a| > 0 {
      assert (a + [sep] + b)[1..] == a[1..] + [sep] + b;
      BeforeFirstOfJoin(a[1..], sep, b);
    }
  }

  /** A trailing blank goes, and nothing else, from text that is already trimmed. */
  lemma TrimSpaceDropsBlank(s: string)
    requires s == [] || (!IsSpace(s[0]) && !IsSpace(s[|s| - 1]))
    ensures TrimSpace(s + " ") == s
  {
    var t := s + " ";
    if s == [] {
      assert TrimLeft(t) == TrimLeft([]);
    } else {
      assert TrimLeft(t) == t;
      assert t[..|t| - 1] == s;
      assert TrimRight(t) == TrimRight(s);
      assert TrimRight(s) == s;
    }
  }

  /**
   * The account id comes back from its option unchanged when it holds no "(" and has no
   * white space at either end.
   */
  lemma AccountRoundTrip(a: Account)
    requires '(' !in a.accountID
    requires a.accountID == [] || (!IsSpace(a.accountID[0]) && !IsSpace(a.accountID[|a.accountID| - 1]))
    ensures AccountIDOf(AccountOption(a)) == a.accountID
  {
    var rest := a.lastName + ", " + a.firstName + " <" + a.email + ">)";
    assert AccountOption(a) == (a.accountID + " ") + ['('] + rest;
    BeforeFirstOfJoin(a.accountID + " ", '(', rest);
    TrimSpaceDropsBlank(a.accountID);
  }

  /** An id that carries its own "(" is cut short at the first one, and only what precedes it is kept. */
  lemma AccountIdCutAtParenthesis(acc: Account, before: string, after: string)
    requires '(' !in before && acc.accountID == before + "(" + after
    ensures AccountIDOf(AccountOption(acc)) == TrimSpace(before)
  {
    var rest := after + " (" + acc.lastName + ", " + acc.firstName + " <" + acc.email + ">)";
    assert AccountOption(acc) == before + ['('] + rest;
    BeforeFirstOfJoin(before, '(', rest);
  }
}
