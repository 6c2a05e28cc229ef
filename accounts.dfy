/** The `Accounts` enumeration and `find_account`: a statement file belongs
    to the first account, in declaration order, whose token occurs in its
    path. */
module Accounts {
  import opened Ledger
  import opened Strings

  datatype Account =
    | ChaseCreditCard
    | WellsFargoChecking
    | WellsFargoCreditCard
    | FirstRepublicChecking
    | FirstRepublicMortgage

  /** The enumeration value: the token looked for in a path. */
  function Token(a: Account): string {
    match a
    case ChaseCreditCard => "CCC"
    case WellsFargoChecking => "WFCh"
    case WellsFargoCreditCard => "WFCC"
    case FirstRepublicChecking => "FRC"
    case FirstRepublicMortgage => "FRM"
  }

  /** The enumeration member's name, written into the Account column. */
  function Name(a: Account): string {
    match a
    case ChaseCreditCard => "CHASE_CREDIT_CARD"
    case WellsFargoChecking => "WELLS_FARGO_CHECKING"
    case WellsFargoCreditCard => "WELLS_FARGO_CREDIT_CARD"
    case FirstRepublicChecking => "FIRST_REPUBLIC_CHECKING"
    case FirstRepublicMortgage => "FIRST_REPUBLIC_MORTGAGE"
  }

  /** Iteration order of the enumeration. */
  const DeclarationOrder: seq<Account> :=
    [ChaseCreditCard, WellsFargoChecking, WellsFargoCreditCard, FirstRepublicChecking, FirstRepublicMortgage]

  /** Position of an account in declaration order. */
  function Rank(a: Account): (k: nat)
    ensures k < |DeclarationOrder| && DeclarationOrder[k] == a
  {
    match a
    case ChaseCreditCard => 0
    case WellsFargoChecking => 1
    case WellsFargoCreditCard => 2
    case FirstRepublicChecking => 3
    case FirstRepublicMortgage => 4
  }

  /** Distinct accounts have distinct names. */
  lemma NamesDistinct(a: Account, b: Account)
    requires Name(a) == Name(b)
    ensures a == b
  {
  }

  /** Index in `accounts` of the first account whose token occurs in `path`. */
  function FirstWithToken(path: string, accounts: seq<Account>): (r: Option<nat>)
    ensures r.Some? ==> r.value < |accounts| && Contains(path, Token(accounts[r.value]))
    ensures r.Some? ==> forall j :: 0 <= j < r.value ==> !Contains(path, Token(accounts[j]))
    ensures r.None? ==> forall j :: 0 <= j < |accounts| ==> !Contains(path, Token(accounts[j]))
  {
    if accounts == [] then None
    else if Contains(path, Token(accounts[0])) then Some(0)
    else
      var rest := accounts[1..];
      assert forall j :: 0 < j < |accounts| ==> accounts[j] == rest[j - 1];
      match FirstWithToken(path, rest)
      case None => None
      case Some(k) => Some(k + 1)
  }

  /** The value `find_account` returns, or the RuntimeError it raises. */
  function AccountOf(path: string): Result<Account> {
    match FirstWithToken(path, DeclarationOrder)
    case None => Err(NoAccountFound(path))
    case Some(k) => Ok(DeclarationOrder[k])
  }

  /** `find_account` returns the first account in declaration order whose
      token is a substring of the path, and fails exactly when no token is. */
  lemma AccountOfIsFirstMatch(path: string)
    ensures AccountOf(path).Ok? ==> Contains(path, Token(AccountOf(path).value))
    ensures AccountOf(path).Ok? ==>
      forall b :: Rank(b) < Rank(AccountOf(path).value) ==> !Contains(path, Token(b))
    ensures AccountOf(path).Err? <==> forall b :: !Contains(path, Token(b))
    ensures AccountOf(path).Err? ==> AccountOf(path).failure == NoAccountFound(path)
  {
    match FirstWithToken(path, DeclarationOrder)
    case None =>
      forall b ensures !Contains(path, Token(b)) {
        assert DeclarationOrder[Rank(b)] == b;
      }
    case Some(k) =>
      var a := DeclarationOrder[k];
      assert Rank(a) == k by {
        assert DeclarationOrder[Rank(a)] == a;
      }
      forall b | Rank(b) < Rank(a) ensures !Contains(path, Token(b)) {
        assert DeclarationOrder[Rank(b)] == b;
      }
  }

  /** The first-match property determines the account uniquely. */
  lemma FirstMatchUnique(path: string, a: Account)
    requires Contains(path, Token(a))
    requires forall b :: Rank(b) < Rank(a) ==> !Contains(path, Token(b))
    ensures AccountOf(path) == Ok(a)
  {
    AccountOfIsFirstMatch(path);
    var c := AccountOf(path).value;
    if Rank(c) < Rank(a) {
    } else if Rank(a) < Rank(c) {
    } else {
      assert DeclarationOrder[Rank(c)] == c && DeclarationOrder[Rank(a)] == a;
    }
  }

  /** The first account in declaration order whose token occurs is the one
      `find_account` returns. */
  lemma FirstFoundAt(path: string, i: nat)
    requires i < |DeclarationOrder| && Contains(path, Token(DeclarationOrder[i]))
    requires forall j :: 0 <= j < i ==> !Contains(path, Token(DeclarationOrder[j]))
    ensures AccountOf(path) == Ok(DeclarationOrder[i])
  {
    var account := DeclarationOrder[i];
    assert Rank(account) == i;
    forall b | Rank(b) < Rank(account) ensures !Contains(path, Token(b)) {
      assert DeclarationOrder[Rank(b)] == b;
    }
    FirstMatchUnique(path, account);
  }

  /** No token in declaration order occurs: `find_account` raises. */
  lemma NoneFound(path: string)
    requires forall j :: 0 <= j < |DeclarationOrder| ==> !Contains(path, Token(DeclarationOrder[j]))
    ensures AccountOf(path) == Err(NoAccountFound(path))
  {
    AccountOfIsFirstMatch(path);
    forall b ensures !Contains(path, Token(b)) {
      assert DeclarationOrder[Rank(b)] == b;
    }
  }

  /** `find_account`: walks the enumeration and returns at the first token
      found in the path; raises when the walk ends without one. */
  method FindAccount(path: string) returns (r: Result<Account>)
    ensures r == AccountOf(path)
  {
    for i := 0 to |DeclarationOrder|
      invariant forall j :: 0 <= j < i ==> !Contains(path, Token(DeclarationOrder[j]))
    {
      var account := DeclarationOrder[i];
      if Contains(path, Token(account)) {
        FirstFoundAt(path, i);
        return Ok(account);
      }
    }
    NoneFound(path);
    r := Err(NoAccountFound(path));
  }

  /** A path holding both "CCC" and "WFCC" is taken for the Chase card: the
      earlier account wins and the ambiguity is not reported. */
  lemma AmbiguousPathTakesEarlierAccount()
    ensures Contains("./statements/CCC_WFCC.csv", Token(WellsFargoCreditCard))
    ensures AccountOf("./statements/CCC_WFCC.csv") == Ok(ChaseCreditCard)
  {
    var path := "./statements/CCC_WFCC.csv";
    assert OccursAt(path, "CCC", 13);
    assert OccursAt(path, "WFCC", 17);
    FirstMatchUnique(path, ChaseCreditCard);
  }

  /** Every token starts with an upper-case letter, so a path without one
      belongs to no account. */
  lemma LowerCasePathHasNoAccount(path: string)
    requires forall k :: 0 <= k < |path| ==> !('A' <= path[k] <= 'Z')
    ensures AccountOf(path) == Err(NoAccountFound(path))
  {
    forall b ensures !Contains(path, Token(b)) {
      var c := Token(b)[0];
      assert 'A' <= c <= 'Z' by {
        match b
        case ChaseCreditCard =>
        case WellsFargoChecking =>
        case WellsFargoCreditCard =>
        case FirstRepublicChecking =>
        case FirstRepublicMortgage =>
      }
      assert forall k :: 0 <= k < |path| ==> path[k] != c;
      AbsentChar(path, Token(b), 0);
    }
    AccountOfIsFirstMatch(path);
  }

  /** Matching is case-sensitive: "CCC.csv" is a Chase file, "ccc.csv"
      belongs to no account. */
  lemma MatchingIsCaseSensitive()
    ensures AccountOf("CCC.csv") == Ok(ChaseCreditCard)
    ensures AccountOf("ccc.csv") == Err(NoAccountFound("ccc.csv"))
  {
    assert OccursAt("CCC.csv", "CCC", 0);
    FirstMatchUnique("CCC.csv", ChaseCreditCard);
    LowerCasePathHasNoAccount("ccc.csv");
  }
}
