/** User-side records: the profile's default trading account and the bank
    link (`UserBank`) whose methods either return a cached field or refresh it
    from the bank. Every save runs the field checks, as for every model. */
module Authentication {
  import opened Common
  import opened Stocks
  import opened Plaid
  import opened PlaidWrapper
  import opened Trading

  const DefaultAccountName: string := "default"

  /** The index of the first account of `profile` in table order, if any. */
  function FirstOwned(accounts: seq<TradingAccount>, profile: ProfileId): (r: Option<nat>)
    ensures r.None? <==> forall i :: 0 <= i < |accounts| ==> accounts[i].profile != profile
    ensures r.Some? ==> r.value < |accounts| && accounts[r.value].profile == profile
                        && forall i :: 0 <= i < r.value ==> accounts[i].profile != profile
  {
    if accounts == [] then None
    else if accounts[0].profile == profile then Some(0)
    else
      match FirstOwned(accounts[1..], profile)
      case None => None
      case Some(k) => Some(k + 1)
  }

  class Profile {
    const id: ProfileId

    constructor (id: ProfileId)
      ensures this.id == id
    {
      this.id := id;
    }

    /** `Profile.default_acc`: the profile's first trading account, or a new
        one named "default" when it has none. */
    method DefaultAcc(table: AccountTable) returns (acc: TradingAccount)
      requires table.Valid()
      modifies table
      ensures table.Valid()
      ensures acc.profile == id
      ensures FirstOwned(old(table.accounts), id).Some? ==>
                acc == old(table.accounts)[FirstOwned(old(table.accounts), id).value]
                && table.accounts == old(table.accounts)
      ensures FirstOwned(old(table.accounts), id).None? ==>
                fresh(acc) && acc.name == DefaultAccountName
                && table.accounts == old(table.accounts) + [acc]
    {
      var first := FirstOwned(table.accounts, id);
      if first.Some? {
        return table.accounts[first.value];
      }
      var created := table.Create(id, DefaultAccountName);
      match created
      case Ok(a) =>
        acc := a;
      case Err(_) =>
        assert false;
    }
  }

  /** Asking twice for the default account gives the same account, and the
      second request creates nothing. */
  method DefaultAccIsStable(p: Profile, table: AccountTable) returns (a1: TradingAccount, a2: TradingAccount)
    requires table.Valid()
    modifies table
    ensures a1 == a2 && a1.profile == p.id
    ensures |table.accounts| <= |old(table.accounts)| + 1
  {
    ghost var before := table.accounts;
    a1 := p.DefaultAcc(table);
    if FirstOwned(before, p.id).None? {
      FirstOwnedAfterAppend(before, a1, p.id);
    }
    a2 := p.DefaultAcc(table);
  }

  /** An account appended to a table where the profile owned none is the
      profile's first account. */
  lemma {:induction false} FirstOwnedAfterAppend(accounts: seq<TradingAccount>, a: TradingAccount, profile: ProfileId)
    requires FirstOwned(accounts, profile).None? && a.profile == profile
    ensures FirstOwned(accounts + [a], profile) == Some(|accounts|)
  {
    if accounts != [] {
      assert (accounts + [a])[1..] == accounts[1..] + [a];
      FirstOwnedAfterAppend(accounts[1..], a, profile);
    }
  }

  /** The `UserBank` row of a user. `*Field` attributes are the cached
      values and may be ahead of the stored row after a failed save. */
  class UserBank {
    const itemId: string
    const accessToken: string
    const institutionName: string
    var currentBalanceField: real
    var accountNameField: string
    /** The `account_name_field` column as last saved. */
    var storedAccountName: string
    var incomeField: real
    var expenditureField: real

    /** What every save has enforced on the stored row; the in-memory name
        differs from the stored one only after a refused save. */
    ghost predicate Valid()
      reads this
    {
      && NameCheck("item_id", itemId, 1000).Pass?
      && NameCheck("access_token", accessToken, 1000).Pass?
      && NameCheck("institution_name", institutionName, 1000).Pass?
      && NameCheck("account_name_field", storedAccountName, 1000).Pass?
      && (NameCheck("account_name_field", accountNameField, 1000).Pass? ==> accountNameField == storedAccountName)
    }

    /** What `save` (through `full_clean`) says of the row as it is in
        memory: the first of its text columns that fails its check. */
    function SaveCheck(): (r: Outcome)
      reads this
      ensures r.Pass? <==> 1 <= |itemId| <= 1000 && 1 <= |accessToken| <= 1000
                           && 1 <= |institutionName| <= 1000 && 1 <= |accountNameField| <= 1000
      ensures r.Fail? && Valid() ==> r == NameCheck("account_name_field", accountNameField, 1000)
    {
      var checks := [NameCheck("item_id", itemId, 1000), NameCheck("access_token", accessToken, 1000),
                     NameCheck("institution_name", institutionName, 1000),
                     NameCheck("account_name_field", accountNameField, 1000)];
      if checks[0].Fail? then checks[0]
      else if checks[1].Fail? then checks[1]
      else if checks[2].Fail? then checks[2]
      else checks[3]
    }

    constructor (itemId: string, accessToken: string, institutionName: string,
                 balance: real, accountName: string, income: real, expenditure: real)
      requires NameCheck("item_id", itemId, 1000).Pass?
      requires NameCheck("access_token", accessToken, 1000).Pass?
      requires NameCheck("institution_name", institutionName, 1000).Pass?
      requires NameCheck("account_name_field", accountName, 1000).Pass?
      ensures Valid()
      ensures this.itemId == itemId && this.accessToken == accessToken
      ensures this.institutionName == institutionName
      ensures currentBalanceField == balance && incomeField == income && expenditureField == expenditure
      ensures accountNameField == accountName && storedAccountName == accountName
    {
      this.itemId, this.accessToken, this.institutionName := itemId, accessToken, institutionName;
      currentBalanceField, incomeField, expenditureField := balance, income, expenditure;
      accountNameField, storedAccountName := accountName, accountName;
    }

    /** `UserBank.current_balance(update)`: with `update`, the balance of the
        accounts response (through a fresh wrapper, so never a cached one)
        overwrites the field and the row is saved; a save refused because of
        an account name kept from an earlier refused save raises, with the
        new balance already in memory. */
    method CurrentBalance(update: bool, accounts: seq<Account>) returns (r: Result<real>)
      requires Valid()
      modifies this`currentBalanceField
      ensures Valid()
      ensures !update ==> r == Ok(old(currentBalanceField)) && currentBalanceField == old(currentBalanceField)
      ensures update ==> currentBalanceField == SignedBalance(accounts)
      ensures update ==> r == if SaveCheck().Pass? then Ok(SignedBalance(accounts)) else Err(SaveCheck().error)
    {
      if update {
        var api := new PlaidApi();
        currentBalanceField := api.CurrentBalance(accounts);
        var check := SaveCheck();
        if check.Fail? {
          return Err(check.error);
        }
      }
      r := Ok(currentBalanceField);
    }

    /** `UserBank.account_name(update)`: with `update`, the first account's
        name overwrites the field and is saved; without accounts the lookup
        raises, and an empty or over-long name makes the save raise after the
        field was already overwritten. */
    method AccountName(update: bool, accounts: seq<Account>) returns (r: Result<string>)
      requires Valid()
      modifies this`accountNameField, this`storedAccountName
      ensures Valid()
      ensures !update ==> r == Ok(old(accountNameField)) && accountNameField == old(accountNameField)
                          && storedAccountName == old(storedAccountName)
      ensures update && accounts == [] ==>
                r == Err(NoAccounts) && accountNameField == old(accountNameField)
                && storedAccountName == old(storedAccountName)
      ensures update && accounts != [] ==>
                accountNameField == accounts[0].name
                && (r.Ok? <==> 1 <= |accounts[0].name| <= 1000)
                && (r.Ok? ==> r.value == accounts[0].name && storedAccountName == accounts[0].name)
                && (r.Err? ==> storedAccountName == old(storedAccountName))
    {
      if update {
        var fetched := Plaid.AccountName(accounts);
        if fetched.Err? {
          return Err(fetched.error);
        }
        accountNameField := fetched.value;
        var check := SaveCheck();
        if check.Fail? {
          return Err(check.error);
        }
        storedAccountName := accountNameField;
      }
      r := Ok(accountNameField);
    }

    /** `UserBank.income(days, update)`: the cached field only for a cached
        30-day request; any other request computes the income of `window`
        (the transactions of the last `days` days), and only a 30-day request
        stores it, which raises when the save is refused. */
    method Income(days: int, update: bool, window: seq<Transaction>) returns (r: Result<real>)
      requires Valid()
      modifies this`incomeField
      ensures Valid()
      ensures incomeField == if update && days == 30 then Plaid.Income(window) else old(incomeField)
      ensures !update && days == 30 ==> r == Ok(old(incomeField))
      ensures days != 30 ==> r == Ok(Plaid.Income(window))
      ensures update && days == 30 ==>
                r == if SaveCheck().Pass? then Ok(Plaid.Income(window)) else Err(SaveCheck().error)
      ensures r.Ok? ==> r.value >= 0.0 || r.value == old(incomeField)
    {
      var inc := incomeField;
      if update || days != 30 {
        inc := Plaid.Income(window);
        if days == 30 {
          incomeField := inc;
          var check := SaveCheck();
          if check.Fail? {
            return Err(check.error);
          }
        }
      }
      r := Ok(inc);
    }

    /** `UserBank.expenditure(days, update)`: as `Income`, for the expenses. */
    method Expenditure(days: int, update: bool, window: seq<Transaction>) returns (r: Result<real>)
      requires Valid()
      modifies this`expenditureField
      ensures Valid()
      ensures expenditureField == if update && days == 30 then Plaid.Expenditure(window) else old(expenditureField)
      ensures !update && days == 30 ==> r == Ok(old(expenditureField))
      ensures days != 30 ==> r == Ok(Plaid.Expenditure(window))
      ensures update && days == 30 ==>
                r == if SaveCheck().Pass? then Ok(Plaid.Expenditure(window)) else Err(SaveCheck().error)
      ensures r.Ok? ==> r.value <= 0.0 || r.value == old(expenditureField)
    {
      var exp := expenditureField;
      if update || days != 30 {
        exp := Plaid.Expenditure(window);
        if days == 30 {
          expenditureField := exp;
          var check := SaveCheck();
          if check.Fail? {
            return Err(check.error);
          }
        }
      }
      r := Ok(exp);
    }
  }

  /** A refresh followed by a cached read returns the refreshed value, for
      any later bank response; the refresh itself raises exactly when the
      account name in memory would be refused, and the value is in memory
      either way. */
  method RefreshThenRead(bank: UserBank, accounts: seq<Account>, later: seq<Account>)
    returns (r1: Result<real>, r2: Result<real>)
    requires bank.Valid()
    modifies bank
    ensures r1.Ok? <==> 1 <= |old(bank.accountNameField)| <= 1000
    ensures r1.Ok? ==> r1.value == SignedBalance(accounts)
    ensures r2 == Ok(SignedBalance(accounts))
  {
    r1 := bank.CurrentBalance(true, accounts);
    r2 := bank.CurrentBalance(false, later);
  }
}
