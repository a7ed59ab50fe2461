/** User accounts of the daemon's auth file and their wire form. */
module Account {
  import opened Errors
  import opened Rencode

  /** `Account`; the auth level is the daemon's level name, a string. */
  datatype Account = Account(username: string, password: string, authLevel: string)

  /** `Account.toList`: username, password and auth level, in that order. */
  function ToList(a: Account): (l: seq<Value>)
    ensures |l| == 3 && forall i :: 0 <= i < 3 ==> l[i].Bytes?
    ensures l[0].data == a.username && l[1].data == a.password && l[2].data == a.authLevel
  {
    [Bytes(a.username), Bytes(a.password), Bytes(a.authLevel)]
  }

  /**
   * What `NewAccount` demands of its input without checking it: once the input
   * is a dictionary of three entries, each value is a byte string (the source
   * type-asserts them and would panic otherwise).
   */
  predicate AccountValuesTyped(u: Value)
  {
    u.Dict? && |u.entries| == 3 ==> forall i :: 0 <= i < 3 ==> u.entries[i].1.Bytes?
  }

  /**
   * `NewAccount`: a dictionary of exactly three entries, read by position of
   * its values (keys are ignored): username, password, auth level.
   */
  function NewAccount(u: Value): (r: Result<Account>)
    requires AccountValuesTyped(u)
    ensures r.Success? <==> u.Dict? && |u.entries| == 3
    ensures r.Failure? ==> r.error == InvalidListResult
    ensures r.Success? ==> ToList(r.value) == DictValues(u.entries)
  {
    if !u.Dict? then Failure(InvalidListResult)
    else
      var values := DictValues(u.entries);
      if |values| != 3 then Failure(InvalidListResult)
      else Success(Account(values[0].data, values[1].data, values[2].data))
  }

  /** The dictionary whose keys are `keys` and whose values are `toList(a)`. */
  function AccountDict(keys: seq<Value>, a: Account): Value
    requires |keys| == 3
  {
    var l := ToList(a);
    Dict([(keys[0], l[0]), (keys[1], l[1]), (keys[2], l[2])])
  }

  /** Parsing the list form of an account, under any keys, gives the account back. */
  lemma RoundTrip(keys: seq<Value>, a: Account)
    requires |keys| == 3
    ensures AccountValuesTyped(AccountDict(keys, a))
    ensures NewAccount(AccountDict(keys, a)) == Success(a)
  {
  }

  /** Any accepted dictionary is the list form of the account it parses to. */
  lemma ParsedIsListForm(u: Value)
    requires AccountValuesTyped(u)
    requires NewAccount(u).Success?
    ensures u == AccountDict([u.entries[0].0, u.entries[1].0, u.entries[2].0], NewAccount(u).value)
  {
  }
}
