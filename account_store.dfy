/**
 * The account operations of electron/api/accounts.ts: creating an account
 * under a fresh random seven-digit id, renaming one, and deleting one
 * together with every lot and history entry that belongs to it. The stores
 * are in-memory ordered maps; loading and saving them is not modelled.
 */
module AccountStore {
  import opened Wrappers
  import opened Seqs
  import opened Records
  import opened OrderedMaps

  const ID_LOW: int := 1000000
  const ID_HIGH: int := 9999999

  /** `Math.floor(1000000 + Math.random() * 9000000)` for a draw of `Math.random()`. */
  function GenerateNumber(draw: real): (n: int)
    requires 0.0 <= draw < 1.0
    ensures ID_LOW <= n <= ID_HIGH
  {
    (1000000.0 + draw * 9000000.0).Floor
  }

  function DigitChar(d: int): char
    requires 0 <= d < 10
  {
    ('0' as int + d) as char
  }

  /** `toString()` of a non-negative integer: its decimal digits, most significant first. */
  function Decimal(n: nat): string {
    if n < 10 then [DigitChar(n)] else Decimal(n / 10) + [DigitChar(n % 10)]
  }

  /** Reads a string of decimal digits back as a number. */
  function ParseDecimal(s: string): int {
    if s == [] then 0 else 10 * ParseDecimal(s[..|s| - 1]) + (s[|s| - 1] as int - '0' as int)
  }

  lemma {:induction false} DecimalRoundTrip(n: nat)
    ensures ParseDecimal(Decimal(n)) == n
  {
    if n >= 10 {
      DecimalRoundTrip(n / 10);
      var s := Decimal(n);
      assert s[..|s| - 1] == Decimal(n / 10);
    }
  }

  function Pow10(k: nat): nat {
    if k == 0 then 1 else 10 * Pow10(k - 1)
  }

  /** A number with k + 1 digits is written with k + 1 characters. */
  lemma {:induction false} DecimalLength(n: nat, k: nat)
    requires Pow10(k) <= n < 10 * Pow10(k)
    ensures |Decimal(n)| == k + 1
  {
    if k > 0 {
      DecimalLength(n / 10, k - 1);
    }
  }

  /** Generated ids are exactly seven digits long, and different numbers give different ids. */
  lemma GeneratedIds(draw: real, other: real)
    requires 0.0 <= draw < 1.0 && 0.0 <= other < 1.0
    ensures |Decimal(GenerateNumber(draw))| == 7
    ensures Decimal(GenerateNumber(draw)) == Decimal(GenerateNumber(other)) <==>
            GenerateNumber(draw) == GenerateNumber(other)
  {
    DecimalLength(GenerateNumber(draw), 6);
    DecimalRoundTrip(GenerateNumber(draw));
    DecimalRoundTrip(GenerateNumber(other));
  }

  /** The id `generateId` produces from a draw. */
  function IdFrom(draw: real): string
    requires 0.0 <= draw < 1.0
  {
    Decimal(GenerateNumber(draw))
  }

  datatype AccountError = AccountNotFound(accountId: string)

  /** Each stored account sits under its own id. */
  predicate KeyedById(accounts: map<string, Account>) {
    forall k :: k in accounts ==> accounts[k].accountId == k
  }

  /** An entry of the account is dropped; everything else keeps its place. */
  function NotOfHolding(accountId: string): Holding -> bool {
    (h: Holding) => h.accountId != accountId
  }

  function NotOfBuy(accountId: string): BuyEntry -> bool {
    (e: BuyEntry) => e.accountId != accountId
  }

  function NotOfSell(accountId: string): SellEntry -> bool {
    (e: SellEntry) => e.accountId != accountId
  }

  /** A security with the lots and history entries of one account filtered out. */
  function WithoutAccount(security: SecurityData, accountId: string): SecurityData {
    security.(holdings := Filter(security.holdings, NotOfHolding(accountId)),
              buyHistory := Filter(security.buyHistory, NotOfBuy(accountId)),
              sellHistory := Filter(security.sellHistory, NotOfSell(accountId)))
  }

  /**
   * After the cascade no lot or history entry of the account is left, every
   * entry of another account still is, and the rest of the security is as it was.
   */
  lemma WithoutAccountContents(security: SecurityData, accountId: string)
    ensures var s := WithoutAccount(security, accountId);
      && s == security.(holdings := s.holdings, buyHistory := s.buyHistory, sellHistory := s.sellHistory)
      && (forall h :: h in s.holdings <==> h in security.holdings && h.accountId != accountId)
      && (forall e :: e in s.buyHistory <==> e in security.buyHistory && e.accountId != accountId)
      && (forall e :: e in s.sellHistory <==> e in security.sellHistory && e.accountId != accountId)
  {
    forall h: Holding {
      FilterMembers(security.holdings, NotOfHolding(accountId), h);
    }
    forall e: BuyEntry {
      FilterMembers(security.buyHistory, NotOfBuy(accountId), e);
    }
    forall e: SellEntry {
      FilterMembers(security.sellHistory, NotOfSell(accountId), e);
    }
  }

  /** A security without entries of the account is left exactly as it was. */
  lemma {:induction false} WithoutAbsentAccount(security: SecurityData, accountId: string)
    requires forall h :: h in security.holdings ==> h.accountId != accountId
    requires forall e :: e in security.buyHistory ==> e.accountId != accountId
    requires forall e :: e in security.sellHistory ==> e.accountId != accountId
    ensures WithoutAccount(security, accountId) == security
  {
    FilterKeepsAll(security.holdings, NotOfHolding(accountId));
    FilterKeepsAll(security.buyHistory, NotOfBuy(accountId));
    FilterKeepsAll(security.sellHistory, NotOfSell(accountId));
  }

  /** The stored accounts and securities. */
  class Store {
    var accounts: OMap<string, Account>
    var securities: OMap<string, SecurityData>

    ghost predicate Valid()
      reads this
    {
      accounts.Valid() && securities.Valid() && KeyedById(accounts.entries)
    }

    constructor (accounts: OMap<string, Account>, securities: OMap<string, SecurityData>)
      requires accounts.Valid() && securities.Valid() && KeyedById(accounts.entries)
      ensures Valid()
      ensures this.accounts == accounts && this.securities == securities
    {
      this.accounts := accounts;
      this.securities := securities;
    }

    /**
     * `createAccount`: draws ids until one is not taken and stores the account
     * under it. `draws` are the successive results of `Math.random()`; some
     * draw in them gives a free id.
     */
    method CreateAccount(name: string, draws: seq<real>) returns (accountId: string)
      requires Valid()
      requires forall i :: 0 <= i < |draws| ==> 0.0 <= draws[i] < 1.0
      requires exists i :: 0 <= i < |draws| && IdFrom(draws[i]) !in accounts.entries
      modifies this
      ensures Valid()
      ensures accountId !in old(accounts.entries)
      ensures exists i :: 0 <= i < |draws| && accountId == IdFrom(draws[i])
      ensures accounts.entries == old(accounts.entries)[accountId := Account(name, accountId)]
      ensures accounts.keys == old(accounts.keys) + [accountId]
      ensures securities == old(securities)
    {
      var k := 0;
      accountId := IdFrom(draws[0]);
      while accountId in accounts.entries
        invariant k < |draws| && accountId == IdFrom(draws[k])
        invariant forall i :: 0 <= i < k ==> IdFrom(draws[i]) in accounts.entries
        decreases |draws| - k
      {
        k := k + 1;
        accountId := IdFrom(draws[k]);
      }
      accounts := accounts.Set(accountId, Account(name, accountId));
    }

    /** `renameAccount`: fails on an unknown id; otherwise only that account's name changes. */
    method RenameAccount(account: Account) returns (r: Outcome<AccountError>)
      requires Valid()
      modifies this
      ensures Valid()
      ensures account.accountId !in old(accounts.entries) <==> r == Fail(AccountNotFound(account.accountId))
      ensures r.Fail? ==> accounts == old(accounts)
      ensures r.Pass? ==> accounts.keys == old(accounts.keys)
      ensures r.Pass? ==> var id := account.accountId;
        accounts.entries == old(accounts.entries)[id := old(accounts.entries)[id].(name := account.name)]
      ensures securities == old(securities)
    {
      var found := accounts.Get(account.accountId);
      if found.None? {
        return Fail(AccountNotFound(account.accountId));
      }
      accounts := accounts.Set(account.accountId, found.value.(name := account.name));
      r := Pass;
    }

    /** `deleteAccount`: removes the account and, from every security, its lots and history entries. */
    method DeleteAccount(accountId: string)
      requires Valid()
      modifies this
      ensures Valid()
      ensures accounts == old(accounts).Delete(accountId)
      ensures securities.keys == old(securities.keys)
      ensures forall s :: s in securities.entries <==> s in old(securities.entries)
      ensures forall s :: s in securities.entries ==>
        securities.entries[s] == WithoutAccount(old(securities.entries[s]), accountId)
    {
      accounts := accounts.Delete(accountId);
      securities := WithoutAccountEverywhere(securities, accountId);
    }
  }

  /** The loop of `deleteAccount` over the securities, replacing each by its filtered copy in place. */
  method WithoutAccountEverywhere(securities: OMap<string, SecurityData>, accountId: string)
    returns (r: OMap<string, SecurityData>)
    requires securities.Valid()
    ensures r.keys == securities.keys && r.entries.Keys == securities.entries.Keys
    ensures forall s :: s in r.entries ==> r.entries[s] == WithoutAccount(securities.entries[s], accountId)
  {
    r := securities;
    var i := 0;
    while i < |securities.keys|
      invariant i <= |securities.keys|
      invariant r.keys == securities.keys && r.entries.Keys == securities.entries.Keys
      invariant forall s :: s in r.entries ==>
        r.entries[s] == if s in securities.keys[..i] then WithoutAccount(securities.entries[s], accountId) else securities.entries[s]
    {
      var symbol := securities.keys[i];
      assert symbol !in securities.keys[..i];
      assert securities.keys[..i + 1] == securities.keys[..i] + [symbol];
      r := r.Set(symbol, WithoutAccount(r.entries[symbol], accountId));
      i := i + 1;
    }
    assert securities.keys[..i] == securities.keys;
  }

  /** After `deleteAccount` no entry anywhere belongs to the deleted account. */
  lemma DeletedAccountLeavesNoEntries(before: map<string, SecurityData>, after: map<string, SecurityData>, accountId: string)
    requires forall s :: s in after <==> s in before
    requires forall s :: s in after ==> after[s] == WithoutAccount(before[s], accountId)
    ensures forall s, h :: s in after && h in after[s].holdings ==> h.accountId != accountId
    ensures forall s, e :: s in after && e in after[s].buyHistory ==> e.accountId != accountId
    ensures forall s, e :: s in after && e in after[s].sellHistory ==> e.accountId != accountId
  {
    forall s | s in after {
      WithoutAccountContents(before[s], accountId);
    }
  }
}
