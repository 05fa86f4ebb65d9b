/**
 Credential readiness of service accounts: the status of one account, and the keyset-paged scan that
 finds the first accounts of interest behind a key.
 */
module Readiness {
  import opened Wrappers
  import opened Ordering

  const SCAN_PAGE: nat := 500

  datatype Account = Account(key: string, id: int, enabled: bool)

  datatype Credential = Credential(
    account: int,
    createdAt: int,
    expiresAt: Option<int>,
    revokedAt: Option<int>,
    lastUsedAt: Option<int>)

  datatype Status = Healthy | ExpiringSoon | Expired | NoUsableCredential | AccountDisabled

  datatype Summary = Summary(
    total: nat,
    active: nat,
    usable: nat,
    expired: nat,
    revoked: nat,
    latestCreatedAt: Option<int>,
    lastUsedAt: Option<int>)

  datatype Report = Report(account: Account, status: Status, summary: Summary, nextExpiresAt: Option<int>)

  // ---- one account ------------------------------------------------------------------

  predicate IsActive(c: Credential, now: int)
  {
    c.revokedAt.None? && (c.expiresAt.None? || c.expiresAt.value > now)
  }

  predicate IsExpired(c: Credential, now: int)
  {
    c.revokedAt.None? && c.expiresAt.Some? && c.expiresAt.value <= now
  }

  function Count(credentials: seq<Credential>, p: Credential -> bool): nat
  {
    if credentials == [] then 0 else (if p(credentials[0]) then 1 else 0) + Count(credentials[1..], p)
  }

  function Active(now: int): Credential -> bool { (c: Credential) => IsActive(c, now) }

  function Lapsed(now: int): Credential -> bool { (c: Credential) => IsExpired(c, now) }

  function Revoked(): Credential -> bool { (c: Credential) => c.revokedAt.Some? }

  function CreatedAt(): Credential -> Option<int> { (c: Credential) => Some(c.createdAt) }

  function LastUsedAt(): Credential -> Option<int> { (c: Credential) => c.lastUsedAt }

  /** The latest of the instants the credentials have. */
  function Latest(credentials: seq<Credential>, at: Credential -> Option<int>): Option<int>
  {
    if credentials == [] then None
    else
      var rest := Latest(credentials[1..], at);
      if at(credentials[0]).None? || (rest.Some? && rest.value >= at(credentials[0]).value) then rest
      else at(credentials[0])
  }

  /** It is one of them, and none is later. */
  lemma {:induction false} LatestIsGreatest(credentials: seq<Credential>, at: Credential -> Option<int>)
    ensures var latest := Latest(credentials, at);
            && (latest.Some? ==> exists c :: c in credentials && at(c) == latest)
            && (forall c :: c in credentials && at(c).Some? ==> latest.Some? && at(c).value <= latest.value)
  {
    if credentials != [] {
      LatestIsGreatest(credentials[1..], at);
      assert credentials == [credentials[0]] + credentials[1..];
      var latest, rest := Latest(credentials, at), Latest(credentials[1..], at);
      if latest.Some? {
        if latest == rest {
          var c :| c in credentials[1..] && at(c) == rest;
          assert c in credentials;
        } else {
          assert credentials[0] in credentials;
        }
      }
    }
  }

  /** `_credential_summary` */
  function Summarize(a: Account, credentials: seq<Credential>, now: int): Summary
  {
    var active := Count(credentials, Active(now));
    var usable := if a.enabled then active else 0;
    Summary(|credentials|, active, usable, Count(credentials, Lapsed(now)), Count(credentials, Revoked()),
            Latest(credentials, CreatedAt()), Latest(credentials, LastUsedAt()))
  }

  /** The earliest expiration of an active credential. */
  function NextExpiry(credentials: seq<Credential>, now: int): Option<int>
  {
    if credentials == [] then None
    else
      var rest := NextExpiry(credentials[1..], now);
      var c := credentials[0];
      if !IsActive(c, now) || c.expiresAt.None? then rest
      else if rest.Some? && rest.value <= c.expiresAt.value then rest
      else c.expiresAt
  }

  /** `_credential_readiness` */
  function Assess(a: Account, credentials: seq<Credential>, now: int, warning: int): (report: Report)
    ensures report.account == a
  {
    var summary := Summarize(a, credentials, now);
    var next := NextExpiry(credentials, now);
    var status :=
      if !a.enabled then AccountDisabled
      else if summary.usable == 0 && summary.expired > 0 then Expired
      else if summary.usable == 0 then NoUsableCredential
      else if next.Some? && next.value - now <= warning then ExpiringSoon
      else Healthy;
    Report(a, status, summary, next)
  }

  lemma {:induction false} CountPositive(credentials: seq<Credential>, p: Credential -> bool)
    ensures Count(credentials, p) > 0 <==> exists c :: c in credentials && p(c)
  {
    if credentials != [] {
      CountPositive(credentials[1..], p);
      assert credentials == [credentials[0]] + credentials[1..];
    }
  }

  /** Each credential is active, expired or revoked, and never two of them. */
  lemma {:induction false} SummaryAddsUp(a: Account, credentials: seq<Credential>, now: int)
    ensures var s := Summarize(a, credentials, now); s.active + s.expired + s.revoked == s.total
  {
    if credentials != [] {
      SummaryAddsUp(a, credentials[1..], now);
    }
  }

  lemma {:induction false} CountAppend(credentials: seq<Credential>, c: Credential, p: Credential -> bool)
    ensures Count(credentials + [c], p) == Count(credentials, p) + if p(c) then 1 else 0
  {
    if credentials == [] {
      assert [] + [c] == [c] && [c][1..] == [];
    } else {
      assert (credentials + [c])[1..] == credentials[1..] + [c];
      CountAppend(credentials[1..], c, p);
    }
  }

  /** The places of the first `n` credentials that have the property. */
  function Places(credentials: seq<Credential>, n: nat, p: Credential -> bool): set<nat>
    requires n <= |credentials|
  {
    set i: nat | i < n && p(credentials[i])
  }

  lemma {:induction false} CountIsSize(credentials: seq<Credential>, n: nat, p: Credential -> bool)
    requires n <= |credentials|
    ensures Count(credentials[..n], p) == |Places(credentials, n, p)|
  {
    if n > 0 {
      CountIsSize(credentials, n - 1, p);
      CountAppend(credentials[..n - 1], credentials[n - 1], p);
      assert credentials[..n] == credentials[..n - 1] + [credentials[n - 1]];
      var before := Places(credentials, n - 1, p);
      assert Places(credentials, n, p) == if p(credentials[n - 1]) then before + {n - 1} else before;
    } else {
      assert Places(credentials, 0, p) == {};
    }
  }

  /** What the counts of a summary count; none is usable while the account is disabled. */
  lemma SummaryCountsExactly(a: Account, credentials: seq<Credential>, now: int)
    ensures var s, n := Summarize(a, credentials, now), |credentials|;
            var active := set i: nat | i < n && credentials[i].revokedAt.None? &&
                                       (credentials[i].expiresAt.Some? ==> now < credentials[i].expiresAt.value);
            var expired := set i: nat | i < n && credentials[i].revokedAt.None? &&
                                        credentials[i].expiresAt.Some? && credentials[i].expiresAt.value <= now;
            var revoked := set i: nat | i < n && credentials[i].revokedAt.Some?;
            && s.total == n && s.active == |active| && s.expired == |expired| && s.revoked == |revoked|
            && (a.enabled ==> s.usable == |active|) && (!a.enabled ==> s.usable == 0)
  {
    var n := |credentials|;
    assert credentials[..n] == credentials;
    CountIsSize(credentials, n, Active(now));
    CountIsSize(credentials, n, Lapsed(now));
    CountIsSize(credentials, n, Revoked());
    assert Places(credentials, n, Active(now)) ==
             set i: nat | i < n && credentials[i].revokedAt.None? &&
                          (credentials[i].expiresAt.Some? ==> now < credentials[i].expiresAt.value);
    assert Places(credentials, n, Lapsed(now)) ==
             set i: nat | i < n && credentials[i].revokedAt.None? &&
                          credentials[i].expiresAt.Some? && credentials[i].expiresAt.value <= now;
    assert Places(credentials, n, Revoked()) == set i: nat | i < n && credentials[i].revokedAt.Some?;
  }

  /** An active credential that expires at `t`. */
  predicate ExpiresAt(c: Credential, now: int, t: int)
  {
    IsActive(c, now) && c.expiresAt == Some(t)
  }

  lemma {:induction false} NextExpiryIsLeast(credentials: seq<Credential>, now: int)
    ensures var next := NextExpiry(credentials, now);
            && (next.Some? ==> exists c :: c in credentials && ExpiresAt(c, now, next.value))
            && (forall c :: c in credentials && IsActive(c, now) && c.expiresAt.Some? ==>
                  next.Some? && next.value <= c.expiresAt.value)
  {
    if credentials != [] {
      NextExpiryIsLeast(credentials[1..], now);
      assert credentials == [credentials[0]] + credentials[1..];
      var next, rest := NextExpiry(credentials, now), NextExpiry(credentials[1..], now);
      if next.Some? {
        if next == rest {
          var c :| c in credentials[1..] && ExpiresAt(c, now, rest.value);
          assert c in credentials && ExpiresAt(c, now, next.value);
        } else {
          assert credentials[0] in credentials && ExpiresAt(credentials[0], now, next.value);
        }
      }
    }
  }

  ghost predicate SomeActive(credentials: seq<Credential>, now: int)
  {
    exists c :: c in credentials && IsActive(c, now)
  }

  ghost predicate SomeExpiring(credentials: seq<Credential>, now: int, deadline: int)
  {
    exists c :: c in credentials && IsActive(c, now) && c.expiresAt.Some? && c.expiresAt.value <= deadline
  }

  ghost predicate SomeLapsed(credentials: seq<Credential>, now: int)
  {
    exists c :: c in credentials && IsExpired(c, now)
  }

  /** What each status says about the credentials. */
  lemma StatusExactly(a: Account, credentials: seq<Credential>, now: int, warning: int)
    ensures var status := Assess(a, credentials, now, warning).status;
            && (status == AccountDisabled <==> !a.enabled)
            && (status == Healthy <==>
                  a.enabled && SomeActive(credentials, now) && !SomeExpiring(credentials, now, now + warning))
            && (status == ExpiringSoon <==> a.enabled && SomeExpiring(credentials, now, now + warning))
            && (status == Expired <==> a.enabled && !SomeActive(credentials, now) && SomeLapsed(credentials, now))
            && (status == NoUsableCredential <==> a.enabled && forall c :: c in credentials ==> c.revokedAt.Some?)
  {
    CountPositive(credentials, Active(now));
    CountPositive(credentials, Lapsed(now));
    NextExpiryIsLeast(credentials, now);
    assert SomeActive(credentials, now) <==> Count(credentials, Active(now)) > 0 by {
      if SomeActive(credentials, now) {
        var c :| c in credentials && IsActive(c, now);
        assert Active(now)(c);
      }
    }
    assert SomeLapsed(credentials, now) <==> Count(credentials, Lapsed(now)) > 0 by {
      if SomeLapsed(credentials, now) {
        var c :| c in credentials && IsExpired(c, now);
        assert Lapsed(now)(c);
      }
    }
    var next := NextExpiry(credentials, now);
    assert SomeExpiring(credentials, now, now + warning) <==> next.Some? && next.value <= now + warning by {
      if next.Some? && next.value <= now + warning {
        var c :| c in credentials && ExpiresAt(c, now, next.value);
      }
    }
    assert (forall c :: c in credentials ==> c.revokedAt.Some?) <==>
             !SomeActive(credentials, now) && !SomeLapsed(credentials, now) by {
      if !SomeActive(credentials, now) && !SomeLapsed(credentials, now) {
        forall c | c in credentials
          ensures c.revokedAt.Some?
        {
          assert !IsActive(c, now) && !IsExpired(c, now);
        }
      }
    }
  }

  // ---- the simple form of the scan --------------------------------------------------

  datatype Query = Query(now: int, warning: int, issuesOnly: bool, prefix: Option<string>)

  predicate Behind(key: string, cursor: Option<string>)
  {
    cursor.None? || (StringLe(cursor.value, key) && key != cursor.value)
  }

  predicate Listed(a: Account, prefix: Option<string>, cursor: Option<string>)
  {
    Behind(a.key, cursor) && (prefix.Some? ==> prefix.value <= a.key)
  }

  /** The accounts with the prefix behind the cursor. */
  function Listing(accounts: seq<Account>, prefix: Option<string>, cursor: Option<string>): seq<Account>
  {
    if accounts == [] then []
    else (if Listed(accounts[0], prefix, cursor) then [accounts[0]] else []) + Listing(accounts[1..], prefix, cursor)
  }

  function CredentialsOf(credentials: seq<Credential>, id: int): seq<Credential>
  {
    if credentials == [] then []
    else (if credentials[0].account == id then [credentials[0]] else []) + CredentialsOf(credentials[1..], id)
  }

  predicate Reported(q: Query, report: Report)
  {
    !q.issuesOnly || report.status != Healthy
  }

  /** The reports of interest on some accounts, in their order. */
  function Reports(accounts: seq<Account>, credentials: seq<Credential>, q: Query): seq<Report>
  {
    if accounts == [] then []
    else
      var report := Assess(accounts[0], CredentialsOf(credentials, accounts[0].id), q.now, q.warning);
      (if Reported(q, report) then [report] else []) + Reports(accounts[1..], credentials, q)
  }

  /** Everything there is to report behind a key. */
  function Everything(
    accounts: seq<Account>, credentials: seq<Credential>, q: Query, cursor: Option<string>): seq<Report>
  {
    Reports(Listing(accounts, q.prefix, cursor), credentials, q)
  }

  function First<T>(s: seq<T>, n: nat): seq<T>
  {
    if |s| <= n then s else s[..n]
  }

  /** Accounts come in the order of their distinct keys. */
  ghost predicate KeyOrdered(accounts: seq<Account>)
  {
    forall i, j :: 0 <= i < j < |accounts| ==>
        StringLe(accounts[i].key, accounts[j].key) && accounts[i].key != accounts[j].key
  }

  // ---- listings ---------------------------------------------------------------------

  lemma {:induction false} ListingMembers(accounts: seq<Account>, prefix: Option<string>, cursor: Option<string>)
    ensures forall a :: a in Listing(accounts, prefix, cursor) <==> a in accounts && Listed(a, prefix, cursor)
  {
    hide Listed;
    if accounts != [] {
      ListingMembers(accounts[1..], prefix, cursor);
      assert accounts == [accounts[0]] + accounts[1..];
    }
  }

  lemma KeyOrderedTail(accounts: seq<Account>)
    requires KeyOrdered(accounts) && accounts != []
    ensures KeyOrdered(accounts[1..])
    ensures forall a :: a in accounts[1..] ==> StringLe(accounts[0].key, a.key) && a.key != accounts[0].key
  {
    assert forall i :: 0 <= i < |accounts[1..]| ==> accounts[1..][i] == accounts[i + 1];
  }

  lemma {:induction false} ListingSame(
    accounts: seq<Account>, prefix: Option<string>, cursor: Option<string>, other: Option<string>)
    requires forall a :: a in accounts ==> (Behind(a.key, cursor) <==> Behind(a.key, other))
    ensures Listing(accounts, prefix, cursor) == Listing(accounts, prefix, other)
  {
    if accounts != [] {
      assert accounts[0] in accounts;
      assert forall a :: a in accounts[1..] ==> a in accounts;
      ListingSame(accounts[1..], prefix, cursor, other);
    }
  }

  lemma BehindMore(a: string, b: string, cursor: Option<string>)
    requires Behind(a, cursor) && Behind(b, Some(a))
    ensures Behind(b, cursor)
  {
    if cursor.Some? {
      StringLeTransitive(cursor.value, a, b);
      StringLeTotal(a, b);
      StringLeTotal(cursor.value, a);
    }
  }

  /** Behind the head of an ordered list, everything is behind its key. */
  lemma AfterHead(accounts: seq<Account>, prefix: Option<string>, cursor: Option<string>)
    requires KeyOrdered(accounts) && accounts != [] && Behind(accounts[0].key, cursor)
    ensures Listing(accounts, prefix, Some(accounts[0].key)) == Listing(accounts[1..], prefix, cursor)
  {
    KeyOrderedTail(accounts);
    forall a | a in accounts[1..]
      ensures Behind(a.key, cursor) && Behind(a.key, Some(accounts[0].key))
    {
      BehindMore(accounts[0].key, a.key, cursor);
    }
    ListingSame(accounts[1..], prefix, cursor, Some(accounts[0].key));
  }

  lemma TailListedBehind(accounts: seq<Account>, prefix: Option<string>, cursor: Option<string>, k: nat)
    requires KeyOrdered(accounts) && accounts != [] && k < |Listing(accounts[1..], prefix, cursor)|
    ensures !Behind(accounts[0].key, Some(Listing(accounts[1..], prefix, cursor)[k].key))
  {
    KeyOrderedTail(accounts);
    ListingMembers(accounts[1..], prefix, cursor);
    var a := Listing(accounts[1..], prefix, cursor)[k];
    assert a in Listing(accounts[1..], prefix, cursor);
    StringLeTotal(accounts[0].key, a.key);
  }

  lemma ListingUnfolds(accounts: seq<Account>, prefix: Option<string>, cursor: Option<string>)
    requires accounts != []
    ensures Listing(accounts, prefix, cursor) ==
              (if Listed(accounts[0], prefix, cursor) then [accounts[0]] else [])
              + Listing(accounts[1..], prefix, cursor)
  {
  }

  /** Listing again from the `k`-th key yields exactly what stands behind it. */
  lemma {:induction false} ListingResumes(
    accounts: seq<Account>, prefix: Option<string>, cursor: Option<string>, k: nat)
    requires KeyOrdered(accounts) && k < |Listing(accounts, prefix, cursor)|
    ensures Listing(accounts, prefix, Some(Listing(accounts, prefix, cursor)[k].key)) ==
              Listing(accounts, prefix, cursor)[k + 1..]
  {
    assert accounts != [];
    hide KeyOrdered, Behind, StringLe, Listing;
    ListingUnfolds(accounts, prefix, cursor);
    KeyOrderedTail(accounts);
    var first := if Listed(accounts[0], prefix, cursor) then [accounts[0]] else [];
    var all, rest := Listing(accounts, prefix, cursor), Listing(accounts[1..], prefix, cursor);
    if k < |first| {
      AfterHead(accounts, prefix, cursor);
    } else {
      var next := Some(rest[k - |first|].key);
      TailListedBehind(accounts, prefix, cursor, k - |first|);
      ListingUnfolds(accounts, prefix, next);
      ListingResumes(accounts[1..], prefix, cursor, k - |first|);
      assert all[k + 1..] == rest[k - |first| + 1..];
    }
  }

  // ---- reports ----------------------------------------------------------------------

  lemma {:induction false} ReportsSplit(a: seq<Account>, b: seq<Account>, credentials: seq<Credential>, q: Query)
    ensures Reports(a + b, credentials, q) == Reports(a, credentials, q) + Reports(b, credentials, q)
  {
    hide Assess, Reported, CredentialsOf;
    if a == [] {
      assert a + b == b;
    } else {
      assert (a + b)[1..] == a[1..] + b;
      ReportsSplit(a[1..], b, credentials, q);
    }
  }

  lemma {:induction false} ReportsMembers(accounts: seq<Account>, credentials: seq<Credential>, q: Query)
    ensures forall x :: x in Reports(accounts, credentials, q) <==>
                        && x.account in accounts && Reported(q, x)
                        && x == Assess(x.account, CredentialsOf(credentials, x.account.id), q.now, q.warning)
  {
    hide Assess, Reported, CredentialsOf;
    if accounts != [] {
      ReportsMembers(accounts[1..], credentials, q);
      assert accounts == [accounts[0]] + accounts[1..];
    }
  }

  lemma {:induction false} CredentialsOfMembers(credentials: seq<Credential>, id: int)
    ensures forall c :: c in CredentialsOf(credentials, id) <==> c in credentials && c.account == id
  {
    if credentials != [] {
      CredentialsOfMembers(credentials[1..], id);
      assert credentials == [credentials[0]] + credentials[1..];
    }
  }

  /** What is reported: every account behind the key with the prefix, with issues only just the unhealthy ones. */
  lemma EverythingExactly(
    accounts: seq<Account>, credentials: seq<Credential>, q: Query, cursor: Option<string>, x: Report)
    ensures x in Everything(accounts, credentials, q, cursor) <==>
              && x.account in accounts && (q.issuesOnly ==> !x.status.Healthy?)
              && (cursor.Some? ==> x.account.key != cursor.value && StringLe(cursor.value, x.account.key))
              && (q.prefix.Some? ==> q.prefix.value <= x.account.key)
              && x == Assess(x.account, CredentialsOf(credentials, x.account.id), q.now, q.warning)
    ensures forall c :: c in CredentialsOf(credentials, x.account.id) <==> c in credentials && c.account == x.account.id
  {
    hide Assess, CredentialsOf;
    ListingMembers(accounts, q.prefix, cursor);
    ReportsMembers(Listing(accounts, q.prefix, cursor), credentials, q);
    CredentialsOfMembers(credentials, x.account.id);
  }

  /** The account a report is about, and what precedes it. */
  lemma {:induction false} ReportedAccount(accounts: seq<Account>, credentials: seq<Credential>, q: Query, k: nat)
    returns (i: nat)
    requires k < |Reports(accounts, credentials, q)|
    ensures i < |accounts| && Reports(accounts, credentials, q)[k].account == accounts[i]
    ensures Reports(accounts[i + 1..], credentials, q) == Reports(accounts, credentials, q)[k + 1..]
  {
    hide Assess, Reported, CredentialsOf;
    var report := Assess(accounts[0], CredentialsOf(credentials, accounts[0].id), q.now, q.warning);
    var all, rest := Reports(accounts, credentials, q), Reports(accounts[1..], credentials, q);
    if Reported(q, report) {
      if k == 0 {
        i := 0;
        assert all[1..] == rest;
      } else {
        i := ReportedAccount(accounts[1..], credentials, q, k - 1);
        assert accounts[1..][i + 1..] == accounts[i + 2..] && all[k + 1..] == rest[k..];
        i := i + 1;
      }
    } else {
      i := ReportedAccount(accounts[1..], credentials, q, k);
      assert accounts[1..][i + 1..] == accounts[i + 2..];
      i := i + 1;
    }
  }

  /** Asking again from the key of the `k`-th report yields exactly the reports behind it. */
  lemma EverythingResumes(
    accounts: seq<Account>, credentials: seq<Credential>, q: Query, cursor: Option<string>, k: nat)
    requires KeyOrdered(accounts) && k < |Everything(accounts, credentials, q, cursor)|
    ensures Everything(accounts, credentials, q, Some(Everything(accounts, credentials, q, cursor)[k].account.key))
            == Everything(accounts, credentials, q, cursor)[k + 1..]
  {
    var listing := Listing(accounts, q.prefix, cursor);
    var i := ReportedAccount(listing, credentials, q, k);
    ListingResumes(accounts, q.prefix, cursor, i);
  }

  // ---- successive calls -------------------------------------------------------------

  /** Call after call, each from the last key the one before returned, until one returns nothing. */
  ghost function AllCalls(
    accounts: seq<Account>, credentials: seq<Credential>, q: Query, cursor: Option<string>, limit: nat): seq<Report>
    requires KeyOrdered(accounts) && limit > 0
    decreases |Everything(accounts, credentials, q, cursor)|
  {
    var everything := Everything(accounts, credentials, q, cursor);
    var page := First(everything, limit);
    if page == [] then []
    else
      EverythingResumes(accounts, credentials, q, cursor, |page| - 1);
      page + AllCalls(accounts, credentials, q, Some(page[|page| - 1].account.key), limit)
  }

  /** Whatever the page size, the calls together report everything, each account once. */
  lemma {:induction false} CallsConcatenate(
    accounts: seq<Account>, credentials: seq<Credential>, q: Query, cursor: Option<string>, limit: nat)
    requires KeyOrdered(accounts) && limit > 0
    ensures AllCalls(accounts, credentials, q, cursor, limit) == Everything(accounts, credentials, q, cursor)
    decreases |Everything(accounts, credentials, q, cursor)|
  {
    hide Everything, KeyOrdered;
    var everything := Everything(accounts, credentials, q, cursor);
    var page := First(everything, limit);
    if page != [] {
      EverythingResumes(accounts, credentials, q, cursor, |page| - 1);
      CallsConcatenate(accounts, credentials, q, Some(page[|page| - 1].account.key), limit);
      assert everything == page + everything[|page|..];
    }
  }

  // ---- the loop ---------------------------------------------------------------------

  /** The credentials of a page of accounts, grouped by account. */
  method GroupCredentials(accounts: seq<Account>, credentials: seq<Credential>)
    returns (grouped: map<int, seq<Credential>>)
    ensures forall a :: a in accounts ==> a.id in grouped && grouped[a.id] == CredentialsOf(credentials, a.id)
  {
    grouped := map[];
    for i := 0 to |accounts|
      invariant forall j :: 0 <= j < i ==> accounts[j].id in grouped
      invariant forall id :: id in grouped ==> grouped[id] == []
    {
      grouped := grouped[accounts[i].id := []];
    }
    ghost var ids := grouped.Keys;
    assert credentials[..0] == [];
    for i := 0 to |credentials|
      invariant grouped.Keys == ids
      invariant forall id :: id in grouped ==> grouped[id] == CredentialsOf(credentials[..i], id)
    {
      var c := credentials[i];
      forall id
        ensures CredentialsOf(credentials[..i + 1], id) ==
                  CredentialsOf(credentials[..i], id) + if c.account == id then [c] else []
      {
        assert credentials[..i + 1] == credentials[..i] + [c];
        CredentialsOfAppend(credentials[..i], c, id);
      }
      if c.account in grouped {
        grouped := grouped[c.account := grouped[c.account] + [c]];
      }
    }
    assert credentials[..|credentials|] == credentials;
  }

  lemma {:induction false} CredentialsOfAppend(credentials: seq<Credential>, c: Credential, id: int)
    ensures CredentialsOf(credentials + [c], id) == CredentialsOf(credentials, id) + if c.account == id then [c] else []
  {
    if credentials == [] {
      assert [] + [c] == [c] && [c][1..] == [];
    } else {
      var first := if credentials[0].account == id then [credentials[0]] else [];
      var last := if c.account == id then [c] else [];
      assert (credentials + [c])[1..] == credentials[1..] + [c];
      CredentialsOfAppend(credentials[1..], c, id);
      assert CredentialsOf(credentials + [c], id) == first + CredentialsOf(credentials[1..] + [c], id);
      assert first + (CredentialsOf(credentials[1..], id) + last) == first + CredentialsOf(credentials[1..], id) + last;
    }
  }

  /** One page of accounts; stops as soon as the limit is reached. */
  method ScanPage(page: seq<Account>, credentials: seq<Credential>, q: Query, limit: nat, results0: seq<Report>)
    returns (results: seq<Report>)
    requires |results0| < limit
    ensures results == First(results0 + Reports(page, credentials, q), limit)
  {
    hide Assess, Reported, CredentialsOf;
    var grouped := GroupCredentials(page, credentials);
    results := results0;
    assert page[..0] == [];
    for i := 0 to |page|
      invariant |results| < limit
      invariant results == results0 + Reports(page[..i], credentials, q)
    {
      assert page[i] in page;
      var report := Assess(page[i], grouped[page[i].id], q.now, q.warning);
      NextReport(page, i, credentials, q);
      if Reported(q, report) {
        results := results + [report];
        if |results| == limit {
          return;
        }
      }
    }
    assert page[..|page|] == page;
  }

  lemma NextReport(page: seq<Account>, i: nat, credentials: seq<Credential>, q: Query)
    requires i < |page|
    ensures var report := Assess(page[i], CredentialsOf(credentials, page[i].id), q.now, q.warning);
            Reports(page[..i + 1], credentials, q) ==
              Reports(page[..i], credentials, q) + if Reported(q, report) then [report] else []
    ensures Reports(page[..i + 1], credentials, q) <= Reports(page, credentials, q)
  {
    assert page[..i + 1] == page[..i] + [page[i]] && [page[i]][1..] == [];
    ReportsSplit(page[..i], [page[i]], credentials, q);
    assert page == page[..i + 1] + page[i + 1..];
    ReportsSplit(page[..i + 1], page[i + 1..], credentials, q);
  }

  /** What one more page of accounts contributes. */
  lemma PageOfEverything(accounts: seq<Account>, credentials: seq<Credential>, q: Query, cursor: Option<string>)
    requires KeyOrdered(accounts)
    ensures var listing := Listing(accounts, q.prefix, cursor);
            var page := First(listing, SCAN_PAGE);
            && (|page| < SCAN_PAGE ==> Everything(accounts, credentials, q, cursor) == Reports(page, credentials, q))
            && (page != [] ==> var next := Some(page[|page| - 1].key);
                  && Everything(accounts, credentials, q, cursor)
                     == Reports(page, credentials, q) + Everything(accounts, credentials, q, next)
                  && |Listing(accounts, q.prefix, next)| < |listing|)
  {
    hide KeyOrdered;
    var listing := Listing(accounts, q.prefix, cursor);
    var page := First(listing, SCAN_PAGE);
    if page != [] {
      ListingResumes(accounts, q.prefix, cursor, |page| - 1);
      assert listing == page + listing[|page|..];
      ReportsSplit(page, listing[|page|..], credentials, q);
    }
  }

  datatype ScanError = WarningNotPositive | LimitNotPositive

  /** `list_credential_readiness`: the first `limit` reports behind the key, however many accounts are skipped. */
  method ListCredentialReadiness(
    accounts: seq<Account>, credentials: seq<Credential>, q: Query, after: Option<string>, limit: int)
    returns (r: Result<seq<Report>, ScanError>)
    requires KeyOrdered(accounts)
    ensures r == if q.warning <= 0 then Err(WarningNotPositive)
                 else if limit <= 0 then Err(LimitNotPositive)
                 else Ok(First(Everything(accounts, credentials, q, after), limit))
  {
    hide KeyOrdered, Listing, Reports, Everything;
    if q.warning <= 0 {
      return Err(WarningNotPositive);
    }
    if limit <= 0 {
      return Err(LimitNotPositive);
    }
    var results, cursor := [], after;
    ghost var everything := Everything(accounts, credentials, q, after);
    while |results| < limit
      invariant |results| < limit && everything == results + Everything(accounts, credentials, q, cursor)
      decreases |Listing(accounts, q.prefix, cursor)|
    {
      var page := First(Listing(accounts, q.prefix, cursor), SCAN_PAGE);
      PageOfEverything(accounts, credentials, q, cursor);
      if page == [] {
        assert results + Reports([], credentials, q) == results by { NoReports(credentials, q); }
        break;
      }
      var before := results;
      results := ScanPage(page, credentials, q, limit, results);
      ghost var seen := before + Reports(page, credentials, q);
      assert everything == seen + Everything(accounts, credentials, q, Some(page[|page| - 1].key));
      if |results| == limit {
        assert results == seen[..limit] == everything[..limit];
        return Ok(results);
      }
      if |page| < SCAN_PAGE {
        break;
      }
      cursor := Some(page[|page| - 1].key);
    }
    return Ok(results);
  }

  lemma NoReports(credentials: seq<Credential>, q: Query)
    ensures Reports([], credentials, q) == []
  {
  }
}
