/**
 * The social-account table: every user receives a sample of one to seven
 * distinct providers, one account per provider, and the accounts are
 * numbered consecutively from 1 through the counter `acc`, each id appended
 * to `sa_ids`.
 */
module SocialAccounts {
  import opened Pools
  import opened ExternalUid

  /** `PROVIDERS`, with the exact casing of the database enumeration. */
  const Providers: seq<string> := ["facebook", "instagram", "X", "linkedin", "ticketmaster", "snapchat", "tiktok"]

  /** A position in `Providers`, as `random.sample(PROVIDERS, ...)` picks them. */
  type ProviderIndex = i: int | 0 <= i < 7

  /** No provider is listed twice. */
  lemma ProvidersDistinct()
    ensures Distinct(Providers)
  {
  }

  /** A written row: `user_id, provider, external_uid`. */
  datatype SocialAccount = SocialAccount(uid: nat, provider: string, externalUid: string)

  function Account(uid: nat, p: ProviderIndex, d: UidDraw, slugify: string -> string): SocialAccount {
    SocialAccount(uid, Providers[p], GenExternalUid(Providers[p], d, slugify))
  }

  /** The accounts written for one user, one per sampled provider, in sample order. */
  function UserAccounts(uid: nat, picks: seq<ProviderIndex>, ds: seq<UidDraw>, slugify: string -> string): seq<SocialAccount>
    requires |ds| == |picks|
  {
    seq(|picks|, j requires 0 <= j < |picks| => Account(uid, picks[j], ds[j], slugify))
  }

  lemma UserAccountsSnoc(uid: nat, picks: seq<ProviderIndex>, ds: seq<UidDraw>, slugify: string -> string, j: nat)
    requires |ds| == |picks| && j < |picks|
    ensures UserAccounts(uid, picks[..j + 1], ds[..j + 1], slugify)
      == UserAccounts(uid, picks[..j], ds[..j], slugify) + [Account(uid, picks[j], ds[j], slugify)]
  {
  }

  /** Shapes of the random input: one provider sample and one uid draw per sampled provider, per user. */
  predicate Shaped(users: seq<nat>, picks: seq<seq<ProviderIndex>>, draws: seq<seq<UidDraw>>) {
    |picks| == |users| && |draws| == |users| &&
    forall i :: 0 <= i < |users| ==> |draws[i]| == |picks[i]|
  }

  /** The accounts written for the users in order; each belongs to a listed user and names a listed provider. */
  function AllAccounts(users: seq<nat>, picks: seq<seq<ProviderIndex>>, draws: seq<seq<UidDraw>>, slugify: string -> string): (accounts: seq<SocialAccount>)
    requires Shaped(users, picks, draws)
    ensures forall k :: 0 <= k < |accounts| ==> accounts[k].uid in users && accounts[k].provider in Providers
  {
    if users == [] then []
    else
      var n := |users| - 1;
      var before := AllAccounts(users[..n], picks[..n], draws[..n], slugify);
      var block := UserAccounts(users[n], picks[n], draws[n], slugify);
      assert forall k :: 0 <= k < |before| ==> before[k].uid in users by {
        forall k | 0 <= k < |before| ensures before[k].uid in users {
          var i :| 0 <= i < n && users[..n][i] == before[k].uid;
          assert users[i] == before[k].uid;
        }
      }
      before + block
  }

  lemma AllAccountsSnoc(users: seq<nat>, picks: seq<seq<ProviderIndex>>, draws: seq<seq<UidDraw>>, slugify: string -> string, i: nat)
    requires Shaped(users, picks, draws) && i < |users|
    ensures Shaped(users[..i], picks[..i], draws[..i]) && Shaped(users[..i + 1], picks[..i + 1], draws[..i + 1])
    ensures AllAccounts(users[..i + 1], picks[..i + 1], draws[..i + 1], slugify)
      == AllAccounts(users[..i], picks[..i], draws[..i], slugify) + UserAccounts(users[i], picks[i], draws[i], slugify)
  {
    assert users[..i + 1][..i] == users[..i] && picks[..i + 1][..i] == picks[..i] && draws[..i + 1][..i] == draws[..i];
  }

  /** The providers of `uid`'s accounts, in table order. */
  function ProvidersOf(accounts: seq<SocialAccount>, uid: nat): seq<string> {
    if accounts == [] then []
    else
      var n := |accounts| - 1;
      ProvidersOf(accounts[..n], uid) + (if accounts[n].uid == uid then [accounts[n].provider] else [])
  }

  lemma {:induction false} ProvidersOfAppend(a: seq<SocialAccount>, b: seq<SocialAccount>, uid: nat)
    ensures ProvidersOf(a + b, uid) == ProvidersOf(a, uid) + ProvidersOf(b, uid)
  {
    if b == [] {
      assert a + b == a;
    } else {
      var n := |b| - 1;
      assert (a + b)[..|a| + n] == a + b[..n];
      ProvidersOfAppend(a, b[..n], uid);
    }
  }

  /** A block of accounts of user `u` gives `u` its providers in order, and gives nothing to anybody else. */
  lemma {:induction false} ProvidersOfBlock(block: seq<SocialAccount>, u: nat, provs: seq<string>, uid: nat)
    requires |block| == |provs|
    requires forall j :: 0 <= j < |block| ==> block[j].uid == u && block[j].provider == provs[j]
    ensures ProvidersOf(block, uid) == if u == uid then provs else []
  {
    if block != [] {
      var n := |block| - 1;
      ProvidersOfBlock(block[..n], u, provs[..n], uid);
      if u == uid {
        assert provs == provs[..n] + [provs[n]];
      }
    }
  }

  /** The providers one user's block gives that user: the sampled ones, in order; nothing to anybody else. */
  lemma ProvidersOfUserAccounts(u: nat, picks: seq<ProviderIndex>, ds: seq<UidDraw>, slugify: string -> string, uid: nat)
    requires |ds| == |picks|
    ensures ProvidersOf(UserAccounts(u, picks, ds, slugify), uid) == if u == uid then Pick(Providers, picks) else []
  {
    ProvidersOfBlock(UserAccounts(u, picks, ds, slugify), u, Pick(Providers, picks), uid);
  }

  /** With distinct users, the accounts of user `users[i]` carry exactly the providers sampled for that user. */
  lemma {:induction false} ProvidersOfUser(users: seq<nat>, picks: seq<seq<ProviderIndex>>, draws: seq<seq<UidDraw>>, slugify: string -> string, i: nat)
    requires Shaped(users, picks, draws) && Distinct(users) && i < |users|
    ensures ProvidersOf(AllAccounts(users, picks, draws, slugify), users[i]) == Pick(Providers, picks[i])
  {
    var n := |users| - 1;
    var us, ps, ds := users[..n], picks[..n], draws[..n];
    var uid := users[i];
    ProvidersOfLastUser(users, picks, draws, slugify, uid);
    if i < n {
      assert us[i] == uid && users[n] != uid;
      assert Distinct(us);
      ProvidersOfUser(us, ps, ds, slugify, i);
    } else {
      assert uid !in us;
      NoAccountsOfOthers(us, ps, ds, slugify, uid);
    }
  }

  /** A user outside the list receives no account. */
  lemma {:induction false} NoAccountsOfOthers(users: seq<nat>, picks: seq<seq<ProviderIndex>>, draws: seq<seq<UidDraw>>, slugify: string -> string, uid: nat)
    requires Shaped(users, picks, draws) && uid !in users
    ensures ProvidersOf(AllAccounts(users, picks, draws, slugify), uid) == []
  {
    if users != [] {
      var n := |users| - 1;
      ProvidersOfLastUser(users, picks, draws, slugify, uid);
      NoAccountsOfOthers(users[..n], picks[..n], draws[..n], slugify, uid);
    }
  }

  /** The providers any id gets: those from the users before the last, then those from the last user's block. */
  lemma ProvidersOfLastUser(users: seq<nat>, picks: seq<seq<ProviderIndex>>, draws: seq<seq<UidDraw>>, slugify: string -> string, uid: nat)
    requires Shaped(users, picks, draws) && users != []
    ensures Shaped(users[..|users| - 1], picks[..|users| - 1], draws[..|users| - 1])
    ensures var n := |users| - 1;
      ProvidersOf(AllAccounts(users, picks, draws, slugify), uid)
      == ProvidersOf(AllAccounts(users[..n], picks[..n], draws[..n], slugify), uid)
         + (if users[n] == uid then Pick(Providers, picks[n]) else [])
  {
    var n := |users| - 1;
    ProvidersOfAppend(AllAccounts(users[..n], picks[..n], draws[..n], slugify), UserAccounts(users[n], picks[n], draws[n], slugify), uid);
    ProvidersOfUserAccounts(users[n], picks[n], draws[n], slugify, uid);
  }

  /** Each user receives between 1 and `len(PROVIDERS)` accounts, with distinct providers. */
  lemma ProvidersPerUser(users: seq<nat>, picks: seq<seq<ProviderIndex>>, draws: seq<seq<UidDraw>>, slugify: string -> string, i: nat)
    requires Shaped(users, picks, draws) && Distinct(users) && i < |users|
    requires 1 <= |picks[i]| <= |Providers| && IsSample(picks[i], |Providers|, |picks[i]|)
    ensures var provs := ProvidersOf(AllAccounts(users, picks, draws, slugify), users[i]);
      1 <= |provs| <= |Providers| && Distinct(provs) && forall p :: p in provs ==> p in Providers
  {
    ProvidersOfUser(users, picks, draws, slugify, i);
    ProvidersDistinct();
    SampleDistinct(Providers, picks[i], |picks[i]|);
  }

  /**
   * The loop over the users: for each sampled provider, a row is written,
   * `acc` is appended to `sa_ids` and then incremented.
   */
  method GenerateSocialAccounts(users: seq<nat>, picks: seq<seq<ProviderIndex>>, draws: seq<seq<UidDraw>>, slugify: string -> string)
    returns (accounts: seq<SocialAccount>, saIds: seq<nat>, acc: nat)
    requires Shaped(users, picks, draws)
    ensures accounts == AllAccounts(users, picks, draws, slugify)
    ensures acc == |accounts| + 1
    ensures saIds == Pool(acc - 1)
  {
    accounts, saIds, acc := [], [], 1;
    var i := 0;
    while i < |users|
      invariant 0 <= i <= |users|
      invariant accounts == AllAccounts(users[..i], picks[..i], draws[..i], slugify)
      invariant acc == |accounts| + 1 && saIds == Pool(acc - 1)
    {
      var uid := users[i];
      ghost var before := accounts;
      var j := 0;
      while j < |picks[i]|
        invariant 0 <= j <= |picks[i]|
        invariant accounts == before + UserAccounts(uid, picks[i][..j], draws[i][..j], slugify)
        invariant acc == |accounts| + 1 && saIds == Pool(acc - 1)
      {
        var prov := picks[i][j];
        UserAccountsSnoc(uid, picks[i], draws[i], slugify, j);
        accounts := accounts + [Account(uid, prov, draws[i][j], slugify)];
        saIds := saIds + [acc];
        acc := acc + 1;
        j := j + 1;
      }
      assert picks[i][..j] == picks[i] && draws[i][..j] == draws[i];
      AllAccountsSnoc(users, picks, draws, slugify, i);
      i := i + 1;
    }
    assert users[..i] == users && picks[..i] == picks && draws[..i] == draws;
  }
}
