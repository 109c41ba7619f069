/**
 * The v2 generation pass restricted to the tables with checkable rules, in
 * the script's order: the user pool, subscriptions, social accounts, likes.
 * The likes are checked against the subscriptions generated before them.
 */
module Fixtures {
  import opened Wrappers
  import opened Pools
  import opened ActiveSub
  import opened Subscriptions
  import opened ExternalUid
  import opened SocialAccounts
  import opened Likes

  /** Every random choice the pass makes, in the shapes the libraries return them. */
  datatype Randomness = Randomness(
    subscriptionSample: seq<int>, subscriptionDraws: seq<SubscriptionDraw>,
    providerPicks: seq<seq<ProviderIndex>>, uidDraws: seq<seq<UidDraw>>,
    likeDraws: seq<LikeDraw>)
  {
    predicate WellFormed() {
      IsSample(subscriptionSample, NUsers, NUsers / 2) &&
      |subscriptionDraws| == NUsers / 2 &&
      (forall i :: 0 <= i < |subscriptionDraws| && !subscriptionDraws[i].openEnded ==>
        subscriptionDraws[i].start <= subscriptionDraws[i].end) &&
      |providerPicks| == NUsers && |uidDraws| == NUsers &&
      (forall i :: 0 <= i < NUsers ==>
        1 <= |providerPicks[i]| <= |Providers| && IsSample(providerPicks[i], |Providers|, |providerPicks[i]|) &&
        |uidDraws[i]| == |providerPicks[i]|) &&
      |likeDraws| == LikeCount &&
      forall i :: 0 <= i < LikeCount ==> likeDraws[i].SamplesTwo(NUsers)
    }
  }

  method Generate(r: Randomness, slugify: string -> string)
    returns (subscriptions: seq<Subscription>, subscriptionRows: seq<SubscriptionRow>,
             accounts: seq<SocialAccount>, saIds: seq<nat>, likes: seq<LikeRow>)
    requires r.WellFormed()
    ensures |subscriptions| == |subscriptionRows| == NUsers / 2
    ensures forall i :: 0 <= i < |subscriptionRows| ==> ParseRow(subscriptionRows[i]) == Some(subscriptions[i])
    ensures forall i :: 0 <= i < |subscriptions| ==>
      1 <= subscriptions[i].uid <= NUsers &&
      (subscriptions[i].end.Some? ==> subscriptions[i].start <= subscriptions[i].end.value)
    ensures forall i, j :: 0 <= i < j < |subscriptions| ==> subscriptions[i].uid != subscriptions[j].uid
    ensures saIds == Pool(|accounts|)
    ensures forall uid :: 1 <= uid <= NUsers ==>
      1 <= |ProvidersOf(accounts, uid)| <= |Providers| && Distinct(ProvidersOf(accounts, uid))
    ensures |likes| == LikeCount
    ensures forall i :: 0 <= i < |likes| ==>
      likes[i].src != likes[i].tgt && 1 <= likes[i].src <= NUsers && 1 <= likes[i].tgt <= NUsers
    ensures forall i :: 0 <= i < |likes| ==> CancellationAllowed(subscriptions, likes[i])
  {
    var users := Pool(NUsers);
    subscriptions, subscriptionRows := GenerateSubscriptions(users, r.subscriptionSample, r.subscriptionDraws);
    var acc;
    accounts, saIds, acc := GenerateSocialAccounts(users, r.providerPicks, r.uidDraws, slugify);
    forall uid | 1 <= uid <= NUsers
      ensures 1 <= |ProvidersOf(accounts, uid)| <= |Providers| && Distinct(ProvidersOf(accounts, uid))
    {
      assert users[uid - 1] == uid;
      ProvidersPerUser(users, r.providerPicks, r.uidDraws, slugify, uid - 1);
    }
    likes := GenerateLikes(users, subscriptions, r.likeDraws);
  }
}
