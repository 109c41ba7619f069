/**
 * The likes table. A "nope" may carry a cancellation timestamp only when its
 * source user holds an active subscription at that instant, the business
 * rule the database enforces with a trigger.
 */
module Likes {
  import opened Wrappers
  import opened Calendar
  import opened Pools
  import opened ActiveSub

  /**
   * The random choices of one iteration: the two positions of
   * `random.sample(users, 2)`, whether `random.choice(["like", "nope"])`
   * gave "nope", whether `random.random() < 0.2` fired, the candidate
   * cancellation instant drawn when it did, and the creation instant.
   */
  datatype LikeDraw = LikeDraw(
    srcIdx: int, tgtIdx: int, pickedNope: bool, cancelFires: bool,
    candidate: Timestamp, createdAt: Timestamp)
  {
    /** What `random.sample(users, 2)` returns: two different positions of the pool. */
    predicate SamplesTwo(poolSize: nat) {
      0 <= srcIdx < poolSize && 0 <= tgtIdx < poolSize && srcIdx != tgtIdx
    }
  }

  /** A written row: `source_user_id, target_user_id, value, created_at, canceled_at`. */
  datatype LikeRow = LikeRow(src: nat, tgt: nat, value: string, createdAt: string, canceledAt: string)

  /**
   * The rule checked on a written row alone: a non-empty cancellation is on
   * a "nope" and names an instant at which the source user is active.
   */
  predicate CancellationAllowed(subs: seq<Subscription>, row: LikeRow) {
    row.canceledAt != "" ==>
      row.value == "nope" &&
      match ParseIso(row.canceledAt)
      case Some(ts) => HasActiveSub(subs, row.src, ts)
      case None => false
  }

  /** The row one iteration writes for draw `d`. */
  predicate WrittenFrom(users: seq<nat>, subs: seq<Subscription>, d: LikeDraw, row: LikeRow)
    requires d.SamplesTwo(|users|)
  {
    row.src == users[d.srcIdx] && row.tgt == users[d.tgtIdx] &&
    row.value == (if d.pickedNope then "nope" else "like") &&
    row.createdAt == Iso(d.createdAt) &&
    row.canceledAt == (if row.value == "nope" && d.cancelFires && HasActiveSub(subs, row.src, d.candidate)
                       then Iso(d.candidate) else "")
  }

  /**
   * Every written row: source and target are two different users of the
   * pool; the cancellation is present exactly when the value is "nope", the
   * draw fired and the source user is active at the candidate instant; and
   * then it is that instant, so the row obeys the cancellation rule.
   */
  lemma WrittenRowFacts(users: seq<nat>, subs: seq<Subscription>, d: LikeDraw, row: LikeRow)
    requires Distinct(users) && d.SamplesTwo(|users|) && WrittenFrom(users, subs, d, row)
    ensures row.src != row.tgt && row.src in users && row.tgt in users
    ensures row.canceledAt != "" <==> row.value == "nope" && d.cancelFires && HasActiveSub(subs, row.src, d.candidate)
    ensures row.canceledAt != "" ==> row.canceledAt == Iso(d.candidate)
    ensures CancellationAllowed(subs, row)
  {
    if row.canceledAt != "" {
      ParseIsoRoundTrip(d.candidate);
    }
  }

  /** The loop of `range(400)`, checking cancellations against the stored subscriptions. */
  method GenerateLikes(users: seq<nat>, subs: seq<Subscription>, draws: seq<LikeDraw>) returns (rows: seq<LikeRow>)
    requires Distinct(users)
    requires |draws| == LikeCount
    requires forall i :: 0 <= i < |draws| ==> draws[i].SamplesTwo(|users|)
    ensures |rows| == |draws|
    ensures forall i :: 0 <= i < |rows| ==> WrittenFrom(users, subs, draws[i], rows[i])
    ensures forall i :: 0 <= i < |rows| ==> rows[i].src != rows[i].tgt && rows[i].src in users && rows[i].tgt in users
    ensures forall i :: 0 <= i < |rows| ==> CancellationAllowed(subs, rows[i])
  {
    rows := [];
    var n := 0;
    while n < |draws|
      invariant 0 <= n <= |draws| && |rows| == n
      invariant forall i :: 0 <= i < n ==> WrittenFrom(users, subs, draws[i], rows[i])
    {
      var d := draws[n];
      var src, tgt := users[d.srcIdx], users[d.tgtIdx];
      var value := if d.pickedNope then "nope" else "like";
      var cancel := "";
      if value == "nope" && d.cancelFires {
        var ts := d.candidate;
        if HasActiveSub(subs, src, ts) {
          cancel := Iso(ts);
        }
      }
      rows := rows + [LikeRow(src, tgt, value, Iso(d.createdAt), cancel)];
      n := n + 1;
    }
    forall i | 0 <= i < |rows|
      ensures rows[i].src != rows[i].tgt && rows[i].src in users && rows[i].tgt in users
      ensures CancellationAllowed(subs, rows[i])
    {
      WrittenRowFacts(users, subs, draws[i], rows[i]);
    }
  }

  /** A row whose cancellation is empty is a "like", or the draw did not fire, or the user was inactive then. */
  lemma EmptyCancellation(users: seq<nat>, subs: seq<Subscription>, d: LikeDraw, row: LikeRow)
    requires d.SamplesTwo(|users|) && WrittenFrom(users, subs, d, row)
    requires row.canceledAt == ""
    ensures row.value == "like" || !d.cancelFires || !ActiveOn(subs, row.src, d.candidate.Date())
  {
  }
}
