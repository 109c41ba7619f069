/**
 * The subscription table: half of the users, sampled without repetition,
 * each receive one subscription; the tuple is both written as a row and
 * kept for the active-subscription check.
 */
module Subscriptions {
  import opened Wrappers
  import opened Calendar
  import Decimal
  import opened Pools
  import opened ActiveSub

  /**
   * The random choices of one iteration: the start date, whether
   * `random.random() < 0.3` fired (no end date), and the end date drawn
   * otherwise.
   */
  datatype SubscriptionDraw = SubscriptionDraw(start: Day, openEnded: bool, end: Day)

  /** A written row: `user_id, start_date, end_date`, all text. */
  datatype SubscriptionRow = SubscriptionRow(userId: string, startDate: string, endDate: string)

  /** `[uid, start, end or ""]` */
  function WriteRow(s: Subscription): SubscriptionRow {
    SubscriptionRow(
      Decimal.NatToString(s.uid),
      DateText(s.start),
      match s.end case None => "" case Some(e) => DateText(e))
  }

  /** Reads a row back into the tuple it stands for; an empty end cell is an absent end. */
  function ParseRow(r: SubscriptionRow): Option<Subscription> {
    match (Decimal.ParseNat(r.userId), ParseDate(r.startDate))
    case (Some(uid), Some(start)) =>
      if r.endDate == "" then Some(Subscription(uid, start, None))
      else (match ParseDate(r.endDate)
            case Some(e) => Some(Subscription(uid, start, Some(e)))
            case None => None)
    case _ => None
  }

  /** A written row holds exactly the tuple that was kept, `None` written as "". */
  lemma RowRoundTrip(s: Subscription)
    ensures ParseRow(WriteRow(s)) == Some(s)
    ensures WriteRow(s).endDate == "" <==> s.end.None?
  {
    Decimal.ParseRendering(s.uid);
    ParseDateText(s.start);
    if s.end.Some? {
      ParseDateText(s.end.value);
    }
  }

  /** The tuple one iteration keeps. */
  function Drawn(uid: nat, d: SubscriptionDraw): Subscription {
    Subscription(uid, d.start, if d.openEnded then None else Some(d.end))
  }

  /**
   * The loop over `random.sample(users, k=N_USERS//2)`, given as the sampled
   * positions. `fake.date_between(start, ...)` never returns a date before
   * `start`; that is the last precondition, for the draws that have an end.
   */
  method GenerateSubscriptions(users: seq<nat>, sample: seq<int>, draws: seq<SubscriptionDraw>)
    returns (subscriptions: seq<Subscription>, rows: seq<SubscriptionRow>)
    requires Distinct(users)
    requires IsSample(sample, |users|, |users| / 2)
    requires |draws| == |sample|
    requires forall i :: 0 <= i < |draws| && !draws[i].openEnded ==> draws[i].start <= draws[i].end
    ensures |subscriptions| == |rows| == |users| / 2
    ensures forall i :: 0 <= i < |subscriptions| ==> subscriptions[i] == Drawn(users[sample[i]], draws[i])
    ensures forall i :: 0 <= i < |rows| ==> rows[i] == WriteRow(subscriptions[i])
    ensures forall i :: 0 <= i < |rows| ==> ParseRow(rows[i]) == Some(subscriptions[i])
    ensures forall i :: 0 <= i < |rows| ==> (rows[i].endDate == "" <==> subscriptions[i].end.None?)
    ensures forall i, j :: 0 <= i < j < |subscriptions| ==> subscriptions[i].uid != subscriptions[j].uid
    ensures forall i :: 0 <= i < |subscriptions| ==> subscriptions[i].uid in users
    ensures forall i :: 0 <= i < |subscriptions| && subscriptions[i].end.Some? ==>
      subscriptions[i].start <= subscriptions[i].end.value
  {
    subscriptions, rows := [], [];
    var n := 0;
    while n < |sample|
      invariant 0 <= n <= |sample|
      invariant |subscriptions| == |rows| == n
      invariant forall i :: 0 <= i < n ==> subscriptions[i] == Drawn(users[sample[i]], draws[i])
      invariant forall i :: 0 <= i < n ==> rows[i] == WriteRow(subscriptions[i])
    {
      var uid := users[sample[n]];
      var d := draws[n];
      var end := if d.openEnded then None else Some(d.end);
      var s := Subscription(uid, d.start, end);
      rows := rows + [WriteRow(s)];
      subscriptions := subscriptions + [s];
      n := n + 1;
    }
    forall i | 0 <= i < |rows|
      ensures ParseRow(rows[i]) == Some(subscriptions[i])
      ensures rows[i].endDate == "" <==> subscriptions[i].end.None?
    {
      RowRoundTrip(subscriptions[i]);
    }
  }
}
