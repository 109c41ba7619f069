/**
 * Subscriptions as the script keeps them, and the check that decides whether
 * a user holds an active subscription at an instant (`has_active_sub`).
 * Windows may overlap and a user may hold several: activity is the union of
 * that user's windows.
 */
module ActiveSub {
  import opened Wrappers
  import opened Calendar

  /** One `(uid, start, end)` tuple; an absent end is an open-ended subscription. */
  datatype Subscription = Subscription(uid: nat, start: Day, end: Option<Day>) {
    function AsWindow(): Window {
      Window(start, end)
    }
  }

  /** The `(start, end)` pair the check scans. */
  datatype Window = Window(start: Day, end: Option<Day>) {
    /** `s <= d and (e is None or d <= e)` */
    predicate Covers(d: Day) {
      start <= d && (end.None? || d <= end.value)
    }
  }

  /** `[(s[1], s[2]) for s in subscriptions if s[0] == uid]` */
  function WindowsOf(subs: seq<Subscription>, uid: nat): (ws: seq<Window>)
    ensures forall k :: 0 <= k < |ws| ==> Subscription(uid, ws[k].start, ws[k].end) in subs
    ensures forall i :: 0 <= i < |subs| && subs[i].uid == uid ==> subs[i].AsWindow() in ws
  {
    if subs == [] then []
    else if subs[0].uid == uid then [subs[0].AsWindow()] + WindowsOf(subs[1..], uid)
    else WindowsOf(subs[1..], uid)
  }

  /** The scan: true as soon as one window covers the date, false at the end. */
  function AnyCovers(ws: seq<Window>, d: Day): (found: bool)
    ensures found <==> exists k :: 0 <= k < |ws| && ws[k].Covers(d)
  {
    if ws == [] then false
    else if ws[0].Covers(d) then true
    else AnyCovers(ws[1..], d)
  }

  /** `has_active_sub(uid, ts)` over the accumulated subscriptions. */
  function HasActiveSub(subs: seq<Subscription>, uid: nat, ts: Timestamp): (active: bool)
    ensures active <==> ActiveOn(subs, uid, ts.Date())
  {
    AnyCovers(WindowsOf(subs, uid), ts.Date())
  }

  /** Reference meaning: some stored tuple of `uid` covers day `d`. */
  ghost predicate ActiveOn(subs: seq<Subscription>, uid: nat, d: Day) {
    exists i :: 0 <= i < |subs| && subs[i].uid == uid && subs[i].AsWindow().Covers(d)
  }

  lemma {:induction false} WindowsOfAppend(a: seq<Subscription>, b: seq<Subscription>, uid: nat)
    ensures WindowsOf(a + b, uid) == WindowsOf(a, uid) + WindowsOf(b, uid)
  {
    if a == [] {
      assert a + b == b;
    } else {
      assert (a + b)[0] == a[0] && (a + b)[1..] == a[1..] + b;
      WindowsOfAppend(a[1..], b, uid);
    }
  }

  lemma {:induction false} AnyCoversAppend(a: seq<Window>, b: seq<Window>, d: Day)
    ensures AnyCovers(a + b, d) == (AnyCovers(a, d) || AnyCovers(b, d))
  {
    if a == [] {
      assert a + b == b;
    } else {
      assert (a + b)[0] == a[0] && (a + b)[1..] == a[1..] + b;
      AnyCoversAppend(a[1..], b, d);
    }
  }

  /** Activity over two lists of tuples is the union of activity over each. */
  lemma ActivityIsUnion(a: seq<Subscription>, b: seq<Subscription>, uid: nat, ts: Timestamp)
    ensures HasActiveSub(a + b, uid, ts) == (HasActiveSub(a, uid, ts) || HasActiveSub(b, uid, ts))
  {
    WindowsOfAppend(a, b, uid);
    AnyCoversAppend(WindowsOf(a, uid), WindowsOf(b, uid), ts.Date());
  }

  /** Any reordering of the stored tuples gives the same answer. */
  lemma OrderIrrelevant(a: seq<Subscription>, b: seq<Subscription>, uid: nat, ts: Timestamp)
    requires multiset(a) == multiset(b)
    ensures HasActiveSub(a, uid, ts) == HasActiveSub(b, uid, ts)
  {
    var d := ts.Date();
    if ActiveOn(a, uid, d) {
      var i :| 0 <= i < |a| && a[i].uid == uid && a[i].AsWindow().Covers(d);
      assert a[i] in multiset(b);
      var j :| 0 <= j < |b| && b[j] == a[i];
    }
    if ActiveOn(b, uid, d) {
      var j :| 0 <= j < |b| && b[j].uid == uid && b[j].AsWindow().Covers(d);
      assert b[j] in multiset(a);
      var i :| 0 <= i < |a| && a[i] == b[j];
    }
  }

  /** A tuple of another user, wherever it is stored, never changes the answer. */
  lemma OtherUserIgnored(a: seq<Subscription>, s: Subscription, b: seq<Subscription>, uid: nat, ts: Timestamp)
    requires s.uid != uid
    ensures HasActiveSub(a + [s] + b, uid, ts) == HasActiveSub(a + b, uid, ts)
  {
    WindowsOfAppend(a + [s], b, uid);
    WindowsOfAppend(a, [s], uid);
    assert WindowsOf([s], uid) == WindowsOf([s][1..], uid);
    assert a + [s] + b == (a + [s]) + b;
    assert WindowsOf(a, uid) + [] == WindowsOf(a, uid);
    WindowsOfAppend(a, b, uid);
  }

  /** A user without any stored tuple is never active. */
  lemma {:induction false} NoTuplesNeverActive(subs: seq<Subscription>, uid: nat, ts: Timestamp)
    requires forall i :: 0 <= i < |subs| ==> subs[i].uid != uid
    ensures !HasActiveSub(subs, uid, ts)
  {
    if subs != [] {
      assert WindowsOf(subs, uid) == WindowsOf(subs[1..], uid);
      NoTuplesNeverActive(subs[1..], uid, ts);
    }
  }

  /** An open-ended tuple makes its user active on every date from its start on. */
  lemma OpenEndedActiveForever(subs: seq<Subscription>, i: nat, ts: Timestamp)
    requires i < |subs| && subs[i].end.None? && subs[i].start <= ts.Date()
    ensures HasActiveSub(subs, subs[i].uid, ts)
  {
  }

  /** A tuple with an end makes its user active on every date of its window, ends included. */
  lemma ClosedWindowActive(subs: seq<Subscription>, i: nat, ts: Timestamp)
    requires i < |subs| && subs[i].end.Some? && subs[i].start <= ts.Date() <= subs[i].end.value
    ensures HasActiveSub(subs, subs[i].uid, ts)
  {
  }

  /** Day numbers of the dates used below (`date.toordinal()`). */
  const Jan1st2023: Day := 738521
  const Mar1st2023: Day := 738580
  const Jun1st2023: Day := 738672
  const Jul1st2023: Day := 738702
  const Jan1st2030: Day := 741078

  /** A subscription from 2023-01-01 with no end is still active on 2030-01-01. */
  lemma OpenEndedScenario(uid: nat)
    ensures HasActiveSub([Subscription(uid, Jan1st2023, None)], uid, Timestamp(Jan1st2030, 0))
  {
  }

  /** A subscription from 2023-01-01 to 2023-06-01 covers 2023-03-01 but not 2023-07-01. */
  lemma ClosedWindowScenario(uid: nat, second: nat)
    ensures var subs := [Subscription(uid, Jan1st2023, Some(Jun1st2023))];
      HasActiveSub(subs, uid, Timestamp(Mar1st2023, second)) &&
      !HasActiveSub(subs, uid, Timestamp(Jul1st2023, second))
  {
  }
}
