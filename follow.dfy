/**
 * The follow limiter of updateGlobalPosition: re-centring on the active
 * vehicle happens at most once per more than 120 ms of ground time. The
 * timestamps are quint64, so the elapsed time is an unsigned, wrapping
 * difference.
 */
module FollowLimiter {
  const TwoTo64: int := 0x1_0000_0000_0000_0000
  type U64 = x: int | 0 <= x < 0x1_0000_0000_0000_0000

  /** The minimum spacing, in milliseconds, of two window openings. */
  const Interval: int := 120

  /** currTime - lastUpdate in quint64 arithmetic. */
  function Elapsed(now: U64, last: U64): (d: U64)
    ensures now >= last ==> d == now - last
    ensures now < last ==> d == now - last + TwoTo64
  {
    (now - last) % TwoTo64
  }

  /** One position message: from the active vehicle or not, its ground time, and the follow and visibility state. */
  datatype PositionUpdate = PositionUpdate(fromActive: bool, now: U64, follow: bool, visible: bool)

  /** The new lastUpdate and whether the map is re-centred. */
  datatype Outcome = Outcome(lastUpdate: U64, recentre: bool)

  /**
   * lastUpdate advances whenever an active-vehicle message finds the window
   * open, even with follow off; the view moves only if, in addition, follow
   * is checked and the widget is visible (updatePosition's own check).
   */
  function Step(last: U64, u: PositionUpdate): (o: Outcome)
    ensures o.lastUpdate == (if u.fromActive && Elapsed(u.now, last) > Interval then u.now else last)
    ensures o.recentre <==> u.fromActive && Elapsed(u.now, last) > Interval && u.follow && u.visible
  {
    if u.fromActive && Elapsed(u.now, last) > Interval then Outcome(u.now, u.follow && u.visible)
    else Outcome(last, false)
  }

  /** The ground times at which a sequence of messages re-centres the map. */
  function RecentreTimes(last: U64, us: seq<PositionUpdate>): seq<U64>
    decreases |us|
  {
    if us == [] then []
    else
      var o := Step(last, us[0]);
      (if o.recentre then [us[0].now] else []) + RecentreTimes(o.lastUpdate, us[1..])
  }

  /** The ground clock never runs backwards through `us`, starting at `last`. */
  predicate Monotone(last: U64, us: seq<PositionUpdate>)
  {
    && (forall i :: 0 <= i < |us| ==> last <= us[i].now)
    && (forall i, j :: 0 <= i < j < |us| ==> us[i].now <= us[j].now)
  }

  /**
   * With a clock that does not run backwards, successive re-centres are more
   * than 120 ms apart, and the first is more than 120 ms after `last`.
   */
  lemma {:induction false} RecentresAreSpaced(last: U64, us: seq<PositionUpdate>)
    requires Monotone(last, us)
    ensures var rs := RecentreTimes(last, us);
      && (rs != [] ==> rs[0] > last + Interval)
      && forall i :: 0 <= i < |rs| - 1 ==> rs[i + 1] > rs[i] + Interval
    decreases |us|
  {
    if us != [] {
      var o := Step(last, us[0]);
      assert Monotone(o.lastUpdate, us[1..]) by {
        forall i | 0 <= i < |us[1..]| ensures o.lastUpdate <= us[1..][i].now {
          assert us[0].now <= us[i + 1].now;
        }
      }
      RecentresAreSpaced(o.lastUpdate, us[1..]);
    }
  }

  /** Two active-vehicle messages at most 120 ms apart re-centre the map at most once. */
  lemma AtMostOneRecentrePerWindow(last: U64, u1: PositionUpdate, u2: PositionUpdate)
    requires u1.now <= u2.now <= u1.now + Interval
    ensures !(Step(last, u1).recentre && Step(Step(last, u1).lastUpdate, u2).recentre)
  {
  }

  /**
   * A clock that steps backwards (by less than 2^64 - 120) always finds the
   * window open, because the difference wraps round.
   */
  lemma BackwardClockOpensWindow(now: U64, last: U64)
    requires now < last && last - now < TwoTo64 - Interval
    ensures Elapsed(now, last) > Interval
  {
  }
}
