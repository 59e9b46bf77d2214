/**
 * The `SparkleTrail` of cursor.js: on desktop-sized windows every mouse move
 * may leave a sparkle behind, at most one per `SparkleInterval` milliseconds.
 */
module Cursor {

  /** `sparkleInterval`: the least gap, in milliseconds, between two sparkles. */
  const SparkleInterval := 25
  /** Windows wider than this count as desktop. */
  const DesktopMinWidth := 1024

  /** A sparkle appended to the page: where and when it was created. */
  datatype Sparkle = Sparkle(x: int, y: int, time: int)

  /**
   * The sparkles' times are spaced: the first at least `SparkleInterval`
   * after `start`, each later one at least `SparkleInterval` after the one
   * before it.
   */
  ghost predicate Spaced(start: int, sparkles: seq<Sparkle>) {
    (|sparkles| > 0 ==> sparkles[0].time - start >= SparkleInterval) &&
    forall i :: 0 < i < |sparkles| ==> sparkles[i].time - sparkles[i - 1].time >= SparkleInterval
  }

  /** The time of the last sparkle, or `start` when there is none. */
  function LastTime(start: int, sparkles: seq<Sparkle>): (t: int) {
    if sparkles == [] then start else sparkles[|sparkles| - 1].time
  }

  /** Any two sparkles, not only neighbours, are at least one interval apart per sparkle between them. */
  lemma {:induction false} SpacedApart(start: int, sparkles: seq<Sparkle>, i: nat, j: nat)
    requires Spaced(start, sparkles)
    requires i < j < |sparkles|
    ensures sparkles[j].time - sparkles[i].time >= SparkleInterval * (j - i)
    decreases j - i
  {
    if i + 1 < j {
      SpacedApart(start, sparkles, i, j - 1);
    }
  }

  /** The `i`-th sparkle comes at least `i + 1` intervals after `start`. */
  lemma SpacedAfterStart(start: int, sparkles: seq<Sparkle>, i: nat)
    requires Spaced(start, sparkles)
    requires i < |sparkles|
    ensures sparkles[i].time - start >= SparkleInterval * (i + 1)
  {
    if i > 0 {
      SpacedApart(start, sparkles, 0, i);
    }
  }

  /** The throttle state of one page. */
  class SparkleTrail {
    /** `lastSparkleTime`. */
    var lastSparkleTime: int
    /** `isDesktop`. */
    var isDesktop: bool
    /** Whether `init` ran, registering the mouse-move and resize listeners. */
    const listening: bool
    /** Every sparkle created so far, oldest first (their removal after 800 ms is a timer and not modelled). */
    var sparkles: seq<Sparkle>

    /**
     * The sparkles are spaced from time 0 and the last one's time is
     * `lastSparkleTime`; an instance constructed without its listeners stays
     * non-desktop and never sparkles.
     */
    ghost predicate Valid()
      reads this
    {
      Spaced(0, sparkles) &&
      lastSparkleTime == LastTime(0, sparkles) &&
      (!listening ==> !isDesktop && sparkles == [])
    }

    /** Construction: desktop means wider than 1024; only then are the listeners registered. */
    constructor (innerWidth: int)
      ensures Valid()
      ensures lastSparkleTime == 0 && sparkles == []
      ensures isDesktop == (innerWidth > DesktopMinWidth) && listening == isDesktop
    {
      lastSparkleTime := 0;
      isDesktop := innerWidth > DesktopMinWidth;
      listening := innerWidth > DesktopMinWidth;
      sparkles := [];
    }

    /**
     * `createSparkle` at clock reading `now`: accepted only on desktop and
     * at least one interval after the last sparkle, rejected otherwise with
     * nothing changed.
     */
    method CreateSparkle(x: int, y: int, now: int) returns (created: bool)
      requires Valid()
      modifies this`lastSparkleTime, this`sparkles
      ensures Valid()
      ensures created <==> isDesktop && now - old(lastSparkleTime) >= SparkleInterval
      ensures created ==> lastSparkleTime == now && sparkles == old(sparkles) + [Sparkle(x, y, now)]
      ensures !created ==> lastSparkleTime == old(lastSparkleTime) && sparkles == old(sparkles)
    {
      if !isDesktop {
        return false;
      }
      if now - lastSparkleTime < SparkleInterval {
        return false;
      }
      lastSparkleTime := now;
      sparkles := sparkles + [Sparkle(x, y, now)];
      created := true;
    }

    /** The mouse-move listener, present only when `init` ran. */
    method MouseMove(x: int, y: int, now: int) returns (created: bool)
      requires Valid()
      modifies this`lastSparkleTime, this`sparkles
      ensures Valid()
      ensures created <==> listening && isDesktop && now - old(lastSparkleTime) >= SparkleInterval
      ensures created ==> lastSparkleTime == now && sparkles == old(sparkles) + [Sparkle(x, y, now)]
      ensures !created ==> lastSparkleTime == old(lastSparkleTime) && sparkles == old(sparkles)
    {
      created := false;
      if listening {
        created := CreateSparkle(x, y, now);
      }
    }

    /** The resize listener, present only when `init` ran: desktop is re-measured. */
    method Resize(innerWidth: int)
      requires Valid()
      modifies this`isDesktop
      ensures Valid()
      ensures isDesktop == if listening then innerWidth > DesktopMinWidth else old(isDesktop)
    {
      if listening {
        isDesktop := innerWidth > DesktopMinWidth;
      }
    }
  }

  /** A page loaded on a narrow window never sparkles, even after it is widened. */
  method NarrowThenWide(now: int) returns (created: bool)
    ensures !created
  {
    var trail := new SparkleTrail(800);
    trail.Resize(1920);
    created := trail.MouseMove(10, 10, now);
  }

  /** Two moves 24 ms apart leave one sparkle; a third 25 ms after the first leaves a second. */
  method ThrottleExample() returns (first: bool, second: bool, third: bool)
    ensures first && !second && third
  {
    var trail := new SparkleTrail(1920);
    first := trail.MouseMove(0, 0, 1000);
    second := trail.MouseMove(1, 1, 1024);
    third := trail.MouseMove(2, 2, 1025);
  }
}
