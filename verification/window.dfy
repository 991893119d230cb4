/** The sliding window of the last 60 points that every chart keeps. */
module Window {

  /** `MAX_DATA_POINTS`. */
  const MaxDataPoints: nat := 60

  /** Appends `x` and, when `shift` holds, drops the oldest element (the
      `push` then conditional `shift()` of the chart reducers). */
  function Append<T>(buf: seq<T>, x: T, shift: bool): (r: seq<T>)
    ensures shift ==> r == (buf + [x])[1..]
    ensures !shift ==> r == buf + [x]
    ensures |r| == if shift then |buf| else |buf| + 1
    ensures |r| > 0 ==> r[|r| - 1] == x
  {
    var b := buf + [x];
    if shift then b[1..] else b
  }

  /** Appends and drops the oldest element once the window would exceed 60. */
  function Push<T>(buf: seq<T>, x: T): (r: seq<T>)
    ensures |buf| <= MaxDataPoints ==> |r| <= MaxDataPoints
    ensures |r| > 0 && r[|r| - 1] == x
    ensures |buf| < MaxDataPoints ==> r == buf + [x]
  {
    Append(buf, x, |buf| + 1 > MaxDataPoints)
  }

  /** The last `n` elements of `s` (all of it when shorter). */
  function Last<T>(s: seq<T>, n: nat): (r: seq<T>)
    ensures |r| == if |s| <= n then |s| else n
  {
    if |s| <= n then s else s[|s| - n..]
  }

  /** Pushes every element of `xs`, oldest first. */
  function PushAll<T>(buf: seq<T>, xs: seq<T>): seq<T>
    decreases |xs|
  {
    if |xs| == 0 then buf else PushAll(Push(buf, xs[0]), xs[1..])
  }

  lemma LastOfLast<T>(a: seq<T>, b: seq<T>, n: nat)
    ensures Last(Last(a, n) + b, n) == Last(a + b, n)
  {
    if |a| > n {
      var t := a[|a| - n..];
      assert (a + b)[|a + b| - (n + |b|)..] == t + b;
      if |t + b| > n {
        assert (t + b)[|t + b| - n..] == (a + b)[|a + b| - n..];
      }
    }
  }

  /** Pushing a window of at most 60 points keeps exactly the last 60 of
      everything pushed: the window never grows past its bound and loses
      nothing it should keep. */
  lemma {:induction false} PushAllIsLast<T>(buf: seq<T>, xs: seq<T>)
    requires |buf| <= MaxDataPoints
    ensures PushAll(buf, xs) == Last(buf + xs, MaxDataPoints)
    decreases |xs|
  {
    if |xs| == 0 {
      assert buf + xs == buf;
    } else {
      var b := Push(buf, xs[0]);
      assert b == Last(buf + [xs[0]], MaxDataPoints);
      PushAllIsLast(b, xs[1..]);
      LastOfLast(buf + [xs[0]], xs[1..], MaxDataPoints);
      assert buf + [xs[0]] + xs[1..] == buf + xs;
    }
  }
}
