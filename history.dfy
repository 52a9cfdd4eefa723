/** The bounded history update of App.tsx: a new record goes in front and
    the list is cut back to the newest fifty (`[newImage, ...prev].slice(0, 50)`). */
module History {
  import opened Types

  /** The most records the history keeps. */
  const HistoryLimit: nat := 50

  function Min(a: int, b: int): int {
    if a <= b then a else b
  }

  /** The history after a successful generation: the new record first, then
      the old records in order, with the oldest dropped once there are more
      than fifty. */
  function PushRecent(history: seq<GeneratedImage>, image: GeneratedImage): (h: seq<GeneratedImage>)
    ensures |h| == Min(HistoryLimit, |history| + 1) && |h| <= HistoryLimit
    ensures h[0] == image
    ensures h[1..] == history[..|h| - 1]
  {
    ([image] + history)[..Min(HistoryLimit, |history| + 1)]
  }

  /** Below the cap nothing is dropped; at the cap exactly the oldest is. */
  lemma PushRecentEvicts(history: seq<GeneratedImage>, image: GeneratedImage)
    ensures |history| < HistoryLimit ==> PushRecent(history, image) == [image] + history
    ensures |history| == HistoryLimit ==> PushRecent(history, image) == [image] + history[..HistoryLimit - 1]
  {
    var h := PushRecent(history, image);
    assert h == [h[0]] + h[1..];
  }

  /** The history after successes with `images`, oldest first. */
  function PushAll(history: seq<GeneratedImage>, images: seq<GeneratedImage>): (h: seq<GeneratedImage>)
    ensures images != [] || |history| <= HistoryLimit ==> |h| <= HistoryLimit
    decreases |images|
  {
    if images == [] then history
    else PushAll(PushRecent(history, images[0]), images[1..])
  }

  /** `s` in the opposite order. */
  function Reversed(s: seq<GeneratedImage>): (r: seq<GeneratedImage>)
    ensures |r| == |s|
    ensures forall i :: 0 <= i < |s| ==> r[i] == s[|s| - 1 - i]
  {
    if s == [] then [] else Reversed(s[1..]) + [s[0]]
  }

  /** Cutting a list that was already cut longer changes nothing. */
  lemma TakeOfTake(a: seq<GeneratedImage>, b: seq<GeneratedImage>, m: nat, n: nat)
    requires m <= |b| && n <= |a| + m
    ensures (a + b[..m])[..n] == (a + b)[..n]
  {
    assert forall i :: 0 <= i < n ==> (a + b[..m])[..n][i] == (a + b)[..n][i];
  }

  /** Any run of successes leaves the newest fifty records, newest first:
      the generated records in reverse, then the old history. A history
      longer than fifty (one loaded from storage) is cut at the first
      success, so only an empty run needs the cap to hold beforehand. */
  lemma {:induction false} PushAllKeepsNewest(history: seq<GeneratedImage>, images: seq<GeneratedImage>)
    requires |history| <= HistoryLimit || images != []
    ensures PushAll(history, images)
      == (Reversed(images) + history)[..Min(HistoryLimit, |images| + |history|)]
    decreases |images|
  {
    if images == [] {
      assert Reversed(images) + history == history;
    } else {
      var x, rest := images[0], images[1..];
      var pushed := PushRecent(history, x);
      PushAllKeepsNewest(pushed, rest);
      assert Reversed(images) == Reversed(rest) + [x] by {
        assert images == [x] + rest;
      }
      assert Reversed(images) + history == Reversed(rest) + ([x] + history);
      TakeOfTake(Reversed(rest), [x] + history, |pushed|, Min(HistoryLimit, |images| + |history|));
    }
  }

  /** Fifty-one successes from an empty history: the first record is gone
      and the other fifty remain, newest first. */
  lemma FiftyOneGenerations(images: seq<GeneratedImage>)
    requires |images| == HistoryLimit + 1
    ensures PushAll([], images) == Reversed(images[1..])
  {
    PushAllKeepsNewest([], images);
    var r := Reversed(images);
    assert r[..HistoryLimit] == Reversed(images[1..]);
  }
}
