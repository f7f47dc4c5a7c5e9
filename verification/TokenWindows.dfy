/** Cutting a token sequence into overlapping windows. */
module TokenWindows {
  import opened Common

  predicate Workable(window: int, overlap: int) { 0 <= overlap < window }

  /** Where window k starts. */
  function Start(stride: nat, k: nat): nat { if k == 0 then 0 else Start(stride, k - 1) + stride }

  /** Window k of the stride, clipped at the end. */
  function Window<T>(tokens: seq<T>, window: nat, stride: nat, k: nat): seq<T> {
    var from := Start(stride, k);
    if from >= |tokens| then []
    else if from + window <= |tokens| then tokens[from..from + window]
    else tokens[from..]
  }

  function Windows<T>(tokens: seq<T>, window: nat, stride: nat, n: nat): (r: seq<seq<T>>)
    ensures |r| == n && forall k :: 0 <= k < n ==> r[k] == Window(tokens, window, stride, k)
  {
    seq(n, k requires 0 <= k < n => Window(tokens, window, stride, k))
  }

  /** The first n windows reach the end of the tokens. */
  predicate Covers(tokens: nat, window: nat, stride: nat, n: nat) {
    n > 0 && Start(stride, n - 1) + window >= tokens
  }

  /** Each window holds the ceiling at most, every one but the last holds it exactly, each
      repeats exactly the overlap of the one before, and they reach the end. */
  ghost predicate WellCut<T>(tokens: seq<T>, window: nat, overlap: nat, windows: seq<seq<T>>)
    requires overlap < window
  {
    && windows == Windows(tokens, window, window - overlap, |windows|)
    && Covers(|tokens|, window, window - overlap, |windows|)
    && (forall k :: 0 <= k < |windows| - 1 ==> |windows[k]| == window)
    && (forall k :: 0 <= k < |windows| ==> 0 < |windows[k]| <= window && (k > 0 ==> |windows[k]| > overlap))
  }

  method SplitIntoWindows<T>(tokens: seq<T>, window: int, overlap: int) returns (r: Result<seq<seq<T>>>)
    ensures r.Ok? <==> Workable(window, overlap)
    ensures r.Ok? && tokens == [] ==> r.value == []
    ensures r.Ok? && tokens != [] ==> WellCut(tokens, window, overlap, r.value)
  {
    if window <= 0 || overlap < 0 || overlap >= window {
      return Raised;
    }
    if tokens == [] {
      return Ok([]);
    }
    var stride: nat := window - overlap;
    var windows: seq<seq<T>> := [];
    var start := 0;
    while start < |tokens|
      invariant start == Start(stride, |windows|)
      invariant windows == Windows(tokens, window, stride, |windows|)
      invariant |windows| > 0 ==> Start(stride, |windows| - 1) < |tokens|
      decreases |tokens| - start
    {
      windows := windows + [Window(tokens, window, stride, |windows|)];
      start := start + stride;
    }
    while |windows| > 1 && |tokens| - Start(stride, |windows| - 1) <= overlap
      invariant |windows| > 0 && windows == Windows(tokens, window, stride, |windows|)
      invariant Start(stride, |windows| - 1) < |tokens| <= Start(stride, |windows| - 1) + window
      decreases |windows|
    {
      windows := windows[..|windows| - 1];
    }
    EachIsFull(tokens, window, overlap, windows);
    r := Ok(windows);
  }

  lemma {:induction false} StartsGrow(stride: nat, k: nat, l: nat)
    requires k < l
    ensures Start(stride, k) + stride <= Start(stride, l)
    decreases l
  {
    if k < l - 1 {
      StartsGrow(stride, k, l - 1);
    }
  }

  lemma EachIsFull<T>(tokens: seq<T>, window: nat, overlap: nat, windows: seq<seq<T>>)
    requires overlap < window && |windows| > 0
    requires windows == Windows(tokens, window, window - overlap, |windows|)
    requires Start(window - overlap, |windows| - 1) < |tokens|
    requires |windows| > 1 ==> |tokens| - Start(window - overlap, |windows| - 1) > overlap
    ensures forall k :: 0 <= k < |windows| - 1 ==> |windows[k]| == window
    ensures forall k :: 0 <= k < |windows| ==> 0 < |windows[k]| <= window && (k > 0 ==> |windows[k]| > overlap)
  {
    var last := |windows| - 1;
    forall k | 0 <= k < last ensures |windows[k]| == window {
      StartsGrow(window - overlap, k, last);
    }
  }

  // -- what the windows amount to -----------------------------------------------------------

  /** The windows without what each repeats of the one before. */
  function Rebuilt<T>(windows: seq<seq<T>>, overlap: nat): seq<T> {
    if windows == [] then []
    else
      var last := windows[|windows| - 1];
      Rebuilt(windows[..|windows| - 1], overlap)
      + if |windows| == 1 then last else if overlap <= |last| then last[overlap..] else []
  }

  lemma RebuiltPush<T>(windows: seq<seq<T>>, overlap: nat, n: nat)
    requires 1 < n <= |windows| && |windows[n - 1]| > overlap
    ensures Rebuilt(windows[..n], overlap) == Rebuilt(windows[..n - 1], overlap) + windows[n - 1][overlap..]
  {
    assert windows[..n][..n - 1] == windows[..n - 1];
  }

  /** Window k lies in the tokens where its start says, and the last one ends them. */
  ghost predicate TileAt<T>(tokens: seq<T>, from: nat, window: nat, overlap: nat, tile: seq<T>, k: nat, last: nat) {
    && from < |tokens| && |tile| > 0 && (k > 0 ==> |tile| > overlap && from + overlap < |tokens|)
    && (if k < last then from + window <= |tokens| && tile == tokens[from..from + window] else tile == tokens[from..])
  }

  lemma WindowIsTile<T>(tokens: seq<T>, window: nat, overlap: nat, windows: seq<seq<T>>, k: nat)
    requires overlap < window && WellCut(tokens, window, overlap, windows) && k < |windows|
    ensures TileAt(tokens, Start(window - overlap, k), window, overlap, windows[k], k, |windows| - 1)
  {
    assert windows[k] == Window(tokens, window, window - overlap, k);
  }

  lemma NextTile<T>(tokens: seq<T>, from: nat, window: nat, overlap: nat, tile: seq<T>, k: nat, last: nat)
    requires overlap < window && k > 0 && TileAt(tokens, from, window, overlap, tile, k, last)
    ensures tokens[..from + overlap] + tile[overlap..] == if k < last then tokens[..from + window] else tokens
  {
  }

  /** Rebuilt from the first n windows: all that comes before the part window n adds. */
  ghost predicate RebuiltTo<T>(tokens: seq<T>, windows: seq<seq<T>>, overlap: nat, n: nat, upto: nat) {
    n <= |windows| && upto <= |tokens| && Rebuilt(windows[..n], overlap) == tokens[..upto]
  }

  lemma RebuiltNext<T>(tokens: seq<T>, from: nat, window: nat, overlap: nat, windows: seq<seq<T>>, n: nat)
    requires overlap < window && 0 < n < |windows|
    requires TileAt(tokens, from, window, overlap, windows[n], n, |windows| - 1)
    requires RebuiltTo(tokens, windows, overlap, n, from + overlap)
    ensures RebuiltTo(tokens, windows, overlap, n + 1, if n < |windows| - 1 then from + window else |tokens|)
  {
    RebuiltPush(windows, overlap, n + 1);
    NextTile(tokens, from, window, overlap, windows[n], n, |windows| - 1);
    assert tokens[..|tokens|] == tokens;
  }

  lemma RebuiltFirst<T>(tokens: seq<T>, window: nat, overlap: nat, windows: seq<seq<T>>)
    requires overlap < window && WellCut(tokens, window, overlap, windows) && 0 < |windows|
    requires TileAt(tokens, Start(window - overlap, 0), window, overlap, windows[0], 0, |windows| - 1)
    ensures RebuiltTo(tokens, windows, overlap, 1, if 1 < |windows| then Start(window - overlap, 1) + overlap else |tokens|)
  {
    assert windows[..1] == [windows[0]];
    assert tokens[..|tokens|] == tokens;
  }

  lemma {:induction false} RebuiltSoFar<T>(tokens: seq<T>, window: nat, overlap: nat, windows: seq<seq<T>>, n: nat)
    requires overlap < window && WellCut(tokens, window, overlap, windows) && 0 < n <= |windows|
    ensures RebuiltTo(tokens, windows, overlap, n, if n < |windows| then Start(window - overlap, n) + overlap else |tokens|)
    decreases n
  {
    WindowIsTile(tokens, window, overlap, windows, n - 1);
    if n == 1 {
      RebuiltFirst(tokens, window, overlap, windows);
    } else {
      RebuiltSoFar(tokens, window, overlap, windows, n - 1);
      RebuiltNext(tokens, Start(window - overlap, n - 1), window, overlap, windows, n - 1);
    }
  }

  /** Dropping the overlaps gives the tokens back. */
  lemma WindowsRebuildTheTokens<T>(tokens: seq<T>, window: nat, overlap: nat, windows: seq<seq<T>>)
    requires overlap < window && WellCut(tokens, window, overlap, windows)
    ensures Rebuilt(windows, overlap) == tokens
  {
    assert windows[..|windows|] == windows;
    RebuiltSoFar(tokens, window, overlap, windows, |windows|);
    assert tokens[..|tokens|] == tokens;
  }

  /** Each window begins with exactly what the one before it ends with. */
  lemma OverlapsAgree<T>(tokens: seq<T>, window: nat, overlap: nat, windows: seq<seq<T>>, k: nat)
    requires overlap < window && WellCut(tokens, window, overlap, windows) && 0 < k < |windows|
    ensures |windows[k]| > overlap && |windows[k - 1]| == window
    ensures windows[k][..overlap] == windows[k - 1][window - overlap..]
  {
    var stride := window - overlap;
    var from, before := Start(stride, k), Start(stride, k - 1);
    assert windows[k] == Window(tokens, window, stride, k) && windows[k - 1] == Window(tokens, window, stride, k - 1);
    assert windows[k][..overlap] == tokens[from..from + overlap];
    assert windows[k - 1] == tokens[before..before + window];
    assert windows[k - 1][stride..] == tokens[before + stride..before + window];
  }

  /** No fewer windows at that stride reach the end. */
  lemma WindowsAreFewest<T>(tokens: seq<T>, window: nat, overlap: nat, windows: seq<seq<T>>, n: nat)
    requires overlap < window && WellCut(tokens, window, overlap, windows)
    ensures Covers(|tokens|, window, window - overlap, n) ==> |windows| <= n
  {
    var stride, last := window - overlap, |windows| - 1;
    if 0 < n < |windows| {
      assert |windows[last]| > overlap;
      assert windows[last] == Window(tokens, window, stride, last);
      if n < last {
        StartsGrow(stride, n - 1, last - 1);
      }
      assert Start(stride, last - 1) + window == Start(stride, last) + overlap;
    }
  }
}
