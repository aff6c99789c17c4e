/** The duration normaliser: snap the requested seconds to the 8-second grid,
    clamp into the platform's bounds, and derive the number of 8-second
    segments. `Math.round(x / 8)` on an integer `x` is `(x + 4) / 8` here:
    JavaScript rounds halves up, and Dafny's division by 8 floors. */
module Duration {
  import opened Constants

  const SegmentSeconds := 8

  /** `Math.round(n / 8)` for an integer `n`: the nearest integer to n/8,
      halves going up. */
  function RoundDiv8(n: int): (q: int)
    ensures 8 * q - 4 <= n < 8 * q + 4
  {
    (n + 4) / 8
  }

  /** `snapTo8s`: the multiple of 8 nearest to `n` (halves up), but never below 8. */
  function SnapTo8s(n: int): (r: int)
    ensures r % 8 == 0 && r >= 8
    ensures n >= 4 ==> n - 4 < r <= n + 4
    ensures n < 12 ==> r == 8
  {
    var q := RoundDiv8(n);
    if 8 * q > 8 then 8 * q else 8
  }

  /** `clamp(n, lo, hi) = Math.max(lo, Math.min(hi, n))`. */
  function Clamp(n: int, lo: int, hi: int): (r: int)
    ensures r >= lo
    ensures lo <= hi ==> r <= hi
    ensures lo <= n <= hi ==> r == n
    ensures n < lo || lo > hi ==> r == lo
    ensures lo <= hi < n ==> r == hi
  {
    var m := if hi < n then hi else n;
    if lo > m then lo else m
  }

  /** `Math.max(1, Math.round(dur / 8))`. */
  function SegmentCount(dur: int): (k: int)
    ensures k >= 1
    ensures dur >= 4 ==> 8 * k - 4 <= dur < 8 * k + 4
  {
    var q := RoundDiv8(dur);
    if q > 1 then q else 1
  }

  /** The normalised duration for a platform. */
  function NormalizedDuration(p: Platform, requested: int): (dur: int)
    ensures Config(p).minSec <= dur <= Config(p).maxSec
  {
    Clamp(SnapTo8s(requested), Config(p).minSec, Config(p).maxSec)
  }

  /** The number of segments the pipeline generates for a platform and request. */
  function NumSegments(p: Platform, requested: int): (k: int)
    ensures 1 <= k
    ensures 8 * k - 4 <= NormalizedDuration(p, requested) < 8 * k + 4
  {
    assert Config(p).minSec >= 5 by {
      assert p.TikTok? || p.Shorts? || p.YouTube? || p.Reels? || p.Shopee?;
    }
    SegmentCount(NormalizedDuration(p, requested))
  }

  /** A request already on the grid and inside the bounds is kept as is. */
  lemma GridRequestKept(p: Platform, k: int)
    requires Config(p).minSec <= 8 * k <= Config(p).maxSec && k >= 1
    ensures NormalizedDuration(p, 8 * k) == 8 * k
    ensures NumSegments(p, 8 * k) == k
  {
    assert RoundDiv8(8 * k) == k;
  }

  /** The clamp may leave the duration off the 8-second grid: TikTok's maximum
      of 60 s is not a multiple of 8, and a 64 s request on TikTok is
      normalised to 60 s, which is then counted as 8 segments (64 s of video). */
  lemma ClampLeavesGrid()
    ensures NormalizedDuration(TikTok, 64) == 60 && 60 % 8 != 0
    ensures NumSegments(TikTok, 64) == 8
  {
  }

  /** Worked normalisations for the other platforms. */
  lemma WorkedNormalizations()
    ensures NormalizedDuration(Reels, 96) == 90 && NumSegments(Reels, 96) == 11
    ensures NormalizedDuration(YouTube, 16) == 120 && NumSegments(YouTube, 16) == 15
    ensures NormalizedDuration(Shorts, 16) == 16 && NumSegments(Shorts, 16) == 2
  {
  }
}
