/**
 * Choice of the velocity arrows drawn over a map in pypStag/stagViewer.py:
 * how many arrows (`noa`), which grid points carry them (`mask_arrows`), and
 * the extraction `xa[mask_arrows]`.
 *
 * `random.sample(id, noa)` is nondeterministic; its outcome is the
 * parameter `draw`, constrained to be what random.sample can return.
 */
module Arrows {
  import opened Outcomes

  /** The values the default loop passes through: 1000, divided by 10 until it fits. */
  const Candidates: seq<nat> := [1000, 100, 10, 1, 0]

  predicate Descending(s: seq<nat>) { forall i, j :: 0 <= i < j < |s| ==> s[i] > s[j] }

  /** The first entry of `cands` that does not exceed n (0 when there is none). */
  function FirstAtMost(cands: seq<nat>, n: nat): nat
  {
    if cands == [] then 0 else if cands[0] <= n then cands[0] else FirstAtMost(cands[1..], n)
  }

  /** In a descending list the first entry that fits is the largest one that fits. */
  lemma {:induction false} FirstAtMostIsLargest(cands: seq<nat>, n: nat)
    requires Descending(cands)
    requires exists c :: c in cands && c <= n
    ensures FirstAtMost(cands, n) in cands && FirstAtMost(cands, n) <= n
    ensures forall c :: c in cands && c <= n ==> c <= FirstAtMost(cands, n)
  {
    forall c | c in cands ensures c == cands[0] || c in cands[1..] {
      var i :| 0 <= i < |cands| && cands[i] == c;
      if i > 0 {
        assert cands[1..][i - 1] == c;
      }
    }
    if cands[0] > n {
      FirstAtMostIsLargest(cands[1..], n);
    } else {
      forall c | c in cands && c <= n ensures c <= cands[0] {
        var i :| 0 <= i < |cands| && cands[i] == c;
      }
    }
  }

  /** The default arrow count for n points: the largest of 1000, 100, 10, 1, 0 that is at most n. */
  function DefaultCount(n: nat): (r: nat)
    ensures r in Candidates && r <= n
    ensures forall c :: c in Candidates && c <= n ==> c <= r
  {
    assert 0 in Candidates;
    FirstAtMostIsLargest(Candidates, n);
    FirstAtMost(Candidates, n)
  }

  /**
   * `noa = 1000; if noa > len(xa): while noa > len(xa): noa = int(noa/10)`.
   * `int(noa/10)` of a non-negative int is its floor quotient.
   */
  method DefaultArrowCount(n: nat) returns (noa: nat)
    ensures noa <= n && noa in Candidates
    ensures forall c :: c in Candidates && c <= n ==> c <= noa
    ensures noa == DefaultCount(n)
  {
    noa := 1000;
    ghost var k := 0;
    if noa > n {
      while noa > n
        invariant k < |Candidates| && noa == Candidates[k]
        invariant forall j :: 0 <= j < k ==> Candidates[j] > n
        decreases noa
      {
        noa := noa / 10;
        k := k + 1;
      }
    }
    FirstAtMostPrefix(Candidates, n, k);
  }

  /** When the first k candidates are too large, FirstAtMost is the k-th if it fits. */
  lemma {:induction false} FirstAtMostPrefix(cands: seq<nat>, n: nat, k: nat)
    requires k < |cands| && cands[k] <= n
    requires forall j :: 0 <= j < k ==> cands[j] > n
    ensures FirstAtMost(cands, n) == cands[k]
  {
    if k > 0 {
      FirstAtMostPrefix(cands[1..], n, k - 1);
    }
  }

  /** `noa`: the plot parameters' count when given, else the default count. */
  method ArrowCount(veloNoa: Option<int>, n: nat) returns (noa: int)
    ensures veloNoa.Some? ==> noa == veloNoa.value
    ensures veloNoa.None? ==> 0 <= noa <= n && noa == DefaultCount(n)
  {
    match veloNoa
    case Some(given) =>
      noa := given;
    case None =>
      noa := DefaultArrowCount(n);
  }

  datatype ArrowError =
    | SampleOutOfRange(k: int, population: nat)  // random.sample: sample larger than population or negative
    | MaskUnbound                                // mask_arrows read before assignment
    | IndexOutOfBounds                           // xa[mask_arrows] with an index outside the array

  /** What `random.sample(range(population), k)` can return: k distinct indices of the population. */
  predicate IsSample(draw: seq<int>, population: nat, k: nat)
  {
    && |draw| == k
    && (forall i :: 0 <= i < |draw| ==> 0 <= draw[i] < population)
    && (forall i, j :: 0 <= i < j < |draw| ==> draw[i] != draw[j])
  }

  /** `mask_arrows`: the caller's `mask_arrowsID` verbatim, else a random sample of noa indices. */
  function ChooseMask(given: Option<seq<int>>, population: nat, noa: int, draw: seq<int>): (r: Result<seq<int>, ArrowError>)
    requires given.None? && 0 <= noa <= population ==> IsSample(draw, population, noa)
    ensures given.Some? ==> r == Ok(given.value)
    ensures given.None? ==> (r.Ok? <==> 0 <= noa <= population)
    ensures given.None? && r.Ok? ==> IsSample(r.value, population, noa)
    ensures r.Err? ==> r.error == SampleOutOfRange(noa, population)
  {
    match given
    case Some(mask) => Ok(mask)
    case None => if 0 <= noa <= population then Ok(draw) else Err(SampleOutOfRange(noa, population))
  }

  /** numpy's reading of an index into an array of length n: negative indices count from the end. */
  predicate ValidIndex(i: int, n: nat) { -(n as int) <= i < n }

  function Resolve(i: int, n: nat): (r: nat)
    requires ValidIndex(i, n)
    ensures r < n
  {
    if i < 0 then n + i else i
  }

  /** `xa[mask_arrows]`: the entries at the mask's indices, in mask order, or IndexError. */
  function Take<T>(xs: seq<T>, mask: seq<int>): (r: Result<seq<T>, ArrowError>)
    ensures r.Ok? <==> forall k :: 0 <= k < |mask| ==> ValidIndex(mask[k], |xs|)
    ensures r.Err? ==> r.error == IndexOutOfBounds
    ensures r.Ok? ==> |r.value| == |mask|
    ensures r.Ok? ==> forall k :: 0 <= k < |mask| ==> r.value[k] == xs[Resolve(mask[k], |xs|)]
  {
    if mask == [] then Ok([])
    else if !ValidIndex(mask[0], |xs|) then Err(IndexOutOfBounds)
    else match Take(xs, mask[1..])
      case Err(e) => Err(e)
      case Ok(rest) => Ok([xs[Resolve(mask[0], |xs|)]] + rest)
  }

  /**
   * With neither a mask nor plot parameters for the arrows, a Cartesian map
   * draws exactly DefaultCount(n) arrows, at distinct points of the slice.
   */
  lemma DefaultArrowsAreDrawn<T>(xa: seq<T>, draw: seq<int>)
    requires IsSample(draw, |xa|, DefaultCount(|xa|))
    ensures ChooseMask(None, |xa|, DefaultCount(|xa|), draw) == Ok(draw)
    ensures var r := Take(xa, draw);
      && r.Ok? && |r.value| == DefaultCount(|xa|)
      && forall k :: 0 <= k < |draw| ==> r.value[k] == xa[draw[k]]
  {
  }

  /** A caller's mask is applied as given: the arrows are the entries it indexes. */
  lemma GivenMaskIsUsed<T>(xa: seq<T>, mask: seq<int>, noa: int, draw: seq<int>)
    requires forall k :: 0 <= k < |mask| ==> 0 <= mask[k] < |xa|
    ensures ChooseMask(Some(mask), |xa|, noa, draw) == Ok(mask)
    ensures var r := Take(xa, mask);
      && r.Ok? && |r.value| == |mask|
      && forall k :: 0 <= k < |mask| ==> r.value[k] == xa[mask[k]]
  {
  }

  // ---------------------------------------------------------------------
  // The annulus map (stagViewer.py:724-746)
  // ---------------------------------------------------------------------

  /**
   * The annulus path as written: the default count stays 1000 however few
   * points there are, and a given mask reaches `mask_arrows == mask_arrowsID`,
   * a comparison that reads the still unbound `mask_arrows`.
   */
  function AnnulusMaskAsWritten(given: Option<seq<int>>, population: nat, veloNoa: Option<int>, draw: seq<int>)
    : (r: Result<seq<int>, ArrowError>)
    requires var noa := if veloNoa.Some? then veloNoa.value else 1000;
      given.None? && 0 <= noa <= population ==> IsSample(draw, population, noa)
    ensures given.Some? ==> r == Err(MaskUnbound)
    ensures given.None? && veloNoa.None? ==> (r.Ok? <==> population >= 1000)
  {
    var noa := if veloNoa.Some? then veloNoa.value else 1000;
    match given
    case Some(_) => Err(MaskUnbound)
    case None => ChooseMask(None, population, noa, draw)
  }

  /** A mask handed to the annulus map is never used: the call fails. */
  lemma AnnulusDropsGivenMask()
    ensures AnnulusMaskAsWritten(Some([0, 1]), 10, None, []) == Err(MaskUnbound)
  {
  }

  /** An annulus slice with fewer than 1000 points and no arrow parameters cannot be sampled. */
  lemma AnnulusDefaultTooLarge()
    ensures AnnulusMaskAsWritten(None, 999, None, []) == Err(SampleOutOfRange(1000, 999))
  {
  }

  /** The annulus path as the Cartesian paths do it: the reduced default count and the given mask verbatim. */
  function AnnulusMask(given: Option<seq<int>>, population: nat, veloNoa: Option<int>, draw: seq<int>)
    : (r: Result<seq<int>, ArrowError>)
    requires var noa := if veloNoa.Some? then veloNoa.value else DefaultCount(population);
      given.None? && 0 <= noa <= population ==> IsSample(draw, population, noa)
    ensures given.Some? ==> r == Ok(given.value)
    ensures given.None? && veloNoa.None? ==> r.Ok? && IsSample(r.value, population, DefaultCount(population))
  {
    var noa := if veloNoa.Some? then veloNoa.value else DefaultCount(population);
    ChooseMask(given, population, noa, draw)
  }
}
