/** The Monte-Carlo renderer's sample counter: every render pass adds one batch
    of 16 samples per pixel into the accumulation target until 65536 batches
    have been taken; clearing the target starts the count afresh. The passes
    themselves are GPU work and appear only as the count of batches taken. */
module MonteCarlo {
  /** `1 << 16`: no pass is rendered once this many batches are accumulated. */
  const MaxBatches: nat := 0x1_0000

  /** Samples per pixel a single pass takes. */
  const SamplesPerBatch: nat := 16

  /** The count after one call of `render`. */
  function NextCount(count: nat): nat
  {
    if count == MaxBatches then count else count + 1
  }

  /** The count after `k` calls of `render` from `count`. */
  function CountAfter(count: nat, k: nat): nat
    decreases k
  {
    if k == 0 then count else CountAfter(NextCount(count), k - 1)
  }

  function Min(a: nat, b: nat): (r: nat)
    ensures r <= a && r <= b && (r == a || r == b)
  {
    if a < b then a else b
  }

  /** From a count within the cap, `k` renders add `k` batches, stopping at the cap. */
  lemma {:induction false} CountSaturates(count: nat, k: nat)
    requires count <= MaxBatches
    ensures CountAfter(count, k) == Min(count + k, MaxBatches)
    decreases k
  {
    if k > 0 {
      CountSaturates(NextCount(count), k - 1);
    }
  }

  /** Rendering never takes the count past the cap. */
  lemma {:induction false} CountBounded(count: nat, k: nat)
    requires count <= MaxBatches
    ensures CountAfter(count, k) <= MaxBatches
    ensures CountAfter(count, k) >= count
  {
    CountSaturates(count, k);
  }

  class Accumulator {
    /** m_sampleCount: batches accumulated since the last clear. */
    var sampleCount: nat

    ghost predicate Valid()
      reads this
    {
      sampleCount <= MaxBatches
    }

    constructor()
      ensures Valid() && sampleCount == 0
    {
      sampleCount := 0;
    }

    /** clear: empty the accumulation target and the count. */
    method Clear()
      modifies this
      ensures Valid() && sampleCount == 0
    {
      sampleCount := 0;
    }

    /** render: once the cap is reached, nothing; otherwise draw one pass,
        copy it into the accumulation target and count it. `drawn` says
        whether the pass was drawn. */
    method Render() returns (drawn: bool)
      requires Valid()
      modifies this
      ensures Valid()
      ensures drawn <==> old(sampleCount) < MaxBatches
      ensures sampleCount == NextCount(old(sampleCount))
    {
      if sampleCount == MaxBatches {
        return false;
      }
      sampleCount := sampleCount + 1;
      return true;
    }

    /** setPipeline and resizeFrameBuffer: both rebuild GPU objects and end
        with (or include) a clear. */
    method Rebuild()
      modifies this
      ensures Valid() && sampleCount == 0
    {
      Clear();
    }

    /** getSampleCount: samples per pixel taken so far, in 32 bits. */
    function SampleCount(): (r: nat)
      requires Valid()
      reads this
      ensures r == SamplesPerBatch * sampleCount
      ensures r <= SamplesPerBatch * MaxBatches < 0x1_0000_0000
    {
      sampleCount * 16
    }
  }
}
