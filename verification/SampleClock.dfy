/**
 The sample clock of the SIDLite emulation (src/builders/sidlite-builder/sidlite/SID.cpp): cycles are taken in
 chunks of at most seven, sixteen counts a cycle, and a sample is due whenever the count passes the ratio.
 */
module SampleClock {
  import opened Arith

  const SHORT_MAX := 32767

  /** Storing into a 16-bit signed variable. */
  function ToShort(x: int): int { (x + 0x8000) % 0x1_0000 - 0x8000 }

  function Chunk(cycles: nat): nat { if cycles < 7 then cycles else 7 }

  /** Feeds chunks until a sample is due or the cycles run out. */
  function Feed(ratio: nat, cnt: int, cycles: nat): (int, nat)
    decreases cycles
  {
    if cnt > ratio || cycles == 0 then (cnt, cycles)
    else Feed(ratio, ToShort(cnt + 16 * Chunk(cycles)), cycles - Chunk(cycles))
  }

  /** The ratios for which the 16-bit count cannot wrap. */
  predicate NoWrap(ratio: nat) { 1 <= ratio && ratio + 112 <= SHORT_MAX }

  /** The most a count can be after feeding from `cnt`. */
  function Top(ratio: nat, cnt: int, cycles: nat): int {
    if cnt > ratio then cnt else ratio + 16 * Chunk(cycles)
  }

  lemma {:induction false} FeedConserves(ratio: nat, cnt: int, cycles: nat)
    requires NoWrap(ratio) && 0 <= cnt <= SHORT_MAX
    ensures var (c, y) := Feed(ratio, cnt, cycles);
            && c + 16 * y == cnt + 16 * cycles && y <= cycles
            && (c > ratio || y == 0) && (cnt > ratio ==> c == cnt && y == cycles)
            && cnt <= c <= Top(ratio, cnt, cycles)
            && (cnt <= ratio && cycles > 0 ==> y < cycles)
    decreases cycles
  {
    if cnt <= ratio && cycles > 0 {
      assert ToShort(cnt + 16 * Chunk(cycles)) == cnt + 16 * Chunk(cycles);
      FeedConserves(ratio, cnt + 16 * Chunk(cycles), cycles - Chunk(cycles));
    }
  }

  /** One chunk more. */
  lemma FeedStep(ratio: nat, cnt: int, cycles: nat)
    requires NoWrap(ratio) && 0 <= cnt <= SHORT_MAX
    ensures cnt > ratio || cycles == 0 ==> Feed(ratio, cnt, cycles) == (cnt, cycles)
    ensures cnt <= ratio && cycles > 0 ==>
              && 1 <= Chunk(cycles) <= cycles && ToShort(cnt + 16 * Chunk(cycles)) == cnt + 16 * Chunk(cycles) <= SHORT_MAX
              && Feed(ratio, cnt, cycles) == Feed(ratio, cnt + 16 * Chunk(cycles), cycles - Chunk(cycles))
  {
    if cnt <= ratio && cycles > 0 {
      assert ToShort(cnt + 16 * Chunk(cycles)) == cnt + 16 * Chunk(cycles);
    }
  }

  /** clock(): the number of samples, and the count that is left. */
  function Clocked(ratio: nat, cnt: int, cycles: nat): (nat, int)
    requires NoWrap(ratio) && 0 <= cnt <= SHORT_MAX
    decreases cycles, cnt
  {
    if cycles == 0 then (0, cnt) else
      FeedConserves(ratio, cnt, cycles);
      var (c, y) := Feed(ratio, cnt, cycles);
      if c > ratio then
        var (k, last) := Clocked(ratio, c - ratio, y);
        (1 + k, last)
      else (0, c)
  }

  /** No count is lost: what is fed is what the samples take and what is left. */
  lemma {:induction false} ClockConserves(ratio: nat, cnt: int, cycles: nat)
    requires NoWrap(ratio) && 0 <= cnt <= SHORT_MAX
    ensures var (k, last) := Clocked(ratio, cnt, cycles);
            cnt + 16 * cycles == ratio * k + last && 0 <= last <= SHORT_MAX
    decreases cycles, cnt
  {
    if cycles > 0 {
      FeedConserves(ratio, cnt, cycles);
      var (c, y) := Feed(ratio, cnt, cycles);
      if c > ratio {
        ClockConserves(ratio, c - ratio, y);
        var (k, last) := Clocked(ratio, c - ratio, y);
        assert ratio * (1 + k) == ratio + ratio * k;
      }
    }
  }

  /** One chunk brings at most one sample. */
  predicate ChunkFits(ratio: nat, cycles: nat) { 16 * Chunk(cycles) <= ratio }

  /** When a chunk brings at most one sample, no sample is left pending at the end of a call. */
  lemma {:induction false} NothingPending(ratio: nat, cnt: int, cycles: nat)
    requires NoWrap(ratio) && 0 <= cnt <= ratio && ChunkFits(ratio, cycles)
    ensures var (k, last) := Clocked(ratio, cnt, cycles); last <= ratio && (cycles > 0 || cnt > 0 ==> last > 0)
    decreases cycles, cnt
  {
    if cycles > 0 {
      FeedConserves(ratio, cnt, cycles);
      var (c, y) := Feed(ratio, cnt, cycles);
      if c > ratio {
        NothingPending(ratio, c - ratio, y);
      }
    }
  }

  // ----- Any number of calls -----

  function Total(calls: seq<nat>): nat
    decreases |calls|
  {
    if calls == [] then 0 else calls[0] + Total(calls[1..])
  }

  function Run(ratio: nat, cnt: int, calls: seq<nat>): (nat, int)
    requires NoWrap(ratio) && 0 <= cnt <= SHORT_MAX
    decreases |calls|
  {
    if calls == [] then (0, cnt) else
      ClockConserves(ratio, cnt, calls[0]);
      var (k, c) := Clocked(ratio, cnt, calls[0]);
      var (j, last) := Run(ratio, c, calls[1..]);
      (k + j, last)
  }

  lemma {:induction false} RunConserves(ratio: nat, cnt: int, calls: seq<nat>)
    requires NoWrap(ratio) && 0 <= cnt <= ratio && forall i | 0 <= i < |calls| :: ChunkFits(ratio, calls[i])
    ensures var (k, last) := Run(ratio, cnt, calls);
            && cnt + 16 * Total(calls) == ratio * k + last
            && last <= ratio && (Total(calls) > 0 || cnt > 0 ==> last > 0)
    decreases |calls|
  {
    hide Clocked;
    if calls != [] {
      ClockConserves(ratio, cnt, calls[0]);
      NothingPending(ratio, cnt, calls[0]);
      var (k, c) := Clocked(ratio, cnt, calls[0]);
      RunConserves(ratio, c, calls[1..]);
      var (j, last) := Run(ratio, c, calls[1..]);
      assert ratio * (k + j) == ratio * k + ratio * j;
    }
  }

  /** From a reset on, at a ratio of at least 112, the number of samples depends only on the number of cycles:
      16 N = ratio * samples + remainder with the remainder in (0, ratio], however the cycles are split. */
  lemma SplitsAgree(ratio: nat, calls: seq<nat>)
    requires 112 <= ratio && ratio + 112 <= SHORT_MAX
    ensures var n := Total(calls);
            var (k, last) := Run(ratio, 0, calls);
            && 16 * n == ratio * k + last && last <= ratio && (n > 0 ==> 0 < last)
            && k == (if n == 0 then 0 else (16 * n - 1) / ratio)
  {
    var n := Total(calls);
    var (k, last) := Run(ratio, 0, calls);
    RunConserves(ratio, 0, calls);
    if n > 0 {
      DivModUnique(16 * n - 1, ratio, k, last - 1);
    } else {
      assert k > 0 ==> ratio * k >= ratio;
      assert last == 0;
    }
  }

  // ----- Below 112 -----

  lemma {:induction false} RunConcat(ratio: nat, cnt: int, p: seq<nat>, q: seq<nat>)
    requires NoWrap(ratio) && 0 <= cnt <= SHORT_MAX
    ensures 0 <= Run(ratio, cnt, p).1 <= SHORT_MAX
    ensures var (k, c) := Run(ratio, cnt, p); Run(ratio, cnt, p + q).0 == k + Run(ratio, c, q).0
    decreases |p|
  {
    hide Clocked;
    if p == [] {
      assert p + q == q;
    } else {
      assert (p + q)[1..] == p[1..] + q;
      ClockConserves(ratio, cnt, p[0]);
      RunConcat(ratio, Clocked(ratio, cnt, p[0]).1, p[1..], q);
    }
  }

  lemma {:induction false} TotalConcat(p: seq<nat>, q: seq<nat>)
    ensures Total(p + q) == Total(p) + Total(q)
    decreases |p|
  {
    if p == [] {
      assert p + q == q;
    } else {
      assert (p + q)[1..] == p[1..] + q;
      TotalConcat(p[1..], q);
    }
  }

  function Ones(n: nat): seq<nat> { if n == 0 then [] else [1] + Ones(n - 1) }

  lemma {:induction false} OnesAreOnes(n: nat)
    ensures Total(Ones(n)) == n && forall i | 0 <= i < |Ones(n)| :: Ones(n)[i] == 1
  {
    if n > 0 {
      OnesAreOnes(n - 1);
      assert Ones(n)[1..] == Ones(n - 1);
    }
  }

  lemma RunOne(ratio: nat, cnt: int, n: nat)
    requires NoWrap(ratio) && 0 <= cnt <= SHORT_MAX
    ensures Run(ratio, cnt, [n]).0 == Clocked(ratio, cnt, n).0
  {
    ClockConserves(ratio, cnt, n);
    assert [n][1..] == [];
  }

  lemma RunTwo(ratio: nat, cnt: int, n: nat, m: nat)
    requires NoWrap(ratio) && 0 <= cnt <= SHORT_MAX
    ensures 0 <= Clocked(ratio, cnt, n).1 <= SHORT_MAX
    ensures Run(ratio, cnt, [n, m]).0 == Clocked(ratio, cnt, n).0 + Clocked(ratio, Clocked(ratio, cnt, n).1, m).0
  {
    ClockConserves(ratio, cnt, n);
    assert [n, m][1..] == [m];
    RunOne(ratio, Clocked(ratio, cnt, n).1, m);
  }

  lemma OneSample(ratio: nat, cnt: int, n: nat)
    requires NoWrap(ratio) && 0 <= cnt <= ratio < cnt + 16 * n && 0 < n <= 7
    ensures Clocked(ratio, cnt, n) == (1, cnt + 16 * n - ratio)
  {
    assert Feed(ratio, cnt + 16 * n, 0) == (cnt + 16 * n, 0);
    assert Feed(ratio, cnt, n) == (cnt + 16 * n, 0);
    hide Feed;
  }

  lemma ASample(ratio: nat, cnt: int)
    requires NoWrap(ratio) && 0 <= cnt <= SHORT_MAX && ratio < cnt + 16
    ensures Clocked(ratio, cnt, 1).0 >= 1
  {
    FeedConserves(ratio, cnt, 1);
    hide Feed;
  }

  /** Seven cycles at once bring one sample where six and one bring two. */
  lemma SevenAtOnce(ratio: nat, cnt: int)
    requires 1 <= ratio < 112 && (if ratio < 48 then cnt == 0 else cnt == ratio)
    ensures Run(ratio, cnt, [7]).0 == 1 && Run(ratio, cnt, [6, 1]).0 >= 2
  {
    RunOne(ratio, cnt, 7);
    RunTwo(ratio, cnt, 6, 1);
    OneSample(ratio, cnt, 7);
    OneSample(ratio, cnt, 6);
    ASample(ratio, cnt + 96 - ratio);
    hide Clocked;
  }

  /** Below 112 the number of samples does depend on the calls. */
  lemma SplitsDisagree(ratio: nat) returns (p: seq<nat>, q: seq<nat>)
    requires 1 <= ratio < 112
    ensures Total(p) == Total(q) && Run(ratio, 0, p).0 != Run(ratio, 0, q).0
  {
    hide Clocked, Feed;
    if ratio < 48 {
      p, q := [7], [6, 1];
      SevenAtOnce(ratio, 0);
    } else {
      var ones := Ones(ratio);
      p, q := ones + [7], ones + [6, 1];
      OnesAreOnes(ratio);
      TotalConcat(ones, [7]);
      TotalConcat(ones, [6, 1]);
      RunConserves(ratio, 0, ones);
      var (k, c) := Run(ratio, 0, ones);
      DivModUnique(16 * ratio - 1, ratio, k, c - 1);
      DivModUnique(16 * ratio - 1, ratio, 15, ratio - 1);
      RunConcat(ratio, 0, ones, [7]);
      RunConcat(ratio, 0, ones, [6, 1]);
      SevenAtOnce(ratio, c);
    }
    assert Total([7]) == 7 && Total([6, 1]) == 7 by {
      assert [7][1..] == [] && [6, 1][1..] == [1] && [1][1..] == [];
    }
  }

  /** So 112 is exactly where splitting stops mattering. */
  lemma SplittingIsInvisibleIff(ratio: nat)
    requires NoWrap(ratio)
    ensures (forall p: seq<nat>, q: seq<nat> | Total(p) == Total(q) :: Run(ratio, 0, p).0 == Run(ratio, 0, q).0) <==> ratio >= 112
  {
    hide Run, Total;
    if ratio >= 112 {
      forall p: seq<nat>, q: seq<nat> | Total(p) == Total(q) ensures Run(ratio, 0, p).0 == Run(ratio, 0, q).0 {
        SplitsAgree(ratio, p);
        SplitsAgree(ratio, q);
      }
    } else {
      var p, q := SplitsDisagree(ratio);
    }
  }

  /** setSamplingParameters(): the ratio as it is stored, in 16 bits. */
  function SampleClockRatio(clockFrequency: nat, samplingFrequency: nat): nat
    requires samplingFrequency > 0
  {
    clockFrequency * 16 % 0x1_0000_0000 / samplingFrequency % 0x1_0000
  }

  /** The sampling rates it accepts, at any system clock from 336 kHz to 16.3 MHz, stay in the good range. */
  lemma RealRatios(clockFrequency: nat, samplingFrequency: nat)
    requires 8000 <= samplingFrequency <= 48000 && 336000 <= clockFrequency <= 16327999
    ensures var ratio := SampleClockRatio(clockFrequency, samplingFrequency); 112 <= ratio && NoWrap(ratio)
  {
    RatioBetween(clockFrequency * 16, samplingFrequency);
  }

  lemma RatioBetween(c: nat, f: nat)
    requires f > 0 && 112 * f <= c < 32656 * f
    ensures 112 <= c / f < 32656
  {
    var r := c / f;
    assert c == r * f + c % f;
    AtMost(r, 111, f);
    AtMost(32656, r, f);
  }

  lemma AtMost(x: int, y: int, f: nat)
    ensures x <= y ==> x * f <= y * f
  {
    if x <= y {
      assert y * f == x * f + (y - x) * f;
    }
  }

  // ----- The chip -----

  function Saturate(sample: int): int {
    if sample > SHORT_MAX then SHORT_MAX else if sample < -0x8000 then -0x8000 else sample
  }

  function Distance(x: int, y: int): nat { if x < y then y - x else x - y }

  /** Saturating takes the nearest 16-bit sample. */
  lemma SaturateIsNearest(x: int)
    ensures -0x8000 <= Saturate(x) <= 0x7fff
    ensures forall y | -0x8000 <= y <= 0x7fff :: Distance(x, Saturate(x)) <= Distance(x, y)
  {
  }

  class SID {
    var sampleCycleCnt: int
    var ratio: nat
    /** These stand for the rest of the chip: cycles the envelopes have been clocked, and samples drawn from the
        wave generators and the filter. */
    var envelopeCycles: nat
    var samples: nat

    ghost predicate Valid()
      reads this
    {
      NoWrap(ratio) && 0 <= sampleCycleCnt <= SHORT_MAX
    }

    constructor ()
      ensures sampleCycleCnt == 0 && envelopeCycles == 0 && samples == 0
    {
      sampleCycleCnt, envelopeCycles, samples, ratio := 0, 0, 0, 0;
    }

    /** Advances until a sample is due; `sound` stands for wave generators and filter. */
    method GenerateSample(cycles: nat, sound: nat -> int) returns (ready: bool, left: nat, output: int)
      requires Valid()
      modifies this`sampleCycleCnt, this`envelopeCycles, this`samples
      ensures Valid()
      ensures var (c, y) := Feed(ratio, old(sampleCycleCnt), cycles);
              && left == y <= cycles && ready == (c > ratio)
              && sampleCycleCnt == (if ready then c - ratio else c)
              && (ready ==> output == Saturate(sound(old(samples))))
              && samples == old(samples) + (if ready then 1 else 0)
              && envelopeCycles == old(envelopeCycles) + (cycles - y)
    {
      hide Saturate, Feed, ToShort, Chunk;
      ghost var cnt := sampleCycleCnt;
      left, output := cycles, 0;
      FeedConserves(ratio, cnt, cycles);
      FeedStep(ratio, cnt, cycles);
      while sampleCycleCnt <= ratio
        invariant Valid() && left <= cycles && envelopeCycles == old(envelopeCycles) + (cycles - left)
        invariant samples == old(samples)
        invariant Feed(ratio, sampleCycleCnt, left) == Feed(ratio, cnt, cycles)
        invariant sampleCycleCnt > ratio || left == 0 ==> Feed(ratio, cnt, cycles) == (sampleCycleCnt as int, left)
        decreases left
      {
        if left == 0 {
          ready := false;
          return;
        }
        FeedStep(ratio, sampleCycleCnt, left);
        var instructionCycles := Chunk(left);
        sampleCycleCnt := ToShort(sampleCycleCnt + 16 * instructionCycles);
        left := left - instructionCycles;
        envelopeCycles := envelopeCycles + instructionCycles;
        FeedStep(ratio, sampleCycleCnt, left);
      }
      sampleCycleCnt := sampleCycleCnt - ratio;
      ready, output := true, Saturate(sound(samples));
      samples := samples + 1;
    }

    /** Writes the samples of these cycles to the buffer from position `at`; the count bounds how many there are. */
    method Clock(cycles: nat, buf: array<int>, at: nat, sound: nat -> int) returns (n: nat)
      requires Valid() && at + (sampleCycleCnt + 16 * cycles) / ratio <= buf.Length
      modifies this`sampleCycleCnt, this`envelopeCycles, this`samples, buf
      ensures Valid() && (n, sampleCycleCnt) == Clocked(ratio, old(sampleCycleCnt), cycles)
      ensures old(sampleCycleCnt) + 16 * cycles == ratio * n + sampleCycleCnt && at + n <= buf.Length
      ensures envelopeCycles == old(envelopeCycles) + cycles && samples == old(samples) + n
      ensures forall k | 0 <= k < buf.Length ::
                buf[k] == if at <= k < at + n then Saturate(sound(old(samples) + (k - at))) else old(buf[k])
    {
      hide Feed;
      n := 0;
      var left: nat := cycles;
      ghost var all := Clocked(ratio, sampleCycleCnt, cycles);
      ClockConserves(ratio, sampleCycleCnt, cycles);
      SamplesFit(ratio, sampleCycleCnt + 16 * cycles, all.0, all.1);
      while left > 0
        invariant Valid() && left <= cycles && envelopeCycles == old(envelopeCycles) + (cycles - left)
        invariant var (k, last) := Clocked(ratio, sampleCycleCnt, left); n + k == all.0 && last == all.1
        invariant samples == old(samples) + n
        invariant forall k | 0 <= k < buf.Length ::
                    buf[k] == if at <= k < at + n then Saturate(sound(old(samples) + (k - at))) else old(buf[k])
        decreases left, sampleCycleCnt
      {
        FeedConserves(ratio, sampleCycleCnt, left);
        var ready, rest, output := GenerateSample(left, sound);
        left := rest;
        if ready {
          buf[at + n] := output;
          n := n + 1;
        }
      }
    }
  }

  lemma SamplesFit(ratio: nat, total: int, k: nat, last: nat)
    requires ratio > 0 && total == ratio * k + last
    ensures k <= total / ratio
  {
    var q := total / ratio;
    assert total == q * ratio + total % ratio;
    assert k >= q + 1 ==> ratio * k >= ratio * (q + 1);
  }
}
