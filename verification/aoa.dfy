/**
 * The angle-of-arrival front end of aoa.c: the IQ sample demultiplexer that
 * fills the reference and antenna buffers, the channel-to-frequency map, the
 * classification of the IQ sample quality bitmask, and the result copying of
 * aoa_calculate. The AoX estimator itself, the distance estimate from RSSI and
 * the distance filter are library calls and appear here as parameters.
 */
module Aoa {
  import opened AoaTypes
  import opened Conn

  // ---------------------------------------------------------------------------
  // Channel to frequency
  // ---------------------------------------------------------------------------

  /** logical_to_physical_channel: channel index to RF channel number. */
  const LOGICAL_TO_PHYSICAL_CHANNEL: seq<nat> :=
    [1, 2, 3, 4, 5, 6, 7, 8, 9, 10, 11,
     13, 14, 15, 16, 17, 18, 19, 20, 21,
     22, 23, 24, 25, 26, 27, 28, 29, 30,
     31, 32, 33, 34, 35, 36, 37, 38,
     0, 12, 39]

  const BASE_FREQUENCY_HZ: nat := 2402000000
  const CHANNEL_SPACING_HZ: nat := 2000000

  /**
   * The RF channel that carries a channel index, as section 1.4.1 of the
   * Bluetooth Core Specification, Vol 6, Part B assigns it: data channels
   * 0-10 sit on RF channels 1-11, data channels 11-36 on RF channels 13-38,
   * and the advertising channels 37, 38, 39 on RF channels 0, 12, 39.
   */
  function RfChannel(channel: ChannelIndex): nat {
    if channel <= 10 then channel + 1
    else if channel <= 36 then channel + 2
    else if channel == 37 then 0
    else if channel == 38 then 12
    else 39
  }

  /** The channel index an RF channel carries: the inverse of RfChannel. */
  function ChannelOfRf(rf: nat): ChannelIndex
    requires rf < 40
  {
    if rf == 0 then 37
    else if rf <= 11 then rf - 1
    else if rf == 12 then 38
    else if rf <= 38 then rf - 2
    else 39
  }

  /** The table of aoa.c agrees entry by entry with the Core Specification's assignment. */
  lemma TableIsRfChannel(channel: ChannelIndex)
    ensures |LOGICAL_TO_PHYSICAL_CHANNEL| == 40
    ensures LOGICAL_TO_PHYSICAL_CHANNEL[channel] == RfChannel(channel)
  {
  }

  /**
   * The table is a permutation of 0..39: every RF channel is carried by
   * exactly one channel index.
   */
  lemma {:induction false} TableIsPermutation()
    ensures forall channel: ChannelIndex :: LOGICAL_TO_PHYSICAL_CHANNEL[channel] < 40
    ensures forall channel: ChannelIndex :: ChannelOfRf(LOGICAL_TO_PHYSICAL_CHANNEL[channel]) == channel
    ensures forall rf :: 0 <= rf < 40 ==> LOGICAL_TO_PHYSICAL_CHANNEL[ChannelOfRf(rf)] == rf
  {
    forall channel: ChannelIndex
      ensures LOGICAL_TO_PHYSICAL_CHANNEL[channel] < 40
      ensures ChannelOfRf(LOGICAL_TO_PHYSICAL_CHANNEL[channel]) == channel
    {
      TableIsRfChannel(channel);
    }
    forall rf | 0 <= rf < 40
      ensures LOGICAL_TO_PHYSICAL_CHANNEL[ChannelOfRf(rf)] == rf
    {
      TableIsRfChannel(ChannelOfRf(rf));
    }
  }

  /**
   * calc_frequency_from_channel: the centre frequency in Hz of the RF
   * channel that carries the channel index, 2402 MHz plus 2 MHz per RF
   * channel, so within the 2402-2480 MHz band. The C function indexes its
   * 40-entry table without a check; for an index past 39 it reads memory
   * beyond the table, which this model does not know, so the result is None.
   */
  function CalcFrequencyFromChannel(channel: byte): (hz: Option<nat>)
    ensures hz.Some? <==> channel < 40
    ensures channel < 40 ==>
      && hz.value == BASE_FREQUENCY_HZ + CHANNEL_SPACING_HZ * RfChannel(channel as int)
      && 2402000000 <= hz.value <= 2480000000
  {
    if channel < 40 then
      TableIsRfChannel(channel as int);
      Some(BASE_FREQUENCY_HZ + CHANNEL_SPACING_HZ * LOGICAL_TO_PHYSICAL_CHANNEL[channel])
    else
      None
  }

  /** The advertising channels and data channel 0 land where the Core Specification puts them. */
  lemma FrequencyExamples()
    ensures CalcFrequencyFromChannel(37) == Some(2402000000)
    ensures CalcFrequencyFromChannel(38) == Some(2426000000)
    ensures CalcFrequencyFromChannel(39) == Some(2480000000)
    ensures CalcFrequencyFromChannel(0) == Some(2404000000)
    ensures CalcFrequencyFromChannel(40) == None
  {
  }

  /** Distinct channel indices within the table are given distinct frequencies. */
  lemma FrequencyInjective(a: byte, b: byte)
    ensures CalcFrequencyFromChannel(a).Some? && CalcFrequencyFromChannel(a) == CalcFrequencyFromChannel(b) ==> a == b
  {
    TableIsPermutation();
  }

  // ---------------------------------------------------------------------------
  // IQ sample quality
  // ---------------------------------------------------------------------------

  /** A bit of the quality bitmask that sl_rtl_aox_iq_sample_qa_get_results returns. */
  datatype QaBit = RefAntPhaseJitter | AntXPhaseJitter | Sndr | OtherQaBit(position: nat)

  /** The four messages aoa_calculate picks between. */
  datatype IqSampleQuality = Good | PhaseJitterTooLarge | ReferenceSndrTooLow | CautionOther

  /**
   * The quality category of a bitmask, by priority: an empty mask is good;
   * either phase jitter bit wins over the SNDR bit; any other bit alone is
   * "other".
   */
  function ClassifyQuality(qa: set<QaBit>): (q: IqSampleQuality)
    ensures q == Good <==> qa == {}
    ensures q == PhaseJitterTooLarge <==> RefAntPhaseJitter in qa || AntXPhaseJitter in qa
    ensures q == ReferenceSndrTooLow <==>
      Sndr in qa && RefAntPhaseJitter !in qa && AntXPhaseJitter !in qa
    ensures q == CautionOther <==>
      qa != {} && Sndr !in qa && RefAntPhaseJitter !in qa && AntXPhaseJitter !in qa
  {
    if qa == {} then Good
    else if RefAntPhaseJitter in qa || AntXPhaseJitter in qa then PhaseJitterTooLarge
    else if Sndr in qa then ReferenceSndrTooLow
    else CautionOther
  }

  // ---------------------------------------------------------------------------
  // Sample demultiplexer
  // ---------------------------------------------------------------------------

  /** Index of the first antenna sample: the reference period holds 7 I,Q pairs. */
  const REF_SAMPLES_END: nat := 2 * AOA_REF_PERIOD_SAMPLES
  /** One past the last antenna sample: 4 snapshots of 16 antennas, one I,Q pair each. */
  const GRID_SAMPLES_END: nat := REF_SAMPLES_END + 2 * AOA_NUM_SNAPSHOTS * AOA_NUM_ARRAY_ELEMENTS

  /** A sample scaled by 1/127 to the range the estimator takes. */
  function Normalize(x: int8): real {
    x as real / 127.0
  }

  /**
   * The sample get_samples reads at index k. Reads at or past the end of the
   * report yield 0.0 here; in the source they read whatever memory follows.
   */
  function SampleAt(samples: seq<int8>, k: nat): real {
    if k < |samples| then Normalize(samples[k]) else 0.0
  }

  /** The index of the I sample of antenna a in snapshot s. */
  function GridIndex(s: nat, a: nat): nat {
    REF_SAMPLES_END + 2 * (AOA_NUM_ARRAY_ELEMENTS * s + a)
  }

  /**
   * How far the reference loop reads: it stops right after the sample that
   * makes the index equal the length, which happens only for 1 <= length <= 14;
   * otherwise it reads all 14 reference samples.
   */
  function ReferenceEnd(n: nat): nat {
    if 0 < n <= REF_SAMPLES_END then n else REF_SAMPLES_END
  }

  /**
   * How far the antenna loops read, starting over at index 14: they stop at
   * the length only for 14 < length <= 142; otherwise they read through 141.
   */
  function GridEnd(n: nat): nat {
    if REF_SAMPLES_END < n <= GRID_SAMPLES_END then n else GRID_SAMPLES_END
  }

  /** The sample indices get_samples reads for a report of length n. */
  ghost predicate IsRead(n: nat, k: nat) {
    k < ReferenceEnd(n) || REF_SAMPLES_END <= k < GridEnd(n)
  }

  /**
   * Every index read lies inside the report exactly when the report is
   * longer than the reference period; the caller only rejects length 0.
   */
  lemma ReadsInBoundsIffLongerThanReference(n: nat)
    ensures (forall k: nat :: IsRead(n, k) ==> k < n) <==> n > REF_SAMPLES_END
  {
    if n <= REF_SAMPLES_END {
      assert IsRead(n, REF_SAMPLES_END) && !(REF_SAMPLES_END < n);
    }
  }

  /**
   * When the report is short of a full grid, reading ends exactly at the last
   * sample: the last index read is length - 1 and nothing after it is read.
   */
  lemma ReadingStopsAtLastSample(n: nat)
    requires REF_SAMPLES_END < n <= GRID_SAMPLES_END
    ensures IsRead(n, n - 1)
    ensures forall k :: k >= n ==> !IsRead(n, k)
  {
  }

  /** The four buffers the AoX estimator takes, as values. */
  datatype SampleSnapshot = SampleSnapshot(
    refI: seq<real>,
    refQ: seq<real>,
    i: seq<seq<real>>,
    q: seq<seq<real>>)

  /**
   * ref_i_samples, ref_q_samples, i_samples and q_samples: four
   * AOA_NUM_SNAPSHOTS x AOA_NUM_ARRAY_ELEMENTS buffers of which the reference
   * pair uses row 0, columns below AOA_REF_PERIOD_SAMPLES.
   */
  class SampleBuffers {
    const refI: array2<real>
    const refQ: array2<real>
    const iSamples: array2<real>
    const qSamples: array2<real>

    ghost predicate Valid()
      reads this
    {
      && refI.Length0 == AOA_NUM_SNAPSHOTS && refI.Length1 == AOA_NUM_ARRAY_ELEMENTS
      && refQ.Length0 == AOA_NUM_SNAPSHOTS && refQ.Length1 == AOA_NUM_ARRAY_ELEMENTS
      && iSamples.Length0 == AOA_NUM_SNAPSHOTS && iSamples.Length1 == AOA_NUM_ARRAY_ELEMENTS
      && qSamples.Length0 == AOA_NUM_SNAPSHOTS && qSamples.Length1 == AOA_NUM_ARRAY_ELEMENTS
      && refI != refQ && refI != iSamples && refI != qSamples
      && refQ != iSamples && refQ != qSamples && iSamples != qSamples
    }

    /** aoa_init_buffers, with the buffers zeroed. */
    constructor ()
      ensures Valid()
      ensures fresh(refI) && fresh(refQ) && fresh(iSamples) && fresh(qSamples)
    {
      refI := new real[AOA_NUM_SNAPSHOTS, AOA_NUM_ARRAY_ELEMENTS]((_, _) => 0.0);
      refQ := new real[AOA_NUM_SNAPSHOTS, AOA_NUM_ARRAY_ELEMENTS]((_, _) => 0.0);
      iSamples := new real[AOA_NUM_SNAPSHOTS, AOA_NUM_ARRAY_ELEMENTS]((_, _) => 0.0);
      qSamples := new real[AOA_NUM_SNAPSHOTS, AOA_NUM_ARRAY_ELEMENTS]((_, _) => 0.0);
    }

    /**
     * The reference pair after a report of these samples: ref_i[0][k] holds
     * sample 2k and ref_q[0][k] sample 2k+1 for the indices the reference
     * loop reads; every other cell keeps its value.
     */
    twostate predicate ReferenceLoaded(samples: seq<int8>)
      reads this, refI, refQ
      requires Valid()
    {
      && (forall r, c :: 0 <= r < AOA_NUM_SNAPSHOTS && 0 <= c < AOA_NUM_ARRAY_ELEMENTS ==>
            refI[r, c] == if r == 0 && c < AOA_REF_PERIOD_SAMPLES && 2 * c < ReferenceEnd(|samples|)
                          then SampleAt(samples, 2 * c) else old(refI[r, c]))
      && (forall r, c :: 0 <= r < AOA_NUM_SNAPSHOTS && 0 <= c < AOA_NUM_ARRAY_ELEMENTS ==>
            refQ[r, c] == if r == 0 && c < AOA_REF_PERIOD_SAMPLES && 2 * c + 1 < ReferenceEnd(|samples|)
                          then SampleAt(samples, 2 * c + 1) else old(refQ[r, c]))
    }

    /**
     * The antenna grid after a report of these samples: i[s][a] holds sample
     * GridIndex(s, a) and q[s][a] the one after it, for the indices the
     * antenna loops read; every other cell keeps its value.
     */
    twostate predicate GridLoaded(samples: seq<int8>)
      reads this, iSamples, qSamples
      requires Valid()
    {
      && (forall s, a :: 0 <= s < AOA_NUM_SNAPSHOTS && 0 <= a < AOA_NUM_ARRAY_ELEMENTS ==>
            iSamples[s, a] == if GridIndex(s, a) < GridEnd(|samples|)
                              then SampleAt(samples, GridIndex(s, a)) else old(iSamples[s, a]))
      && (forall s, a :: 0 <= s < AOA_NUM_SNAPSHOTS && 0 <= a < AOA_NUM_ARRAY_ELEMENTS ==>
            qSamples[s, a] == if GridIndex(s, a) + 1 < GridEnd(|samples|)
                              then SampleAt(samples, GridIndex(s, a) + 1) else old(qSamples[s, a]))
    }

    /** The reference loop of get_samples. */
    method FillReference(samples: seq<int8>)
      requires Valid()
      modifies refI, refQ
      ensures ReferenceLoaded(samples)
    {
      var n := |samples|;
      var index := 0;
      var sample := 0;
      while sample < AOA_REF_PERIOD_SAMPLES
        invariant 0 <= sample <= AOA_REF_PERIOD_SAMPLES
        invariant index == 2 * sample
        invariant n == 0 || index < n
        invariant forall r, c :: 0 <= r < AOA_NUM_SNAPSHOTS && 0 <= c < AOA_NUM_ARRAY_ELEMENTS ==>
          refI[r, c] == if r == 0 && c < AOA_REF_PERIOD_SAMPLES && 2 * c < index
                        then SampleAt(samples, 2 * c) else old(refI[r, c])
        invariant forall r, c :: 0 <= r < AOA_NUM_SNAPSHOTS && 0 <= c < AOA_NUM_ARRAY_ELEMENTS ==>
          refQ[r, c] == if r == 0 && c < AOA_REF_PERIOD_SAMPLES && 2 * c + 1 < index
                        then SampleAt(samples, 2 * c + 1) else old(refQ[r, c])
      {
        refI[0, sample] := SampleAt(samples, index);
        index := index + 1;
        if index == n {
          break;
        }
        refQ[0, sample] := SampleAt(samples, index);
        index := index + 1;
        if index == n {
          break;
        }
        sample := sample + 1;
      }
      assert index == ReferenceEnd(n);
    }

    /**
     * One pass of the antenna loop of get_samples over a snapshot, starting at
     * the snapshot's first I sample; it stops right after the sample that
     * makes the index equal the length and returns the index reached.
     */
    method FillSnapshot(samples: seq<int8>, snapshot: nat, start: nat) returns (index: nat)
      requires Valid()
      requires snapshot < AOA_NUM_SNAPSHOTS && start == GridIndex(snapshot, 0)
      requires |samples| <= REF_SAMPLES_END || start < |samples|
      modifies iSamples, qSamples
      ensures start < index <= GridIndex(snapshot + 1, 0)
      ensures index == |samples| || (index == GridIndex(snapshot + 1, 0) && (|samples| <= REF_SAMPLES_END || index < |samples|))
      ensures forall s, a :: 0 <= s < AOA_NUM_SNAPSHOTS && 0 <= a < AOA_NUM_ARRAY_ELEMENTS ==>
        iSamples[s, a] == if s == snapshot && GridIndex(s, a) < index
                          then SampleAt(samples, GridIndex(s, a)) else old(iSamples[s, a])
      ensures forall s, a :: 0 <= s < AOA_NUM_SNAPSHOTS && 0 <= a < AOA_NUM_ARRAY_ELEMENTS ==>
        qSamples[s, a] == if s == snapshot && GridIndex(s, a) + 1 < index
                          then SampleAt(samples, GridIndex(s, a) + 1) else old(qSamples[s, a])
    {
      var n := |samples|;
      index := start;
      var antenna := 0;
      while antenna < AOA_NUM_ARRAY_ELEMENTS
        invariant 0 <= antenna <= AOA_NUM_ARRAY_ELEMENTS
        invariant index == GridIndex(snapshot, antenna)
        invariant n <= REF_SAMPLES_END || index < n
        invariant forall s, a :: 0 <= s < AOA_NUM_SNAPSHOTS && 0 <= a < AOA_NUM_ARRAY_ELEMENTS ==>
          iSamples[s, a] == if s == snapshot && a < antenna
                            then SampleAt(samples, GridIndex(s, a)) else old(iSamples[s, a])
        invariant forall s, a :: 0 <= s < AOA_NUM_SNAPSHOTS && 0 <= a < AOA_NUM_ARRAY_ELEMENTS ==>
          qSamples[s, a] == if s == snapshot && a < antenna
                            then SampleAt(samples, GridIndex(s, a) + 1) else old(qSamples[s, a])
      {
        iSamples[snapshot, antenna] := SampleAt(samples, index);
        index := index + 1;
        if index == n {
          return;
        }
        qSamples[snapshot, antenna] := SampleAt(samples, index);
        index := index + 1;
        if index == n {
          return;
        }
        antenna := antenna + 1;
      }
    }

    /** The antenna loops of get_samples, which start over at index 14. */
    method FillGrid(samples: seq<int8>)
      requires Valid()
      modifies iSamples, qSamples
      ensures GridLoaded(samples)
    {
      var n := |samples|;
      var index := REF_SAMPLES_END;
      var snapshot := 0;
      while snapshot < AOA_NUM_SNAPSHOTS
        invariant 0 <= snapshot <= AOA_NUM_SNAPSHOTS
        invariant index == GridIndex(snapshot, 0)
        invariant n <= REF_SAMPLES_END || index < n
        invariant forall s, a :: 0 <= s < AOA_NUM_SNAPSHOTS && 0 <= a < AOA_NUM_ARRAY_ELEMENTS ==>
          iSamples[s, a] == if s < snapshot
                            then SampleAt(samples, GridIndex(s, a)) else old(iSamples[s, a])
        invariant forall s, a :: 0 <= s < AOA_NUM_SNAPSHOTS && 0 <= a < AOA_NUM_ARRAY_ELEMENTS ==>
          qSamples[s, a] == if s < snapshot
                            then SampleAt(samples, GridIndex(s, a) + 1) else old(qSamples[s, a])
      {
        index := FillSnapshot(samples, snapshot, index);
        if index == n {
          break;
        }
        snapshot := snapshot + 1;
      }
    }

    /**
     * get_samples: de-interleaves the report into the reference pair and the
     * antenna grid, stopping right after the last sample.
     */
    method GetSamples(samples: seq<int8>)
      requires Valid()
      modifies refI, refQ, iSamples, qSamples
      ensures ReferenceLoaded(samples)
      ensures GridLoaded(samples)
    {
      FillReference(samples);
      label referenceDone:
      FillGrid(samples);
      assert ReferenceLoaded@referenceDone(samples);
    }

    /** The buffers as the estimator sees them. */
    function Snapshot(): SampleSnapshot
      reads this, refI, refQ, iSamples, qSamples
      requires Valid()
    {
      SampleSnapshot(
        seq(AOA_REF_PERIOD_SAMPLES, k reads refI requires 0 <= k < AOA_REF_PERIOD_SAMPLES => refI[0, k]),
        seq(AOA_REF_PERIOD_SAMPLES, k reads refQ requires 0 <= k < AOA_REF_PERIOD_SAMPLES => refQ[0, k]),
        seq(AOA_NUM_SNAPSHOTS, s reads iSamples requires 0 <= s < AOA_NUM_SNAPSHOTS =>
          seq(AOA_NUM_ARRAY_ELEMENTS, a reads iSamples requires 0 <= a < AOA_NUM_ARRAY_ELEMENTS => iSamples[s, a])),
        seq(AOA_NUM_SNAPSHOTS, s reads qSamples requires 0 <= s < AOA_NUM_SNAPSHOTS =>
          seq(AOA_NUM_ARRAY_ELEMENTS, a reads qSamples requires 0 <= a < AOA_NUM_ARRAY_ELEMENTS => qSamples[s, a])))
    }
  }

  /**
   * A report of a full grid or more fills every buffer cell the estimator
   * uses from inside the report: ref_i[0][k] = sample 2k, ref_q[0][k] = sample
   * 2k+1, i[s][a] = sample 14 + 2(16s + a), q[s][a] = the one after it.
   */
  lemma FullReportLayout(n: nat)
    requires n >= GRID_SAMPLES_END
    ensures forall c :: 0 <= c < AOA_REF_PERIOD_SAMPLES ==> 2 * c + 1 < ReferenceEnd(n) && 2 * c + 1 < n
    ensures forall s, a :: 0 <= s < AOA_NUM_SNAPSHOTS && 0 <= a < AOA_NUM_ARRAY_ELEMENTS ==>
      GridIndex(s, a) + 1 < GridEnd(n) && GridIndex(s, a) + 1 < n
  {
  }

  // ---------------------------------------------------------------------------
  // aoa_calculate
  // ---------------------------------------------------------------------------

  /** The return code of sl_rtl_aox_process. */
  datatype AoxCode = AoxSuccess | AoxEstimationInProgress | AoxOtherError(code: nat)

  /**
   * What one run of the AoX estimator yields: its return code, the angles it
   * wrote and the quality bitmask fetched after it.
   */
  datatype AoxOutcome = AoxOutcome(code: AoxCode, azimuth: real, elevation: real, qa: set<QaBit>)

  /** aoa_calculate's status with the angle it fills on success. */
  datatype CalcResult = CalcOk(angle: Angle, quality: IqSampleQuality) | CalcFail

  /**
   * The result of aoa_calculate given the estimator's outcome and the
   * filtered distance estimate: OK only when the estimator succeeded (an
   * estimation still in progress is a failure), and then the angle carries
   * the estimator's azimuth and elevation, the distance, and the report's
   * rssi, channel and event counter.
   */
  function AngleFromEstimate(report: IqReport, outcome: AoxOutcome, distance: real): (r: CalcResult)
    ensures r.CalcOk? <==> outcome.code == AoxSuccess
    ensures outcome.code == AoxEstimationInProgress ==> r == CalcFail
    ensures r.CalcOk? ==>
      && r.angle.azimuth == outcome.azimuth
      && r.angle.elevation == outcome.elevation
      && r.angle.distance == distance
      && r.angle.rssi == report.rssi
      && r.angle.channel == report.channel
      && r.angle.sequence == report.eventCounter
      && r.quality == ClassifyQuality(outcome.qa)
  {
    if outcome.code == AoxSuccess then
      CalcOk(Angle(outcome.azimuth, outcome.elevation, distance,
                   report.rssi, report.channel, report.eventCounter),
             ClassifyQuality(outcome.qa))
    else
      CalcFail
  }

  /**
   * aoa_calculate: loads the report's samples into the buffers, runs the
   * estimator of the locator session on them at the report's channel
   * frequency (None for a channel past the table, whose frequency word the
   * model does not know), and on success fills the angle from the estimate, the
   * session's filtered RSSI distance and the report.
   */
  method AoaCalculate(
    buffers: SampleBuffers,
    session: LocatorSession,
    report: IqReport,
    aox: (LocatorSession, SampleSnapshot, Option<nat>) -> AoxOutcome,
    distance: (LocatorSession, int8) -> real)
    returns (r: CalcResult)
    requires buffers.Valid()
    modifies buffers.refI, buffers.refQ, buffers.iSamples, buffers.qSamples
    ensures buffers.ReferenceLoaded(report.samples) && buffers.GridLoaded(report.samples)
    ensures r == AngleFromEstimate(report,
                                   aox(session, buffers.Snapshot(), CalcFrequencyFromChannel(report.channel)),
                                   distance(session, report.rssi))
  {
    buffers.GetSamples(report.samples);
    var outcome := aox(session, buffers.Snapshot(), CalcFrequencyFromChannel(report.channel));
    if outcome.code == AoxSuccess {
      var quality := ClassifyQuality(outcome.qa);
      var d := distance(session, report.rssi);
      var angle := Angle(outcome.azimuth, outcome.elevation, d, report.rssi, report.channel, report.eventCounter);
      r := CalcOk(angle, quality);
    } else {
      r := CalcFail;
    }
  }
}
