/**
 * The bookkeeping of the Whisper transcription service
 * (backend/whisper_service.py): the model-size lookup and the accuracy
 * counters that every transcription attempt updates. Loading the model,
 * downloading audio and transcribing are not part of this model.
 */
module WhisperMetrics {

  /** The keys of the `model_sizes` table. */
  const ModelSizes: set<string> := {"tiny", "base", "small", "medium", "large"}

  /** `model_sizes.get(model_size, 'tiny')`: a known size names itself, anything else the tiny model. */
  function ModelName(size: string): (name: string)
    ensures name in ModelSizes
    ensures size in ModelSizes ==> name == size
    ensures size !in ModelSizes ==> name == "tiny"
  {
    if size in ModelSizes then size else "tiny"
  }

  /** Looking a resolved name up again changes nothing. */
  lemma ModelNameIdempotent(size: string)
    ensures ModelName(ModelName(size)) == ModelName(size)
  {
  }

  function Sum(xs: seq<real>): real {
    if xs == [] then 0.0 else Sum(xs[..|xs| - 1]) + xs[|xs| - 1]
  }

  /** The arithmetic mean, 0 for no values. */
  function Mean(xs: seq<real>): real {
    if xs == [] then 0.0 else Sum(xs) / |xs| as real
  }

  lemma SumSnoc(xs: seq<real>, x: real)
    ensures Sum(xs + [x]) == Sum(xs) + x
  {
    assert (xs + [x])[..|xs|] == xs;
  }

  /**
   * The running-mean update of `_update_accuracy_metrics`: from the mean of
   * `xs` and the new value, `(mean * (n - 1) + x) / n` is the mean of `xs + [x]`.
   */
  lemma {:induction false} RunningMean(xs: seq<real>, x: real)
    ensures Mean(xs + [x]) == (Mean(xs) * |xs| as real + x) / (|xs| + 1) as real
  {
    SumSnoc(xs, x);
    var n := |xs| as real;
    if xs != [] {
      assert Mean(xs) * n == Sum(xs);
    }
  }

  /** The dictionary `get_accuracy_metrics` returns. */
  datatype Report = Report(
    totalVideosProcessed: nat,
    successfulGenerations: nat,
    failedGenerations: nat,
    averageProcessingTime: real,
    totalAudioDurationProcessed: real,
    successRate: real,                     // percent
    averageProcessingTimePerMinute: real)

  /** The report over the stored counters, with the two derived rates. */
  function ReportOf(total: nat, successful: nat, failed: nat, average: real, audio: real): (r: Report)
    ensures r.totalVideosProcessed == total && r.successfulGenerations == successful && r.failedGenerations == failed
    ensures r.averageProcessingTime == average && r.totalAudioDurationProcessed == audio
    ensures total == 0 ==> r.successRate == 0.0
    ensures successful <= total ==> 0.0 <= r.successRate <= 100.0
    ensures successful == total > 0 ==> r.successRate == 100.0
    ensures audio <= 0.0 ==> r.averageProcessingTimePerMinute == 0.0
    ensures audio > 0.0 ==> r.averageProcessingTimePerMinute * audio == average * 60.0
  {
    var rate := if total > 0 then successful as real / total as real * 100.0 else 0.0;
    assert successful <= total && total > 0 ==> successful as real / total as real <= 1.0;
    var perMinute := if audio > 0.0 then average / (audio / 60.0) else 0.0;
    Report(total, successful, failed, average, audio, rate, perMinute)
  }

  /** `WhisperService` without the model object and device: its size and its accuracy counters. */
  class WhisperService {
    var modelSize: string
    var modelName: string
    var totalVideosProcessed: nat
    var successfulGenerations: nat
    var failedGenerations: nat
    var averageProcessingTime: real
    var totalAudioDurationProcessed: real
    /** The processing time and audio duration of each successful generation, oldest first. */
    ghost var successTimes: seq<real>
    ghost var successDurations: seq<real>

    /** Every attempt is a success or a failure; the average and the total summarize the successes. */
    ghost predicate Valid()
      reads this
    {
      && totalVideosProcessed == successfulGenerations + failedGenerations
      && |successTimes| == successfulGenerations
      && |successDurations| == successfulGenerations
      && averageProcessingTime == Mean(successTimes)
      && totalAudioDurationProcessed == Sum(successDurations)
    }

    /** `__init__`: zeroed counters; the model name is resolved from the size (the load itself is not modelled). */
    constructor (size: string)
      ensures Valid()
      ensures modelSize == size && modelName == ModelName(size)
      ensures totalVideosProcessed == 0 && successfulGenerations == 0 && failedGenerations == 0
      ensures averageProcessingTime == 0.0 && totalAudioDurationProcessed == 0.0
      ensures successTimes == [] && successDurations == []
    {
      modelSize := size;
      modelName := if size in ModelSizes then size else "tiny";
      totalVideosProcessed, successfulGenerations, failedGenerations := 0, 0, 0;
      averageProcessingTime, totalAudioDurationProcessed := 0.0, 0.0;
      successTimes, successDurations := [], [];
    }

    /**
     * `_update_accuracy_metrics`: one more attempt; a success also counts as
     * a success, moves the average to the mean of all success times and adds
     * its audio duration, a failure only counts as a failure.
     */
    method UpdateAccuracyMetrics(success: bool, processingTime: real, audioDuration: real)
      requires Valid()
      modifies this
      ensures Valid()
      ensures modelSize == old(modelSize) && modelName == old(modelName)
      ensures totalVideosProcessed == old(totalVideosProcessed) + 1
      ensures success ==>
        && successfulGenerations == old(successfulGenerations) + 1
        && failedGenerations == old(failedGenerations)
        && successTimes == old(successTimes) + [processingTime]
        && successDurations == old(successDurations) + [audioDuration]
        && totalAudioDurationProcessed == old(totalAudioDurationProcessed) + audioDuration
      ensures !success ==>
        && successfulGenerations == old(successfulGenerations)
        && failedGenerations == old(failedGenerations) + 1
        && successTimes == old(successTimes) && successDurations == old(successDurations)
        && averageProcessingTime == old(averageProcessingTime)
        && totalAudioDurationProcessed == old(totalAudioDurationProcessed)
    {
      totalVideosProcessed := totalVideosProcessed + 1;
      if success {
        RunningMean(successTimes, processingTime);
        SumSnoc(successDurations, audioDuration);
        successfulGenerations := successfulGenerations + 1;
        assert (successfulGenerations - 1) as real == |successTimes| as real;
        assert successfulGenerations as real == (|successTimes| + 1) as real;
        averageProcessingTime :=
          (averageProcessingTime * (successfulGenerations - 1) as real + processingTime) / successfulGenerations as real;
        assert averageProcessingTime == Mean(successTimes + [processingTime]);
        totalAudioDurationProcessed := totalAudioDurationProcessed + audioDuration;
        successTimes := successTimes + [processingTime];
        successDurations := successDurations + [audioDuration];
      } else {
        failedGenerations := failedGenerations + 1;
      }
    }

    /** `get_accuracy_metrics`: a copy of the counters with the success rate and the time per audio minute. */
    method GetAccuracyMetrics() returns (r: Report)
      requires Valid()
      ensures r == ReportOf(totalVideosProcessed, successfulGenerations, failedGenerations,
                            averageProcessingTime, totalAudioDurationProcessed)
      ensures 0.0 <= r.successRate <= 100.0
      ensures r.totalVideosProcessed == r.successfulGenerations + r.failedGenerations
    {
      var rate := 0.0;
      if totalVideosProcessed > 0 {
        rate := successfulGenerations as real / totalVideosProcessed as real * 100.0;
      }
      var perMinute := 0.0;
      if totalAudioDurationProcessed > 0.0 {
        perMinute := averageProcessingTime / (totalAudioDurationProcessed / 60.0);
      }
      r := Report(totalVideosProcessed, successfulGenerations, failedGenerations,
                  averageProcessingTime, totalAudioDurationProcessed, rate, perMinute);
    }

    /** `reset_metrics`: every counter back to zero. */
    method ResetMetrics()
      modifies this
      ensures Valid()
      ensures modelSize == old(modelSize) && modelName == old(modelName)
      ensures totalVideosProcessed == 0 && successfulGenerations == 0 && failedGenerations == 0
      ensures averageProcessingTime == 0.0 && totalAudioDurationProcessed == 0.0
      ensures successTimes == [] && successDurations == []
    {
      totalVideosProcessed, successfulGenerations, failedGenerations := 0, 0, 0;
      averageProcessingTime, totalAudioDurationProcessed := 0.0, 0.0;
      successTimes, successDurations := [], [];
    }
  }

  /**
   * The accuracy-metrics scenario: two successes taking 30 s and 45 s on
   * 300 s and 450 s of audio, then a failure.
   */
  method AccuracyScenario() returns (r: Report)
    ensures r.totalVideosProcessed == 3 && r.successfulGenerations == 2 && r.failedGenerations == 1
    ensures r.averageProcessingTime == 37.5 && r.totalAudioDurationProcessed == 750.0
    ensures r.successRate * 3.0 == 200.0
    ensures r.averageProcessingTimePerMinute == 3.0
  {
    var service := new WhisperService("tiny");
    service.UpdateAccuracyMetrics(true, 30.0, 300.0);
    service.UpdateAccuracyMetrics(true, 45.0, 450.0);
    service.UpdateAccuracyMetrics(false, 0.0, 0.0);
    assert service.successTimes == [30.0, 45.0];
    assert service.successDurations == [300.0, 450.0];
    assert [30.0, 45.0][..1] == [30.0];
    assert [300.0, 450.0][..1] == [300.0];
    r := service.GetAccuracyMetrics();
  }
}
