/** The camera view (src/components/ImageRecognition.tsx): the gate that lets
    at most one detector call run at a time, the speech queue that keeps only
    the newest sentence, the voice-command dispatcher, the live-detection
    tick and the mute button.

    `detectObjects` awaits the detector, so one call is two steps here:
    `RequestDetection` passes the gate and sets `isAnalyzing`, and
    `CompleteDetection` receives the detector's outcome, narrates it and
    clears the flag. Any event may arrive between the two. */
module Camera {
  import opened Text
  import opened Narration

  /** What `model.detect` produced: the predictions, or an exception. */
  datatype DetectorOutcome = Predictions(detections: seq<Detection>) | DetectorError

  /** The detector call in flight, if any, with the mode it was asked for. */
  datatype Run = Idle | Awaiting(detailed: bool)

  /** What one recognised phrase asks for. */
  datatype Action = QuickDetection | DetailedDetection | ToggleLive | NoAction

  const ReadyMessage := "Vision system ready. You can say \"detect\" or \"describe\" to analyze your surroundings."
  const LoadFailedMessage := "Failed to initialize vision system. Please refresh the page."
  const ErrorMessage := "Sorry, there was an error processing the image"
  const StartLiveMessage := "Starting live detection"
  const StopLiveMessage := "Stopping live detection"

  /** The voice handler's choice for one transcript: case-insensitive
      substring tests, in the order "detect", "describe", "live". */
  function VoiceCommand(transcript: string): (a: Action)
    ensures a == QuickDetection <==> Contains(ToLower(transcript), "detect")
    ensures a == DetailedDetection <==>
      !Contains(ToLower(transcript), "detect") && Contains(ToLower(transcript), "describe")
    ensures a == ToggleLive <==>
      !Contains(ToLower(transcript), "detect") && !Contains(ToLower(transcript), "describe")
      && Contains(ToLower(transcript), "live")
  {
    var lower := ToLower(transcript);
    if Contains(lower, "detect") then QuickDetection
    else if Contains(lower, "describe") then DetailedDetection
    else if Contains(lower, "live") then ToggleLive
    else NoAction
  }

  /** A transcript with none of the three keywords does nothing. */
  lemma NoKeywordNoAction(transcript: string)
    requires !Contains(ToLower(transcript), "detect")
    requires !Contains(ToLower(transcript), "describe")
    requires !Contains(ToLower(transcript), "live")
    ensures VoiceCommand(transcript) == NoAction
  {
  }

  /** Letter case never changes the command. */
  lemma VoiceCommandIgnoresCase(a: string, b: string)
    requires SameUpToCase(a, b)
    ensures VoiceCommand(a) == VoiceCommand(b)
  {
    SameUpToCaseLowerEqual(a, b);
  }

  /** "detected" contains "detect", so a phrase mentioning both keywords runs
      the quick detection: the earlier keyword wins. */
  lemma DetectWinsOverDescribe(transcript: string)
    requires Contains(ToLower(transcript), "describe what you detected")
    ensures VoiceCommand(transcript) == QuickDetection
  {
    var phrase := "describe what you detected";
    assert phrase[18..24] == "detect";
    OccurrenceIsContained(phrase, "detect", 18);
    ContainsTransitive(ToLower(transcript), phrase, "detect");
  }

  class ImageRecognition {
    var modelLoaded: bool
    var isAnalyzing: bool
    var isMuted: bool
    var isLive: bool
    var detections: seq<Detection>
    /** Utterances handed to speech synthesis and not yet finished. */
    var speechQueue: seq<string>
    /** The suspended `detectObjects` call, waiting for the detector. */
    var run: Run

    /** `isAnalyzing` is set exactly while a detector call is in flight, and a
        call can only have started once the model was loaded. */
    ghost predicate Valid()
      reads this
    {
      && (isAnalyzing <==> run.Awaiting?)
      && (isAnalyzing ==> modelLoaded)
    }

    constructor ()
      ensures Valid()
      ensures !modelLoaded && !isAnalyzing && !isMuted && !isLive
      ensures detections == [] && speechQueue == [] && run == Idle
    {
      modelLoaded, isAnalyzing, isMuted, isLive := false, false, false, false;
      detections, speechQueue, run := [], [], Idle;
    }

    /** `speak`: while unmuted, cancel pending speech and queue `text`. */
    method Speak(text: string)
      modifies this`speechQueue
      ensures speechQueue == if isMuted then old(speechQueue) else [text]
    {
      if !isMuted {
        speechQueue := [];
        speechQueue := speechQueue + [text];
      }
    }

    /** End of the model-loading effect: `ok` is whether `tf.ready` and
        `cocossd.load` succeeded. */
    method FinishModelLoad(ok: bool)
      requires Valid()
      modifies this
      ensures Valid()
      ensures modelLoaded == (old(modelLoaded) || ok)
      ensures speechQueue == if isMuted then old(speechQueue)
                             else [if ok then ReadyMessage else LoadFailedMessage]
      ensures isAnalyzing == old(isAnalyzing) && isMuted == old(isMuted) && isLive == old(isLive)
      ensures detections == old(detections) && run == old(run)
    {
      if ok {
        modelLoaded := true;
        Speak(ReadyMessage);
      } else {
        Speak(LoadFailedMessage);
      }
    }

    /** The start of `detectObjects`: without a video, without a model or
        while a call is in flight the request is dropped and nothing changes;
        otherwise `isAnalyzing` is set and the detector is called. */
    method RequestDetection(detailed: bool, hasVideo: bool) returns (accepted: bool)
      requires Valid()
      modifies this
      ensures Valid()
      ensures accepted == (hasVideo && modelLoaded && !old(isAnalyzing))
      ensures !accepted ==> unchanged(this)
      ensures accepted ==> isAnalyzing && run == Awaiting(detailed)
      ensures modelLoaded == old(modelLoaded) && isMuted == old(isMuted) && isLive == old(isLive)
      ensures detections == old(detections) && speechQueue == old(speechQueue)
    {
      if !hasVideo || !modelLoaded || isAnalyzing {
        return false;
      }
      isAnalyzing := true;
      run := Awaiting(detailed);
      accepted := true;
    }

    /** The rest of `detectObjects` once the detector answers: store and
        narrate the predictions, or narrate the error; in both cases clear
        `isAnalyzing`. `frameWidth` is the video width read for the position
        rule. */
    method CompleteDetection(outcome: DetectorOutcome, frameWidth: real)
      requires Valid() && isAnalyzing
      modifies this
      ensures Valid()
      ensures !isAnalyzing && run == Idle
      ensures outcome.Predictions? ==> detections == outcome.detections
      ensures outcome.Predictions? ==>
        speechQueue == if isMuted then old(speechQueue) else [Narrate(outcome.detections, old(run).detailed, frameWidth)]
      ensures outcome.DetectorError? ==> detections == old(detections)
      ensures outcome.DetectorError? ==>
        speechQueue == if isMuted then old(speechQueue) else [ErrorMessage]
      ensures modelLoaded == old(modelLoaded) && isMuted == old(isMuted) && isLive == old(isLive)
    {
      var detailed := run.detailed;
      match outcome {
        case Predictions(predictions) =>
          detections := predictions;
          ghost var sentence := Narrate(predictions, detailed, frameWidth);
          if |predictions| == 0 {
            Speak(NoObjectsPhrase);
          } else if detailed {
            var description := DetailedDescription(predictions, frameWidth);
            assert description == sentence;
            Speak(description);
          } else {
            var description := QuickDescription(predictions);
            assert description == sentence;
            Speak(description);
          }
        case DetectorError =>
          Speak(ErrorMessage);
      }
      isAnalyzing := false;
      run := Idle;
    }

    /** One `detectObjects` call with no other event between its start and
        its end. */
    method DetectObjects(detailed: bool, hasVideo: bool, outcome: DetectorOutcome, frameWidth: real)
      requires Valid()
      modifies this
      ensures Valid()
      ensures !(hasVideo && old(modelLoaded) && !old(isAnalyzing)) ==> unchanged(this)
      ensures hasVideo && old(modelLoaded) && !old(isAnalyzing) ==>
        && !isAnalyzing && run == Idle
        && detections == (if outcome.Predictions? then outcome.detections else old(detections))
        && speechQueue == (if isMuted then old(speechQueue)
                           else if outcome.Predictions? then [Narrate(outcome.detections, detailed, frameWidth)]
                           else [ErrorMessage])
      ensures modelLoaded == old(modelLoaded) && isMuted == old(isMuted) && isLive == old(isLive)
    {
      var accepted := RequestDetection(detailed, hasVideo);
      if accepted {
        CompleteDetection(outcome, frameWidth);
      }
    }

    /** The recognition handler: at most one action per transcript. A
        detection request is only started here; its completion is a later
        `CompleteDetection`. */
    method OnVoiceResult(transcript: string, hasVideo: bool)
      requires Valid()
      modifies this
      ensures Valid()
      ensures VoiceCommand(transcript) == NoAction ==> unchanged(this)
      ensures VoiceCommand(transcript) == QuickDetection ==>
        if hasVideo && old(modelLoaded) && !old(isAnalyzing)
        then isAnalyzing && run == Awaiting(false) && isLive == old(isLive) && speechQueue == old(speechQueue)
        else unchanged(this)
      ensures VoiceCommand(transcript) == DetailedDetection ==>
        if hasVideo && old(modelLoaded) && !old(isAnalyzing)
        then isAnalyzing && run == Awaiting(true) && isLive == old(isLive) && speechQueue == old(speechQueue)
        else unchanged(this)
      ensures VoiceCommand(transcript) == ToggleLive ==>
        && isLive == !old(isLive)
        && speechQueue == (if isMuted then old(speechQueue)
                           else [if old(isLive) then StopLiveMessage else StartLiveMessage])
        && isAnalyzing == old(isAnalyzing) && run == old(run)
      ensures modelLoaded == old(modelLoaded) && isMuted == old(isMuted) && detections == old(detections)
    {
      match VoiceCommand(transcript) {
        case QuickDetection =>
          var _ := RequestDetection(false, hasVideo);
        case DetailedDetection =>
          var _ := RequestDetection(true, hasVideo);
        case ToggleLive =>
          var wasLive := isLive;
          isLive := !isLive;
          Speak(if wasLive then StopLiveMessage else StartLiveMessage);
        case NoAction =>
      }
    }

    /** One display refresh of the live loop: while live, ask for a quick
        detection (dropped by the gate if one is still running). */
    method LiveTick(hasVideo: bool)
      requires Valid()
      modifies this
      ensures Valid()
      ensures !old(isLive) ==> unchanged(this)
      ensures old(isLive) && hasVideo && old(modelLoaded) && !old(isAnalyzing) ==>
        isAnalyzing && run == Awaiting(false)
      ensures old(isLive) && !(hasVideo && old(modelLoaded) && !old(isAnalyzing)) ==> unchanged(this)
      ensures modelLoaded == old(modelLoaded) && isMuted == old(isMuted) && isLive == old(isLive)
      ensures detections == old(detections) && speechQueue == old(speechQueue)
    {
      if isLive {
        var _ := RequestDetection(false, hasVideo);
      }
    }

    /** The mute button. Speech already queued keeps playing. */
    method ToggleMute()
      requires Valid()
      modifies this`isMuted
      ensures Valid()
      ensures isMuted == !old(isMuted)
    {
      isMuted := !isMuted;
    }
  }

  /** Two sentences in a row on an unmuted view, whatever it was saying
      before: only the second is left to be heard. */
  method SpeakTwice(view: ImageRecognition, first: string, second: string)
    requires !view.isMuted
    modifies view
    ensures view.speechQueue == [second]
  {
    view.Speak(first);
    view.Speak(second);
  }

  /** Live mode is switched on by voice, a live tick starts a detector call,
      a click on the quick-detection button arrives while it runs and is
      dropped, live mode is switched off by voice before the detector
      answers: that call still completes and is narrated, and the next tick
      starts nothing. */
  method StopLiveDuringRun(predictions: seq<Detection>, frameWidth: real)
    returns (secondAccepted: bool, spoken: seq<string>, analyzing: bool, live: bool)
    ensures !secondAccepted
    ensures spoken == [Narrate(predictions, false, frameWidth)]
    ensures !analyzing && !live
  {
    assert ToLower("live") == "live";
    assert !Contains("live", "detect") && !Contains("live", "describe") && Contains("live", "live");
    var view := new ImageRecognition();
    view.FinishModelLoad(true);
    view.OnVoiceResult("live", true);
    view.LiveTick(true);
    secondAccepted := view.RequestDetection(false, true);
    view.OnVoiceResult("live", true);
    view.CompleteDetection(Predictions(predictions), frameWidth);
    view.LiveTick(true);
    spoken, analyzing, live := view.speechQueue, view.isAnalyzing, view.isLive;
  }
}
