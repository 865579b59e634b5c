/**
 * The food photo screen of food-recognition.tsx: choosing an image, asking
 * the gateway to analyse it against the profile, and classifying the answer.
 */
module FoodRecognitionScreen {
  import opened Common
  import opened ProfileSchema
  import opened ProfileContext
  import opened DietChart

  const NoImageMessage: string := "Please select an image first."
  const IncompleteProfileMessage: string := "Please complete your profile before analyzing food."
  const ReadFailedMessage: string := "Failed to read the image file."
  const AnalysisFailedMessage: string := "Failed to analyze the food image. Please try again."
  const DetailsSeparator: string := " Details: "

  /** `AnalyzeFoodImageOutput`. */
  datatype AnalysisResult = AnalysisResult(
    foodName: string,
    description: string,
    nutrition: string,
    recommendation: string)

  /** `AnalyzeFoodImageInput`: what is sent to the gateway. */
  datatype AnalysisRequest = AnalysisRequest(photoDataUri: string, diet: string, fitnessGoal: string)

  /** How reading the chosen file ends: with its data URI, or with a read error. */
  datatype FileRead = Loaded(dataUri: string) | ReadFailed

  /**
   * The message shown when analysis fails. `detail` is the thrown error's
   * message, empty when there is none or the thrown value is not an `Error`.
   */
  function AnalysisErrorMessage(detail: string): (m: string)
    ensures |AnalysisFailedMessage| <= |m| && m[..|AnalysisFailedMessage|] == AnalysisFailedMessage
    ensures detail == "" <==> m == AnalysisFailedMessage
    ensures detail != "" ==>
      m[|AnalysisFailedMessage|..] == DetailsSeparator + detail
  {
    if detail != "" then AnalysisFailedMessage + DetailsSeparator + detail else AnalysisFailedMessage
  }

  predicate IsUpperAscii(c: char) { 'A' <= c <= 'Z' }

  /** ASCII upper-case letters become lower-case; every other character stays. */
  function LowerChar(c: char): char {
    if IsUpperAscii(c) then (c as int - 'A' as int + 'a' as int) as char else c
  }

  /** `toLowerCase`, restricted to ASCII letters. */
  function ToLower(s: string): (r: string)
    ensures |r| == |s|
    ensures forall i :: 0 <= i < |r| ==> !IsUpperAscii(r[i])
    ensures forall i :: 0 <= i < |s| && !IsUpperAscii(s[i]) ==> r[i] == s[i]
    ensures forall i :: 0 <= i < |s| && IsUpperAscii(s[i]) ==> r[i] as int - s[i] as int == 'a' as int - 'A' as int
  {
    seq(|s|, i requires 0 <= i < |s| => LowerChar(s[i]))
  }

  lemma ToLowerIdempotent(s: string)
    ensures ToLower(ToLower(s)) == ToLower(s)
  {
  }

  /** `s.includes(sub)`: the search from the left, one start position at a time. */
  function Includes(s: string, sub: string): bool
    decreases |s|
  {
    if |sub| > |s| then false
    else if s[..|sub|] == sub then true
    else Includes(s[1..], sub)
  }

  /** `sub` occurs in `s` starting at position `i`. */
  predicate OccursAt(s: string, sub: string, i: nat) {
    i + |sub| <= |s| && s[i..i + |sub|] == sub
  }

  /** The search agrees with the plain definition of a substring. */
  lemma {:induction false} IncludesIff(s: string, sub: string)
    ensures Includes(s, sub) <==> exists i: nat :: OccursAt(s, sub, i)
    decreases |s|
  {
    if |sub| <= |s| {
      if s[..|sub|] == sub {
        assert OccursAt(s, sub, 0);
      } else {
        IncludesIff(s[1..], sub);
        if exists i: nat :: OccursAt(s[1..], sub, i) {
          var i: nat :| OccursAt(s[1..], sub, i);
          assert s[i + 1..i + 1 + |sub|] == s[1..][i..i + |sub|];
          assert OccursAt(s, sub, i + 1);
        }
        if exists i: nat :: OccursAt(s, sub, i) {
          var i: nat :| OccursAt(s, sub, i);
          assert i != 0;
          assert s[1..][i - 1..i - 1 + |sub|] == s[i..i + |sub|];
          assert OccursAt(s[1..], sub, i - 1);
        }
      }
    }
  }

  /** `isRecommended`: there is a result and its lower-cased recommendation contains "aligns". */
  predicate IsRecommended(result: Option<AnalysisResult>) {
    result.Some? && Includes(ToLower(result.value.recommendation), "aligns")
  }

  /** The classifier holds exactly when "aligns" occurs somewhere in the lower-cased text. */
  lemma IsRecommendedIff(result: Option<AnalysisResult>)
    ensures IsRecommended(result) <==>
      result.Some? && exists i: nat :: OccursAt(ToLower(result.value.recommendation), "aligns", i)
  {
    if result.Some? {
      IncludesIff(ToLower(result.value.recommendation), "aligns");
    }
  }

  /** The classifier ignores letter case. */
  lemma IsRecommendedIgnoresCase(r: AnalysisResult)
    ensures IsRecommended(Some(r)) == IsRecommended(Some(r.(recommendation := ToLower(r.recommendation))))
  {
    ToLowerIdempotent(r.recommendation);
  }

  /** Mixed case matches, and so does a word that merely contains "aligns". */
  lemma IsRecommendedExamples(r: AnalysisResult)
    ensures IsRecommended(Some(r.(recommendation := "Aligns well")))
    ensures IsRecommended(Some(r.(recommendation := "It misaligns")))
    ensures !IsRecommended(None)
  {
    var a := ToLower("Aligns well");
    assert a[..6] == "aligns";
    var b := ToLower("It misaligns");
    assert OccursAt(b, "aligns", 6);
    IncludesIff(b, "aligns");
  }

  class FoodRecognition {
    var photoDataUri: Option<string>
    var analysisResult: Option<AnalysisResult>
    var isLoading: bool
    var error: Option<string>

    constructor ()
      ensures photoDataUri == None && analysisResult == None && !isLoading && error == None
    {
      photoDataUri := None;
      analysisResult := None;
      isLoading := false;
      error := None;
    }

    /** `photoDataUri` is truthy: present and not the empty string. */
    predicate HasImage()
      reads this
    {
      photoDataUri.Some? && photoDataUri.value != ""
    }

    /** The Analyze button is offered only with an image and a complete profile. */
    predicate AnalyzeButtonShown(profile: Option<Profile>)
      reads this
    {
      HasImage() && IsProfileComplete(profile)
    }

    /** `reader.onloadend`: the reader's result becomes the photo; result and error are reset. */
    method ReaderLoadEnd(readerResult: Option<string>)
      modifies this
      ensures photoDataUri == readerResult && analysisResult == None && error == None
      ensures isLoading == old(isLoading)
    {
      photoDataUri := readerResult;
      analysisResult := None;
      error := None;
    }

    /** `reader.onerror`: the read-error message, and the photo is cleared. */
    method ReaderError()
      modifies this
      ensures error == Some(ReadFailedMessage) && photoDataUri == None
      ensures analysisResult == old(analysisResult) && isLoading == old(isLoading)
    {
      error := Some(ReadFailedMessage);
      photoDataUri := None;
    }

    /**
     * `handleFileChange` as written. A reader fires `loadend` after `error`
     * too, with a null result, so a failed read ends with the read-error
     * message reset.
     */
    method HandleFileChangeAsWritten(selected: Option<FileRead>)
      modifies this
      ensures selected == None ==>
        photoDataUri == old(photoDataUri) && analysisResult == old(analysisResult) && error == old(error)
      ensures selected.Some? && selected.value.Loaded? ==>
        photoDataUri == Some(selected.value.dataUri) && analysisResult == None && error == None
      ensures selected == Some(ReadFailed) ==>
        photoDataUri == None && analysisResult == None && error == None
      ensures isLoading == old(isLoading)
    {
      match selected {
        case None =>
        case Some(Loaded(uri)) =>
          ReaderLoadEnd(Some(uri));
        case Some(ReadFailed) =>
          ReaderError();
          ReaderLoadEnd(None);
      }
    }

    /**
     * `handleFileChange` with the success handler run on a successful read
     * only: a failed read then keeps its message.
     */
    method HandleFileChange(selected: Option<FileRead>)
      modifies this
      ensures selected == None ==>
        photoDataUri == old(photoDataUri) && analysisResult == old(analysisResult) && error == old(error)
      ensures selected.Some? && selected.value.Loaded? ==>
        photoDataUri == Some(selected.value.dataUri) && analysisResult == None && error == None
      ensures selected == Some(ReadFailed) ==>
        photoDataUri == None && analysisResult == old(analysisResult) && error == Some(ReadFailedMessage)
      ensures isLoading == old(isLoading)
    {
      match selected {
        case None =>
        case Some(Loaded(uri)) =>
          ReaderLoadEnd(Some(uri));
        case Some(ReadFailed) =>
          ReaderError();
      }
    }

    /**
     * The part of `handleAnalyze` before the gateway call: the image check,
     * then the profile check, then the loading state. A request is made
     * exactly when the Analyze button would be shown.
     */
    method StartAnalyze(profile: Option<Profile>) returns (request: Option<AnalysisRequest>)
      modifies this
      ensures request.Some? <==> old(AnalyzeButtonShown(profile))
      ensures photoDataUri == old(photoDataUri)
      ensures !old(HasImage()) ==>
        error == Some(NoImageMessage) && analysisResult == old(analysisResult) && isLoading == old(isLoading)
      ensures old(HasImage()) && !IsProfileComplete(profile) ==>
        error == Some(IncompleteProfileMessage) && analysisResult == old(analysisResult) && isLoading == old(isLoading)
      ensures request.Some? ==>
        && isLoading && error == None && analysisResult == None
        && request.value == AnalysisRequest(old(photoDataUri).value, DietChartString(profile.value),
                                            profile.value.fitnessGoal.value)
    {
      if !HasImage() {
        error := Some(NoImageMessage);
        return None;
      }
      if !IsProfileComplete(profile) {
        error := Some(IncompleteProfileMessage);
        return None;
      }
      isLoading := true;
      error := None;
      analysisResult := None;
      var p := profile.value;
      request := Some(AnalysisRequest(photoDataUri.value, DietChartString(p), p.fitnessGoal.value));
    }

    /** The part after the call: the result, or the failure message and no result; loading ends. */
    method FinishAnalyze(outcome: Result<AnalysisResult, string>)
      modifies this
      ensures !isLoading && photoDataUri == old(photoDataUri)
      ensures outcome.Ok? ==> analysisResult == Some(outcome.value) && error == old(error)
      ensures outcome.Err? ==> analysisResult == None && error == Some(AnalysisErrorMessage(outcome.error))
    {
      match outcome {
        case Ok(r) =>
          analysisResult := Some(r);
        case Err(detail) =>
          error := Some(AnalysisErrorMessage(detail));
          analysisResult := None;
      }
      isLoading := false;
    }

    /** `handleAnalyze`, with the gateway's answer as `outcome`. */
    method HandleAnalyze(profile: Option<Profile>, outcome: Result<AnalysisResult, string>)
      returns (request: Option<AnalysisRequest>)
      modifies this
      ensures request.Some? <==> old(AnalyzeButtonShown(profile))
      ensures photoDataUri == old(photoDataUri)
      ensures !old(HasImage()) ==>
        error == Some(NoImageMessage) && analysisResult == old(analysisResult) && isLoading == old(isLoading)
      ensures old(HasImage()) && !IsProfileComplete(profile) ==>
        error == Some(IncompleteProfileMessage) && analysisResult == old(analysisResult) && isLoading == old(isLoading)
      ensures request.Some? ==>
        && !isLoading
        && request.value == AnalysisRequest(old(photoDataUri).value, DietChartString(profile.value),
                                            profile.value.fitnessGoal.value)
        && (outcome.Ok? ==> analysisResult == Some(outcome.value) && error == None)
        && (outcome.Err? ==> analysisResult == None && error == Some(AnalysisErrorMessage(outcome.error)))
    {
      request := StartAnalyze(profile);
      if request.Some? {
        FinishAnalyze(outcome);
      }
    }
  }

  /** On a fresh screen, a failed read as written leaves no message at all. */
  method ReadFailureAsWritten() returns (message: Option<string>, photo: Option<string>)
    ensures message == None && photo == None
  {
    var screen := new FoodRecognition();
    screen.HandleFileChangeAsWritten(Some(ReadFailed));
    message, photo := screen.error, screen.photoDataUri;
  }

  /** On a fresh screen, a failed read with the corrected handlers shows the read-error message. */
  method ReadFailureCorrected() returns (message: Option<string>, photo: Option<string>)
    ensures message == Some(ReadFailedMessage) && photo == None
  {
    var screen := new FoodRecognition();
    screen.HandleFileChange(Some(ReadFailed));
    message, photo := screen.error, screen.photoDataUri;
  }

  /**
   * With no image the image check wins even over an incomplete profile: the
   * message asks for an image and the gateway is not called.
   */
  method AnalyzeWithoutImage(profile: Option<Profile>, outcome: Result<AnalysisResult, string>)
    returns (message: Option<string>, request: Option<AnalysisRequest>)
    ensures message == Some(NoImageMessage) && request == None
  {
    var screen := new FoodRecognition();
    request := screen.HandleAnalyze(profile, outcome);
    message := screen.error;
  }
}
