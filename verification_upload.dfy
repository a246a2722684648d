/** The EcoTrack cleanup verification form
    (`client/components/VerificationUpload.tsx`): three photo slots, the
    device position, a description, the ordered validation before submit and
    the activity draft handed to the feed store. */
module VerificationUpload {
  import opened Wrappers
  import opened Text
  import FeedContext

  datatype Coordinates = Coordinates(latitude: real, longitude: real)

  /** Why a submit was stopped, in the order the checks run. */
  datatype ValidationError = MissingVerificationImage | MissingLocation | MissingDescription {
    function Message(): string {
      match this
      case MissingVerificationImage => "Please upload a verification photo with GPS location"
      case MissingLocation => "Please get your current GPS location first"
      case MissingDescription => "Please provide a description of your cleanup activity"
    }
  }

  /** The first failing check: the verification photo, then the position,
      then the description with surrounding white space removed. */
  function Validate(verificationImage: string, currentLocation: Option<Coordinates>, description: string): (r: Option<ValidationError>)
    ensures r == Some(MissingVerificationImage) <==> verificationImage == ""
    ensures r == Some(MissingLocation) <==> verificationImage != "" && currentLocation.None?
    ensures r == Some(MissingDescription) <==> verificationImage != "" && currentLocation.Some? && IsBlank(description)
    ensures r == None <==> verificationImage != "" && currentLocation.Some? && !IsBlank(description)
  {
    if verificationImage == "" then Some(MissingVerificationImage)
    else if currentLocation.None? then Some(MissingLocation)
    else if Trim(description) == "" then Some(MissingDescription)
    else None
  }

  /** The before-photo the form starts with, and returns to when the user's
      own before-photo is removed: the report's first photo, or "". */
  function InitialBeforeImage(reportImages: seq<string>): (s: string)
    ensures |reportImages| > 0 ==> s == reportImages[0]
    ensures |reportImages| == 0 ==> s == ""
  {
    if |reportImages| > 0 then reportImages[0] else ""
  }

  /** The remove button on the before-photo shows only for a photo the user
      picked, not for one of the report's own. */
  predicate RemoveBeforeVisible(beforeImage: string, reportImages: seq<string>) {
    beforeImage != "" && beforeImage !in reportImages
  }

  /** The starting before-photo can never be removed: it is empty or one of
      the report's photos. */
  lemma InitialBeforeImageNotRemovable(reportImages: seq<string>)
    ensures !RemoveBeforeVisible(InitialBeforeImage(reportImages), reportImages)
  {
  }

  /** `x || undefined` for an image slot. */
  function NonEmpty(s: string): (o: Option<string>)
    ensures o.None? <==> s == ""
    ensures o.Some? ==> o.value == s
  {
    if s == "" then None else Some(s)
  }

  /** The draft sent on submit: the device position with the report's
      address, the trimmed description, and empty photo slots left out. */
  function PayloadFor(wasteReportId: Option<string>, wasteType: string, address: string, at: Coordinates,
                      description: string, beforeImage: string, afterImage: string, verificationImage: string)
    : (d: FeedContext.CleanupDraft)
    ensures d.latitude == at.latitude && d.longitude == at.longitude && d.address == address
    ensures d.description == Trim(description)
    ensures d.beforeImage.None? <==> beforeImage == ""
    ensures d.afterImage.None? <==> afterImage == ""
    ensures d.verificationImage == verificationImage && d.wasteReportId == wasteReportId && d.wasteType == wasteType
  {
    FeedContext.CleanupDraft(wasteReportId, wasteType, at.latitude, at.longitude, address, Trim(description),
                             NonEmpty(beforeImage), NonEmpty(afterImage), verificationImage)
  }

  /** The three photo inputs. */
  datatype ImageSlot = Before | After | Verification

  class VerificationForm {
    const wasteReportId: Option<string>
    const wasteType: string
    const address: string
    const reportImages: seq<string>

    var isSubmitting: bool
    var currentLocation: Option<Coordinates>
    var description: string
    var beforeImage: string
    var afterImage: string
    var verificationImage: string

    constructor (wasteReportId: Option<string>, wasteType: string, address: string, reportImages: seq<string>)
      ensures this.wasteReportId == wasteReportId && this.wasteType == wasteType
      ensures this.address == address && this.reportImages == reportImages
      ensures !isSubmitting && currentLocation == None && description == ""
      ensures beforeImage == InitialBeforeImage(reportImages) && afterImage == "" && verificationImage == ""
    {
      this.wasteReportId := wasteReportId;
      this.wasteType := wasteType;
      this.address := address;
      this.reportImages := reportImages;
      isSubmitting := false;
      currentLocation := None;
      description := "";
      beforeImage := InitialBeforeImage(reportImages);
      afterImage := "";
      verificationImage := "";
    }

    /** The Verify button's `disabled`. */
    predicate Disabled()
      reads this
    {
      isSubmitting || verificationImage == "" || currentLocation.None? || Trim(description) == ""
    }

    /** A position fix from the device. */
    method CaptureLocation(at: Coordinates)
      modifies this
      ensures currentLocation == Some(at)
      ensures isSubmitting == old(isSubmitting) && description == old(description)
      ensures beforeImage == old(beforeImage) && afterImage == old(afterImage) && verificationImage == old(verificationImage)
    {
      currentLocation := Some(at);
    }

    method SetDescription(text: string)
      modifies this
      ensures description == text
      ensures isSubmitting == old(isSubmitting) && currentLocation == old(currentLocation)
      ensures beforeImage == old(beforeImage) && afterImage == old(afterImage) && verificationImage == old(verificationImage)
    {
      description := text;
    }

    /** `handleFileChange`: a chosen file's data URL fills its slot; no file
        leaves everything as it was. */
    method HandleFileChange(slot: ImageSlot, dataUrl: Option<string>)
      modifies this
      ensures dataUrl.Some? && slot == Before ==> beforeImage == dataUrl.value
      ensures dataUrl.Some? && slot == After ==> afterImage == dataUrl.value
      ensures dataUrl.Some? && slot == Verification ==> verificationImage == dataUrl.value
      ensures dataUrl.None? || slot != Before ==> beforeImage == old(beforeImage)
      ensures dataUrl.None? || slot != After ==> afterImage == old(afterImage)
      ensures dataUrl.None? || slot != Verification ==> verificationImage == old(verificationImage)
      ensures isSubmitting == old(isSubmitting) && currentLocation == old(currentLocation) && description == old(description)
    {
      if dataUrl.Some? {
        match slot
        case Before => beforeImage := dataUrl.value;
        case After => afterImage := dataUrl.value;
        case Verification => verificationImage := dataUrl.value;
      }
    }

    /** The remove button on a user-picked before-photo: back to the
        report's first photo, or "". */
    method RemoveBefore()
      modifies this
      ensures beforeImage == InitialBeforeImage(reportImages)
      ensures !RemoveBeforeVisible(beforeImage, reportImages)
      ensures afterImage == old(afterImage) && verificationImage == old(verificationImage) && description == old(description)
      ensures isSubmitting == old(isSubmitting) && currentLocation == old(currentLocation)
    {
      beforeImage := InitialBeforeImage(reportImages);
    }

    /** `handleSubmit`. The first failing check stops the submit before
        anything is sent. Otherwise the draft goes to the feed store and the
        points of a successful verification (0 when none are given) go to
        the success callback; `isSubmitting` is false afterwards. */
    method HandleSubmit(feed: FeedContext.FeedStore, outcome: Outcome<FeedContext.ActivityCreated>,
                        statsOutcome: Outcome<FeedContext.FeedStats>)
      returns (error: Option<ValidationError>, sent: Option<FeedContext.CleanupDraft>, awarded: Option<int>)
      modifies this, feed
      ensures error == Validate(old(verificationImage), old(currentLocation), old(description))
      ensures error.Some? ==>
        sent == None && awarded == None && feed.activities == old(feed.activities) && isSubmitting == old(isSubmitting)
      ensures error.None? ==> !isSubmitting
      ensures error.None? ==>
        sent == Some(PayloadFor(wasteReportId, wasteType, address, old(currentLocation).value, old(description),
                                old(beforeImage), old(afterImage), old(verificationImage)))
      ensures error.None? && outcome.Ok? ==>
        awarded == Some(outcome.value.pointsEarned) && feed.activities == [outcome.value.activity] + old(feed.activities)
      ensures error.None? && outcome.Err? ==> awarded == None && feed.activities == old(feed.activities)
      ensures error.None? && outcome.Ok? ==>
        feed.stats == Some(if statsOutcome.Ok? then statsOutcome.value else FeedContext.ZeroStats)
      ensures error.Some? || outcome.Err? ==> feed.stats == old(feed.stats)
      ensures feed.loading == old(feed.loading) && feed.hasMore == old(feed.hasMore)
      ensures feed.currentPage == old(feed.currentPage) && feed.currentFilter == old(feed.currentFilter)
      ensures currentLocation == old(currentLocation) && description == old(description)
      ensures beforeImage == old(beforeImage) && afterImage == old(afterImage) && verificationImage == old(verificationImage)
    {
      error := Validate(verificationImage, currentLocation, description);
      if error.Some? {
        return error, None, None;
      }
      isSubmitting := true;
      var draft := PayloadFor(wasteReportId, wasteType, address, currentLocation.value, description,
                              beforeImage, afterImage, verificationImage);
      sent := Some(draft);
      var result := feed.CreateCleanupActivity(draft, outcome, statsOutcome);
      if result.success {
        awarded := Some(result.pointsEarned.GetOr(0));
      } else {
        awarded := None;
      }
      isSubmitting := false;
    }
  }

  /** The Verify button is enabled exactly when no submission is under way
      and a submit would pass validation. */
  lemma DisabledIffInvalid(form: VerificationForm)
    ensures form.Disabled() <==> form.isSubmitting || Validate(form.verificationImage, form.currentLocation, form.description).Some?
  {
  }

  /** A fresh form after the user takes a position fix, types `text` and
      picks the verification photo. */
  method FilledForm(at: Coordinates, photo: string, text: string, wasteType: string) returns (form: VerificationForm)
    ensures fresh(form)
    ensures form.verificationImage == photo && form.currentLocation == Some(at) && form.description == text
  {
    form := new VerificationForm(None, wasteType, "", []);
    form.CaptureLocation(at);
    form.SetDescription(text);
    form.HandleFileChange(Verification, Some(photo));
  }

  /** A description made only of white space is refused even with photo and
      position in place, and the message names the description. */
  method BlankDescriptionRefused(feed: FeedContext.FeedStore, at: Coordinates, photo: string, blank: string,
                                 wasteType: string, outcome: Outcome<FeedContext.ActivityCreated>,
                                 statsOutcome: Outcome<FeedContext.FeedStats>)
    returns (message: string, sentSomething: bool)
    requires photo != ""
    requires forall i :: 0 <= i < |blank| ==> IsJsWhitespace(blank[i])
    modifies feed
    ensures message == "Please provide a description of your cleanup activity" && !sentSomething
  {
    var form := FilledForm(at, photo, blank, wasteType);
    BlankIffAllWhitespace(blank);
    assert Validate(photo, Some(at), blank) == Some(MissingDescription);
    var error, sent, awarded := form.HandleSubmit(feed, outcome, statsOutcome);
    assert error == Some(MissingDescription);
    message := error.value.Message();
    sentSomething := sent.Some?;
  }
}
