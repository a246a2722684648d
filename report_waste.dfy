/** The EcoTrack "Report Waste" form (`client/pages/ReportWaste.tsx`): the
    photo list with its limit of five, the captured location, the form fields
    and the submit sequence that hands a draft to the report store. */
module ReportWaste {
  import opened Wrappers
  import opened Seqs
  import opened Text
  import AuthContext
  import opened WasteReportsContext

  /** A selected photo file. */
  datatype ImageFile = ImageFile(name: string, size: nat)

  /** A location captured from the device; the address is optional. */
  datatype PickedLocation = PickedLocation(latitude: real, longitude: real, address: Option<string>)

  const MaxImages: nat := 5

  /** The draft sent for `user` at `location`: identity from the user, the
      address or "" when there is none, one object URL per photo in order,
      and the form's contact fields. */
  function DraftFor(user: AuthContext.User, location: PickedLocation, wasteType: string, severity: string,
                    description: string, images: seq<ImageFile>, objectUrl: ImageFile -> string,
                    contactName: string, contactPhone: string): (d: ReportDraft)
    ensures d.userId == user.id && d.userName == user.name
    ensures d.location.latitude == location.latitude && d.location.longitude == location.longitude
    ensures d.location.address == (if Truthy(location.address) then location.address.value else "")
    ensures |d.images| == |images| && forall i :: 0 <= i < |images| ==> d.images[i] == objectUrl(images[i])
    ensures d.wasteType == wasteType && d.severity == severity && d.description == description
    ensures d.contactName == contactName && d.contactPhone == Some(contactPhone)
  {
    ReportDraft(user.id, user.name,
                ReportLocation(location.latitude, location.longitude, OrElse(location.address, "")),
                wasteType, severity, description,
                seq(|images|, i requires 0 <= i < |images| => objectUrl(images[i])),
                contactName, Some(contactPhone))
  }

  class ReportForm {
    var images: seq<ImageFile>
    var location: Option<PickedLocation>
    var isSubmitting: bool
    var submitSuccess: bool
    var wasteType: string
    var severity: string
    var description: string
    var contactName: string
    var contactPhone: string

    /** Never more than five photos are held. */
    ghost predicate Valid()
      reads this
    {
      |images| <= MaxImages
    }

    /** The empty form; the contact fields start from the signed-in user's
        name and phone, or "". */
    constructor (user: Option<AuthContext.User>)
      ensures Valid()
      ensures images == [] && location == None && !isSubmitting && !submitSuccess
      ensures wasteType == "" && severity == "" && description == ""
      ensures contactName == (if user.Some? then user.value.name else "")
      ensures contactPhone == (if user.Some? && Truthy(user.value.phone) then user.value.phone.value else "")
    {
      images := [];
      location := None;
      isSubmitting := false;
      submitSuccess := false;
      wasteType := "";
      severity := "";
      description := "";
      contactName := if user.Some? then user.value.name else "";
      contactPhone := if user.Some? then OrElse(user.value.phone, "") else "";
    }

    /** The submit button's `disabled`: no location, a submission under way,
        or no photo. */
    predicate SubmitDisabled()
      reads this
    {
      location.None? || isSubmitting || |images| == 0
    }

    /** `handleImageUpload`: a batch that would bring the total above five is
        refused whole; an accepted batch goes after the photos already held. */
    method HandleImageUpload(files: seq<ImageFile>) returns (accepted: bool)
      requires Valid()
      modifies this
      ensures Valid()
      ensures accepted <==> |old(images)| + |files| <= MaxImages
      ensures accepted ==> images == old(images) + files
      ensures !accepted ==> images == old(images)
      ensures location == old(location) && isSubmitting == old(isSubmitting) && submitSuccess == old(submitSuccess)
      ensures wasteType == old(wasteType) && severity == old(severity) && description == old(description)
      ensures contactName == old(contactName) && contactPhone == old(contactPhone)
    {
      if |files| + |images| > MaxImages {
        return false;
      }
      images := images + files;
      accepted := true;
    }

    /** `removeImage`: exactly the photo at `index` goes, if there is one. */
    method RemoveImage(index: int)
      requires Valid()
      modifies this
      ensures Valid()
      ensures images == WithoutIndex(old(images), index)
      ensures location == old(location) && isSubmitting == old(isSubmitting) && submitSuccess == old(submitSuccess)
      ensures wasteType == old(wasteType) && severity == old(severity) && description == old(description)
      ensures contactName == old(contactName) && contactPhone == old(contactPhone)
    {
      images := WithoutIndex(images, index);
    }

    /** A successful position fix (the reverse geocoding is not modelled). */
    method CaptureLocation(l: PickedLocation)
      modifies this
      ensures location == Some(l) && images == old(images)
      ensures isSubmitting == old(isSubmitting) && submitSuccess == old(submitSuccess)
      ensures wasteType == old(wasteType) && severity == old(severity) && description == old(description)
      ensures contactName == old(contactName) && contactPhone == old(contactPhone)
    {
      location := Some(l);
    }

    /** `handleSubmit`. Without a user or a location nothing is sent.
        Otherwise the draft goes to the store; success shows the success
        screen, failure keeps every field for another try. `isSubmitting`
        is false at the end either way. Returns the draft sent, if any. */
    method HandleSubmit(user: Option<AuthContext.User>, store: WasteReportsStore,
                        outcome: Outcome<ReportCreated>, objectUrl: ImageFile -> string)
      returns (sent: Option<ReportDraft>)
      requires Valid()
      modifies this, store
      ensures Valid()
      ensures !isSubmitting
      ensures user.None? || old(location).None? ==>
        sent == None && store.reports == old(store.reports) && submitSuccess == old(submitSuccess)
      ensures user.Some? && old(location).Some? ==>
        sent == Some(DraftFor(user.value, old(location).value, old(wasteType), old(severity), old(description),
                              old(images), objectUrl, old(contactName), old(contactPhone)))
      ensures sent.Some? && outcome.Ok? ==> submitSuccess && store.reports == old(store.reports) + [outcome.value.report]
      ensures sent.Some? && outcome.Err? ==> submitSuccess == old(submitSuccess) && store.reports == old(store.reports)
      ensures images == old(images) && location == old(location) && wasteType == old(wasteType)
      ensures severity == old(severity) && description == old(description)
      ensures contactName == old(contactName) && contactPhone == old(contactPhone)
    {
      isSubmitting := true;
      if user.None? || location.None? {
        isSubmitting := false;
        return None;
      }
      var draft := DraftFor(user.value, location.value, wasteType, severity, description,
                            images, objectUrl, contactName, contactPhone);
      sent := Some(draft);
      var result := store.AddReport(draft, outcome);
      if result.success {
        submitSuccess := true;
        isSubmitting := false;
      } else {
        isSubmitting := false;
        return;
      }
    }

    /** The delayed reset after a successful submission: every field is
        cleared, including the contact fields. */
    method ResetAfterSuccess()
      modifies this
      ensures Valid()
      ensures !submitSuccess && images == [] && location == None
      ensures wasteType == "" && severity == "" && description == ""
      ensures contactName == "" && contactPhone == ""
      ensures isSubmitting == old(isSubmitting)
    {
      submitSuccess := false;
      images := [];
      location := None;
      wasteType := "";
      severity := "";
      description := "";
      contactName := "";
      contactPhone := "";
    }
  }

  /** When the button is enabled and someone is signed in, pressing it does
      send a draft, and the draft carries at least one photo. */
  method EnabledButtonSubmits(user: AuthContext.User, l: PickedLocation, photos: seq<ImageFile>,
                              outcome: Outcome<ReportCreated>, objectUrl: ImageFile -> string)
    returns (sentSomething: bool, photoCount: nat)
    requires 1 <= |photos| <= MaxImages
    ensures sentSomething && photoCount == |photos|
  {
    var form := new ReportForm(Some(user));
    var store := new WasteReportsStore();
    var accepted := form.HandleImageUpload(photos);
    form.CaptureLocation(l);
    assert !form.SubmitDisabled();
    var sent := form.HandleSubmit(Some(user), store, outcome, objectUrl);
    sentSomething := sent.Some?;
    photoCount := |sent.value.images|;
  }

  /** A sixth photo is always refused, and the five already held stay. */
  method SixthPhotoRefused(five: seq<ImageFile>, extra: ImageFile) returns (accepted: bool, held: seq<ImageFile>)
    requires |five| == MaxImages
    ensures !accepted && held == five
  {
    var form := new ReportForm(None);
    var first := form.HandleImageUpload(five);
    accepted := form.HandleImageUpload([extra]);
    held := form.images;
  }
}
