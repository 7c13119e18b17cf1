/** The read-only profile screen of one user: the record is loaded by the
    route's `id`, and every field is shown through a getter that falls back
    to `N/A` (or an empty picture, or no gallery) when the value is falsy. */
module UserDetails {
  import opened Values
  import opened Http
  import opened Text
  import ApiService

  const NotAvailable := "N/A"

  datatype Gallery = Gallery(images: Option<seq<string>>, videos: Option<seq<string>>)

  /** The profile fields the screen reads; all may be missing. */
  datatype Profile = Profile(
    backendId: Option<string>,
    nationality: Option<string>,
    nativeLanguage: Option<string>,
    age: Option<int>,
    height: Option<int>,
    address: Option<string>,
    education: Option<string>,
    workOut: Option<string>,
    religion: Option<string>,
    smoking: Option<string>,
    drinking: Option<string>,
    sexualOrientation: Option<string>,
    lookingFor: Option<string>,
    preferredLanguage: Option<string>,
    interests: Option<seq<string>>,
    aboutMe: Option<string>,
    profilePic: Option<string>,
    profilePicture: Option<string>,
    gallery: Option<Gallery>)

  /** The `data` of the reply: `{user}`, possibly without a user. */
  datatype ProfileData = ProfileData(user: Option<Profile>)

  datatype Screen = Screen(
    user: Option<Profile>,
    loading: bool,
    error: Option<string>,
    selectedImage: Option<string>,
    navigation: Option<seq<string>>)

  function Initial(): (s: Screen)
    ensures s.user.None? && s.loading && s.error.None?
  {
    Screen(None, true, None, None, None)
  }

  /** The route parameters arrive: with a truthy `id` the spinner comes on,
      the error is cleared and `/admin/users/<id>` requested; otherwise
      nothing happens. */
  function Open(s: Screen, baseUrl: string, idParam: Option<string>): (r: (Screen, Option<ApiService.Dispatch<()>>))
    ensures r.1.Some? <==> Truthy(idParam)
    ensures !Truthy(idParam) ==> r.0 == s
    ensures Truthy(idParam) ==> r.0 == s.(loading := true, error := None)
    ensures Truthy(idParam) ==> r.1.value == ApiService.Sent(Call(GET, baseUrl + "/admin/users/" + idParam.value, None), [])
  {
    if Truthy(idParam) then
      (s.(loading := true, error := None), Some(ApiService.Get(baseUrl, "/admin/users/" + idParam.value, [])))
    else (s, None)
  }

  /** `loadUser`, second half: the user is shown when the reply has
      `success` and `data.user`; otherwise `User not found`; a failed request
      gives `Failed to load user details`. The spinner goes off every time. */
  function LoadFinish(s: Screen, outcome: Outcome<Envelope<ProfileData>>): (r: Screen)
    ensures !r.loading
    ensures r.user.Some? && r.user != s.user ==>
      outcome.Next? && outcome.value.success && outcome.value.data.Some? && outcome.value.data.value.user == r.user
    ensures outcome.Next? && outcome.value.success && outcome.value.data.Some? && outcome.value.data.value.user.Some? ==>
      r == s.(user := outcome.value.data.value.user, loading := false)
    ensures outcome.Next? && !(outcome.value.success && outcome.value.data.Some? && outcome.value.data.value.user.Some?) ==>
      r == s.(error := Some("User not found"), loading := false)
    ensures outcome.Error? ==> r == s.(error := Some("Failed to load user details"), loading := false)
  {
    match outcome
    case Next(env) =>
      if env.success && env.data.Some? && env.data.value.user.Some? then
        s.(user := env.data.value.user, loading := false)
      else s.(error := Some("User not found"), loading := false)
    case Error(_) => s.(error := Some("Failed to load user details"), loading := false)
  }

  /** `editUser`: to `['/users', _id, 'edit']` when the user has a truthy `_id`. */
  function EditUser(s: Screen): (r: Screen)
    ensures s.user.Some? && Truthy(s.user.value.backendId) ==>
      r == s.(navigation := Some(["/users", s.user.value.backendId.value, "edit"]))
    ensures !(s.user.Some? && Truthy(s.user.value.backendId)) ==> r == s
  {
    if s.user.Some? && Truthy(s.user.value.backendId) then
      s.(navigation := Some(["/users", s.user.value.backendId.value, "edit"]))
    else s
  }

  /** The profile fields shown as plain text. */
  datatype TextField = Nationality | NativeLanguage | Address | Education | Workout | Religion
                     | Smoking | Drinking | SexualOrientation | LookingFor | PreferredLanguage | AboutMe

  function FieldOf(p: Profile, f: TextField): Option<string> {
    match f
    case Nationality => p.nationality
    case NativeLanguage => p.nativeLanguage
    case Address => p.address
    case Education => p.education
    case Workout => p.workOut
    case Religion => p.religion
    case Smoking => p.smoking
    case Drinking => p.drinking
    case SexualOrientation => p.sexualOrientation
    case LookingFor => p.lookingFor
    case PreferredLanguage => p.preferredLanguage
    case AboutMe => p.aboutMe
  }

  /** Each text getter: `user?.<field> || 'N/A'`. */
  function Shown(s: Screen, f: TextField): (r: string)
    ensures s.user.Some? && Truthy(FieldOf(s.user.value, f)) ==> r == FieldOf(s.user.value, f).value
    ensures s.user.None? || !Truthy(FieldOf(s.user.value, f)) ==> r == NotAvailable
    ensures r != ""
  {
    if s.user.Some? then StrOr(FieldOf(s.user.value, f), NotAvailable) else NotAvailable
  }

  /** A shown value is never confused with the fallback unless the user's
      own text is literally `N/A`. */
  lemma TextFallbackIsDistinct(s: Screen, f: TextField)
    requires s.user.Some? && Truthy(FieldOf(s.user.value, f)) && FieldOf(s.user.value, f).value != NotAvailable
    ensures Shown(s, f) != NotAvailable
  {
  }

  /** `getUserAge`: the age in decimal, `N/A` for a missing or zero age. */
  function Age(s: Screen): (r: string)
    ensures s.user.Some? && s.user.value.age.Some? && s.user.value.age.value != 0 ==>
      r == IntToString(s.user.value.age.value)
    ensures s.user.None? || s.user.value.age.None? || s.user.value.age.value == 0 ==> r == NotAvailable
  {
    if s.user.Some? && s.user.value.age.Some? && s.user.value.age.value != 0 then
      IntToString(s.user.value.age.value)
    else NotAvailable
  }

  /** `getUserHeight`: `${height} cm`, `N/A` for a missing or zero height. */
  function Height(s: Screen): (r: string)
    ensures s.user.Some? && s.user.value.height.Some? && s.user.value.height.value != 0 ==>
      r == IntToString(s.user.value.height.value) + " cm"
    ensures s.user.None? || s.user.value.height.None? || s.user.value.height.value == 0 ==> r == NotAvailable
  {
    if s.user.Some? && s.user.value.height.Some? && s.user.value.height.value != 0 then
      IntToString(s.user.value.height.value) + " cm"
    else NotAvailable
  }

  /** A positive age is shown as digits only, and reads back as the age. */
  lemma AgeReadsBack(s: Screen)
    requires s.user.Some? && s.user.value.age.Some? && s.user.value.age.value > 0
    ensures forall i :: 0 <= i < |Age(s)| ==> IsDigit(Age(s)[i])
    ensures DecimalValue(Age(s)) == s.user.value.age.value
  {
    DecimalRoundTrip(s.user.value.age.value);
  }

  /** `getUserInterests`: `interests?.join(', ') || 'N/A'`. */
  function InterestsText(s: Screen): (r: string)
    ensures s.user.Some? && s.user.value.interests.Some? && Join(s.user.value.interests.value, ", ") != "" ==>
      r == Join(s.user.value.interests.value, ", ")
    ensures s.user.None? || s.user.value.interests.None? ==> r == NotAvailable
    ensures s.user.Some? && s.user.value.interests == Some([]) ==> r == NotAvailable
  {
    if s.user.Some? && s.user.value.interests.Some? then
      StrOr(Some(Join(s.user.value.interests.value, ", ")), NotAvailable)
    else NotAvailable
  }

  /** Two or more interests are always shown joined, never replaced by the
      fallback, since the separator alone makes the text non-empty. */
  lemma SeveralInterestsShown(s: Screen)
    requires s.user.Some? && s.user.value.interests.Some? && |s.user.value.interests.value| >= 2
    ensures InterestsText(s) == Join(s.user.value.interests.value, ", ")
  {
    var xs := s.user.value.interests.value;
    assert Join(xs, ", ") == xs[0] + ", " + Join(xs[1..], ", ");
    assert |Join(xs, ", ")| >= 2;
  }

  /** `getUserProfilePic`: `profilePic`, else `profilePicture`, else `''`. */
  function ProfilePic(s: Screen): (r: string)
    ensures s.user.Some? && Truthy(s.user.value.profilePic) ==> r == s.user.value.profilePic.value
    ensures s.user.Some? && !Truthy(s.user.value.profilePic) ==> r == StrOr(s.user.value.profilePicture, "")
    ensures s.user.None? ==> r == ""
  {
    if s.user.Some? then StrOr(s.user.value.profilePic, StrOr(s.user.value.profilePicture, "")) else ""
  }

  /** `getUserGalleryImages`: `gallery?.images || []`. */
  function GalleryImages(s: Screen): (r: seq<string>)
    ensures s.user.Some? && s.user.value.gallery.Some? ==> r == s.user.value.gallery.value.images.GetOr([])
    ensures s.user.None? || s.user.value.gallery.None? ==> r == []
  {
    if s.user.Some? && s.user.value.gallery.Some? then s.user.value.gallery.value.images.GetOr([]) else []
  }

  /** `getUserGalleryVideos`: `gallery?.videos || []`. */
  function GalleryVideos(s: Screen): (r: seq<string>)
    ensures s.user.Some? && s.user.value.gallery.Some? ==> r == s.user.value.gallery.value.videos.GetOr([])
    ensures s.user.None? || s.user.value.gallery.None? ==> r == []
  {
    if s.user.Some? && s.user.value.gallery.Some? then s.user.value.gallery.value.videos.GetOr([]) else []
  }

  /** `hasGalleryContent`: some image or some video. */
  function HasGalleryContent(s: Screen): (b: bool)
    ensures b <==> s.user.Some? && s.user.value.gallery.Some?
                   && (|s.user.value.gallery.value.images.GetOr([])| > 0
                       || |s.user.value.gallery.value.videos.GetOr([])| > 0)
  {
    |GalleryImages(s)| > 0 || |GalleryVideos(s)| > 0
  }

  function OpenImage(s: Screen, url: string): (r: Screen)
    ensures r == s.(selectedImage := Some(url))
  {
    s.(selectedImage := Some(url))
  }

  function CloseImage(s: Screen): (r: Screen)
    ensures r == s.(selectedImage := None)
  {
    s.(selectedImage := None)
  }

  /** Closing the image viewer undoes opening it, whichever image was chosen. */
  lemma CloseUndoesOpen(s: Screen, url: string)
    requires s.selectedImage.None?
    ensures CloseImage(OpenImage(s, url)) == s
  {
  }
}
