// The five-step profile wizard of src/components/CompleteOnboarding.tsx:
// name, photo, bio, age and gender, then up to three genres, and finally
// the `api.profile.update` request built from what was entered. Toasts are
// returned as values; the request itself and its outcome are split into a
// begin step that builds the body and a finish step that takes the outcome.

module Wizard {
  import opened Js
  import JsText
  import JsNumber

  const MaxGenres := 3
  const MaxPhotoBytes := 5 * 1024 * 1024

  datatype Toast = NoToast | Success(text: string) | Error(text: string)

  /** The picked file as the browser describes it; `dataUrl` is what the reader yields. */
  datatype PickedFile = PickedFile(size: int, mime: string, dataUrl: string)

  /** `selected.filter(g => g !== genre)` */
  function Without(selected: seq<string>, genre: string): (r: seq<string>)
    ensures genre !in r
    ensures forall g :: g in r <==> g in selected && g != genre
    ensures |r| <= |selected|
    ensures genre !in selected ==> r == selected
  {
    if |selected| == 0 then []
    else if selected[0] == genre then Without(selected[1..], genre)
    else [selected[0]] + Without(selected[1..], genre)
  }

  /** No genre occurs twice. */
  predicate Distinct(selected: seq<string>)
  {
    forall i, j :: 0 <= i < j < |selected| ==> selected[i] != selected[j]
  }

  /** The selection after `handleGenreToggle(genre)`. */
  function Toggled(selected: seq<string>, genre: string): (r: seq<string>)
  {
    if genre in selected then Without(selected, genre)
    else if |selected| < MaxGenres then selected + [genre]
    else selected
  }

  lemma {:induction false} WithoutDistinct(selected: seq<string>, genre: string)
    requires Distinct(selected)
    ensures Distinct(Without(selected, genre))
  {
    if |selected| > 0 {
      WithoutDistinct(selected[1..], genre);
      var rest := Without(selected[1..], genre);
      if selected[0] != genre {
        assert selected[0] !in selected[1..] by {
          forall k | 0 <= k < |selected[1..]| ensures selected[1..][k] != selected[0] {
            assert selected[1..][k] == selected[k + 1];
          }
        }
        assert selected[0] !in rest;
        var r := [selected[0]] + rest;
        forall i, j | 0 <= i < j < |r| ensures r[i] != r[j] {
          if i == 0 { assert r[j] in rest; }
          else { assert r[i] == rest[i - 1] && r[j] == rest[j - 1]; }
        }
      }
    }
  }

  /** Toggling keeps the selection free of repeats and never above three genres. */
  lemma ToggleKeepsLimit(selected: seq<string>, genre: string)
    requires Distinct(selected) && |selected| <= MaxGenres
    ensures Distinct(Toggled(selected, genre)) && |Toggled(selected, genre)| <= MaxGenres
  {
    WithoutDistinct(selected, genre);
  }

  /** Toggling a genre in and out again gives back the selection it started from. */
  lemma {:induction false} ToggleTwice(selected: seq<string>, genre: string)
    requires genre !in selected && |selected| < MaxGenres
    ensures Toggled(Toggled(selected, genre), genre) == selected
  {
    WithoutAppended(selected, genre);
  }

  lemma {:induction false} WithoutAppended(selected: seq<string>, genre: string)
    requires genre !in selected
    ensures Without(selected + [genre], genre) == selected
  {
    if |selected| > 0 {
      assert (selected + [genre])[1..] == selected[1..] + [genre];
      WithoutAppended(selected[1..], genre);
    } else {
      assert (selected + [genre])[1..] == [];
    }
  }

  /** `age ? parseInt(age) : undefined`, as `JSON.stringify` sends it: NaN goes as null. */
  function AgeField(age: string): (v: JsValue)
  {
    if age == "" then Undefined
    else match JsNumber.ParseInt(age)
      case Some(n) => Num(n)
      case None => Null
  }

  /** The JSON body of `api.profile.update`; an `undefined` field is left out of the object. */
  function ProfileRequest(name: string, photo: string, bio: string, age: string, gender: string,
                          genres: seq<string>): (body: Body)
    ensures body.Keys == {"name", "photo", "bio", "musical_genre"} + (if age != "" then {"age"} else {})
                         + (if gender != "" then {"gender"} else {})
    ensures body["name"] == Text(name) && body["photo"] == Text(photo) && body["bio"] == Text(bio)
    ensures body["musical_genre"] == Text(JsText.JoinWith(genres, ", "))
    ensures gender != "" ==> body["gender"] == Text(gender)
  {
    var base := map["name" := Text(name), "photo" := Text(photo), "bio" := Text(bio),
                    "musical_genre" := Text(JsText.JoinWith(genres, ", "))];
    var withAge := if age != "" then base["age" := AgeField(age)] else base;
    if gender != "" then withAge["gender" := Text(gender)] else withAge
  }

  /** An age typed as the decimal text of a number is sent as that number. */
  lemma AgeSentAsNumber(n: int)
    ensures AgeField(JsNumber.IntToText(n)) == Num(n)
  {
    JsNumber.ParseIntText(n);
    assert JsNumber.IntToText(n) != "" by {
      if n >= 0 { assert |JsNumber.NatToText(n)| >= 1; }
    }
  }

  class CompleteOnboarding {
    var step: int
    var name: string
    var photo: string
    var photoPicked: bool
    var bio: string
    var genres: seq<string>
    var age: string
    var gender: string
    var loading: bool

    predicate Valid()
      reads this
    {
      Distinct(genres) && |genres| <= MaxGenres
    }

    /** The wizard opens on step 1 with the name from the sign-in, everything else empty. */
    constructor(userName: string)
      ensures Valid()
      ensures step == 1 && name == userName && photo == "" && !photoPicked && bio == ""
      ensures genres == [] && age == "" && gender == "" && !loading
    {
      step := 1;
      name := userName;
      photo := "";
      photoPicked := false;
      bio := "";
      genres := [];
      age := "";
      gender := "";
      loading := false;
    }

    /** `canProceed()`: what each step needs before its Continue button is enabled. */
    predicate CanProceed()
      reads this
    {
      match step
      case 1 => JsText.Trim(name) != ""
      case 2 => photo != ""
      case 3 => JsText.Trim(bio) != ""
      case 4 => age != "" && gender != ""
      case 5 => |genres| > 0
      case _ => false
    }

    /** The Continue button of steps 1 to 4: disabled unless the step can proceed. */
    method Continue()
      requires Valid()
      modifies this
      ensures Valid()
      ensures step == (if 1 <= old(step) <= 4 && old(CanProceed()) then old(step) + 1 else old(step))
      ensures name == old(name) && photo == old(photo) && bio == old(bio) && genres == old(genres)
      ensures age == old(age) && gender == old(gender) && loading == old(loading) && photoPicked == old(photoPicked)
    {
      if 1 <= step <= 4 && CanProceed() {
        step := step + 1;
      }
    }

    /** The back arrow of steps 2 to 5. */
    method Back()
      requires Valid()
      modifies this
      ensures Valid()
      ensures step == (if 2 <= old(step) <= 5 then old(step) - 1 else old(step))
      ensures name == old(name) && photo == old(photo) && bio == old(bio) && genres == old(genres)
      ensures age == old(age) && gender == old(gender) && loading == old(loading) && photoPicked == old(photoPicked)
    {
      if 2 <= step <= 5 {
        step := step - 1;
      }
    }

    /** `handlePhotoUpload`: a file over 5 MB or not of an image type is refused and changes nothing. */
    method PhotoUpload(file: Option<PickedFile>) returns (toast: Toast)
      requires Valid()
      modifies this
      ensures Valid()
      ensures file.None? ==> toast == NoToast && photo == old(photo) && photoPicked == old(photoPicked)
      ensures file.Some? && file.value.size > MaxPhotoBytes ==>
        toast == Error("Image size should be less than 5MB") && photo == old(photo) && photoPicked == old(photoPicked)
      ensures file.Some? && file.value.size <= MaxPhotoBytes && !JsText.StartsWith(file.value.mime, "image/") ==>
        toast == Error("Please upload a valid image file") && photo == old(photo) && photoPicked == old(photoPicked)
      ensures file.Some? && file.value.size <= MaxPhotoBytes && JsText.StartsWith(file.value.mime, "image/") ==>
        toast == Success("Photo selected! ✨") && photo == file.value.dataUrl && photoPicked
      ensures step == old(step) && name == old(name) && bio == old(bio) && genres == old(genres)
      ensures age == old(age) && gender == old(gender) && loading == old(loading)
    {
      if file.None? {
        return NoToast;
      }
      if file.value.size > MaxPhotoBytes {
        return Error("Image size should be less than 5MB");
      }
      if !JsText.StartsWith(file.value.mime, "image/") {
        return Error("Please upload a valid image file");
      }
      photoPicked := true;
      photo := file.value.dataUrl;
      toast := Success("Photo selected! ✨");
    }

    /** `handleGenreToggle(genre)` */
    method ToggleGenre(genre: string) returns (toast: Toast)
      requires Valid()
      modifies this
      ensures Valid()
      ensures genres == Toggled(old(genres), genre)
      ensures toast == (if genre !in old(genres) && |old(genres)| >= MaxGenres
                        then Error("You can select up to 3 genres") else NoToast)
      ensures step == old(step) && name == old(name) && photo == old(photo) && bio == old(bio)
      ensures age == old(age) && gender == old(gender) && loading == old(loading) && photoPicked == old(photoPicked)
    {
      ToggleKeepsLimit(genres, genre);
      toast := NoToast;
      if genre in genres {
        genres := Without(genres, genre);
      } else if |genres| < MaxGenres {
        genres := genres + [genre];
      } else {
        toast := Error("You can select up to 3 genres");
      }
    }

    /**
     * `handleComplete` up to the request: with no genre it only shows an error, otherwise it sends the profile.
     * The Complete button is disabled while a request is under way, so it is never pressed while loading.
     */
    method BeginComplete() returns (toast: Toast, request: Option<Body>)
      requires Valid() && !loading
      modifies this
      ensures Valid()
      ensures old(genres) == [] ==> toast == Error("Please select at least one genre") && request == None && loading == old(loading)
      ensures old(genres) != [] ==>
        toast == NoToast && loading && request == Some(ProfileRequest(name, photo, bio, age, gender, genres))
      ensures step == old(step) && name == old(name) && photo == old(photo) && bio == old(bio) && genres == old(genres)
      ensures age == old(age) && gender == old(gender) && photoPicked == old(photoPicked)
    {
      if genres == [] {
        return Error("Please select at least one genre"), None;
      }
      loading := true;
      toast := NoToast;
      request := Some(ProfileRequest(name, photo, bio, age, gender, genres));
    }

    /** The rest of `handleComplete`: `failure` is the thrown error's message, if any; the result says whether `onComplete` runs. */
    method FinishComplete(failure: Option<string>) returns (toast: Toast, completed: bool)
      requires Valid()
      modifies this
      ensures Valid() && !loading
      ensures completed <==> failure.None?
      ensures toast == (if failure.None? then Success("Profile completed! 🎉") else Error(failure.value))
      ensures step == old(step) && name == old(name) && photo == old(photo) && bio == old(bio) && genres == old(genres)
      ensures age == old(age) && gender == old(gender) && photoPicked == old(photoPicked)
    {
      if failure.None? {
        toast, completed := Success("Profile completed! 🎉"), true;
      } else {
        toast, completed := Error(failure.value), false;
      }
      loading := false;
    }
  }
}
