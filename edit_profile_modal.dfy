/**
 * The profile editing dialog (components/edit-profile-modal.tsx): a form
 * over three profile fields and an optional avatar file, reset from the
 * initial data, edited one field at a time and handed to the parent's
 * save and close callbacks on submit.
 */
module EditProfileModal {

  import opened Wrappers

  /** The three editable profile fields. */
  datatype ProfileData = ProfileData(displayName: string, location: string, about: string)

  /** The form input a change event comes from, by its `name`. */
  datatype Field = DisplayName | Location | About

  /** A chosen file, reduced to its name. */
  datatype File = File(name: string)

  /** What `onSave` receives: the three fields and the avatar (`None` for null). */
  datatype Submission = Submission(data: ProfileData, avatar: Option<File>)

  /** A call the dialog makes on its parent, in order. */
  datatype Callback = Save(submission: Submission) | Close

  function Get(p: ProfileData, f: Field): (text: string) {
    match f
    case DisplayName => p.displayName
    case Location => p.location
    case About => p.about
  }

  /** `{ ...prev, [name]: value }`: the named field takes the value and the others keep theirs. */
  function WithField(p: ProfileData, f: Field, value: string): (q: ProfileData)
    ensures Get(q, f) == value
    ensures forall g :: g != f ==> Get(q, g) == Get(p, g)
  {
    match f
    case DisplayName => p.(displayName := value)
    case Location => p.(location := value)
    case About => p.(about := value)
  }

  /** A second edit of the same field overwrites the first. */
  lemma LastEditWins(p: ProfileData, f: Field, a: string, b: string)
    ensures WithField(WithField(p, f, a), f, b) == WithField(p, f, b)
  {
  }

  /** Edits of two different fields do not interfere, in either order. */
  lemma EditsCommute(p: ProfileData, f: Field, a: string, g: Field, b: string)
    requires f != g
    ensures WithField(WithField(p, f, a), g, b) == WithField(WithField(p, g, b), f, a)
  {
  }

  /** `e.target.files?.[0] || null`: the first chosen file, or none when there is no list or it is empty. */
  function FirstFile(files: Option<seq<File>>): (chosen: Option<File>)
    ensures files.None? || files.value == [] ==> chosen == None
    ensures files.Some? && files.value != [] ==> chosen == Some(files.value[0])
  {
    if files.Some? && files.value != [] then Some(files.value[0]) else None
  }

  class EditProfileDialog {
    var profileData: ProfileData
    var avatarFile: Option<File>
    /** The calls made so far on the parent's `onSave` and `onClose`. */
    var calls: seq<Callback>

    constructor ()
      ensures profileData == ProfileData("", "", "") && avatarFile == None && calls == []
    {
      profileData := ProfileData("", "", "");
      avatarFile := None;
      calls := [];
    }

    /** The effect on `initialData`: the form state is replaced by it; the file is kept. */
    method SyncInitialData(initialData: ProfileData)
      modifies this
      ensures profileData == initialData
      ensures avatarFile == old(avatarFile) && calls == old(calls)
    {
      profileData := initialData;
    }

    /** `handleChange`: exactly the edited field changes. */
    method HandleChange(name: Field, value: string)
      modifies this
      ensures Get(profileData, name) == value
      ensures forall g :: g != name ==> Get(profileData, g) == Get(old(profileData), g)
      ensures avatarFile == old(avatarFile) && calls == old(calls)
    {
      profileData := WithField(profileData, name, value);
    }

    /** The file input's change: the first chosen file, or none. */
    method ChooseAvatar(files: Option<seq<File>>)
      modifies this
      ensures avatarFile == FirstFile(files)
      ensures profileData == old(profileData) && calls == old(calls)
    {
      avatarFile := FirstFile(files);
    }

    /** `handleSubmit`: `onSave` with the current fields and avatar, then `onClose`. */
    method HandleSubmit()
      modifies this
      ensures calls == old(calls) + [Save(Submission(profileData, avatarFile)), Close]
      ensures profileData == old(profileData) && avatarFile == old(avatarFile)
    {
      var formData := Submission(profileData, avatarFile);
      calls := calls + [Save(formData)];
      calls := calls + [Close];
    }
  }
}
