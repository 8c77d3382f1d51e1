/** The tutor's profile page: the profile loaded into an editable form (the
    full name split into first and last name), a profile update that reloads
    it, and a password change guarded by a confirmation check. */
module TProfile {
  import opened Common

  /** The profile record from the backend; None fields are absent. */
  datatype Profile = Profile(name: Option<string>, email: Option<string>, bio: Option<string>)

  /** The editable form; a None field holds `undefined`. */
  datatype ProfileForm = ProfileForm(firstName: Option<string>, lastName: Option<string>, email: Option<string>, bio: string)

  datatype PasswordData = PasswordData(currentPassword: string, newPassword: string, confirmPassword: string)

  const EmptyPasswords := PasswordData("", "", "")

  /** `name?.split(" ") || ["", ""]`, destructured into its first two
      pieces; a piece that does not exist is `undefined`. */
  function NameParts(name: Option<string>): (r: (Option<string>, Option<string>)) {
    if name.None? then (Some(""), Some(""))
    else
      var pieces := Split(name.value, ' ');
      (Some(pieces[0]), if |pieces| >= 2 then Some(pieces[1]) else None)
  }

  /** A two-word name gives its two words; later words are dropped; a
      missing name gives two empty strings; a one-word name leaves the last
      name undefined. */
  lemma NamePartsSpec(first: string, last: string, rest: string)
    requires ' ' !in first && ' ' !in last
    ensures NameParts(Some(first + " " + last)) == (Some(first), Some(last))
    ensures NameParts(Some(first + " " + last + " " + rest)) == (Some(first), Some(last))
    ensures NameParts(None) == (Some(""), Some(""))
    ensures NameParts(Some(first)) == (Some(first), None)
  {
    assert first + " " + last == first + [' '] + last;
    SplitCons(first, ' ', last);
    var tail := last + " " + rest;
    assert first + " " + last + " " + rest == first + [' '] + tail;
    SplitCons(first, ' ', tail);
    assert tail == last + [' '] + rest;
    SplitCons(last, ' ', rest);
  }

  /** The form filled from a loaded profile. */
  function FormFromProfile(p: Profile): (f: ProfileForm)
    ensures f.email == p.email
    ensures f.bio == (if p.bio.Some? then p.bio.value else "")
  {
    var (firstName, lastName) := NameParts(p.name);
    ProfileForm(firstName, lastName, p.email, OrElse(p.bio, ""))
  }

  /** Joining the form's two name fields with a space gives back a
      two-word name. */
  lemma FormNameRoundTrip(p: Profile, first: string, last: string)
    requires ' ' !in first && ' ' !in last && p.name == Some(first + " " + last)
    ensures FormFromProfile(p).firstName.Some? && FormFromProfile(p).lastName.Some?
    ensures FormFromProfile(p).firstName.value + " " + FormFromProfile(p).lastName.value == p.name.value
  {
    NamePartsSpec(first, last, "");
  }

  class ProfilePage {
    var profileData: Option<Profile>
    var formData: ProfileForm
    var passwordData: PasswordData
    var loading: bool
    var error: Option<string>

    constructor()
      ensures profileData == None && formData == ProfileForm(Some(""), Some(""), Some(""), "")
      ensures passwordData == EmptyPasswords && !loading && error == None
    {
      profileData := None;
      formData := ProfileForm(Some(""), Some(""), Some(""), "");
      passwordData := EmptyPasswords;
      loading := false;
      error := None;
    }

    /** `fetchProfile`: `response` carries the profile, None for an empty
        body. `loading` ends false whatever the outcome. */
    method FetchProfile(response: Response<Option<Profile>>)
      modifies this
      ensures !loading
      ensures response.Ok? && response.data.Some? ==>
        profileData == response.data && formData == FormFromProfile(response.data.value) && error == None
      ensures response.Ok? && response.data.None? ==>
        profileData == old(profileData) && formData == old(formData) && error == None
      ensures response.Failed? ==>
        error == Some("Failed to load profile data.") && profileData == old(profileData) && formData == old(formData)
      ensures passwordData == old(passwordData)
    {
      loading := true;
      error := None;
      match response {
        case Ok(data) =>
          if data.Some? {
            profileData := data;
            formData := FormFromProfile(data.value);
          }
        case Failed(_) =>
          error := Some("Failed to load profile data.");
      }
      loading := false;
    }

    /** Typing into the first name, last name or bio input. */
    method EditFirstName(value: string)
      modifies this
      ensures formData == old(formData).(firstName := Some(value))
      ensures profileData == old(profileData) && passwordData == old(passwordData)
      ensures loading == old(loading) && error == old(error)
    {
      formData := formData.(firstName := Some(value));
    }

    method EditLastName(value: string)
      modifies this
      ensures formData == old(formData).(lastName := Some(value))
      ensures profileData == old(profileData) && passwordData == old(passwordData)
      ensures loading == old(loading) && error == old(error)
    {
      formData := formData.(lastName := Some(value));
    }

    method EditBio(value: string)
      modifies this
      ensures formData == old(formData).(bio := value)
      ensures profileData == old(profileData) && passwordData == old(passwordData)
      ensures loading == old(loading) && error == old(error)
    {
      formData := formData.(bio := value);
    }

    /** `updateProfile`: the form is sent; a non-empty answer raises an
        alert and asks for a reload. `loading` ends false. */
    method UpdateProfile(response: Response<bool>) returns (sent: ProfileForm, alert: Option<string>, reload: bool)
      modifies this
      ensures sent == old(formData) && !loading
      ensures reload <==> response == Ok(true)
      ensures reload ==> alert == Some("Profile updated successfully!") && error == None
      ensures !reload ==> alert == None
      ensures response == Ok(false) ==> error == None
      ensures response.Failed? ==> error == Some("Failed to update profile.")
      ensures profileData == old(profileData) && formData == old(formData) && passwordData == old(passwordData)
    {
      sent := formData;
      loading := true;
      error := None;
      alert := None;
      reload := false;
      match response {
        case Ok(hasData) =>
          if hasData {
            alert := Some("Profile updated successfully!");
            reload := true;
          }
        case Failed(_) =>
          error := Some("Failed to update profile.");
      }
      loading := false;
    }

    /** `updatePassword`: mismatching new passwords raise an alert and
        change nothing, not even `loading`; otherwise the three fields are
        sent, cleared on success, and `loading` ends false. */
    method UpdatePassword(response: Response<()>) returns (sent: Option<PasswordData>, alert: Option<string>)
      modifies this
      ensures old(passwordData).newPassword != old(passwordData).confirmPassword ==>
        sent == None && alert == Some("New passwords do not match!")
        && passwordData == old(passwordData) && loading == old(loading) && error == old(error)
      ensures old(passwordData).newPassword == old(passwordData).confirmPassword ==>
        sent == Some(old(passwordData)) && !loading
      ensures sent.Some? && response.Ok? ==>
        alert == Some("Password updated successfully!") && passwordData == EmptyPasswords && error == None
      ensures sent.Some? && response.Failed? ==>
        alert == None && passwordData == old(passwordData) && error == Some("Failed to update password.")
      ensures profileData == old(profileData) && formData == old(formData)
    {
      if passwordData.newPassword != passwordData.confirmPassword {
        return None, Some("New passwords do not match!");
      }
      loading := true;
      error := None;
      sent := Some(passwordData);
      match response {
        case Ok(_) =>
          alert := Some("Password updated successfully!");
          passwordData := EmptyPasswords;
        case Failed(_) =>
          alert := None;
          error := Some("Failed to update password.");
      }
      loading := false;
    }
  }

  /** An update whose answer asks for a reload, followed by that reload:
      `loading` is false at the end and the form shows the reloaded
      profile. */
  method UpdateThenReload(page: ProfilePage, update: Response<bool>, reload: Response<Option<Profile>>)
    modifies page
    ensures !page.loading
    ensures update == Ok(true) && reload.Ok? && reload.data.Some? ==>
      page.formData == FormFromProfile(reload.data.value)
  {
    var sent, alert, again := page.UpdateProfile(update);
    if again {
      page.FetchProfile(reload);
    }
  }
}
