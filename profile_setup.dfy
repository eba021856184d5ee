/** The six-step profile setup wizard: step navigation, the emergency
    contact list editor, the avatar upload at step 2, and the final save of
    the profile and of every emergency contact that has a name and a phone. */
module ProfileSetup {
  import opened Common
  import opened Seqs
  import opened Schema

  const StepCount := 6
  const AvatarStep := 2

  datatype Contact = Contact(name: string, phone: string, relationship: string)
  datatype ContactField = Name | Phone | Relationship

  const EmptyContact := Contact("", "", "")

  datatype ProfileForm = ProfileForm(
    fullName: string, bio: string, phone: string,
    bloodType: string, allergies: string, medications: string, medicalConditions: string,
    contacts: seq<Contact>,
    alertRadius: real,
    medicalAlerts: bool, assaultAlerts: bool, accidentAlerts: bool, otherAlerts: bool,
    shakeToAlert: bool, emergencyCalculator: bool)

  /** The initial form: one empty contact, radius 1 km, every alert kind and
      shake-to-alert on, the calculator off. */
  const InitialForm := ProfileForm("", "", "", "", "", "", "", [EmptyContact], 1.0,
                                   true, true, true, true, true, false)

  /** The `profiles` update written on submit. */
  datatype ProfileUpdate = ProfileUpdate(
    userId: UserId, fullName: string, bio: string, phone: string,
    bloodType: Option<string>, allergies: Option<string>, medications: Option<string>,
    medicalConditions: Option<string>, alertRadius: real,
    medicalAlerts: bool, assaultAlerts: bool, accidentAlerts: bool, otherAlerts: bool,
    shakeToAlert: bool, emergencyCalculator: bool, avatarUrl: Option<string>)

  /** An `emergency_contacts` insert. */
  datatype ContactInsert = ContactInsert(userId: UserId, name: string, phone: string, relationship: Option<string>)

  /** Empty medical fields and an empty avatar URL are stored as null; the
      other fields are stored as typed. */
  function ProfileUpdateOf(u: UserId, f: ProfileForm, avatarUrl: Option<string>): (r: ProfileUpdate)
    ensures r.userId == u && r.fullName == f.fullName && r.bio == f.bio && r.phone == f.phone
    ensures (r.bloodType.None? <==> f.bloodType == "") && (r.allergies.None? <==> f.allergies == "")
    ensures (r.medications.None? <==> f.medications == "") && (r.medicalConditions.None? <==> f.medicalConditions == "")
    ensures r.bloodType.Some? ==> r.bloodType.value == f.bloodType
    ensures r.avatarUrl.Some? <==> TruthyString(avatarUrl)
    ensures r.alertRadius == f.alertRadius && r.shakeToAlert == f.shakeToAlert &&
      r.emergencyCalculator == f.emergencyCalculator
  {
    ProfileUpdate(u, f.fullName, f.bio, f.phone,
                  StringOrNull(Some(f.bloodType)), StringOrNull(Some(f.allergies)),
                  StringOrNull(Some(f.medications)), StringOrNull(Some(f.medicalConditions)),
                  f.alertRadius, f.medicalAlerts, f.assaultAlerts, f.accidentAlerts, f.otherAlerts,
                  f.shakeToAlert, f.emergencyCalculator, StringOrNull(avatarUrl))
  }

  /** `contact.name && contact.phone`. */
  predicate IsComplete(c: Contact) {
    c.name != "" && c.phone != ""
  }

  function Complete(): Contact -> bool {
    (c: Contact) => IsComplete(c)
  }

  function InsertOf(u: UserId, c: Contact): ContactInsert {
    ContactInsert(u, c.name, c.phone, StringOrNull(Some(c.relationship)))
  }

  /** The inserts the submit loop issues, in list order. */
  function SavedContacts(u: UserId, contacts: seq<Contact>): seq<ContactInsert> {
    if contacts == [] then []
    else
      var last := contacts[|contacts| - 1];
      SavedContacts(u, contacts[..|contacts| - 1]) + if IsComplete(last) then [InsertOf(u, last)] else []
  }

  /** One insert per complete contact, in the same order, nothing for the
      others. */
  lemma {:induction false} SavedContactsAreTheCompleteOnes(u: UserId, contacts: seq<Contact>)
    ensures |SavedContacts(u, contacts)| == |Filter(Complete(), contacts)|
    ensures forall i :: 0 <= i < |SavedContacts(u, contacts)| ==>
      SavedContacts(u, contacts)[i] == InsertOf(u, Filter(Complete(), contacts)[i])
  {
    if contacts != [] {
      var init, last := contacts[..|contacts| - 1], contacts[|contacts| - 1];
      SavedContactsAreTheCompleteOnes(u, init);
      assert contacts == init + [last];
      FilterAppend(Complete(), init, [last]);
    }
  }

  /** Every insert carries a name and a phone. */
  lemma {:induction false} SavedContactsHaveNameAndPhone(u: UserId, contacts: seq<Contact>)
    ensures forall i :: 0 <= i < |SavedContacts(u, contacts)| ==>
      SavedContacts(u, contacts)[i].name != "" && SavedContacts(u, contacts)[i].phone != "" &&
      SavedContacts(u, contacts)[i].userId == u
  {
    if contacts != [] {
      SavedContactsHaveNameAndPhone(u, contacts[..|contacts| - 1]);
    }
  }

  /** `filter((_, i) => i !== index)`. */
  function RemoveAt(contacts: seq<Contact>, index: int): (r: seq<Contact>)
    ensures 0 <= index < |contacts| ==> r == contacts[..index] + contacts[index + 1..]
    ensures !(0 <= index < |contacts|) ==> r == contacts
  {
    if contacts == [] then []
    else
      var init := contacts[..|contacts| - 1];
      var rest := RemoveAt(init, index);
      if |contacts| - 1 == index then rest
      else
        assert 0 <= index < |init| ==>
          init[..index] + init[index + 1..] + [contacts[|contacts| - 1]] == contacts[..index] + contacts[index + 1..];
        assert contacts == init + [contacts[|contacts| - 1]];
        rest + [contacts[|contacts| - 1]]
  }

  /** `map((c, i) => i === index ? {...c, [field]: value} : c)`. */
  function UpdateAt(contacts: seq<Contact>, index: int, field: ContactField, value: string): (r: seq<Contact>)
    ensures |r| == |contacts|
    ensures forall i :: 0 <= i < |r| && i != index ==> r[i] == contacts[i]
  {
    seq(|contacts|, i requires 0 <= i < |contacts| =>
      if i == index then SetField(contacts[i], field, value) else contacts[i])
  }

  function SetField(c: Contact, field: ContactField, value: string): Contact {
    match field
    case Name => c.(name := value)
    case Phone => c.(phone := value)
    case Relationship => c.(relationship := value)
  }

  function GetField(c: Contact, field: ContactField): string {
    match field
    case Name => c.name
    case Phone => c.phone
    case Relationship => c.relationship
  }

  /** An edit shows up in the edited field and changes no other field. */
  lemma UpdateAtWritesOneField(contacts: seq<Contact>, index: nat, field: ContactField, value: string, other: ContactField)
    requires index < |contacts|
    ensures GetField(UpdateAt(contacts, index, field, value)[index], field) == value
    ensures other != field ==>
      GetField(UpdateAt(contacts, index, field, value)[index], other) == GetField(contacts[index], other)
  {
  }

  /** Adding a contact and removing it again restores the list. */
  lemma AddThenRemoveRestores(contacts: seq<Contact>)
    ensures RemoveAt(contacts + [EmptyContact], |contacts|) == contacts
  {
    assert (contacts + [EmptyContact])[..|contacts|] == contacts;
  }

  /** `handleNext`'s step change (the submit is on the last step). */
  function NextStep(step: int): (r: int)
    ensures 1 <= step < StepCount ==> r == step + 1 && r <= StepCount
    ensures step >= StepCount ==> r == step
  {
    if step < StepCount then step + 1 else step
  }

  /** `handleBack`'s step change. */
  function BackStep(step: int): (r: int)
    ensures step > 1 ==> r == step - 1
    ensures step <= 1 ==> r == step
  {
    if step > 1 then step - 1 else step
  }

  /** Back undoes Next on every step but the last. */
  lemma BackUndoesNext(step: int)
    requires 1 <= step < StepCount
    ensures BackStep(NextStep(step)) == step
  {
  }

  class Wizard {
    const user: Option<UserId>
    var step: int
    var loading: bool
    var form: ProfileForm
    var hasAvatarFile: bool
    var avatarUrl: Option<string>
    var completed: bool
    var profileWrites: seq<ProfileUpdate>
    var contactInserts: seq<ContactInsert>

    ghost predicate Valid()
      reads this
    {
      1 <= step <= StepCount
    }

    constructor (user: Option<UserId>)
      ensures Valid() && this.user == user && step == 1 && !loading && form == InitialForm
      ensures !hasAvatarFile && avatarUrl.None? && !completed && profileWrites == [] && contactInserts == []
    {
      this.user := user;
      step, loading, form := 1, false, InitialForm;
      hasAvatarFile, avatarUrl, completed, profileWrites, contactInserts := false, None, false, [], [];
    }

    /** The Next button is disabled while loading and, on the first step,
        while the full name is empty. */
    predicate CanGoNext()
      reads this
    {
      !loading && !(step == 1 && form.fullName == "")
    }

    /** `handleInputChange` on the form's own fields (name, bio, phone,
        medical details, radius and toggles): `edited` carries their new
        values; the contact list is edited only through the contact methods. */
    method EditForm(edited: ProfileForm)
      modifies this`form
      ensures form == edited.(contacts := old(form).contacts)
    {
      form := edited.(contacts := form.contacts);
    }

    method ChooseAvatar()
      modifies this`hasAvatarFile
      ensures hasAvatarFile
    {
      hasAvatarFile := true;
    }

    method AddContact()
      modifies this`form
      ensures form == old(form).(contacts := old(form).contacts + [EmptyContact])
    {
      form := form.(contacts := form.contacts + [EmptyContact]);
    }

    /** The Remove button is shown only while there is more than one contact. */
    method RemoveContact(index: int)
      requires |form.contacts| > 1
      modifies this`form
      ensures form == old(form).(contacts := RemoveAt(old(form).contacts, index))
    {
      form := form.(contacts := RemoveAt(form.contacts, index));
    }

    method UpdateContact(index: int, field: ContactField, value: string)
      modifies this`form
      ensures form == old(form).(contacts := UpdateAt(old(form).contacts, index, field, value))
    {
      form := form.(contacts := UpdateAt(form.contacts, index, field, value));
    }

    /** `handleNext`: on steps 1 to 5 it advances, after uploading a chosen
        avatar on step 2 (kept only when a URL came back); on step 6 it
        submits. */
    method Next(uploadedUrl: Option<string>, profileFails: bool)
      requires Valid() && CanGoNext()
      modifies this
      ensures Valid() && !loading && form == old(form) && hasAvatarFile == old(hasAvatarFile)
      ensures old(step) < StepCount ==>
        step == old(step) + 1 && completed == old(completed) &&
        profileWrites == old(profileWrites) && contactInserts == old(contactInserts)
      ensures old(step) < StepCount ==>
        avatarUrl == if old(step) == AvatarStep && hasAvatarFile && TruthyString(uploadedUrl) then uploadedUrl
                     else old(avatarUrl)
      ensures old(step) == StepCount ==> step == StepCount && avatarUrl == old(avatarUrl)
      ensures old(step) == StepCount && user.None? ==>
        completed == old(completed) && profileWrites == old(profileWrites) && contactInserts == old(contactInserts)
      ensures old(step) == StepCount && user.Some? ==>
        profileWrites == old(profileWrites) + [ProfileUpdateOf(user.value, form, avatarUrl)]
      ensures old(step) == StepCount && user.Some? && profileFails ==>
        completed == old(completed) && contactInserts == old(contactInserts)
      ensures old(step) == StepCount && user.Some? && !profileFails ==>
        completed && contactInserts == old(contactInserts) + SavedContacts(user.value, form.contacts)
    {
      if step < StepCount {
        if step == AvatarStep && hasAvatarFile {
          loading := true;
          if TruthyString(uploadedUrl) {
            avatarUrl := uploadedUrl;
          }
          loading := false;
        }
        step := step + 1;
      } else {
        Submit(profileFails);
      }
    }

    /** `handleBack`. */
    /** The Back button is disabled while loading. */
    method Back()
      requires Valid() && !loading
      modifies this`step
      ensures Valid() && step == BackStep(old(step))
    {
      if step > 1 {
        step := step - 1;
      }
    }

    /** `handleSubmit`: a failed profile update stops before the contacts;
        a contact insert that fails is not checked. */
    method Submit(profileFails: bool)
      modifies this`loading, this`completed, this`profileWrites, this`contactInserts
      ensures loading == (user.None? && old(loading))
      ensures user.None? ==>
        completed == old(completed) && profileWrites == old(profileWrites) && contactInserts == old(contactInserts)
      ensures user.Some? ==> profileWrites == old(profileWrites) + [ProfileUpdateOf(user.value, form, avatarUrl)]
      ensures user.Some? && profileFails ==> completed == old(completed) && contactInserts == old(contactInserts)
      ensures user.Some? && !profileFails ==>
        completed && contactInserts == old(contactInserts) + SavedContacts(user.value, form.contacts)
    {
      if user.None? {
        return;
      }
      loading := true;
      profileWrites := profileWrites + [ProfileUpdateOf(user.value, form, avatarUrl)];
      if profileFails {
        loading := false;
        return;
      }
      var contacts := form.contacts;
      var k := 0;
      while k < |contacts|
        invariant 0 <= k <= |contacts|
        invariant contactInserts == old(contactInserts) + SavedContacts(user.value, contacts[..k])
        invariant profileWrites == old(profileWrites) + [ProfileUpdateOf(user.value, form, avatarUrl)]
      {
        assert contacts[..k + 1][..k] == contacts[..k];
        if IsComplete(contacts[k]) {
          contactInserts := contactInserts + [InsertOf(user.value, contacts[k])];
        }
        k := k + 1;
      }
      assert contacts[..k] == contacts;
      completed := true;
      loading := false;
    }
  }
}
