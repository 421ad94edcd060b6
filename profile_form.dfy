/** The profile form shown before matching: the two text fields must not be
    blank, and what is handed on is trimmed and cut to 50 characters. */
module ProfileForm {
  import opened Wrappers
  import opened Text
  import opened Domain

  /** The longest name or location handed on. */
  const MaxFieldLength: nat := 50

  const NameRequired: string := "Please enter your name"
  const LocationRequired: string := "Please enter your location"

  /** The form's error messages, one optional message per field. */
  datatype FormErrors = FormErrors(name: Option<string>, location: Option<string>)
  {
    predicate Any() { name.Some? || location.Some? }
  }

  /** The errors a submit reports: each field whose trimmed text is empty gets
      its message, and the two are reported together. */
  function Validate(name: string, location: string): (e: FormErrors)
    ensures e.name.Some? <==> AllWhitespace(name)
    ensures e.location.Some? <==> AllWhitespace(location)
    ensures e.name.Some? ==> e.name.value == NameRequired
    ensures e.location.Some? ==> e.location.value == LocationRequired
  {
    TrimEmptyIff(name);
    TrimEmptyIff(location);
    FormErrors(if Trim(name) == [] then Some(NameRequired) else None,
               if Trim(location) == [] then Some(LocationRequired) else None)
  }

  /** The profile a submit hands on, if any: present exactly when neither text
      field is blank; each text is a non-empty prefix of the trimmed input, the
      whole of it when it fits and exactly 50 characters of it when it does not;
      the two choices pass through. */
  function Submission(name: string, location: string, gender: Gender, lookingFor: LookingFor): (p: Option<UserProfile>)
    ensures p.Some? <==> !AllWhitespace(name) && !AllWhitespace(location)
    ensures p.Some? ==> 1 <= |p.value.name| <= MaxFieldLength && p.value.name <= Trim(name)
    ensures p.Some? ==> 1 <= |p.value.location| <= MaxFieldLength && p.value.location <= Trim(location)
    ensures p.Some? ==> |p.value.name| == if |Trim(name)| <= MaxFieldLength then |Trim(name)| else MaxFieldLength
    ensures p.Some? ==> |p.value.location| == if |Trim(location)| <= MaxFieldLength then |Trim(location)| else MaxFieldLength
    ensures p.Some? ==> p.value.gender == gender && p.value.lookingFor == lookingFor
  {
    if Validate(name, location).Any() then None
    else
      TrimEmptyIff(name);
      TrimEmptyIff(location);
      Some(UserProfile(Take(Trim(name), MaxFieldLength), Take(Trim(location), MaxFieldLength), gender, lookingFor))
  }

  /** A submitted text keeps the whole trimmed input when that fits. */
  lemma ShortFieldKept(name: string, location: string, gender: Gender, lookingFor: LookingFor)
    requires !AllWhitespace(name) && !AllWhitespace(location)
    ensures |Trim(name)| <= MaxFieldLength ==> Submission(name, location, gender, lookingFor).value.name == Trim(name)
    ensures |Trim(location)| <= MaxFieldLength ==> Submission(name, location, gender, lookingFor).value.location == Trim(location)
  {
  }

  /** The form's state. */
  class Form {
    var name: string
    var location: string
    var gender: Gender
    var lookingFor: LookingFor
    var errors: FormErrors

    /** Empty fields, gender `other`, looking for everyone, no errors. */
    constructor ()
      ensures name == "" && location == "" && gender == Other && lookingFor == Everyone
      ensures errors == FormErrors(None, None)
    {
      name, location, gender, lookingFor := "", "", Other, Everyone;
      errors := FormErrors(None, None);
    }

    /** `handleSubmit`: with a blank field the new errors replace the old ones and
        nothing is handed on; otherwise the profile is handed on and the errors
        shown are left as they were. */
    method HandleSubmit() returns (submitted: Option<UserProfile>)
      modifies this`errors
      ensures submitted == Submission(name, location, gender, lookingFor)
      ensures errors == if submitted.None? then Validate(name, location) else old(errors)
    {
      var newErrors := FormErrors(None, None);
      if Trim(name) == [] {
        newErrors := newErrors.(name := Some(NameRequired));
      }
      if Trim(location) == [] {
        newErrors := newErrors.(location := Some(LocationRequired));
      }
      if newErrors.Any() {
        errors := newErrors;
        return None;
      }
      submitted := Some(UserProfile(Take(Trim(name), MaxFieldLength), Take(Trim(location), MaxFieldLength),
                                    gender, lookingFor));
    }
  }
}
