/** The tutor's "Add New Course" form: a record of text fields persisted in
    browser storage on every change, initialised from a saved copy or from
    defaults, a thumbnail upload, and a submit that reads the tutor's id out
    of the signed login token and posts the course. */
module TAddCourses {
  import opened Common

  /** A form value: text, the list of chosen sections, or `undefined`. */
  datatype FormValue = Text(text: string) | Content(sections: seq<string>) | Undefined

  /** The form object, keyed by field name. */
  type Form = map<string, FormValue>

  datatype Notice = Success(text: string) | Error(text: string)

  /** The seven text fields of the form, apart from `status`. */
  const TextFields: set<string> :=
    {"courseName", "category", "courseDescription", "whatYouWillLearn", "thumbnail", "tag", "instructions"}

  /** The empty form the page resets to: every text field empty, status
      "Draft", and no `courseContent` key. */
  function BlankForm(): (f: Form)
    ensures f.Keys == TextFields + {"status"}
    ensures forall k :: k in TextFields ==> f[k] == Text("")
    ensures f["status"] == Text("Draft") && "courseContent" !in f
  {
    map["courseName" := Text(""), "category" := Text(""), "courseDescription" := Text(""),
        "whatYouWillLearn" := Text(""), "thumbnail" := Text(""), "tag" := Text(""),
        "instructions" := Text(""), "status" := Text("Draft")]
  }

  /** The defaults of a first visit: the blank form plus `courseContent`,
      holding the section chosen on the section page if one is stored. */
  function DefaultForm(storedSection: Option<string>): Form {
    BlankForm()["courseContent" := Content(if storedSection.Some? then [storedSection.value] else [])]
  }

  /** The initial state: the saved form, when one is stored, wins over the
      defaults. `saved` is the parsed "courseFormData" entry (None when the
      entry is absent or empty) and `storedSection` the parsed
      "selectedSection" entry. */
  function InitialForm(saved: Option<Form>, storedSection: Option<string>): Form {
    if saved.Some? then saved.value else DefaultForm(storedSection)
  }

  lemma InitialFormSpec(saved: Option<Form>, storedSection: Option<string>)
    ensures saved.Some? ==> InitialForm(saved, storedSection) == saved.value
    ensures saved.None? ==>
      var f := InitialForm(saved, storedSection);
      && f.Keys == TextFields + {"status", "courseContent"}
      && (forall k :: k in TextFields ==> f[k] == Text(""))
      && f["status"] == Text("Draft")
      && f["courseContent"] == Content(if storedSection.Some? then [storedSection.value] else [])
  {
  }

  /** `handleChange`: the named field takes the typed value. */
  function WithField(form: Form, name: string, value: string): Form {
    form[name := Text(value)]
  }

  /** Only the named field changes; every other key keeps its value. */
  lemma WithFieldFrame(form: Form, name: string, value: string)
    ensures WithField(form, name, value).Keys == form.Keys + {name}
    ensures WithField(form, name, value)[name] == Text(value)
    ensures forall k :: k in form && k != name ==> WithField(form, name, value)[k] == form[k]
  {
  }

  // ---------------------------------------------------------------------
  // The login token

  /** `token.split(".")[1]`: the second segment of a signed token, the one
      that carries the claims; None (`undefined`) for a token without a dot. */
  function PayloadSegment(token: string): (r: Option<string>)
    ensures '.' !in token ==> r == None
  {
    var parts := Split(token, '.');
    if |parts| >= 2 then Some(parts[1]) else None
  }

  /** In a token `header.payload.signature` whose header and payload hold no
      dot, the segment is the payload. */
  lemma PayloadSegmentOfToken(header: string, payload: string, signature: string)
    requires '.' !in header && '.' !in payload
    ensures PayloadSegment(header + "." + payload + "." + signature) == Some(payload)
  {
    var rest := payload + "." + signature;
    assert header + "." + payload + "." + signature == header + ['.'] + rest;
    SplitCons(header, '.', rest);
    assert rest == payload + ['.'] + signature;
    SplitCons(payload, '.', signature);
  }

  /** `s.replace(/x/g, y)` for single characters. */
  function ReplaceAll(s: string, x: char, y: char): (r: string)
    ensures |r| == |s|
  {
    seq(|s|, i requires 0 <= i < |s| => if s[i] == x then y else s[i])
  }

  /** The base64url alphabet mapped to the standard one: '-' replaced by
      '+', then '_' replaced by '/'. */
  function ToStandardBase64(s: string): string {
    ReplaceAll(ReplaceAll(s, '-', '+'), '_', '/')
  }

  /** The reverse mapping, standard alphabet to base64url. */
  function ToUrlBase64(s: string): string {
    ReplaceAll(ReplaceAll(s, '+', '-'), '/', '_')
  }

  /** The mapping keeps the length, turns every '-' into '+' and every '_'
      into '/', and leaves every other character as it was. */
  lemma ToStandardBase64Spec(s: string)
    ensures |ToStandardBase64(s)| == |s|
    ensures forall i :: 0 <= i < |s| ==>
      ToStandardBase64(s)[i] == (if s[i] == '-' then '+' else if s[i] == '_' then '/' else s[i])
    ensures '-' !in ToStandardBase64(s) && '_' !in ToStandardBase64(s)
  {
    var r := ToStandardBase64(s);
    forall i | 0 <= i < |s|
      ensures r[i] == (if s[i] == '-' then '+' else if s[i] == '_' then '/' else s[i])
    {
    }
    forall i | 0 <= i < |r| ensures r[i] != '-' && r[i] != '_' {
    }
  }

  /** On base64url text, which never holds '+' or '/', the mapping is undone
      by the reverse mapping, and the other way round. */
  lemma Base64RoundTrip(s: string)
    ensures '+' !in s && '/' !in s ==> ToUrlBase64(ToStandardBase64(s)) == s
    ensures '-' !in s && '_' !in s ==> ToStandardBase64(ToUrlBase64(s)) == s
  {
    if '+' !in s && '/' !in s {
      var r := ToUrlBase64(ToStandardBase64(s));
      forall i | 0 <= i < |s| ensures r[i] == s[i] {
        assert s[i] != '+' && s[i] != '/';
      }
    }
    if '-' !in s && '_' !in s {
      var r := ToStandardBase64(ToUrlBase64(s));
      forall i | 0 <= i < |s| ensures r[i] == s[i] {
        assert s[i] != '-' && s[i] != '_';
      }
    }
  }

  /** The posted body: the form with `tutor` set to the id from the token,
      or `undefined` (left out of the JSON text) when the payload has no
      `id` claim. */
  function Body(form: Form, userId: Option<string>): (r: Form)
    ensures "tutor" in r && r.Keys == form.Keys + {"tutor"}
    ensures r["tutor"] == (if userId.Some? then Text(userId.value) else Undefined)
    ensures forall k :: k in form && k != "tutor" ==> r[k] == form[k]
  {
    form["tutor" := if userId.Some? then Text(userId.value) else Undefined]
  }

  class CourseForm {
    var form: Form
    var message: Option<Notice>
    var uploading: bool
    /** The "courseFormData" and "selectedSection" storage entries. */
    var storedForm: Option<Form>
    var storedSection: Option<string>

    /** Mounting: the initial form, which the storage effect then writes
        back. */
    constructor(saved: Option<Form>, section: Option<string>)
      ensures form == InitialForm(saved, section)
      ensures storedForm == Some(form) && storedSection == section
      ensures message == None && !uploading
    {
      form := InitialForm(saved, section);
      message := None;
      uploading := false;
      storedForm := Some(form);
      storedSection := section;
    }

    /** `handleChange`, followed by the storage effect. */
    method HandleChange(name: string, value: string)
      modifies this
      ensures form == WithField(old(form), name, value)
      ensures storedForm == Some(form)
      ensures message == old(message) && uploading == old(uploading) && storedSection == old(storedSection)
    {
      form := WithField(form, name, value);
      storedForm := Some(form);
    }

    /** `uploadThumbnail`: `response` is the upload service's answer, the
        `url` of its JSON body (None when absent) or a failure. */
    method UploadThumbnail(fileChosen: bool, response: Response<Option<string>>)
      modifies this
      ensures !fileChosen ==>
        form == old(form) && message == old(message) && uploading == old(uploading) && storedForm == old(storedForm)
      ensures fileChosen && response.Ok? ==>
        form == old(form)["thumbnail" := if response.data.Some? then Text(response.data.value) else Undefined]
        && storedForm == Some(form)
        && message == Some(Success("Thumbnail uploaded successfully!"))
      ensures fileChosen && response.Failed? ==>
        form == old(form) && storedForm == old(storedForm) && message == Some(Error("Failed to upload thumbnail."))
      ensures fileChosen ==> !uploading
      ensures storedSection == old(storedSection)
    {
      if !fileChosen {
        return;
      }
      uploading := true;
      match response {
        case Ok(url) =>
          form := form["thumbnail" := if url.Some? then Text(url.value) else Undefined];
          storedForm := Some(form);
          message := Some(Success("Thumbnail uploaded successfully!"));
        case Failed(_) =>
          message := Some(Error("Failed to upload thumbnail."));
      }
      uploading := false;
    }

    /** `handleSubmit`. `token` is the stored token (None when absent or
        empty); `decodeId` stands for decoding the standard base64 text and
        reading the `id` claim of the parsed JSON: None when either throws,
        Some(None) when the payload has no `id`;
        `response` is the HTTP status of the post, or its failure. */
    method HandleSubmit(token: Option<string>, decodeId: string -> Option<Option<string>>, response: Response<int>)
      returns (sent: Option<Form>)
      modifies this
      ensures token.None? ==>
        sent == None && message == Some(Error("Authentication token is missing. Please log in."))
        && form == old(form) && storedForm == old(storedForm) && storedSection == old(storedSection)
      ensures token.Some? && PayloadSegment(token.value).None? ==>
        sent == None && message == Some(Error("An error occurred.")) && form == old(form)
      ensures token.Some? && PayloadSegment(token.value).Some?
              && decodeId(ToStandardBase64(PayloadSegment(token.value).value)).None? ==>
        sent == None && message == Some(Error("An error occurred.")) && form == old(form)
      ensures sent.Some? <==>
        token.Some? && PayloadSegment(token.value).Some?
        && decodeId(ToStandardBase64(PayloadSegment(token.value).value)).Some?
      ensures sent.Some? ==>
        sent.value == Body(old(form), decodeId(ToStandardBase64(PayloadSegment(token.value).value)).value)
      ensures sent.Some? && response == Ok(201) ==>
        message == Some(Success("Course added successfully!"))
        && form == BlankForm() && storedForm == Some(BlankForm()) && storedSection == None
      ensures sent.Some? && response.Ok? && response.data != 201 ==>
        message == old(message) && form == old(form) && storedForm == old(storedForm) && storedSection == old(storedSection)
      ensures sent.Some? && response.Failed? ==>
        message == Some(Error(OrElse(response.serverMessage, "An error occurred.")))
        && form == old(form) && storedForm == old(storedForm) && storedSection == old(storedSection)
      ensures sent.None? ==> storedForm == old(storedForm) && storedSection == old(storedSection) && form == old(form)
      ensures uploading == old(uploading)
    {
      if token.None? {
        message := Some(Error("Authentication token is missing. Please log in."));
        return None;
      }
      var segment := PayloadSegment(token.value);
      if segment.None? {
        message := Some(Error("An error occurred."));
        return None;
      }
      var base64 := ToStandardBase64(segment.value);
      var userId := decodeId(base64);
      if userId.None? {
        message := Some(Error("An error occurred."));
        return None;
      }
      sent := Some(Body(form, userId.value));
      match response {
        case Ok(status) =>
          if status == 201 {
            message := Some(Success("Course added successfully!"));
            storedForm := None;
            storedSection := None;
            form := BlankForm();
            storedForm := Some(form);
          }
        case Failed(serverMessage) =>
          message := Some(Error(OrElse(serverMessage, "An error occurred.")));
      }
    }
  }

  /** After a successful submit the storage holds the blank form, so the
      next visit starts from it: status "Draft" and no `courseContent`, even
      though a first visit's defaults carry one. */
  method ReloadAfterSuccess(page: CourseForm, token: string, decodeId: string -> Option<Option<string>>)
    returns (next: CourseForm)
    requires PayloadSegment(token).Some? && decodeId(ToStandardBase64(PayloadSegment(token).value)).Some?
    modifies page
    ensures next.form == BlankForm()
    ensures "courseContent" !in next.form && next.form["status"] == Text("Draft")
  {
    var sent := page.HandleSubmit(Some(token), decodeId, Ok(201));
    assert sent.Some?;
    var stored := page.storedForm;
    assert stored == Some(BlankForm());
    next := new CourseForm(stored, page.storedSection);
  }
}
