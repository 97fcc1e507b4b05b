/** The contact form of the static Taletique site (app.py, and its identical copy
    TaleStitch/app.py): a POST to /contact is validated and, when it passes, appended
    to a JSON list kept in data/contacts.json.

    The file is a field of the handler: its content is either missing, not decodable,
    a JSON value that is not a list, or a list of saved contacts. The clock value
    written into each record is a parameter. */
module ContactForm {
  import opened Wrappers
  import opened Seqs

  /** A decoded form body: each key with the values it was given, as `parse_qs`
      returns it. A key with a blank value does not appear, and a key that appears
      always has at least one value, so a key bound to no values never occurs. */
  type FormData = map<string, seq<string>>

  /** One submission, with every field already defaulted. */
  datatype ContactInfo = ContactInfo(
    name: string,
    email: string,
    phone: string,
    service: string,
    message: string,
    timestamp: string)

  /** The state of data/contacts.json: missing, text that is not valid JSON, bytes
      that are not valid text (reading them raises an error the JSON handler does not
      catch), a JSON value that is not a list, or a list of saved contacts. */
  datatype ContactsFile =
    | NoFile
    | InvalidJson
    | NotText
    | NotAList
    | Contacts(entries: seq<ContactInfo>)

  /** The files a save cannot append to: the error is caught by the outer handler of
      `save_contact_info` and the file is not written. */
  predicate SaveFails(file: ContactsFile) {
    file.NotText? || file.NotAList?
  }

  /** The page sent back: a status and the message it shows. */
  datatype Reply = Reply(status: nat, message: string)

  const Success: Reply := Reply(200, "Thank You!")
  const NotFound: Reply := Reply(404, "Not Found")
  const InvalidEmail: Reply := Reply(400, "Invalid email address")
  const InternalError: Reply := Reply(400, "Internal server error")

  const RequiredFields: seq<string> := ["name", "email", "phone", "service"]

  /** The first value of a form key, or the empty string when the key is absent. */
  function FieldValue(form: FormData, key: string): (r: string)
    ensures key !in form ==> r == ""
    ensures key in form && form[key] != [] ==> r == form[key][0]
  {
    if key in form && form[key] != [] then form[key][0] else ""
  }

  /** The five form fields, each defaulting to the empty string, and the timestamp. */
  function ExtractContact(form: FormData, now: string): (r: ContactInfo)
    ensures r.name == FieldValue(form, "name") && r.email == FieldValue(form, "email")
    ensures r.phone == FieldValue(form, "phone") && r.service == FieldValue(form, "service")
    ensures r.message == FieldValue(form, "message") && r.timestamp == now
  {
    ContactInfo(FieldValue(form, "name"), FieldValue(form, "email"), FieldValue(form, "phone"),
                FieldValue(form, "service"), FieldValue(form, "message"), now)
  }

  /** A field of the record by its form name; only the required fields are looked up. */
  function Get(info: ContactInfo, field: string): string {
    if field == "name" then info.name
    else if field == "email" then info.email
    else if field == "phone" then info.phone
    else if field == "service" then info.service
    else info.message
  }

  function IsBlankIn(info: ContactInfo): string -> bool {
    (field: string) => Get(info, field) == ""
  }

  /** The required fields left empty, in the order they are declared. */
  function MissingFields(info: ContactInfo): (r: seq<string>)
    ensures forall f {:trigger f in r} :: f in r <==> f in RequiredFields && Get(info, f) == ""
    ensures "message" !in r
  {
    Filter(RequiredFields, IsBlankIn(info))
  }

  /** The list of missing fields, spelled out field by field. */
  lemma {:induction false} MissingFieldsInOrder(info: ContactInfo)
    ensures MissingFields(info) ==
      (if info.name == "" then ["name"] else [])
      + ((if info.email == "" then ["email"] else [])
      + ((if info.phone == "" then ["phone"] else [])
      + (if info.service == "" then ["service"] else [])))
  {
    FilterFour("name", "email", "phone", "service", IsBlankIn(info));
  }

  /** The items joined with ", ". */
  function Join(items: seq<string>): (r: string)
    ensures items == [] ==> r == ""
    ensures items != [] ==> items[0] <= r
    ensures |items| == 1 ==> r == items[0]
  {
    if items == [] then ""
    else if |items| == 1 then items[0]
    else items[0] + ", " + Join(items[1..])
  }

  /** The two-character email check: an `@` and a `.` somewhere in the address. */
  predicate PlausibleEmail(email: string) {
    '@' in email && '.' in email
  }

  /** The contacts `save_contact_info` starts from: a missing file, or one that is not
      valid JSON, is an empty list. */
  function Loaded(file: ContactsFile): (r: seq<ContactInfo>)
    ensures file.Contacts? ==> r == file.entries
    ensures !file.Contacts? ==> r == []
  {
    if file.Contacts? then file.entries else []
  }

  /** What data/contacts.json holds after a save. A top-level value that is not a list
      has no `append`, and undecodable bytes fail the read; both errors are caught
      inside the save and the file is left alone. */
  function SavedFile(file: ContactsFile, info: ContactInfo): (r: ContactsFile)
    ensures SaveFails(file) ==> r == file
    ensures !SaveFails(file) ==> r.Contacts? && r.entries == Loaded(file) + [info]
    ensures file.NoFile? || file.InvalidJson? ==> r == Contacts([info])
  {
    if SaveFails(file) then file else Contacts(Loaded(file) + [info])
  }

  /** `handle_contact_form` on a body that decoded (`Some`) or failed to (`None`). */
  function HandleOn(file: ContactsFile, form: Option<FormData>, now: string): (r: (ContactsFile, Reply))
    ensures form.None? ==> r == (file, InternalError)
    ensures form.Some? && MissingFields(ExtractContact(form.value, now)) != [] ==>
      r == (file, Reply(400, "Missing required fields: " + Join(MissingFields(ExtractContact(form.value, now)))))
    ensures (&& form.Some?
             && MissingFields(ExtractContact(form.value, now)) == []
             && !PlausibleEmail(ExtractContact(form.value, now).email)) ==> r == (file, InvalidEmail)
    ensures r.1 == Success <==>
      (&& form.Some?
       && MissingFields(ExtractContact(form.value, now)) == []
       && PlausibleEmail(ExtractContact(form.value, now).email))
    ensures r.1 == Success ==> r.0 == SavedFile(file, ExtractContact(form.value, now))
    ensures r.1 != Success ==> r.0 == file
  {
    if form.None? then (file, InternalError)
    else
      var info := ExtractContact(form.value, now);
      var missing := MissingFields(info);
      if missing != [] then (file, Reply(400, "Missing required fields: " + Join(missing)))
      else if !PlausibleEmail(info.email) then (file, InvalidEmail)
      else (SavedFile(file, info), Success)
  }

  /** `do_POST`: only /contact is handled. */
  function PostOn(file: ContactsFile, path: string, form: Option<FormData>, now: string): (r: (ContactsFile, Reply))
    ensures path != "/contact" ==> r == (file, NotFound)
    ensures path == "/contact" ==> r == HandleOn(file, form, now)
  {
    if path == "/contact" then HandleOn(file, form, now) else (file, NotFound)
  }

  /** A successful submission adds exactly one record, at the end, and keeps every
      earlier record where it was. */
  lemma {:induction false} SubmissionAppendsOne(file: ContactsFile, form: FormData, now: string)
    requires file.Contacts?
    requires HandleOn(file, Some(form), now).1 == Success
    ensures HandleOn(file, Some(form), now).0.Contacts?
    ensures |HandleOn(file, Some(form), now).0.entries| == |file.entries| + 1
    ensures HandleOn(file, Some(form), now).0.entries[..|file.entries|] == file.entries
    ensures HandleOn(file, Some(form), now).0.entries[|file.entries|] == ExtractContact(form, now)
  {
    var after := HandleOn(file, Some(form), now).0;
    assert after.entries == file.entries + [ExtractContact(form, now)];
  }

  /** The handler of the site, with data/contacts.json as its state. */
  class TaletiqueHandler {
    var contactsFile: ContactsFile

    constructor (file: ContactsFile)
      ensures contactsFile == file
    {
      contactsFile := file;
    }

    /** `save_contact_info`: load the list (empty when missing or not valid JSON),
        append, and write it back. */
    method SaveContactInfo(info: ContactInfo)
      modifies this
      ensures contactsFile == SavedFile(old(contactsFile), info)
    {
      if contactsFile.NotText? || contactsFile.NotAList? {
        return;
      }
      var contacts: seq<ContactInfo> := [];
      if contactsFile.Contacts? {
        contacts := contactsFile.entries;
      }
      contacts := contacts + [info];
      contactsFile := Contacts(contacts);
    }

    /** `handle_contact_form`. */
    method HandleContactForm(form: Option<FormData>, now: string) returns (r: Reply)
      modifies this
      ensures (contactsFile, r) == HandleOn(old(contactsFile), form, now)
    {
      if form.None? {
        return InternalError;
      }
      var contactInfo := ExtractContact(form.value, now);
      var missingFields := MissingFields(contactInfo);
      if missingFields != [] {
        return Reply(400, "Missing required fields: " + Join(missingFields));
      }
      if !PlausibleEmail(contactInfo.email) {
        return InvalidEmail;
      }
      SaveContactInfo(contactInfo);
      r := Success;
    }

    /** `do_POST`. */
    method DoPost(path: string, form: Option<FormData>, now: string) returns (r: Reply)
      modifies this
      ensures (contactsFile, r) == PostOn(old(contactsFile), path, form, now)
    {
      if path == "/contact" {
        r := HandleContactForm(form, now);
      } else {
        r := NotFound;
      }
    }
  }
}
