/**
 * The company settings page of static/js/company_settings.js: the cookie
 * lookup for the CSRF token, the company test, the result of creating a
 * company, the details form validation, and the company's e-mail and phone
 * lists kept on `window` (collected from the form, saved, deleted by id).
 * Replies are parameters; `decodeURIComponent` is a function parameter.
 */
module CompanySettings {
  import opened Wrappers
  import opened Strings

  // ---------------------------------------------------------------- cookies

  /** The value of the first of `segments` that, trimmed, starts with `name=`. */
  function FirstCookie(segments: seq<string>, name: string, decode: string -> string): (r: Option<string>)
    ensures r.Some? ==> exists k :: (0 <= k < |segments| && StartsWith(Trim(segments[k]), name + "=") &&
      r.value == decode(Trim(segments[k])[|name| + 1..]))
    ensures r.None? <==> forall k :: 0 <= k < |segments| ==> !StartsWith(Trim(segments[k]), name + "=")
  {
    if segments == [] then None
    else if StartsWith(Trim(segments[0]), name + "=") then Some(decode(Trim(segments[0])[|name| + 1..]))
    else
      var r := FirstCookie(segments[1..], name, decode);
      FirstCookieSkips(segments, name, decode, r);
      r
  }

  /** A first segment that is not the cookie leaves the search to the rest. */
  lemma FirstCookieSkips(segments: seq<string>, name: string, decode: string -> string, r: Option<string>)
    requires segments != [] && !StartsWith(Trim(segments[0]), name + "=")
    requires r.Some? ==> exists k :: (0 <= k < |segments[1..]| && StartsWith(Trim(segments[1..][k]), name + "=") &&
      r.value == decode(Trim(segments[1..][k])[|name| + 1..]))
    requires r.None? <==> forall k :: 0 <= k < |segments[1..]| ==> !StartsWith(Trim(segments[1..][k]), name + "=")
    ensures r.Some? ==> exists k :: (0 <= k < |segments| && StartsWith(Trim(segments[k]), name + "=") &&
      r.value == decode(Trim(segments[k])[|name| + 1..]))
    ensures r.None? <==> forall k :: 0 <= k < |segments| ==> !StartsWith(Trim(segments[k]), name + "=")
  {
    var rest := segments[1..];
    assert forall k :: 1 <= k < |segments| ==> segments[k] == rest[k - 1];
    if r.Some? {
      var k :| 0 <= k < |rest| && StartsWith(Trim(rest[k]), name + "=") && r.value == decode(Trim(rest[k])[|name| + 1..]);
      assert segments[k + 1] == rest[k];
    }
  }

  /** `getCookie(name)` on `document.cookie`: `null` for an empty cookie string. */
  function CookieValue(cookie: string, name: string, decode: string -> string): (r: Option<string>)
    ensures cookie == "" ==> r.None?
  {
    if cookie == "" then None else FirstCookie(Split(cookie, ';'), name, decode)
  }

  /** `getCookie`: the loop over the `;`-separated segments that stops at the first match. */
  method GetCookie(cookie: string, name: string, decode: string -> string) returns (value: Option<string>)
    ensures value == CookieValue(cookie, name, decode)
  {
    value := None;
    if cookie != "" {
      var cookies := Split(cookie, ';');
      var i := 0;
      while i < |cookies|
        invariant 0 <= i <= |cookies|
        invariant FirstCookie(cookies[i..], name, decode) == FirstCookie(cookies, name, decode)
        decreases |cookies| - i
      {
        var c := Trim(cookies[i]);
        assert cookies[i..][0] == cookies[i];
        if StartsWith(c, name + "=") {
          value := Some(decode(c[|name| + 1..]));
          assert value == FirstCookie(cookies[i..], name, decode);
          return;
        }
        assert cookies[i..][1..] == cookies[i + 1..];
        assert FirstCookie(cookies[i..], name, decode) == FirstCookie(cookies[i + 1..], name, decode);
        i := i + 1;
      }
      assert cookies[i..] == [];
    }
  }

  /** A later cookie of the same name, or any cookie after the first match, does not matter. */
  lemma {:induction false} FirstCookieAt(segments: seq<string>, name: string, v: string, k: nat, decode: string -> string)
    requires k < |segments| && Trim(segments[k]) == name + "=" + v
    requires forall j :: 0 <= j < k ==> !StartsWith(Trim(segments[j]), name + "=")
    ensures FirstCookie(segments, name, decode) == Some(decode(v))
  {
    if k == 0 {
      var t := name + "=" + v;
      assert t[..|name + "="|] == name + "=";
      assert t[|name| + 1..] == v;
    } else {
      FirstCookieAt(segments[1..], name, v, k - 1, decode);
    }
  }

  /** The cookie string made of `;`-joined segments yields the first segment named `name`. */
  lemma CookieOfJoined(segments: seq<string>, name: string, v: string, k: nat, decode: string -> string)
    requires k < |segments| && Trim(segments[k]) == name + "=" + v
    requires forall j :: 0 <= j < |segments| ==> ';' !in segments[j]
    requires forall j :: 0 <= j < k ==> !StartsWith(Trim(segments[j]), name + "=")
    ensures CookieValue(Join(segments, ';'), name, decode) == Some(decode(v))
  {
    SplitJoin(segments, ';');
    FirstCookieAt(segments, name, v, k, decode);
    assert segments[k] != "";
    assert segments != [""];
  }

  /**
   * A cookie whose name only begins with `name` (`csrftoken2=…` for
   * `csrftoken`) is never taken for it, wherever it stands.
   */
  lemma LongerNameDoesNotMatch(segments: seq<string>, name: string, c: char, rest: string, k: nat, decode: string -> string)
    requires k < |segments| && c != '=' && Trim(segments[k]) == name + [c] + rest
    requires forall j :: 0 <= j < |segments| && j != k ==> !StartsWith(Trim(segments[j]), name + "=")
    ensures FirstCookie(segments, name, decode).None?
  {
    var t := name + [c] + rest;
    assert t[|name|] == c;
    assert (name + "=")[|name|] == '=';
    assert !StartsWith(t, name + "=");
  }

  // ---------------------------------------------------------------- company

  /** `hasCompany`: the page was given a company id that is set, not "None" and not empty. */
  predicate HasCompany(userCompanyId: Option<string>)
  {
    userCompanyId.Some? && userCompanyId.value != "None" && userCompanyId.value != ""
  }

  /** What the page does once it has tested `hasCompany`. */
  datatype Start = LoadCompany | ShowCreateForm | NothingShown

  /**
   * The branch after the `hasCompany` test: the company's details, e-mails,
   * phones and address are loaded when the page has a company; otherwise the
   * create form is shown, when the page has one.
   */
  function StartFor(userCompanyId: Option<string>, hasCreateForm: bool): (s: Start)
    ensures s == LoadCompany <==> HasCompany(userCompanyId)
    ensures s == ShowCreateForm <==> !HasCompany(userCompanyId) && hasCreateForm
    ensures userCompanyId == Some("None") || userCompanyId == Some("") ==> s != LoadCompany
  {
    if HasCompany(userCompanyId) then LoadCompany else if hasCreateForm then ShowCreateForm else NothingShown
  }

  /** What the companies endpoint gives. */
  datatype Reply = Thrown | Replied(success: bool, message: string)

  /** What `createCompany` returns. */
  datatype Outcome = Outcome(success: bool, message: string)

  /** `createCompany`'s result: success exactly when the server says so, with its message or a default. */
  function CreateCompany(reply: Reply): (r: Outcome)
    ensures r.success <==> reply.Replied? && reply.success
    ensures reply.Thrown? ==> r.message == "Network error occurred"
    ensures reply.Replied? && reply.message != "" ==> r.message == reply.message
    ensures reply.Replied? && reply.message == "" ==>
      r.message == (if reply.success then "Company created successfully" else "Failed to create company")
  {
    match reply
    case Thrown => Outcome(false, "Network error occurred")
    case Replied(success, m) =>
      if !success then Outcome(false, if m != "" then m else "Failed to create company")
      else Outcome(true, if m != "" then m else "Company created successfully")
  }

  /** The details form as typed. */
  datatype DetailsForm = DetailsForm(name: string, logoUrl: string, website: string, description: string,
                                     teamSize: string, kind: string)

  /** The body `saveCompanyDetails` sends. */
  datatype Details = Details(name: string, logoUrl: string, website: string, description: string,
                             teamSize: int, kind: string)

  /** `parseInt(text) || 1`: a team size that does not parse, or parses to 0, is 1. */
  function TeamSize(text: string): (r: int)
    ensures r != 0
    ensures ParseIntJs(text).Some? && ParseIntJs(text).value != 0 ==> r == ParseIntJs(text).value
    ensures ParseIntJs(text).None? || ParseIntJs(text) == Some(0) ==> r == 1
  {
    var n := ParseIntJs(text);
    if n.Some? && n.value != 0 then n.value else 1
  }

  /** The details to send, or `None` (an error and no request) when the trimmed name is empty. */
  function DetailsPayload(f: DetailsForm): (r: Option<Details>)
    ensures r.None? <==> IsBlank(f.name)
    ensures r.Some? ==> r.value.name == Trim(f.name) && r.value.name != "" && r.value.teamSize == TeamSize(f.teamSize)
    ensures r.Some? ==> (r.value.logoUrl == Trim(f.logoUrl) && r.value.website == Trim(f.website) &&
      r.value.description == Trim(f.description) && r.value.kind == Trim(f.kind))
  {
    if Trim(f.name) == "" then None
    else Some(Details(Trim(f.name), Trim(f.logoUrl), Trim(f.website), Trim(f.description), TeamSize(f.teamSize), Trim(f.kind)))
  }

  // ---------------------------------------------------------------- e-mails and phones

  /** An entry of `window.companyEmails` or `window.companyPhones`: its id once saved, and its data. */
  datatype Listed<T> = Listed(id: Option<string>, data: T)

  datatype EmailData = EmailData(email: string, status: string)

  datatype PhoneData = PhoneData(phone: string, isPrimary: bool)

  /** A row of the e-mail form: the address input (if found) and the type select (if found). */
  datatype EmailRow = EmailRow(input: Option<string>, kind: Option<string>)

  /** A row of the phone form: the number input (if found) and the type select's value. */
  datatype PhoneRow = PhoneRow(input: Option<string>, kind: string)

  /** The addresses `saveCompanyEmails` collects: trimmed, blank ones dropped, "other" without a type select. */
  function EmailsOf(rows: seq<EmailRow>): (r: seq<EmailData>)
    ensures |r| <= |rows|
    ensures forall e :: e in r ==> e.email != "" && e.email == Trim(e.email)
  {
    if rows == [] then [] else EmailOf(rows[0]) + EmailsOf(rows[1..])
  }

  /** What one row contributes: its trimmed entry, or nothing when blank or missing. */
  function EmailOf(row: EmailRow): (r: seq<EmailData>)
    ensures |r| <= 1 && (r != [] <==> row.input.Some? && !IsBlank(row.input.value))
    ensures forall e :: e in r ==> e.email != "" && e.email == Trim(e.email)
  {
    if row.input.Some? && Trim(row.input.value) != "" then
      TrimTwice(row.input.value);
      [EmailData(Trim(row.input.value), row.kind.GetOr("other"))]
    else []
  }

  /** The numbers `saveCompanyPhones` collects: trimmed, blank ones dropped, primary iff the type is "primary". */
  function PhonesOf(rows: seq<PhoneRow>): (r: seq<PhoneData>)
    ensures |r| <= |rows|
    ensures forall p :: p in r ==> p.phone != "" && p.phone == Trim(p.phone)
  {
    if rows == [] then [] else PhoneOf(rows[0]) + PhonesOf(rows[1..])
  }

  /** What one row contributes: its trimmed entry, or nothing when blank or missing. */
  function PhoneOf(row: PhoneRow): (r: seq<PhoneData>)
    ensures |r| <= 1 && (r != [] <==> row.input.Some? && !IsBlank(row.input.value))
    ensures forall p :: p in r ==> p.phone != "" && p.phone == Trim(p.phone)
  {
    if row.input.Some? && Trim(row.input.value) != "" then
      TrimTwice(row.input.value);
      [PhoneData(Trim(row.input.value), row.kind == "primary")]
    else []
  }

  lemma TrimTwice(s: string)
    ensures Trim(Trim(s)) == Trim(s)
  {
    var t := Trim(s);
    if t != [] {
      assert TrimStart(t) == t;
    }
  }

  /** Every non-blank address of the form is collected. */
  lemma {:induction false} EmailsComplete(rows: seq<EmailRow>, k: nat)
    requires k < |rows| && rows[k].input.Some? && !IsBlank(rows[k].input.value)
    ensures EmailData(Trim(rows[k].input.value), rows[k].kind.GetOr("other")) in EmailsOf(rows)
  {
    var e := EmailData(Trim(rows[k].input.value), rows[k].kind.GetOr("other"));
    if k > 0 {
      assert rows[1..][k - 1] == rows[k];
      EmailsComplete(rows[1..], k - 1);
      EmailsOfKeeps(rows, e);
    } else {
      assert EmailsOf(rows)[0] == e;
    }
  }

  lemma EmailsOfKeeps(rows: seq<EmailRow>, e: EmailData)
    requires rows != [] && e in EmailsOf(rows[1..])
    ensures e in EmailsOf(rows)
  {
  }

  /** A number is marked primary exactly when its row's type is "primary". */
  lemma {:induction false} PhonesPrimary(rows: seq<PhoneRow>, k: nat)
    requires k < |rows| && rows[k].input.Some? && !IsBlank(rows[k].input.value)
    ensures PhoneData(Trim(rows[k].input.value), rows[k].kind == "primary") in PhonesOf(rows)
  {
    var p := PhoneData(Trim(rows[k].input.value), rows[k].kind == "primary");
    if k > 0 {
      assert rows[1..][k - 1] == rows[k];
      PhonesPrimary(rows[1..], k - 1);
      PhonesOfKeeps(rows, p);
    } else {
      assert PhonesOf(rows)[0] == p;
    }
  }

  lemma PhonesOfKeeps(rows: seq<PhoneRow>, p: PhoneData)
    requires rows != [] && p in PhonesOf(rows[1..])
    ensures p in PhonesOf(rows)
  {
  }

  /** `list.filter(x => x.id !== id)`. */
  function WithoutId<T(!new)>(list: seq<Listed<T>>, id: string): (r: seq<Listed<T>>)
    ensures |r| <= |list|
    ensures forall x :: x in r <==> x in list && x.id != Some(id)
  {
    if list == [] then []
    else (if list[0].id != Some(id) then [list[0]] else []) + WithoutId(list[1..], id)
  }

  /** Deleting from a concatenation deletes from each part: the entries that stay keep their order. */
  lemma {:induction false} WithoutIdAppend<T(!new)>(a: seq<Listed<T>>, b: seq<Listed<T>>, id: string)
    ensures WithoutId(a + b, id) == WithoutId(a, id) + WithoutId(b, id)
  {
    if a == [] {
      assert a + b == b;
    } else {
      assert (a + b)[1..] == a[1..] + b;
      WithoutIdAppend(a[1..], b, id);
    }
  }

  /** Deleting an id no entry has changes nothing. */
  lemma {:induction false} WithoutIdAbsent<T(!new)>(list: seq<Listed<T>>, id: string)
    requires forall k :: 0 <= k < |list| ==> list[k].id != Some(id)
    ensures WithoutId(list, id) == list
  {
    if list != [] {
      WithoutIdAbsent(list[1..], id);
      assert [list[0]] + list[1..] == list;
    }
  }

  /** The company id a save sends: the user's company id, else the loaded company's id. */
  function CompanyIdFor(userCompanyId: string, infoId: string): (r: Option<string>)
    ensures r.None? <==> userCompanyId == "" && infoId == ""
    ensures r.Some? ==> r.value != "" && (r.value == userCompanyId || (userCompanyId == "" && r.value == infoId))
  {
    if userCompanyId != "" then Some(userCompanyId) else if infoId != "" then Some(infoId) else None
  }

  /** A page that loads its company's data saves its lists under that same company id. */
  lemma HasCompanyUsesOwnId(userCompanyId: string, infoId: string)
    requires HasCompany(Some(userCompanyId))
    ensures StartFor(Some(userCompanyId), false) == LoadCompany
    ensures CompanyIdFor(userCompanyId, infoId) == Some(userCompanyId)
  {
  }

  /** The page's module state and the lists it keeps on `window` (`None` where `window` has no array). */
  class Page {
    var emails: Option<seq<Listed<EmailData>>>
    var phones: Option<seq<Listed<PhoneData>>>
    var currentEmailId: Option<string>
    var currentPhoneId: Option<string>

    constructor (emails0: Option<seq<Listed<EmailData>>>, phones0: Option<seq<Listed<PhoneData>>>)
      ensures emails == emails0 && phones == phones0 && currentEmailId.None? && currentPhoneId.None?
    {
      emails := emails0;
      phones := phones0;
      currentEmailId := None;
      currentPhoneId := None;
    }

    /**
     * `saveCompanyEmails`: the collected addresses are sent with the company
     * id; without one nothing is sent; on success they replace the list.
     */
    method SaveEmails(rows: seq<EmailRow>, userCompanyId: string, infoId: string, ok: bool)
      returns (request: Option<(seq<EmailData>, string)>)
      modifies this
      ensures CompanyIdFor(userCompanyId, infoId).None? <==> request.None?
      ensures request.Some? ==> request.value == (EmailsOf(rows), CompanyIdFor(userCompanyId, infoId).value)
      ensures request.Some? && ok ==> emails == Some(Unsaved(EmailsOf(rows)))
      ensures request.None? || !ok ==> emails == old(emails)
      ensures phones == old(phones) && currentEmailId == old(currentEmailId) && currentPhoneId == old(currentPhoneId)
    {
      var collected := CollectEmails(rows);
      var companyId := CompanyIdFor(userCompanyId, infoId);
      if companyId.None? {
        return None;
      }
      request := Some((collected, companyId.value));
      if ok {
        emails := Some(Unsaved(collected));
      }
    }

    /** `saveCompanyPhones`, as `SaveEmails` for the phone list. */
    method SavePhones(rows: seq<PhoneRow>, userCompanyId: string, infoId: string, ok: bool)
      returns (request: Option<(seq<PhoneData>, string)>)
      modifies this
      ensures CompanyIdFor(userCompanyId, infoId).None? <==> request.None?
      ensures request.Some? ==> request.value == (PhonesOf(rows), CompanyIdFor(userCompanyId, infoId).value)
      ensures request.Some? && ok ==> phones == Some(Unsaved(PhonesOf(rows)))
      ensures request.None? || !ok ==> phones == old(phones)
      ensures emails == old(emails) && currentEmailId == old(currentEmailId) && currentPhoneId == old(currentPhoneId)
    {
      var collected := CollectPhones(rows);
      var companyId := CompanyIdFor(userCompanyId, infoId);
      if companyId.None? {
        return None;
      }
      request := Some((collected, companyId.value));
      if ok {
        phones := Some(Unsaved(collected));
      }
    }

    /** A delete button of a saved address: it is remembered for the confirmation. */
    method AskDeleteEmail(id: string)
      modifies this
      ensures id != "" ==> currentEmailId == Some(id)
      ensures id == "" ==> currentEmailId == old(currentEmailId)
      ensures emails == old(emails) && phones == old(phones) && currentPhoneId == old(currentPhoneId)
    {
      if id != "" {
        currentEmailId := Some(id);
      }
    }

    /** The close and cancel buttons of the e-mail delete dialog. */
    method CancelDeleteEmail()
      modifies this
      ensures currentEmailId.None?
      ensures emails == old(emails) && phones == old(phones) && currentPhoneId == old(currentPhoneId)
    {
      currentEmailId := None;
    }

    /**
     * The confirm button and `deleteEmail`: with a remembered id and a
     * successful reply, exactly the entries with that id leave the list; the
     * remembered id is kept.
     */
    method ConfirmDeleteEmail(ok: bool) returns (called: bool)
      modifies this
      ensures called <==> old(currentEmailId).Some? && old(currentEmailId).value != ""
      ensures called && ok && old(emails).Some? ==> emails == Some(WithoutId(old(emails).value, old(currentEmailId).value))
      ensures !(called && ok && old(emails).Some?) ==> emails == old(emails)
      ensures phones == old(phones) && currentEmailId == old(currentEmailId) && currentPhoneId == old(currentPhoneId)
    {
      called := currentEmailId.Some? && currentEmailId.value != "";
      if called && ok && emails.Some? {
        emails := Some(WithoutId(emails.value, currentEmailId.value));
      }
    }

    /** A delete button of a saved number. */
    method AskDeletePhone(id: string)
      modifies this
      ensures id != "" ==> currentPhoneId == Some(id)
      ensures id == "" ==> currentPhoneId == old(currentPhoneId)
      ensures emails == old(emails) && phones == old(phones) && currentEmailId == old(currentEmailId)
    {
      if id != "" {
        currentPhoneId := Some(id);
      }
    }

    method CancelDeletePhone()
      modifies this
      ensures currentPhoneId.None?
      ensures emails == old(emails) && phones == old(phones) && currentEmailId == old(currentEmailId)
    {
      currentPhoneId := None;
    }

    /** The confirm button and `deletePhone`. */
    method ConfirmDeletePhone(ok: bool) returns (called: bool)
      modifies this
      ensures called <==> old(currentPhoneId).Some? && old(currentPhoneId).value != ""
      ensures called && ok && old(phones).Some? ==> phones == Some(WithoutId(old(phones).value, old(currentPhoneId).value))
      ensures !(called && ok && old(phones).Some?) ==> phones == old(phones)
      ensures emails == old(emails) && currentEmailId == old(currentEmailId) && currentPhoneId == old(currentPhoneId)
    {
      called := currentPhoneId.Some? && currentPhoneId.value != "";
      if called && ok && phones.Some? {
        phones := Some(WithoutId(phones.value, currentPhoneId.value));
      }
    }
  }

  /** Freshly collected entries, which have no id yet. */
  function Unsaved<T>(data: seq<T>): (r: seq<Listed<T>>)
    ensures |r| == |data| && forall k :: 0 <= k < |r| ==> r[k] == Listed(None, data[k])
  {
    seq(|data|, k requires 0 <= k < |data| => Listed(None, data[k]))
  }

  /** The `forEach` over the e-mail rows, pushing each non-blank address. */
  method CollectEmails(rows: seq<EmailRow>) returns (emails: seq<EmailData>)
    ensures emails == EmailsOf(rows)
  {
    emails := [];
    var i := 0;
    while i < |rows|
      invariant 0 <= i <= |rows|
      invariant emails == EmailsOf(rows[..i])
    {
      var row := rows[i];
      EmailsOfPrefix(rows, i);
      if row.input.Some? && Trim(row.input.value) != "" {
        assert EmailOf(row) == [EmailData(Trim(row.input.value), row.kind.GetOr("other"))];
        emails := emails + [EmailData(Trim(row.input.value), row.kind.GetOr("other"))];
      } else {
        assert EmailOf(row) == [];
      }
      i := i + 1;
    }
    assert rows[..i] == rows;
  }

  /** The rows before `i + 1` collect the rows before `i`, then row `i`. */
  lemma EmailsOfPrefix(rows: seq<EmailRow>, i: nat)
    requires i < |rows|
    ensures EmailsOf(rows[..i + 1]) == EmailsOf(rows[..i]) + EmailOf(rows[i])
  {
    assert rows[..i + 1] == rows[..i] + [rows[i]];
    EmailsOfSnoc(rows[..i], rows[i]);
  }

  /** Collecting one more row appends what that row alone gives. */
  lemma {:induction false} EmailsOfSnoc(rows: seq<EmailRow>, row: EmailRow)
    ensures EmailsOf(rows + [row]) == EmailsOf(rows) + EmailOf(row)
    decreases |rows|
  {
    if rows != [] {
      assert (rows + [row])[1..] == rows[1..] + [row];
      EmailsOfSnoc(rows[1..], row);
    } else {
      assert rows + [row] == [row];
    }
  }

  /** The `forEach` over the phone rows. */
  method CollectPhones(rows: seq<PhoneRow>) returns (phones: seq<PhoneData>)
    ensures phones == PhonesOf(rows)
  {
    phones := [];
    var i := 0;
    while i < |rows|
      invariant 0 <= i <= |rows|
      invariant phones == PhonesOf(rows[..i])
    {
      var row := rows[i];
      PhonesOfPrefix(rows, i);
      if row.input.Some? && Trim(row.input.value) != "" {
        assert PhoneOf(row) == [PhoneData(Trim(row.input.value), row.kind == "primary")];
        phones := phones + [PhoneData(Trim(row.input.value), row.kind == "primary")];
      } else {
        assert PhoneOf(row) == [];
      }
      i := i + 1;
    }
    assert rows[..i] == rows;
  }

  /** The rows before `i + 1` collect the rows before `i`, then row `i`. */
  lemma PhonesOfPrefix(rows: seq<PhoneRow>, i: nat)
    requires i < |rows|
    ensures PhonesOf(rows[..i + 1]) == PhonesOf(rows[..i]) + PhoneOf(rows[i])
  {
    assert rows[..i + 1] == rows[..i] + [rows[i]];
    PhonesOfSnoc(rows[..i], rows[i]);
  }

  /** Collecting one more row appends what that row alone gives. */
  lemma {:induction false} PhonesOfSnoc(rows: seq<PhoneRow>, row: PhoneRow)
    ensures PhonesOf(rows + [row]) == PhonesOf(rows) + PhoneOf(row)
    decreases |rows|
  {
    if rows != [] {
      assert (rows + [row])[1..] == rows[1..] + [row];
      PhonesOfSnoc(rows[1..], row);
    } else {
      assert rows + [row] == [row];
    }
  }
}
