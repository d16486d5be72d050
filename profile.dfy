/**
 * The profile page of static/js/profile.js: the refresh of the signed-in
 * user's record from the server, the profile photo check, and the language
 * multi-select, whose chosen languages are mirrored into a hidden input as
 * one comma-joined string. Replies, the photo's size and type, and the
 * language catalogue are parameters.
 */
module Profile {
  import opened Wrappers
  import opened Strings

  // ---------------------------------------------------------------- user record

  /** `window.userData`: each key's value, `None` for `null`. */
  type UserData = map<string, Option<string>>

  /** The `data` of a successful `/users/api/v1/users/me` reply. */
  datatype Me = Me(user: UserData, status: string, role: Option<string>, companyId: Option<string>)

  /** What the request gives: a thrown error, or a reply. */
  datatype MeReply = MeThrown(message: string) | MeReplied(success: bool, data: Option<Me>, message: string)

  /** What `fetchCurrentUserInfo` returns. */
  datatype FetchResult = Fetched(data: Me) | FetchFailed(message: string)

  /**
   * The record after a refresh: the server's user fields over the old ones,
   * `role_status` from the reply, and then either the company dropped (an
   * inactive membership) or the role and company copied from the reply.
   */
  function Refreshed(old_: UserData, me: Me): (r: UserData)
    ensures "role_status" in r && r["role_status"] == Some(me.status)
    ensures "company_id" in r
    ensures me.status != "active" ==> r["company_id"] == None
    ensures me.status != "active" && "role" in old_ + me.user ==> "role" in r && r["role"] == (old_ + me.user)["role"]
    ensures me.status == "active" ==> "role" in r && r["role"] == me.role && r["company_id"] == me.companyId
    ensures forall k :: k in r && k !in {"role", "company_id", "role_status"} ==>
      (k in me.user && r[k] == me.user[k]) || (k !in me.user && k in old_ && r[k] == old_[k])
    ensures forall k :: k in old_ || k in me.user ==> k in r
  {
    var merged := (old_ + me.user)["role_status" := Some(me.status)];
    if me.status != "active" then merged["company_id" := None]
    else merged["role" := me.role]["company_id" := me.companyId]
  }

  /** The record `fetchCurrentUserInfo` leaves and what it returns. */
  function FetchCurrentUserInfo(userData: UserData, reply: MeReply): (r: (UserData, FetchResult))
    ensures reply.MeReplied? && reply.success && reply.data.Some? ==>
      r == (Refreshed(userData, reply.data.value), Fetched(reply.data.value))
    ensures !(reply.MeReplied? && reply.success && reply.data.Some?) ==> r.0 == userData && r.1.FetchFailed?
    ensures reply.MeReplied? && !(reply.success && reply.data.Some?) ==>
      r.1.message == (if reply.message != "" then reply.message else "Failed to fetch user info")
  {
    match reply
    case MeThrown(m) => (userData, FetchFailed(m))
    case MeReplied(success, data, m) =>
      if success && data.Some? then (Refreshed(userData, data.value), Fetched(data.value))
      else (userData, FetchFailed(if m != "" then m else "Failed to fetch user info"))
  }

  /** Refreshing twice with the same reply gives what refreshing once gives. */
  lemma RefreshedIdempotent(u: UserData, me: Me)
    ensures Refreshed(Refreshed(u, me), me) == Refreshed(u, me)
  {
    var once := Refreshed(u, me);
    var twice := Refreshed(once, me);
    assert twice.Keys == once.Keys;
    forall k | k in once
      ensures twice[k] == once[k]
    {
    }
  }

  // ---------------------------------------------------------------- photo

  /** The largest photo accepted, in bytes (5 MB). */
  const MaxPhotoBytes: int := 5 * 1024 * 1024

  datatype PhotoCheck = TooLarge | NotAnImage | PhotoAccepted

  /** The two checks before an upload: the size first, then the MIME type. */
  function CheckPhoto(size: int, mimeType: string): (r: PhotoCheck)
    ensures r == PhotoAccepted <==> size <= 5242880 && StartsWith(mimeType, "image/")
    ensures r == TooLarge <==> size > MaxPhotoBytes
  {
    if size > MaxPhotoBytes then TooLarge
    else if !StartsWith(mimeType, "image/") then NotAnImage
    else PhotoAccepted
  }

  // ---------------------------------------------------------------- languages

  /** `userData.languages`: absent or falsy, a comma-separated string, or an array. */
  datatype UserLanguages = NoLanguages | LanguageText(text: string) | LanguageList(list: seq<string>)

  /** Every piece trimmed. */
  function TrimAll(parts: seq<string>): (r: seq<string>)
    ensures |r| == |parts| && forall k :: 0 <= k < |r| ==> r[k] == Trim(parts[k])
  {
    seq(|parts|, k requires 0 <= k < |parts| => Trim(parts[k]))
  }

  /** The initial selection from a language string: split at ',', trimmed, empties dropped. */
  function ParsedLanguages(text: string): (r: seq<string>)
    ensures forall k :: 0 <= k < |r| ==> r[k] != "" && r[k] in TrimAll(Split(text, ','))
  {
    NonEmpty(TrimAll(Split(text, ',')))
  }

  /** The initial selection (an empty string, being falsy, is skipped; it would parse to nothing anyway). */
  function InitialSelection(langs: UserLanguages): (r: seq<string>)
    ensures langs.LanguageText? ==> r == ParsedLanguages(langs.text)
    ensures langs.LanguageList? ==> r == langs.list
    ensures langs.NoLanguages? ==> r == []
  {
    match langs
    case NoLanguages => []
    case LanguageText(t) => ParsedLanguages(t)
    case LanguageList(l) => l
  }

  /** The empty string parses to no language. */
  lemma ParsedEmpty()
    ensures ParsedLanguages("") == []
  {
    assert Split("", ',') == [""];
    assert TrimAll([""]) == [""];
  }

  /** A language name that survives the hidden input's round trip: non-empty, no comma, no outer blanks. */
  predicate Clean(lang: string)
  {
    lang != "" && ',' !in lang && !IsSpace(lang[0]) && !IsSpace(lang[|lang| - 1])
  }

  lemma TrimClean(lang: string)
    requires Clean(lang)
    ensures Trim(lang) == lang
  {
    assert TrimStart(lang) == lang;
  }

  /** What the hidden input holds reads back, on the next page load, as the same selection. */
  lemma HiddenInputRoundTrip(selected: seq<string>)
    requires forall k :: 0 <= k < |selected| ==> Clean(selected[k])
    ensures InitialSelection(LanguageText(Join(selected, ','))) == selected
  {
    if selected == [] {
    } else {
      SplitJoin(selected, ',');
      forall k | 0 <= k < |selected|
        ensures Trim(selected[k]) == selected[k]
      {
        TrimClean(selected[k]);
      }
      assert TrimAll(selected) == selected;
      NonEmptyAll(selected);
      assert Join(selected, ',') != "" by {
        JoinHead(selected, ',');
      }
    }
  }

  lemma {:induction false} NonEmptyAll(parts: seq<string>)
    requires forall k :: 0 <= k < |parts| ==> parts[k] != ""
    ensures NonEmpty(parts) == parts
  {
    if parts != [] {
      NonEmptyAll(parts[1..]);
      assert [parts[0]] + parts[1..] == parts;
    }
  }

  predicate NoDuplicates(s: seq<string>)
  {
    forall i, j :: 0 <= i < j < |s| ==> s[i] != s[j]
  }

  /** `selectedLanguages.filter(l => l !== lang)`. */
  function Without(s: seq<string>, lang: string): (r: seq<string>)
    ensures |r| <= |s|
    ensures forall x :: x in r <==> x in s && x != lang
  {
    if s == [] then [] else (if s[0] != lang then [s[0]] else []) + Without(s[1..], lang)
  }

  /** Removing a language that is not there changes nothing. */
  lemma {:induction false} WithoutAbsent(s: seq<string>, lang: string)
    requires lang !in s
    ensures Without(s, lang) == s
  {
    if s != [] {
      WithoutAbsent(s[1..], lang);
      assert [s[0]] + s[1..] == s;
    }
  }

  /** Removing keeps the other languages in their order. */
  lemma {:induction false} WithoutAppend(a: seq<string>, b: seq<string>, lang: string)
    ensures Without(a + b, lang) == Without(a, lang) + Without(b, lang)
  {
    if a == [] {
      assert a + b == b;
    } else {
      assert (a + b)[1..] == a[1..] + b;
      WithoutAppend(a[1..], b, lang);
    }
  }

  /** Selecting a new language and removing it again restores the selection. */
  lemma SelectThenRemove(s: seq<string>, lang: string)
    requires lang !in s
    ensures Without(s + [lang], lang) == s
  {
    WithoutAppend(s, [lang], lang);
    WithoutAbsent(s, lang);
    assert Without([lang], lang) == [];
  }

  lemma {:induction false} WithoutNoDuplicates(s: seq<string>, lang: string)
    requires NoDuplicates(s)
    ensures NoDuplicates(Without(s, lang))
  {
    if s != [] {
      WithoutNoDuplicates(s[1..], lang);
      var rest := Without(s[1..], lang);
      assert s[0] !in s[1..];
      assert s[0] !in rest;
    }
  }

  /** The options `displayLanguages` lists: those not yet selected, in the given order. */
  function Available(langs: seq<string>, selected: seq<string>): (r: seq<string>)
    ensures |r| <= |langs|
    ensures forall x :: x in r <==> x in langs && x !in selected
  {
    if langs == [] then []
    else (if langs[0] !in selected then [langs[0]] else []) + Available(langs[1..], selected)
  }

  /** The search box's list: the catalogue entries whose lower-cased name contains the lower-cased term. */
  function Matching(catalogue: seq<string>, term: string): (r: seq<string>)
    ensures forall x :: x in r <==> x in catalogue && Contains(ToLower(x), ToLower(term))
  {
    if catalogue == [] then []
    else (if Contains(ToLower(catalogue[0]), ToLower(term)) then [catalogue[0]] else []) + Matching(catalogue[1..], term)
  }

  /** The options of a concatenated catalogue are those of each part: the dropdown keeps the catalogue's order. */
  lemma {:induction false} AvailableAppend(a: seq<string>, b: seq<string>, selected: seq<string>)
    ensures Available(a + b, selected) == Available(a, selected) + Available(b, selected)
  {
    if a == [] {
      assert a + b == b;
    } else {
      assert (a + b)[1..] == a[1..] + b;
      AvailableAppend(a[1..], b, selected);
    }
  }

  /** The matches of a concatenated catalogue are those of each part: the search list keeps the catalogue's order. */
  lemma {:induction false} MatchingAppend(a: seq<string>, b: seq<string>, term: string)
    ensures Matching(a + b, term) == Matching(a, term) + Matching(b, term)
  {
    if a == [] {
      assert a + b == b;
    } else {
      assert (a + b)[1..] == a[1..] + b;
      MatchingAppend(a[1..], b, term);
    }
  }

  /** The selection and the hidden input `profile-languages`. */
  class LanguageSelector {
    var selected: seq<string>
    var hiddenInput: string

    /** The hidden input mirrors the selection. */
    predicate Mirrored()
      reads this
    {
      hiddenInput == Join(selected, ',')
    }

    /** The initial selection; the hidden input is written only when the user has languages. */
    constructor (langs: UserLanguages, initialInput: string)
      ensures selected == InitialSelection(langs)
      ensures langs.NoLanguages? || langs == LanguageText("") ==> hiddenInput == initialInput
      ensures !(langs.NoLanguages? || langs == LanguageText("")) ==> Mirrored()
    {
      selected := InitialSelection(langs);
      hiddenInput := if langs.NoLanguages? || langs == LanguageText("") then initialInput else Join(InitialSelection(langs), ',');
    }

    /** `selectLanguage`: appended only when absent; then the hidden input is rewritten. */
    method Select(lang: string)
      modifies this
      ensures lang in old(selected) ==> selected == old(selected) && hiddenInput == old(hiddenInput)
      ensures lang !in old(selected) ==> selected == old(selected) + [lang] && Mirrored()
      ensures lang in selected
      ensures old(NoDuplicates(selected)) ==> NoDuplicates(selected)
      ensures old(Mirrored()) ==> Mirrored()
    {
      if lang !in selected {
        selected := selected + [lang];
        hiddenInput := Join(selected, ',');
      }
    }

    /** `removeLanguage`: every equal entry goes; then the hidden input is rewritten. */
    method Remove(lang: string)
      modifies this
      ensures selected == Without(old(selected), lang) && Mirrored()
      ensures lang !in selected
      ensures old(NoDuplicates(selected)) ==> NoDuplicates(selected)
    {
      if NoDuplicates(selected) {
        WithoutNoDuplicates(selected, lang);
      }
      selected := Without(selected, lang);
      hiddenInput := Join(selected, ',');
    }

    /** The dropdown for a typed term: matching catalogue entries that are not selected. */
    function Dropdown(catalogue: seq<string>, term: string): (r: seq<string>)
      reads this
      ensures forall x :: x in r <==> x in catalogue && x !in selected && Contains(ToLower(x), ToLower(term))
    {
      Available(Matching(catalogue, term), selected)
    }
  }
}
