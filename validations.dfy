/** Length bounds shared by the form schemas (the files under src/lib/validations). A form
    field is None when it is absent (or null), Some(text) when submitted.
    Lengths are counted in characters. */
module Schema {
  import opened Common

  /** A required string of `lo..hi` characters (`z.string().min(lo).max(hi)`). */
  predicate Bounded(f: Option<string>, lo: nat, hi: nat) {
    f.Some? && lo <= |f.value| <= hi
  }

  /** An optional string of at most `hi` characters (`z.string().max(hi).optional()`). */
  predicate OptionalMax(f: Option<string>, hi: nat) {
    f.None? || |f.value| <= hi
  }

  /** A required non-empty string with no upper bound (`z.string().min(1)`). */
  predicate NonEmpty(f: Option<string>) {
    f.Some? && f.value != ""
  }
}

/** `eventSchema` and `beschikbaarheidSchema` (src/lib/validations/events.ts). */
module EventValidation {
  import opened Common
  import opened Store
  import opened Schema

  datatype EventForm = EventForm(
    eventType: Option<string>, titel: Option<string>, beschrijving: Option<string>, datum: Option<string>,
    eindtijd: Option<string>, locatie: Option<string>, deadline: Option<string>)

  datatype EventData = EventData(
    eventType: EventType, titel: string, beschrijving: Option<string>, datum: string,
    eindtijd: Option<string>, locatie: Option<string>, deadline: Option<string>)

  function EventTypeName(t: EventType): string {
    match t
    case Wedstrijd => "WEDSTRIJD"
    case Training => "TRAINING"
    case Onderhoud => "ONDERHOUD"
    case Sociaal => "SOCIAAL"
  }

  function ParseEventType(s: string): Option<EventType> {
    if s == "WEDSTRIJD" then Some(Wedstrijd)
    else if s == "TRAINING" then Some(Training)
    else if s == "ONDERHOUD" then Some(Onderhoud)
    else if s == "SOCIAAL" then Some(Sociaal)
    else None
  }

  /** The enumeration accepts exactly the four names, each naming its own type. */
  lemma EventTypeNames(s: string)
    ensures ParseEventType(s).Some? <==> s in {"WEDSTRIJD", "TRAINING", "ONDERHOUD", "SOCIAAL"}
    ensures ParseEventType(s).Some? ==> EventTypeName(ParseEventType(s).value) == s
  {
  }

  /** `eventSchema.parse`: None when the form is rejected. */
  function ParseEvent(f: EventForm): Option<EventData> {
    if f.eventType.None? || ParseEventType(f.eventType.value).None? then None
    else if !Bounded(f.titel, 1, 200) then None
    else if !OptionalMax(f.beschrijving, 5000) then None
    else if !NonEmpty(f.datum) then None
    else if !OptionalMax(f.locatie, 200) then None
    else Some(EventData(ParseEventType(f.eventType.value).value, f.titel.value, f.beschrijving, f.datum.value,
                        f.eindtijd, f.locatie, f.deadline))
  }

  /** The form an event's data is submitted as. */
  function EventFormOf(d: EventData): EventForm {
    EventForm(Some(EventTypeName(d.eventType)), Some(d.titel), d.beschrijving, Some(d.datum), d.eindtijd, d.locatie, d.deadline)
  }

  predicate WithinEventBounds(d: EventData) {
    && 1 <= |d.titel| <= 200 && OptionalMax(d.beschrijving, 5000) && d.datum != "" && OptionalMax(d.locatie, 200)
  }

  /** The schema accepts exactly the forms of in-bounds event data and passes
      every accepted value through unchanged (the title is not trimmed). */
  lemma ParseEventExact(f: EventForm, d: EventData)
    ensures ParseEvent(f) == Some(d) <==> f == EventFormOf(d) && WithinEventBounds(d)
  {
    if f == EventFormOf(d) && WithinEventBounds(d) {
      EventTypeNames(EventTypeName(d.eventType));
    }
    if ParseEvent(f) == Some(d) {
      EventTypeNames(f.eventType.value);
    }
  }

  datatype AvailabilityForm = AvailabilityForm(eventId: Option<string>, status: Option<string>, reden: Option<string>)

  datatype AvailabilityData = AvailabilityData(eventId: Id, status: AvailabilityStatus, reden: Option<string>)

  function ParseStatus(s: string): Option<AvailabilityStatus> {
    if s == "BESCHIKBAAR" then Some(Beschikbaar)
    else if s == "NIET_BESCHIKBAAR" then Some(NietBeschikbaar)
    else if s == "TWIJFEL" then Some(Twijfel)
    else None
  }

  /** `beschikbaarheidSchema.parse`, the refine rule included: a reason that is
      present, non-empty and not only whitespace is required for "niet beschikbaar". */
  function ParseAvailability(f: AvailabilityForm): Option<AvailabilityData> {
    if !NonEmpty(f.eventId) then None
    else if f.status.None? || ParseStatus(f.status.value).None? then None
    else if !OptionalMax(f.reden, 500) then None
    else
      var status := ParseStatus(f.status.value).value;
      if status == NietBeschikbaar && !(Truthy(f.reden) && Trim(f.reden.value) != "") then None
      else Some(AvailabilityData(f.eventId.value, status, f.reden))
  }

  /** An accepted "niet beschikbaar" always carries a reason that is not blank;
      a missing or blank reason makes it rejected. */
  lemma UnavailableNeedsReason(f: AvailabilityForm)
    requires f.status == Some("NIET_BESCHIKBAAR")
    ensures ParseAvailability(f).Some? ==> f.reden.Some? && !IsBlank(f.reden.value)
    ensures f.reden.None? || IsBlank(f.reden.value) ==> ParseAvailability(f).None?
  {
    if f.reden.Some? {
      TrimEmptyIffBlank(f.reden.value);
    }
  }

  /** "beschikbaar" and "twijfel" need no reason. */
  lemma OtherStatusesNeedNoReason(eventId: string, status: string)
    requires eventId != "" && status in {"BESCHIKBAAR", "TWIJFEL"}
    ensures ParseAvailability(AvailabilityForm(Some(eventId), Some(status), None)).Some?
  {
  }

  /** A reason over 500 characters, an empty event id or an unknown status is
      rejected, whatever else the form holds. */
  lemma AvailabilityRejections(f: AvailabilityForm)
    ensures f.reden.Some? && |f.reden.value| > 500 ==> ParseAvailability(f).None?
    ensures !NonEmpty(f.eventId) ==> ParseAvailability(f).None?
    ensures f.status.Some? && f.status.value !in {"BESCHIKBAAR", "NIET_BESCHIKBAAR", "TWIJFEL"} ==> ParseAvailability(f).None?
  {
  }
}

/** `commentSchema` (src/lib/validations/comments.ts). */
module CommentValidation {
  import opened Common
  import opened Store
  import opened Schema

  datatype CommentForm = CommentForm(parentType: Option<string>, parentId: Option<string>, inhoud: Option<string>)

  datatype CommentData = CommentData(parentType: ReferenceType, parentId: Id, inhoud: string)

  function ParseParentType(s: string): Option<ReferenceType> {
    if s == "EVENT" then Some(EventRef)
    else if s == "POST" then Some(PostRef)
    else if s == "TASK" then Some(TaskRef)
    else None
  }

  /** `commentSchema.parse`: accepts exactly a known parent type, a non-empty
      parent id and 1..2000 characters of content, and passes them through. */
  function ParseComment(f: CommentForm): (r: Option<CommentData>)
    ensures r.Some? <==>
      && f.parentType.Some? && f.parentType.value in {"EVENT", "POST", "TASK"}
      && f.parentId.Some? && f.parentId.value != ""
      && f.inhoud.Some? && 1 <= |f.inhoud.value| <= 2000
    ensures r.Some? ==>
      && Some(r.value.parentId) == f.parentId && Some(r.value.inhoud) == f.inhoud
      && (r.value.parentType == EventRef <==> f.parentType == Some("EVENT"))
      && (r.value.parentType == PostRef <==> f.parentType == Some("POST"))
      && (r.value.parentType == TaskRef <==> f.parentType == Some("TASK"))
  {
    if f.parentType.None? || ParseParentType(f.parentType.value).None? then None
    else if !NonEmpty(f.parentId) then None
    else if !Bounded(f.inhoud, 1, 2000) then None
    else Some(CommentData(ParseParentType(f.parentType.value).value, f.parentId.value, f.inhoud.value))
  }

  /** Length is checked on the untrimmed text: content made only of
      whitespace, which trims to nothing, passes as it is. */
  lemma WhitespaceOnlyContentPasses(f: CommentForm)
    requires f.parentType.Some? && f.parentType.value in {"EVENT", "POST", "TASK"} && Truthy(f.parentId)
    requires f.inhoud.Some? && 1 <= |f.inhoud.value| <= 2000 && IsBlank(f.inhoud.value)
    ensures Trim(f.inhoud.value) == ""
    ensures ParseComment(f).Some? && ParseComment(f).value.inhoud == f.inhoud.value
  {
    TrimEmptyIffBlank(f.inhoud.value);
  }
}

/** `postSchema` (src/lib/validations/posts.ts). */
module PostValidation {
  import opened Common
  import opened Store
  import opened Schema

  datatype PostForm = PostForm(titel: Option<string>, inhoud: Option<string>, categorie: Option<string>, gepind: Option<bool>)

  datatype PostData = PostData(titel: string, inhoud: string, categorie: PostCategorie, gepind: bool)

  function ParseCategorie(s: string): Option<PostCategorie> {
    if s == "WEDSTRIJDSCHEMA" then Some(Wedstrijdschema)
    else if s == "REGLEMENTEN" then Some(Reglementen)
    else if s == "BOOTINFO" then Some(Bootinfo)
    else if s == "ALGEMEEN" then Some(Algemeen)
    else None
  }

  /** `postSchema.parse`: accepts exactly a title of 1..200 characters, any
      non-empty content and one of the four categories; `gepind` defaults to false. */
  function ParsePost(f: PostForm): (r: Option<PostData>)
    ensures r.Some? <==>
      && f.titel.Some? && 1 <= |f.titel.value| <= 200 && f.inhoud.Some? && f.inhoud.value != ""
      && f.categorie.Some? && f.categorie.value in {"WEDSTRIJDSCHEMA", "REGLEMENTEN", "BOOTINFO", "ALGEMEEN"}
    ensures r.Some? ==>
      && Some(r.value.titel) == f.titel && Some(r.value.inhoud) == f.inhoud
      && r.value.gepind == (f.gepind == Some(true))
  {
    if !Bounded(f.titel, 1, 200) then None
    else if !NonEmpty(f.inhoud) then None
    else if f.categorie.None? || ParseCategorie(f.categorie.value).None? then None
    else Some(PostData(f.titel.value, f.inhoud.value, ParseCategorie(f.categorie.value).value, f.gepind.GetOr(false)))
  }

  /** The content has no upper bound: with a valid title and category, every
      non-empty content is accepted and kept as it is, however long. */
  lemma ContentUnbounded(f: PostForm)
    requires f.titel.Some? && 1 <= |f.titel.value| <= 200
    requires f.categorie.Some? && f.categorie.value in {"WEDSTRIJDSCHEMA", "REGLEMENTEN", "BOOTINFO", "ALGEMEEN"}
    ensures forall c: string | c != "" ::
      ParsePost(f.(inhoud := Some(c))).Some? && ParsePost(f.(inhoud := Some(c))).value.inhoud == c
  {
  }
}

/** `taskSchema` and `taskGroupSchema` (src/lib/validations/tasks.ts). */
module TaskValidation {
  import opened Common
  import opened Schema

  datatype TaskForm = TaskForm(
    titel: Option<string>, beschrijving: Option<string>, deadline: Option<string>,
    taskGroupId: Option<string>, toegewezenAan: Option<string>)

  /** The task schema transforms nothing: an accepted form is its own data. */
  predicate ValidTask(f: TaskForm) {
    Bounded(f.titel, 1, 200) && OptionalMax(f.beschrijving, 5000)
  }

  /** The deadline, group and assignee are free: changing them never changes the verdict. */
  lemma TaskOptionalFieldsFree(f: TaskForm, deadline: Option<string>, group: Option<string>, assignee: Option<string>)
    ensures ValidTask(f) == ValidTask(f.(deadline := deadline, taskGroupId := group, toegewezenAan := assignee))
  {
  }

  datatype TaskGroupForm = TaskGroupForm(titel: Option<string>, beschrijving: Option<string>)

  predicate ValidTaskGroup(f: TaskGroupForm) {
    Bounded(f.titel, 1, 200) && OptionalMax(f.beschrijving, 2000)
  }
}

/** `createMemberSchema`, `updateMemberSchema` and `updateProfileSchema`
    (src/lib/validations/users.ts). The create and update schemas are the
    same text and are modelled by one function. The e-mail format check is
    the parameter `isEmail`. */
module UserValidation {
  import opened Common
  import opened Schema

  datatype MemberForm = MemberForm(
    voornaam: Option<string>, achternaam: Option<string>, email: Option<string>,
    straat: Option<string>, postcode: Option<string>, woonplaats: Option<string>,
    geboortedatum: Option<string>, isTeamManager: Option<string>)

  datatype MemberData = MemberData(
    voornaam: string, achternaam: string, email: string, straat: string, postcode: string,
    woonplaats: string, geboortedatum: string, isTeamManager: bool)

  /** `z.coerce.boolean().optional().default(false)` on a form value: absent
      gives false, otherwise the truthiness of the string. */
  function CoerceBool(f: Option<string>): bool {
    f.Some? && f.value != ""
  }

  predicate ValidAddress(straat: Option<string>, postcode: Option<string>, woonplaats: Option<string>) {
    OptionalMax(straat, 200) && OptionalMax(postcode, 10) && OptionalMax(woonplaats, 100)
  }

  /** `createMemberSchema.parse` and `updateMemberSchema.parse`. */
  function ParseMember(f: MemberForm, isEmail: string -> bool): (r: Option<MemberData>)
    ensures r.Some? <==>
      && f.voornaam.Some? && 1 <= |f.voornaam.value| <= 100 && f.achternaam.Some? && 1 <= |f.achternaam.value| <= 100
      && f.email.Some? && f.email.value != "" && isEmail(f.email.value)
      && (f.straat.None? || |f.straat.value| <= 200) && (f.postcode.None? || |f.postcode.value| <= 10)
      && (f.woonplaats.None? || |f.woonplaats.value| <= 100)
    ensures r.Some? ==>
      Some(r.value.voornaam) == f.voornaam && Some(r.value.achternaam) == f.achternaam && Some(r.value.email) == f.email
    ensures r.Some? ==> |r.value.straat| <= 200 && |r.value.postcode| <= 10 && |r.value.woonplaats| <= 100
    ensures r.Some? ==> r.value.isTeamManager == (f.isTeamManager.Some? && f.isTeamManager.value != "")
    ensures r.Some? ==> r.value.geboortedatum == f.geboortedatum.GetOr("")
  {
    if !Bounded(f.voornaam, 1, 100) || !Bounded(f.achternaam, 1, 100) then None
    else if !NonEmpty(f.email) || !isEmail(f.email.value) then None
    else if !ValidAddress(f.straat, f.postcode, f.woonplaats) then None
    else Some(MemberData(f.voornaam.value, f.achternaam.value, f.email.value,
                         f.straat.GetOr(""), f.postcode.GetOr(""), f.woonplaats.GetOr(""),
                         f.geboortedatum.GetOr(""), CoerceBool(f.isTeamManager)))
  }

  /** The optional fields may all be absent. In an accepted form an absent
      address field or birth date becomes "", an absent manager flag false,
      and any non-empty flag (a checkbox's "on", even "false") true. */
  lemma MemberDefaults(f: MemberForm, isEmail: string -> bool)
    requires Bounded(f.voornaam, 1, 100) && Bounded(f.achternaam, 1, 100) && Truthy(f.email) && isEmail(f.email.value)
    ensures ParseMember(f.(straat := None, postcode := None, woonplaats := None, geboortedatum := None, isTeamManager := None), isEmail)
         == Some(MemberData(f.voornaam.value, f.achternaam.value, f.email.value, "", "", "", "", false))
    ensures var r := ParseMember(f, isEmail);
      r.Some? ==>
      && (f.straat.None? ==> r.value.straat == "")
      && (f.postcode.None? ==> r.value.postcode == "")
      && (f.woonplaats.None? ==> r.value.woonplaats == "")
      && (f.geboortedatum.None? ==> r.value.geboortedatum == "")
      && (f.isTeamManager.None? ==> !r.value.isTeamManager)
      && (Truthy(f.isTeamManager) ==> r.value.isTeamManager)
  {
  }

  datatype ProfileForm = ProfileForm(
    voornaam: Option<string>, achternaam: Option<string>,
    straat: Option<string>, postcode: Option<string>, woonplaats: Option<string>, geboortedatum: Option<string>)

  datatype ProfileData = ProfileData(
    voornaam: string, achternaam: string, straat: string, postcode: string, woonplaats: string, geboortedatum: string)

  /** `updateProfileSchema.parse`: the member schema without e-mail and manager flag. */
  function ParseProfile(f: ProfileForm): Option<ProfileData> {
    if !Bounded(f.voornaam, 1, 100) || !Bounded(f.achternaam, 1, 100) then None
    else if !ValidAddress(f.straat, f.postcode, f.woonplaats) then None
    else Some(ProfileData(f.voornaam.value, f.achternaam.value,
                          f.straat.GetOr(""), f.postcode.GetOr(""), f.woonplaats.GetOr(""), f.geboortedatum.GetOr("")))
  }

  /** The profile schema accepts the name and address part of every accepted
      member form, with the same values; it ignores any e-mail. */
  lemma ProfileAcceptsMemberPart(f: MemberForm, isEmail: string -> bool)
    requires ParseMember(f, isEmail).Some?
    ensures var p := ParseProfile(ProfileForm(f.voornaam, f.achternaam, f.straat, f.postcode, f.woonplaats, f.geboortedatum));
      var m := ParseMember(f, isEmail).value;
      p == Some(ProfileData(m.voornaam, m.achternaam, m.straat, m.postcode, m.woonplaats, m.geboortedatum))
  {
  }
}
