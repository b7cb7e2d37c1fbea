/** The `/api/profile` endpoint: a GET returns the stored profile, any other
    request validates the posted profile and stores its serialization. The
    database row of the signed-in user is the one field `profileContent`;
    JSON serialization and parsing are parameters. */
module ProfileApi {
  import opened JsBuiltins
  import opened UserProfile

  /** A serialization must be strictly shorter than this to be stored. */
  const MaxSerializedLength: nat := 5000

  /** `request.roles.find(r => r.length > MAX_OTHER_LENGTH)`. */
  function FirstTooLongRole(roles: seq<string>): (r: Option<string>)
    ensures r.None? <==> forall i :: 0 <= i < |roles| ==> |roles[i]| <= MaxOtherLength
    ensures r.Some? ==> r.value in roles && |r.value| > MaxOtherLength
    ensures r.Some? ==>
      exists i :: 0 <= i < |roles| && roles[i] == r.value && forall j :: 0 <= j < i ==> |roles[j]| <= MaxOtherLength
    ensures Truthy(r) <==> r.Some?
  {
    var i := FindIndex(roles, (s: string) => |s| > MaxOtherLength);
    if i == -1 then None else Some(roles[i])
  }

  /** JavaScript truthiness of a value that is a string or `undefined`. */
  predicate Truthy(s: Option<string>): (b: bool)
    ensures b <==> s.Some? && |s.value| > 0
  {
    s.Some? && s.value != ""
  }

  /** The limits the server puts on the fields of a posted profile: at most
      `MaxOtherLength` characters in each radio answer and in each role. */
  predicate FieldsWithinLimits(request: ProfileData): (b: bool)
    ensures b <==>
      (|request.advocate| <= MaxOtherLength && |request.diet| <= MaxOtherLength && FirstTooLongRole(request.roles).None?)
  {
    && |request.advocate| <= MaxOtherLength
    && |request.diet| <= MaxOtherLength
    && forall i :: 0 <= i < |request.roles| ==> |request.roles[i]| <= MaxOtherLength
  }

  /** `getSerializedProfile`: the serialization to store, or null (None) when a
      field or the serialization is too long. The advocacy map is not checked
      on its own; only the overall length bounds it. */
  function GetSerializedProfile(request: ProfileData, serialize: ProfileData -> string): (r: Option<string>)
    ensures r.Some? <==> FieldsWithinLimits(request) && |serialize(request)| < MaxSerializedLength
    ensures r.Some? ==> r.value == serialize(request)
  {
    if |request.advocate| > MaxOtherLength || |request.diet| > MaxOtherLength then None
    else if Truthy(FirstTooLongRole(request.roles)) then None
    else
      var serializedProfile := serialize(request);
      if |serializedProfile| < MaxSerializedLength then Some(serializedProfile) else None
  }

  /** The profile a GET returns for the stored content: the parsed content
      when there is non-empty content that parses, and the empty profile `{}`
      when the content is null or empty or does not parse. */
  function Fetched(content: Option<string>, parse: string -> Option<ProfileData>): (p: ProfileData)
    ensures !Truthy(content) ==> p == EmptyProfile
    ensures Truthy(content) && parse(content.value).None? ==> p == EmptyProfile
    ensures Truthy(content) && parse(content.value).Some? ==> p == parse(content.value).value
  {
    if Truthy(content) then
      match parse(content.value)
      case Some(profileObj) => profileObj
      case None => EmptyProfile
    else EmptyProfile
  }

  /** What the handler sends back. */
  datatype Body = ProfileBody(profile: ProfileData) | TextBody(text: string) | NoBody
  datatype Response = Response(status: int, body: Body)

  /** The stored profile of the signed-in user: None is a null column. */
  class ProfileStore {
    var profileContent: Option<string>

    constructor (content: Option<string>)
      ensures profileContent == content
    {
      profileContent := content;
    }

    /** The GET branch: always status 200. */
    method Get(parse: string -> Option<ProfileData>) returns (res: Response)
      ensures res == Response(200, ProfileBody(Fetched(profileContent, parse)))
    {
      if Truthy(profileContent) {
        var parsed := parse(profileContent.value);
        if parsed.Some? {
          return Response(200, ProfileBody(parsed.value));
        }
      }
      res := Response(200, ProfileBody(EmptyProfile));
    }

    /** The update branch: status 422 and nothing stored when validation
        fails; otherwise the serialization is stored and echoed with 200. */
    method Post(request: ProfileData, serialize: ProfileData -> string) returns (res: Response)
      modifies this
      ensures GetSerializedProfile(request, serialize).None? ==>
        res == Response(422, NoBody) && profileContent == old(profileContent)
      ensures GetSerializedProfile(request, serialize).Some? ==>
        profileContent == Some(serialize(request)) && res == Response(200, TextBody(serialize(request)))
    {
      var serializedProfile := GetSerializedProfile(request, serialize);
      if serializedProfile.None? {
        return Response(422, NoBody);
      }
      profileContent := serializedProfile;
      res := Response(200, TextBody(serializedProfile.value));
    }

    /** The handler: GET reads, every other method takes the update branch. */
    method Handle(httpMethod: string, request: ProfileData,
                  serialize: ProfileData -> string, parse: string -> Option<ProfileData>)
      returns (res: Response)
      modifies this
      ensures httpMethod == "GET" ==>
        profileContent == old(profileContent)
        && res == Response(200, ProfileBody(Fetched(old(profileContent), parse)))
      ensures httpMethod != "GET" && GetSerializedProfile(request, serialize).None? ==>
        res == Response(422, NoBody) && profileContent == old(profileContent)
      ensures httpMethod != "GET" && GetSerializedProfile(request, serialize).Some? ==>
        profileContent == Some(serialize(request)) && res == Response(200, TextBody(serialize(request)))
    {
      if httpMethod == "GET" {
        res := Get(parse);
      } else {
        res := Post(request, serialize);
      }
    }
  }

  /** Storing an accepted profile and reading it back gives the profile, as
      long as parsing inverts serialization. A rejected profile leaves the
      store as it was, so the read gives what was stored before. */
  method SaveThenLoad(previous: Option<string>, request: ProfileData,
                      serialize: ProfileData -> string, parse: string -> Option<ProfileData>)
    returns (saved: Response, loaded: Response)
    requires serialize(request) != "" && parse(serialize(request)) == Some(request)
    ensures FieldsWithinLimits(request) && |serialize(request)| < MaxSerializedLength ==>
      saved.status == 200 && loaded == Response(200, ProfileBody(request))
    ensures !(FieldsWithinLimits(request) && |serialize(request)| < MaxSerializedLength) ==>
      saved.status == 422 && loaded == Response(200, ProfileBody(Fetched(previous, parse)))
  {
    var store := new ProfileStore(previous);
    saved := store.Handle("POST", request, serialize, parse);
    loaded := store.Handle("GET", request, serialize, parse);
  }

  /** The two guards differ by one: a text of exactly `MaxOtherLength`
      characters is refused by the form and accepted by the server. */
  lemma GuardsDifferByOne(text: string)
    requires |text| == MaxOtherLength
    ensures !AcceptsOtherText(text)
    ensures FieldsWithinLimits(ProfileData(map[], text, text, [text]))
  {
  }

  /** Every option value is within the limit. */
  predicate OptionsShort(options: seq<string>)
  {
    forall i :: 0 <= i < |options| ==> |options[i]| <= MaxOtherLength
  }

  /** The answer a radio question submits passes the server's field check when
      the selected value is an option (or nothing) and the other text came
      through the form's guard. */
  lemma SubmittedAnswerWithinLimit(options: seq<string>, option: string, other: string)
    requires OptionsShort(options)
    requires option == "" || option in options
    requires AcceptsOtherText(other)
    ensures |GetOption(option, other)| <= MaxOtherLength
  {
  }

  /** The submitted roles pass the server's role check when every checked role
      is an option and the other text came through the form's guard. */
  lemma SubmittedRolesWithinLimit(roles: seq<string>, otherRole: string)
    requires forall i :: 0 <= i < |roles| ==> roles[i] in RoleOptions
    requires AcceptsOtherText(otherRole)
    ensures FirstTooLongRole(SubmittedRoles(roles, otherRole)).None?
  {
    RoleOptionsShort();
    forall i | 0 <= i < |roles| ensures |roles[i]| <= MaxOtherLength {
      MemberOfShortOptions(RoleOptions, roles[i]);
    }
    ShortRolesWithinLimit(roles, otherRole);
  }

  lemma AnswerOptionsShort()
    ensures OptionsShort(AdvocateOptions) && OptionsShort(DietOptions)
  {
  }

  lemma RoleOptionsShort()
    ensures OptionsShort(RoleOptions)
  {
  }

  lemma MemberOfShortOptions(options: seq<string>, o: string)
    requires OptionsShort(options) && o in options
    ensures |o| <= MaxOtherLength
  {
    var j :| 0 <= j < |options| && options[j] == o;
  }

  lemma ShortRolesWithinLimit(roles: seq<string>, otherRole: string)
    requires forall i :: 0 <= i < |roles| ==> |roles[i]| <= MaxOtherLength
    requires AcceptsOtherText(otherRole)
    ensures FirstTooLongRole(SubmittedRoles(roles, otherRole)).None?
  {
    var r := SubmittedRoles(roles, otherRole);
    forall i | 0 <= i < |r| ensures |r[i]| <= MaxOtherLength {
      if i < |roles| {
        assert r[i] == roles[i];
      }
    }
  }

  /** A profile submitted from a form whose answers are options or guarded
      texts and whose roles are options, passes every field limit. */
  lemma FormPayloadWithinFieldLimits(payload: ProfileData,
    advocate: string, otherAdvocate: string, diet: string, otherDiet: string,
    roles: seq<string>, otherRole: string)
    requires advocate == "" || advocate in AdvocateOptions
    requires diet == "" || diet in DietOptions
    requires forall i :: 0 <= i < |roles| ==> roles[i] in RoleOptions
    requires AcceptsOtherText(otherAdvocate) && AcceptsOtherText(otherDiet) && AcceptsOtherText(otherRole)
    requires payload.advocate == GetOption(advocate, otherAdvocate)
    requires payload.diet == GetOption(diet, otherDiet)
    requires payload.roles == SubmittedRoles(roles, otherRole)
    ensures FieldsWithinLimits(payload)
  {
    AnswerOptionsShort();
    SubmittedAnswerWithinLimit(AdvocateOptions, advocate, otherAdvocate);
    SubmittedAnswerWithinLimit(DietOptions, diet, otherDiet);
    SubmittedRolesWithinLimit(roles, otherRole);
  }
}
