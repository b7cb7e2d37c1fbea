/** The profile form: radio questions with an "other" free-text answer, a role
    checklist with its own free text, and the advocacy-approach Likert group.
    Loading turns a stored profile into form state; submitting turns form
    state back into a profile. */
module UserProfile {
  import opened JsBuiltins
  import LabelLikertGroup

  /** Longest free text the form lets the user type is one below this. */
  const MaxOtherLength: nat := 100

  /** The labels of the advocacy Likert group, in display order; also the keys
      of the stored advocacy map. */
  const AdvocacyApproachOptions: seq<string> := [
    "advocacy_approach",
    "advocacy_focus",
    "advocacy_intersectionality",
    "advocacy_rights",
    "advocacy_diplomacy",
    "advocacy_empiricism"
  ]

  /** The values of the radio options of the two questions (each option's
      label is only a translation key for its caption). */
  const AdvocateOptions: seq<string> := [
    "true",
    "false",
    "other"
  ]

  const DietOptions: seq<string> := [
    "regular_meat_eater",
    "occasional_meat_eater",
    "flexitarian",
    "vegetarian",
    "vegan",
    "other"
  ]

  /** The values of the role checklist. "comany_staff" is spelled as in the
      program, since stored profiles carry that spelling. */
  const RoleOptions: seq<string> := [
    "volunteer",
    "donor",
    "staff",
    "researcher",
    "independent",
    "legal",
    "rescuer",
    "influencer",
    "company_owner",
    "comany_staff",
    "investor",
    "other"
  ]

  /** A stored profile. A slot of the advocacy map may hold JSON `null`
      (None). A field missing from a fetched profile is represented by the
      value the form substitutes for it (`""`, `[]`, `{}`). */
  datatype ProfileData = ProfileData(
    advocacyApproach: map<string, Option<real>>,
    advocate: string,
    diet: string,
    roles: seq<string>)

  /** The profile the form falls back to while nothing has been fetched. */
  const EmptyProfile: ProfileData := ProfileData(map[], "", "", [])

  /** One radio question as two pieces of state: the selected option value and
      the text typed next to "other". */
  datatype Choice = Choice(option: string, other: string)

  /** `options.findIndex(o => o.value === response) > -1`. */
  function IsKnownOption(options: seq<string>, response: string): (b: bool)
    ensures b <==> response in options
  {
    FindIndex(options, (o: string) => o == response) > -1
  }

  /** `getOption`: the answer a radio question submits. */
  function GetOption(option: string, other: string): (r: string)
    ensures r == option || r == other
    ensures option != "other" ==> r == option
    ensures option == "other" && other != "" ==> r == other
    ensures r == "" <==> option == ""
  {
    if option == "other" && other != "" then other else option
  }

  /** The state that `parseOption` sets for a stored answer: nothing for an
      empty answer, the option itself for a known option, and "other" with the
      answer as its text for anything else. */
  predicate ParsedAs(options: seq<string>, response: string, c: Choice)
  {
    if response == "" then c == Choice("", "")
    else if IsKnownOption(options, response) then c == Choice(response, "")
    else c == Choice("other", response)
  }

  /** `parseOption`: the two setter calls become the two fields of the result.
      Reading the parsed state back with `getOption` gives the stored answer,
      for every answer, including "" and "other". */
  method ParseOption(options: seq<string>, response: string) returns (c: Choice)
    ensures ParsedAs(options, response, c)
    ensures GetOption(c.option, c.other) == response
  {
    if response == "" {
      c := Choice("", "");
      return;
    }
    var isKnownOption := FindIndex(options, (o: string) => o == response) > -1;
    c := Choice(if isKnownOption then response else "other", if isKnownOption then "" else response);
  }

  /** The other direction of the round trip: a state in which "other" carries
      a text that is not itself an option, or a known option carries no text,
      parses back from its submitted answer to itself. */
  lemma ChoiceSurvivesReload(options: seq<string>, c: Choice, reloaded: Choice)
    requires IsKnownOption(options, "other")
    requires (c.option == "" && c.other == "")
      || (IsKnownOption(options, c.option) && c.other == "")
      || (c.option == "other" && c.other != "" && !IsKnownOption(options, c.other))
    requires ParsedAs(options, GetOption(c.option, c.other), reloaded)
    ensures reloaded == c
  {
  }

  /** An "other" text that names a known option comes back as that option. */
  lemma OtherTextNamingAnOptionReloadsAsTheOption(reloaded: Choice)
    requires ParsedAs(DietOptions, GetOption("other", "vegan"), reloaded)
    ensures reloaded == Choice("vegan", "")
  {
  }

  /** `roleOptions.findIndex(i => i.value === o) > -1`: the filter of known roles. */
  predicate IsRoleOption(o: string)
  {
    FindIndex(RoleOptions, (i: string) => i == o) > -1
  }

  /** The known roles are exactly the values listed as role options. */
  lemma RoleOptionIsListed(o: string)
    ensures IsRoleOption(o) <==> o in RoleOptions
  {
    if o in RoleOptions {
      var j :| 0 <= j < |RoleOptions| && RoleOptions[j] == o;
      assert ((i: string) => i == o)(RoleOptions[j]);
    }
  }

  /** `roleOptions.findIndex(i => i.value === o) === -1`: the filter of unknown roles. */
  predicate IsNotRoleOption(o: string)
    ensures IsNotRoleOption(o) <==> !IsRoleOption(o)
  {
    FindIndex(RoleOptions, (i: string) => i == o) == -1
  }

  /** The stored roles that are options, in their stored order. */
  function KnownRoles(allRoles: seq<string>): (r: seq<string>)
    ensures |r| <= |allRoles|
    ensures forall j :: 0 <= j < |r| ==> r[j] in allRoles && IsRoleOption(r[j])
    ensures forall j :: 0 <= j < |allRoles| && IsRoleOption(allRoles[j]) ==> allRoles[j] in r
  {
    Filter(allRoles, IsRoleOption)
  }

  /** The stored roles that are not options, in their stored order. */
  function UnknownRoles(allRoles: seq<string>): (r: seq<string>)
    ensures |r| <= |allRoles|
    ensures forall j :: 0 <= j < |r| ==> r[j] in allRoles && !IsRoleOption(r[j])
    ensures forall j :: 0 <= j < |allRoles| && !IsRoleOption(allRoles[j]) ==> allRoles[j] in r
  {
    Filter(allRoles, IsNotRoleOption)
  }

  /** The two filters partition the stored roles: every known role is an
      option and no unknown one is, both keep the stored order, and together
      they hold each stored role as often as it is stored. */
  lemma RolesPartition(allRoles: seq<string>, more: seq<string>)
    ensures forall j :: 0 <= j < |KnownRoles(allRoles)| ==> IsRoleOption(KnownRoles(allRoles)[j])
    ensures forall j :: 0 <= j < |UnknownRoles(allRoles)| ==> !IsRoleOption(UnknownRoles(allRoles)[j])
    ensures multiset(KnownRoles(allRoles)) + multiset(UnknownRoles(allRoles)) == multiset(allRoles)
    ensures KnownRoles(allRoles + more) == KnownRoles(allRoles) + KnownRoles(more)
    ensures UnknownRoles(allRoles + more) == UnknownRoles(allRoles) + UnknownRoles(more)
  {
    FilterPartition(allRoles, IsRoleOption, IsNotRoleOption);
    FilterAppend(allRoles, more, IsRoleOption);
    FilterAppend(allRoles, more, IsNotRoleOption);
  }

  /** The roles `onSubmit` sends: the checked roles, with the "other" text
      appended exactly when "other" is checked and the text is not empty. */
  function SubmittedRoles(roles: seq<string>, otherRole: string): (r: seq<string>)
    ensures "other" in roles && otherRole != "" ==> r == roles + [otherRole]
    ensures !("other" in roles && otherRole != "") ==> r == roles
  {
    var otherRoleIndex := FindIndex(roles, (x: string) => x == "other");
    if otherRoleIndex > -1 && otherRole != "" then roles + [otherRole] else roles
  }

  /** Loading and then submitting, untouched, a profile whose roles are options
      that include "other", followed by one free-text role, gives back the same
      roles. */
  lemma RolesSurviveReload(known: seq<string>, text: string)
    requires forall j :: 0 <= j < |known| ==> IsRoleOption(known[j])
    requires "other" in known
    requires text != "" && !IsRoleOption(text)
    ensures SubmittedRoles(KnownRoles(known + [text]), Join(UnknownRoles(known + [text]), ",")) == known + [text]
  {
    var all := known + [text];
    RolesPartition(known, [text]);
    FilterKeepsAll(known, IsRoleOption);
    FilterDropsAll(known, IsNotRoleOption);
    assert [text][1..] == [];
    assert KnownRoles([text]) == [];
    assert UnknownRoles([text]) == [text];
    assert KnownRoles(all) == known;
    assert UnknownRoles(all) == [text];
    assert Join([text], ",") == text;
  }

  /** Two free-text roles stored beside "other" come back as one role, their
      texts joined by a comma. */
  lemma FreeTextRolesMerge(a: string, b: string)
    requires a != "" && !IsRoleOption(a) && !IsRoleOption(b)
    ensures SubmittedRoles(KnownRoles(["other", a, b]), Join(UnknownRoles(["other", a, b]), ","))
      == ["other", a + "," + b]
  {
    OtherIsRoleOption();
    SplitOneKnownTwoUnknown("other", a, b);
    JoinTwo(a, b, ",");
    OtherAloneTakesText(a + "," + b);
  }

  lemma OtherAloneTakesText(text: string)
    requires text != ""
    ensures SubmittedRoles(["other"], text) == ["other", text]
  {
  }

  lemma OtherIsRoleOption()
    ensures IsRoleOption("other")
  {
    assert RoleOptions[11] == "other";
  }

  lemma SplitOneKnownTwoUnknown(o: string, a: string, b: string)
    requires IsRoleOption(o) && !IsRoleOption(a) && !IsRoleOption(b)
    ensures KnownRoles([o, a, b]) == [o]
    ensures UnknownRoles([o, a, b]) == [a, b]
  {
    assert [o, a, b] == [o] + ([a] + ([b] + []));
    FilterThree(o, a, b, IsRoleOption);
    FilterThree(o, a, b, IsNotRoleOption);
  }


  /** A free-text role stored without "other" is dropped by the next submit. */
  lemma FreeTextRoleWithoutOtherVanishes(text: string)
    requires !IsRoleOption(text)
    ensures SubmittedRoles(KnownRoles([text]), Join(UnknownRoles([text]), ",")) == []
  {
    assert KnownRoles([text]) == [];
  }

  /** The advocacy vector the effect builds from the stored map: slot `i` holds
      the value stored under the `i`-th label, or null when there is none. */
  function AdvocacyArray(data: map<string, Option<real>>): (arr: seq<Option<real>>)
    ensures |arr| == |AdvocacyApproachOptions|
  {
    seq(|AdvocacyApproachOptions|, i requires 0 <= i < |AdvocacyApproachOptions| =>
      var a := AdvocacyApproachOptions[i];
      if a in data then data[a] else None)
  }

  /** The map `onSubmit` sends for an advocacy vector: one key per label and
      the vector's slot as its value, null included. */
  ghost predicate IsAdvocacyMapOf(m: map<string, Option<real>>, arr: seq<Option<real>>)
    requires |arr| == |AdvocacyApproachOptions|
  {
    && (forall a :: a in m <==> a in AdvocacyApproachOptions)
    && forall i :: 0 <= i < |AdvocacyApproachOptions| ==> m[AdvocacyApproachOptions[i]] == arr[i]
  }

  /** The `forEach` in `onSubmit` that builds the advocacy map. */
  method BuildAdvocacyMap(arr: seq<Option<real>>) returns (m: map<string, Option<real>>)
    requires |arr| == |AdvocacyApproachOptions|
    ensures IsAdvocacyMapOf(m, arr)
  {
    m := map[];
    for ix := 0 to |AdvocacyApproachOptions|
      invariant m.Keys == set j | 0 <= j < ix :: AdvocacyApproachOptions[j]
      invariant forall j :: 0 <= j < ix ==> m[AdvocacyApproachOptions[j]] == arr[j]
    {
      m := m[AdvocacyApproachOptions[ix] := arr[ix]];
    }
  }

  /** Map to vector and back: every label that the stored map holds comes back
      with its stored value, every label it lacks comes back as null, and keys
      that are not labels are dropped. */
  lemma AdvocacyRoundTrip(data: map<string, Option<real>>, m: map<string, Option<real>>)
    requires IsAdvocacyMapOf(m, AdvocacyArray(data))
    ensures forall a :: a in data && a in AdvocacyApproachOptions ==> a in m && m[a] == data[a]
    ensures forall a :: a in AdvocacyApproachOptions && a !in data ==> a in m && m[a] == None
    ensures forall a :: a in m ==> a in AdvocacyApproachOptions
  {
    forall a | a in AdvocacyApproachOptions
      ensures a in m && m[a] == if a in data then data[a] else None
    {
      var i :| 0 <= i < |AdvocacyApproachOptions| && AdvocacyApproachOptions[i] == a;
    }
  }

  /** `canSubmit`: every advocacy slot answered, and both radio questions answered. */
  function CanSubmit(advocacyApproach: seq<Option<real>>, advocate: string, diet: string): (ok: bool)
    ensures ok <==>
      && (forall i :: 0 <= i < |advocacyApproach| ==> advocacyApproach[i].Some?)
      && advocate != ""
      && diet != ""
  {
    FindIndex(advocacyApproach, (a: Option<real>) => a.None?) == -1
      && advocate != ""
      && diet != ""
  }

  /** A form that may be submitted sends answers to both radio questions and
      a value for every advocacy label. */
  lemma SubmittableFormSendsCompleteAnswers(
    arr: seq<Option<real>>, advocate: string, otherAdvocate: string, diet: string, otherDiet: string,
    m: map<string, Option<real>>)
    requires |arr| == |AdvocacyApproachOptions|
    requires CanSubmit(arr, advocate, diet)
    requires IsAdvocacyMapOf(m, arr)
    ensures GetOption(advocate, otherAdvocate) != "" && GetOption(diet, otherDiet) != ""
    ensures forall a :: a in m ==> m[a].Some?
  {
    forall a | a in m ensures m[a].Some? {
      var i :| 0 <= i < |AdvocacyApproachOptions| && AdvocacyApproachOptions[i] == a;
    }
  }

  /** No advocacy label is inverted, so the group stores what its controls emit. */
  lemma AdvocacyLabelsAreNotInverted(t: string -> string)
    ensures forall i :: 0 <= i < |AdvocacyApproachOptions| ==>
      !LabelLikertGroup.GetLabelInfo(AdvocacyApproachOptions[i], t).inverted
  {
  }

  /** The length guard on every free-text input. */
  predicate AcceptsOtherText(newValue: string): (b: bool)
    ensures b <==> |newValue| <= 99
    ensures b ==> |newValue| <= MaxOtherLength
  {
    |newValue| < MaxOtherLength
  }

  /** Which free-text input an edit goes to. */
  datatype OtherField = AdvocateOther | DietOther | RoleOther

  /** Which radio question a click goes to. */
  datatype Question = Advocate | Diet

  /** The form's state: one field per state hook of the component. */
  class ProfileForm {
    var advocacyApproach: seq<Option<real>>
    var advocate: string
    var otherAdvocate: string
    var diet: string
    var otherDiet: string
    var roles: seq<string>
    var otherRole: string

    /** The advocacy vector is index-aligned with the advocacy labels. */
    predicate Valid()
      reads this
    {
      |advocacyApproach| == |AdvocacyApproachOptions|
    }

    constructor ()
      ensures Valid()
      ensures forall i :: 0 <= i < |advocacyApproach| ==> advocacyApproach[i] == None
      ensures advocate == "" && otherAdvocate == "" && diet == "" && otherDiet == ""
      ensures roles == [] && otherRole == ""
    {
      advocacyApproach := seq(|AdvocacyApproachOptions|, _ => None);
      advocate, otherAdvocate := "", "";
      diet, otherDiet := "", "";
      roles, otherRole := [], "";
    }

    /** The effect on the fetched profile (None while nothing has arrived). */
    method LoadDefaults(defaults: Option<ProfileData>)
      modifies this
      ensures Valid()
      ensures var data := if defaults.Some? then defaults.value else EmptyProfile;
        && ParsedAs(DietOptions, data.diet, Choice(diet, otherDiet))
        && ParsedAs(AdvocateOptions, data.advocate, Choice(advocate, otherAdvocate))
        && roles == KnownRoles(data.roles)
        && otherRole == Join(UnknownRoles(data.roles), ",")
        && advocacyApproach == AdvocacyArray(data.advocacyApproach)
    {
      var data := if defaults.Some? then defaults.value else EmptyProfile;
      var dietChoice := ParseOption(DietOptions, data.diet);
      diet, otherDiet := dietChoice.option, dietChoice.other;
      var advocateChoice := ParseOption(AdvocateOptions, data.advocate);
      advocate, otherAdvocate := advocateChoice.option, advocateChoice.other;

      var allRoles := data.roles;
      roles := KnownRoles(allRoles);
      otherRole := Join(UnknownRoles(allRoles), ",");

      advocacyApproach := AdvocacyArray(data.advocacyApproach);
    }

    /** A click on a radio option. */
    method SelectOption(question: Question, value: string)
      modifies this
      ensures question == Advocate ==> advocate == value && diet == old(diet)
      ensures question == Diet ==> diet == value && advocate == old(advocate)
      ensures otherAdvocate == old(otherAdvocate) && otherDiet == old(otherDiet)
      ensures roles == old(roles) && otherRole == old(otherRole)
      ensures advocacyApproach == old(advocacyApproach)
    {
      match question
      case Advocate => advocate := value;
      case Diet => diet := value;
    }

    /** An edit of a free-text input: taken only when shorter than
        `MaxOtherLength`, otherwise the state stays as it was. */
    method EditOtherText(field: OtherField, newValue: string)
      modifies this
      ensures field == AdvocateOther ==>
        otherAdvocate == (if AcceptsOtherText(newValue) then newValue else old(otherAdvocate))
      ensures field == DietOther ==>
        otherDiet == (if AcceptsOtherText(newValue) then newValue else old(otherDiet))
      ensures field == RoleOther ==>
        otherRole == (if AcceptsOtherText(newValue) then newValue else old(otherRole))
      ensures field != AdvocateOther ==> otherAdvocate == old(otherAdvocate)
      ensures field != DietOther ==> otherDiet == old(otherDiet)
      ensures field != RoleOther ==> otherRole == old(otherRole)
      ensures advocate == old(advocate) && diet == old(diet) && roles == old(roles)
      ensures advocacyApproach == old(advocacyApproach)
    {
      if |newValue| < MaxOtherLength {
        match field
        case AdvocateOther => otherAdvocate := newValue;
        case DietOther => otherDiet := newValue;
        case RoleOther => otherRole := newValue;
      }
    }

    /** The role checklist reports its new set of checked roles. */
    method SetRoles(newRoles: seq<string>)
      modifies this
      ensures roles == newRoles
      ensures advocate == old(advocate) && otherAdvocate == old(otherAdvocate)
      ensures diet == old(diet) && otherDiet == old(otherDiet) && otherRole == old(otherRole)
      ensures advocacyApproach == old(advocacyApproach)
    {
      roles := newRoles;
    }

    /** The advocacy group reports its new vector. The group is handed this
        form's aligned vector and keeps it aligned (`OnControlChange`), so in
        the form the vector keeps one slot per label. */
    method SetAdvocacyApproach(values: seq<Option<real>>)
      modifies this
      ensures advocacyApproach == values
      ensures Valid() <==> |values| == |AdvocacyApproachOptions|
      ensures advocate == old(advocate) && otherAdvocate == old(otherAdvocate)
      ensures diet == old(diet) && otherDiet == old(otherDiet)
      ensures roles == old(roles) && otherRole == old(otherRole)
    {
      advocacyApproach := values;
    }

    /** `canSubmit` on the current state. */
    function Submittable(): (ok: bool)
      reads this
      ensures ok ==> advocate != "" && diet != ""
    {
      CanSubmit(advocacyApproach, advocate, diet)
    }

    /** `onSubmit`: the profile handed to the POST request. */
    method Submit() returns (payload: ProfileData)
      requires Valid()
      ensures payload.advocate == GetOption(advocate, otherAdvocate)
      ensures payload.diet == GetOption(diet, otherDiet)
      ensures payload.roles == SubmittedRoles(roles, otherRole)
      ensures IsAdvocacyMapOf(payload.advocacyApproach, advocacyApproach)
    {
      var allRoles := SubmittedRoles(roles, otherRole);
      var advocacyMap := BuildAdvocacyMap(advocacyApproach);
      payload := ProfileData(advocacyMap, GetOption(advocate, otherAdvocate), GetOption(diet, otherDiet), allRoles);
    }
  }

  /** Loading a stored profile and submitting it untouched gives back both
      radio answers and every stored advocacy value. */
  method ReloadScenario(stored: ProfileData) returns (payload: ProfileData)
    ensures payload.advocate == stored.advocate && payload.diet == stored.diet
    ensures forall a :: a in stored.advocacyApproach && a in AdvocacyApproachOptions ==>
      a in payload.advocacyApproach && payload.advocacyApproach[a] == stored.advocacyApproach[a]
  {
    var form := new ProfileForm();
    form.LoadDefaults(Some(stored));
    payload := form.Submit();
    AdvocacyRoundTrip(stored.advocacyApproach, payload.advocacyApproach);
  }
}
