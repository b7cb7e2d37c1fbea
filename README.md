# Profile survey core: Likert labels, rating controls, profile form and profile API

A Dafny model of four pieces of the survey website of Human-Feedback-Collection:

- **Label descriptor resolver and Likert group** (`LabelLikertGroup`).
  - `getLabelInfo` maps a label id to its two pole texts, their explanation
    lines and an inversion flag. It is total: an unknown id gets a generated
    descriptor.
  - The group holds one value per label. A supplied default vector overwrites
    it wholesale. A click on one control replaces one slot, with `1 - v`
    stored for inverted labels. Inverted labels draw their poles swapped.
- **Discrete rating control** (`LikertButtons`).
  - `count` buttons sit on the scale `i / (count - 1)`.
  - A shadow selection is synced with an incoming value to within 0.0001; the
    last matching key wins, and no match leaves the selection alone.
  - A click selects a button and emits its point.
- **Profile form** (`UserProfile`).
  - Radio questions with an "other" free text are decoded by `parseOption` and
    encoded by `getOption`.
  - Stored roles are split into checked options and a joined free text, and
    the other text is appended again on submit.
  - The advocacy map is turned into a vector and back.
  - `canSubmit` gates submission, and the free-text inputs have a length guard.
- **Profile endpoint** (`ProfileApi`): `getSerializedProfile` validation, the
  422 reject path that stores nothing, the store-and-echo update path, and
  the GET path with its `{}` fallback.

`JsBuiltins` holds the JavaScript built-ins these rely on: `null` as an
Option, `findIndex`, `find`-style searches, `filter`, `join`, index
assignment on an array copy, and `Math.abs`.

Modelling choices:

- Scale values are exact `real`s, so `i / (count - 1)` and the 0.0001
  tolerance are exact.
- Keys of the value map are the decimal strings of the indices.
- The translation lookup `t`, `JSON.stringify` and `JSON.parse` are
  parameters: a total function and a parse that may fail.
- Each React state hook is a field of a class. Effects and handlers are
  methods that run one event at a time.
- A fetched profile with a missing field is represented by the default the
  form substitutes for it (`""`, `[]`, `{}`).

Behaviour of the code that is easy to misread, and that the model keeps as
written:

- A control is seeded with the group's `currentValues[idx]` prop, not with
  the group's held vector. That value is stored after inversion, and
  nothing undoes the inversion (`LabelLikertGroup.tsx:328`). The click
  itself selects the clicked button (`LikertButtons.tsx:37`). When the
  owner of the group passes the emitted vector back in as `currentValues`,
  the control of an inverted label is re-seeded with `1 - v` and selects the
  mirrored button (`ReseedAfterClick`, which takes that passed-back value as
  its input).
- Overwriting with `currentValues` takes any vector. The vector stays
  index-aligned only when the supplied one has the right length.
- `count = 1` yields `NaN` in the code rather than failing. The model
  excludes it by precondition.
- The update path answers a validation failure with `res.status(422)`, which
  sets the status but never ends the response. The model records status
  422 and no body.
- Any HTTP method other than GET takes the update path.

## Model

| member | source | states |
|---|---|---|
| JsBuiltins.Abs | website/src/components/Buttons/LikertButtons.tsx:26 | `Math.abs` is non-negative and equals its argument or its negation |
| JsBuiltins.FindIndex | website/src/components/Account/UserProfile.tsx:154 | the first index whose element satisfies the predicate; -1 exactly when no element does |
| JsBuiltins.Filter | website/src/components/Account/UserProfile.tsx:178-179 | every kept element comes from the input and satisfies the predicate, and every input element that satisfies it is kept |
| JsBuiltins.FilterAppend | website/src/components/Account/UserProfile.tsx:178-179 | filtering a concatenation filters each part (filter keeps order) |
| JsBuiltins.FilterPartition | website/src/components/Account/UserProfile.tsx:178-179 | filters by complementary predicates together hold every element as often as the input does |
| JsBuiltins.Join | website/src/components/Account/UserProfile.tsx:181 | joining nothing gives ""; otherwise the length is the parts' lengths plus one separator between each two |
| JsBuiltins.Assign | website/src/components/Survey/LabelLikertGroup.tsx:333-334 | `newState[idx] = x` on a copy sets slot idx, leaves every other slot, and grows the array when idx is past the end; the holes in between read as `undefined` in JavaScript and are None here, like null. The form never assigns past the end, because its vector keeps one slot per label |
| LikertButtons.Decimal | website/src/components/Buttons/LikertButtons.tsx:17 | the key `${idx}` is non-empty and has one digit exactly when idx < 10 |
| LikertButtons.DecimalInjective | website/src/components/Buttons/LikertButtons.tsx:17 | different indices give different keys |
| LikertButtons.Point | website/src/components/Buttons/LikertButtons.tsx:17 | the value `idx / (count - 1)` of a button of the scale lies in [0, 1] |
| LikertButtons.ValueMap | website/src/components/Buttons/LikertButtons.tsx:17 | key `${i}` maps to i/(count-1) for every 0 <= i < count, and there are no other keys |
| LikertButtons.ValueMapKeys | website/src/components/Buttons/LikertButtons.tsx:17 | for count >= 2 the map has exactly count keys, "0" to "count-1", and "" is not one of them |
| LikertButtons.KeysBelowSize | website/src/components/Buttons/LikertButtons.tsx:17 | the first n keys are n distinct strings |
| LikertButtons.ScaleShape | website/src/components/Buttons/LikertButtons.tsx:17 | the first point is 0, the last is 1, the points rise strictly and all lie in [0, 1] |
| LikertButtons.PointsApart | website/src/components/Buttons/LikertButtons.tsx:17 | points of different buttons are at least 1/(count-1) apart |
| LikertButtons.Matches | website/src/components/Buttons/LikertButtons.tsx:26 | `Math.abs(currentValue - v) < 0.0001` holds exactly when the value lies strictly within 0.0001 of the point on either side |
| LikertButtons.LastMatchBelow | website/src/components/Buttons/LikertButtons.tsx:24-29 | the last matching index below n and no later match, or no match at all |
| LikertButtons.OnlyOwnPointMatches | website/src/components/Buttons/LikertButtons.tsx:26 | with count - 1 <= 10000 no other point lies within the tolerance of a point |
| LikertButtons.SyncStep | website/src/components/Buttons/LikertButtons.tsx:24-29 | one more key changes the selection to that key exactly when its point matches |
| LikertButtons.SyncWithPointSelectsIt | website/src/components/Buttons/LikertButtons.tsx:17-30 | round trip: syncing with the point of key k selects k, whatever was selected before |
| LikertButtons.SyncPastBoundSelectsNeighbour | website/src/components/Buttons/LikertButtons.tsx:17-30 | the bound is tight: with 10002 buttons the value of key "0" selects key "1", since the last match wins |
| LikertButtons.SyncWithoutMatchKeepsLabel | website/src/components/Buttons/LikertButtons.tsx:23-30 | a value within the tolerance of no point leaves the selection unchanged |
| LikertButtons.RatingControl.constructor | website/src/components/Buttons/LikertButtons.tsx:22 | the selection starts as "" (none) |
| LikertButtons.RatingControl.Sync | website/src/components/Buttons/LikertButtons.tsx:23-30 | the loop over the keys leaves the selection the sync specification gives: the last matching key, or the old selection for null or no match |
| LikertButtons.RatingControl.Click | website/src/components/Buttons/LikertButtons.tsx:36-39 | a click selects the key and emits its point |
| LikertButtons.ClickEmitsPoint | website/src/components/Buttons/LikertButtons.tsx:17-39 | a click emits a value in [0, 1], and syncing with it keeps the clicked button selected |
| LikertButtons.FivePointSync | website/src/components/Buttons/LikertButtons.tsx:17-39 | with five buttons 0.5 selects "2", 0.33 selects nothing, and a click on "3" emits 0.75 |
| LabelLikertGroup.GetLabelInfo | website/src/components/Survey/LabelLikertGroup.tsx:23-288 | an unknown id gives "!" + id / id with no explanations and not inverted; a label is inverted exactly when it is one of the 13 inverted ids; at most one zero line and four one lines |
| LabelLikertGroup.ResolverReadsOnlyItsKeys | website/src/components/Survey/LabelLikertGroup.tsx:23-288 | the descriptor depends on the translation lookup only through its own label's keys; a fallback descriptor does not consult it |
| LabelLikertGroup.SampleDescriptors | website/src/components/Survey/LabelLikertGroup.tsx:25-109 | "spam" is inverted with four one-description lines, "humor" is not inverted, "xyz123" falls back |
| LabelLikertGroup.DisplaySides | website/src/components/Survey/LabelLikertGroup.tsx:307-311 | the two (text, description) pairs are swapped exactly when the label is inverted |
| LabelLikertGroup.StoredValue | website/src/components/Survey/LabelLikertGroup.tsx:334 | null stays null, a plain label stores the emitted value, and a value in [0, 1] stays in [0, 1] |
| LabelLikertGroup.InversionIsInvolution | website/src/components/Survey/LabelLikertGroup.tsx:334 | inverting twice gives the emitted value back |
| LabelLikertGroup.InvertedPointMirrors | website/src/components/Survey/LabelLikertGroup.tsx:334 | inverting the point of button i gives the point of button count-1-i |
| LabelLikertGroup.EndButtonsStoreTheirDrawnPole | website/src/components/Survey/LabelLikertGroup.tsx:307-334 | the pole drawn beside each end button is the pole whose value that button stores |
| LabelLikertGroup.SeedValue | website/src/components/Survey/LabelLikertGroup.tsx:328 | `currentValues && currentValues[idx]`: absent vector or index past its end gives undefined, otherwise the slot |
| LabelLikertGroup.ReseedAfterClick | website/src/components/Survey/LabelLikertGroup.tsx:328-336 | when the owner passes the emitted vector back as `currentValues`, seeding the control with the stored value selects the clicked button for a plain label and the mirrored one for an inverted label |
| LabelLikertGroup.LikertGroup.constructor | website/src/components/Survey/LabelLikertGroup.tsx:292 | the initial vector has one null slot per label |
| LabelLikertGroup.LikertGroup.ReceiveCurrentValues | website/src/components/Survey/LabelLikertGroup.tsx:294-298 | a present vector replaces the held one wholesale; an absent one changes nothing |
| LabelLikertGroup.LikertGroup.OnControlChange | website/src/components/Survey/LabelLikertGroup.tsx:332-336 | slot idx gets the stored value, every other slot is unchanged, alignment is kept, and the emitted vector is the new held vector |
| LabelLikertGroup.ClickScenarios | website/src/components/Survey/LabelLikertGroup.tsx:326-336 | a click on button 3 for "humor" emits [0.75]; a click on button 0 for "spam" emits [1] |
| UserProfile.IsKnownOption | website/src/components/Account/UserProfile.tsx:154 | the response is known exactly when it is one of the option values |
| UserProfile.GetOption | website/src/components/Account/UserProfile.tsx:159-160 | the answer is the option or the text: the option whenever it is not "other", the text when the option is "other" and the text is not empty, and empty exactly when the option is |
| UserProfile.ParseOption | website/src/components/Account/UserProfile.tsx:143-157 | "" gives ("", ""), a known option gives (option, ""), anything else ("other", text); getOption of the result is the response for every response |
| UserProfile.ChoiceSurvivesReload | website/src/components/Account/UserProfile.tsx:143-160 | the other direction: a state that is empty, a known option, or "other" with a text that is not an option parses back from its answer to itself |
| UserProfile.OtherTextNamingAnOptionReloadsAsTheOption | website/src/components/Account/UserProfile.tsx:143-160 | "other" with the text "vegan" comes back as the option "vegan" |
| UserProfile.IsRoleOption | website/src/components/Account/UserProfile.tsx:178 | the known-role test `roleOptions.findIndex(i => i.value === o) > -1`; its meaning, membership in the role options, is stated by RoleOptionIsListed (an ensures on the predicate itself makes the role lemmas too costly to check) |
| UserProfile.KnownRoles | website/src/components/Account/UserProfile.tsx:178 | no longer than the stored roles; every kept role is stored and known, and every stored known role is kept |
| UserProfile.UnknownRoles | website/src/components/Account/UserProfile.tsx:179 | no longer than the stored roles; every kept role is stored and not known, and every stored unknown role is kept |
| UserProfile.RoleOptionIsListed | website/src/components/Account/UserProfile.tsx:178 | a role is known exactly when it is one of the role option values |
| UserProfile.IsNotRoleOption | website/src/components/Account/UserProfile.tsx:179 | the unknown-role test is the negation of the known-role test |
| UserProfile.RolesPartition | website/src/components/Account/UserProfile.tsx:177-181 | every known role is an option and no unknown one is; both filters keep order; together they hold every stored role as often as stored |
| UserProfile.SubmittedRoles | website/src/components/Account/UserProfile.tsx:197-200 | the other text is appended exactly when "other" is checked and the text is not empty |
| UserProfile.RolesSurviveReload | website/src/components/Account/UserProfile.tsx:177-200 | stored option roles including "other" plus one free-text role come back unchanged from load and submit |
| UserProfile.FreeTextRolesMerge | website/src/components/Account/UserProfile.tsx:177-200 | two free-text roles beside "other" come back as one comma-joined role |
| UserProfile.FreeTextRoleWithoutOtherVanishes | website/src/components/Account/UserProfile.tsx:177-200 | a free-text role stored without "other" is dropped by the next submit |
| UserProfile.AdvocacyArray | website/src/components/Account/UserProfile.tsx:184-188 | the vector has one slot per advocacy label |
| UserProfile.BuildAdvocacyMap | website/src/components/Account/UserProfile.tsx:202-205 | the `forEach` builds a map with exactly the advocacy labels as keys, slot i under label i |
| UserProfile.AdvocacyRoundTrip | website/src/components/Account/UserProfile.tsx:184-205 | map to vector to map keeps every stored label's value, gives null for labels the map lacked, and drops other keys |
| UserProfile.CanSubmit | website/src/components/Account/UserProfile.tsx:191-194 | submission is allowed exactly when no advocacy slot is null and both radio answers are non-empty |
| UserProfile.SubmittableFormSendsCompleteAnswers | website/src/components/Account/UserProfile.tsx:191-212 | a submittable form sends non-empty radio answers and a value for every advocacy label |
| UserProfile.AdvocacyLabelsAreNotInverted | website/src/components/Account/UserProfile.tsx:271-276 | no advocacy label is inverted, so the group stores what its controls emit |
| UserProfile.AcceptsOtherText | website/src/components/Account/UserProfile.tsx:98 | the free-text guard `newValue.length < MAX_OTHER_LENGTH` (also :256) takes a text exactly when it has at most 99 characters, so an accepted text is within the server's limit of 100 |
| UserProfile.ProfileForm.constructor | website/src/components/Account/UserProfile.tsx:115-124 | the initial state: a null advocacy vector of the right length, empty answers and no roles |
| UserProfile.ProfileForm.LoadDefaults | website/src/components/Account/UserProfile.tsx:162-189 | the effect parses both answers, splits the roles into options and a joined text, and builds the advocacy vector, with the `||` defaults while nothing has arrived |
| UserProfile.ProfileForm.SelectOption | website/src/components/Account/UserProfile.tsx:87 | a click on a radio option sets that question's option and nothing else |
| UserProfile.ProfileForm.EditOtherText | website/src/components/Account/UserProfile.tsx:96-101 | an edit is taken only when shorter than 100 characters; otherwise, and for the other fields, nothing changes |
| UserProfile.ProfileForm.SetRoles | website/src/components/Account/UserProfile.tsx:245 | the checklist replaces the checked roles and nothing else |
| UserProfile.ProfileForm.SetAdvocacyApproach | website/src/components/Account/UserProfile.tsx:274-276 | the group's vector replaces the advocacy vector and nothing else; the form stays aligned exactly when the vector has one slot per label |
| UserProfile.ProfileForm.Submittable | website/src/components/Account/UserProfile.tsx:282 | an enabled submit button implies both radio questions are answered |
| UserProfile.ProfileForm.Submit | website/src/components/Account/UserProfile.tsx:196-213 | the payload holds getOption of both questions, the submitted roles and the advocacy map of the vector |
| UserProfile.ReloadScenario | website/src/components/Account/UserProfile.tsx:162-213 | loading a stored profile and submitting it untouched gives back both answers and every stored advocacy value |
| ProfileApi.FirstTooLongRole | website/src/pages/api/profile.ts:11 | `find` returns nothing exactly when every role is at most 100 characters; otherwise the first role that is longer (every role before it is within the limit); the result is truthy exactly when a role was found |
| ProfileApi.Truthy | website/src/pages/api/profile.ts:41 | JavaScript truthiness of a string or `undefined` (also the `if` at :11): true exactly for a present, non-empty string |
| ProfileApi.FieldsWithinLimits | website/src/pages/api/profile.ts:6-13 | the field checks pass exactly when both answers have at most 100 characters and the `find` for a longer role finds nothing |
| ProfileApi.GetSerializedProfile | website/src/pages/api/profile.ts:5-23 | a serialization is returned exactly when both answers and every role have at most 100 characters and the serialization is shorter than 5000; it is the request's serialization |
| ProfileApi.Fetched | website/src/pages/api/profile.ts:40-47 | null, empty or unparsable content gives `{}`; otherwise the parsed profile |
| ProfileApi.ProfileStore.Get | website/src/pages/api/profile.ts:29-48 | a GET answers 200 with the fetched profile |
| ProfileApi.ProfileStore.Post | website/src/pages/api/profile.ts:50-68 | a rejected request gets 422 and stores nothing; an accepted one is stored and echoed with 200 |
| ProfileApi.ProfileStore.Handle | website/src/pages/api/profile.ts:28-69 | GET reads without changing the store; every other method takes the update path |
| ProfileApi.SaveThenLoad | website/src/pages/api/profile.ts:29-68 | when parsing inverts serialization, an accepted profile reads back as itself, and a rejected one leaves what was stored before |
| ProfileApi.GuardsDifferByOne | website/src/pages/api/profile.ts:6-7 | a text of exactly 100 characters is refused by the form and accepted by the server |
| ProfileApi.SubmittedAnswerWithinLimit | website/src/pages/api/profile.ts:6-7 | an answer that is an option or a text the form accepted passes the server's field check |
| ProfileApi.SubmittedRolesWithinLimit | website/src/pages/api/profile.ts:11-13 | checked option roles plus a text the form accepted pass the server's role check |
| ProfileApi.FormPayloadWithinFieldLimits | website/src/pages/api/profile.ts:5-13 | a payload submitted from options and guarded texts passes every per-field limit |

## Left out

- React rendering, Chakra layout, colour mode and the `Explain` component:
  presentation only.
- Scheduling of `useState` and `useEffect`. Each effect or handler is one
  method call on the state, and the calls run one at a time in a given order.
  The late-arriving-default race is such an order and is not modelled as
  concurrency.
- The translation lookup `t` and `getTypeSafei18nKey`: `t` is an arbitrary
  total function. The option labels of the profile form are only caption keys
  and are left out; options are their values.
- SWR fetching and mutation, toasts, Prisma `findUnique`/`update` and the
  `withoutRole("banned")` wrapper are network, storage and auth I/O. The user's
  row is the one `profileContent` field. A missing user row is not modelled;
  in the code it falls into the same `{}` fallback.
- `JSON.stringify` and `JSON.parse`: foreign calls, taken as parameters.
- String lengths: JavaScript's `.length` counts UTF-16 code units, and the
  model's `|s|` counts Unicode scalar values. Every length test is affected: the
  form's guard `newValue.length < MAX_OTHER_LENGTH`
  (`UserProfile.tsx:98`, `:256`, in `AcceptsOtherText`), the server's
  `request.advocate.length` and `request.diet.length` checks
  (`profile.ts:6-7`), the role check `r.length > MAX_OTHER_LENGTH`
  (`profile.ts:11`), and the serialized length below 5000
  (`profile.ts:22`). A text of 60 emoji has length 120 in JavaScript. The
  source's guard refuses it; `EditOtherText` takes it. The form and the
  server apply one measure in the model, as they do in the code. The proofs
  of `GuardsDifferByOne` and `FormPayloadWithinFieldLimits` use nothing about
  the measure except that both sides share it, so they carry over to UTF-16
  lengths unchanged.
- A posted body that lacks `advocate`, `diet` or `roles` makes the code
  throw when it reads `.length` or calls `.find` (`profile.ts:6-11`); the
  model's profile always has these fields. A body that lacks
  `advocacyApproach` is not rejected: no property of it is read, and
  `JSON.stringify` drops the undefined key, so it is stored without the map.
  The model represents a missing map by the empty map `{}`; the two read
  back the same in the form, whose `|| {}` default
  (`UserProfile.tsx:184`) turns either into six null slots.
- IEEE floating point: scale values and the tolerance are exact reals.
  `count = 1` (0/0) is excluded by precondition.
- `backend/test_data/generate_seed_data.py` is not part of this model. It is
  an external API client with random retries and file output.
- `res.status(422)` never sends the response; the model records the status
  only.
- UserProfile.ProfileForm.Submit: requires an aligned advocacy vector. The constructor, `LoadDefaults` and the group's change handler keep it aligned. The model does not cover `advocacyApproach[ix]` reading `undefined` past the end of a shorter vector.
