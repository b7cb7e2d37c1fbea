/** The label descriptor resolver (`getLabelInfo`) and the Likert group that
    holds one rating per label, index-aligned with the label ids. */
module LabelLikertGroup {
  import opened JsBuiltins
  import opened LikertButtons

  /** What is shown for one label: the text and explanation lines of its zero
      pole and of its one pole, and whether the label is inverted. */
  datatype LabelInfo = LabelInfo(
    zeroText: string,
    zeroDescription: seq<string>,
    oneText: string,
    oneDescription: seq<string>,
    inverted: bool)

  /** Every label of a group is rated on a control with this many buttons. */
  const ButtonCount: int := 5

  /** The label ids the resolver recognises. */
  const KnownLabels: set<string> :=
    {"spam", "fails_task", "not_appropriate", "violence", "excessive_harm", "sexual_content",
     "toxicity", "moral_judgement", "political_content", "humor", "hate_speech", "threat",
     "misleading", "helpfulness", "creative", "pii", "quality", "creativity", "harmful_to_animals",
     "animal_effect", "cultural_inclusion", "emotional_effect", "factuality", "influence",
     "logical", "advocacy_approach", "advocacy_diplomacy", "advocacy_empiricism", "advocacy_focus",
     "advocacy_intersectionality", "advocacy_rights"}

  /** The recognised labels whose stored value is the complement of the value
      the control emits. */
  predicate IsInvertedLabel(labelId: string)
  {
    match labelId
    case "spam" | "fails_task" | "not_appropriate" | "violence" | "excessive_harm" |
      "sexual_content" | "toxicity" | "moral_judgement" | "political_content" | "hate_speech" |
      "threat" | "misleading" | "harmful_to_animals" => true
    case _ => false
  }

  /** `getLabelInfo`: total over all label ids. The texts come from the
      translation lookup `t`; an unrecognised id yields the generated
      descriptor `"!" + id` / `id` with no explanations. */
  function GetLabelInfo(labelId: string, t: string -> string): (r: LabelInfo)
    ensures labelId !in KnownLabels ==> r == LabelInfo("!" + labelId, [], labelId, [], false)
    ensures r.inverted <==> IsInvertedLabel(labelId)
    ensures |r.zeroDescription| <= 1 && |r.oneDescription| <= 4
  {
    match labelId
    case "spam" =>
      LabelInfo(t("not_spam"), [t("not_spam.explanation")], t("spam"), [t("spam.one_desc.line_1"), t("spam.one_desc.line_2"), t("spam.one_desc.line_3"), t("spam.one_desc.line_4")], true)
    case "fails_task" =>
      LabelInfo(t("follows_instructions"), [], t("fails_task"), [t("fails_task.one_desc")], true)
    case "not_appropriate" =>
      LabelInfo(t("appropriate"), [], t("inappropriate"), [t("inappropriate.one_desc")], true)
    case "violence" =>
      LabelInfo(t("harmless"), [], t("violent"), [t("violent.one_desc")], true)
    case "excessive_harm" =>
      LabelInfo(t("safe"), [], t("harmful"), [t("harmful.one_desc.line_1"), t("harmful.one_desc.line_2")], true)
    case "sexual_content" =>
      LabelInfo(t("non_sexual"), [], t("sexual"), [t("sexual.one_desc")], true)
    case "toxicity" =>
      LabelInfo(t("polite"), [], t("rude"), [t("rude.one_desc")], true)
    case "moral_judgement" =>
      LabelInfo(t("non_judgemental"), [], t("judgemental"), [t("judgemental.one_desc")], true)
    case "political_content" =>
      LabelInfo(t("apolitical"), [], t("political"), [t("political.one_desc")], true)
    case "humor" =>
      LabelInfo(t("serious"), [], t("humorous"), [t("humorous.one_desc")], false)
    case "hate_speech" =>
      LabelInfo(t("safe"), [], t("hateful"), [t("hateful.one_desc.line_1"), t("hateful.one_desc.line_2")], true)
    case "threat" =>
      LabelInfo(t("safe"), [], t("threatening"), [t("threatening.one_desc")], true)
    case "misleading" =>
      LabelInfo(t("accurate"), [], t("misleading"), [t("misleading.one_desc")], true)
    case "helpfulness" =>
      LabelInfo(t("unhelpful"), [], t("helpful"), [t("helpful.one_desc")], false)
    case "creative" =>
      LabelInfo(t("boring"), [], t("creative"), [t("creative.one_desc")], false)
    case "pii" =>
      LabelInfo(t("clean"), [], t("contains_pii"), [t("contains_pii.one_desc")], false)
    case "quality" =>
      LabelInfo(t("low_quality"), [], t("high_quality"), [], false)
    case "creativity" =>
      LabelInfo(t("ordinary"), [], t("creative"), [t("creative.one_desc.line_1"), t("creative.one_desc.line_2")], false)
    case "harmful_to_animals" =>
      LabelInfo(t("harmful_to_animals.zero_text"), [], t("harmful_to_animals.one_text"), [t("harmful_to_animals.one_desc")], true)
    case "animal_effect" =>
      LabelInfo(t("animal_effect.zero"), [], t("animal_effect.one"), [t("animal_effect.one_desc")], false)
    case "cultural_inclusion" =>
      LabelInfo(t("cultural_inclusion.zero"), [], t("cultural_inclusion.one"), [t("cultural_inclusion.one_desc")], false)
    case "emotional_effect" =>
      LabelInfo(t("emotional_effect.zero"), [], t("emotional_effect.one"), [t("emotional_effect.one_desc")], false)
    case "factuality" =>
      LabelInfo(t("factuality.zero"), [], t("factuality.one"), [t("factuality.one_desc")], false)
    case "influence" =>
      LabelInfo(t("influence.zero"), [], t("influence.one"), [t("influence.one_desc")], false)
    case "logical" =>
      LabelInfo(t("logical.zero"), [], t("logical.one"), [t("logical.one_desc")], false)
    case "advocacy_approach" =>
      LabelInfo(t("advocacy_approach.zero"), [], t("advocacy_approach.one"), [], false)
    case "advocacy_diplomacy" =>
      LabelInfo(t("advocacy_diplomacy.zero"), [], t("advocacy_diplomacy.one"), [], false)
    case "advocacy_empiricism" =>
      LabelInfo(t("advocacy_empiricism.zero"), [], t("advocacy_empiricism.one"), [], false)
    case "advocacy_focus" =>
      LabelInfo(t("advocacy_focus.zero"), [], t("advocacy_focus.one"), [], false)
    case "advocacy_intersectionality" =>
      LabelInfo(t("advocacy_intersectionality.zero"), [], t("advocacy_intersectionality.one"), [], false)
    case "advocacy_rights" =>
      LabelInfo(t("advocacy_rights.zero"), [], t("advocacy_rights.one"), [], false)
    case _ =>
      LabelInfo("!" + labelId, [], labelId, [], false)
  }

  /** The translation keys the resolver looks up for a label. */
  function TranslationKeys(labelId: string): set<string>
  {
    match labelId
    case "spam" => {"not_spam", "not_spam.explanation", "spam", "spam.one_desc.line_1", "spam.one_desc.line_2", "spam.one_desc.line_3", "spam.one_desc.line_4"}
    case "fails_task" => {"follows_instructions", "fails_task", "fails_task.one_desc"}
    case "not_appropriate" => {"appropriate", "inappropriate", "inappropriate.one_desc"}
    case "violence" => {"harmless", "violent", "violent.one_desc"}
    case "excessive_harm" => {"safe", "harmful", "harmful.one_desc.line_1", "harmful.one_desc.line_2"}
    case "sexual_content" => {"non_sexual", "sexual", "sexual.one_desc"}
    case "toxicity" => {"polite", "rude", "rude.one_desc"}
    case "moral_judgement" => {"non_judgemental", "judgemental", "judgemental.one_desc"}
    case "political_content" => {"apolitical", "political", "political.one_desc"}
    case "humor" => {"serious", "humorous", "humorous.one_desc"}
    case "hate_speech" => {"safe", "hateful", "hateful.one_desc.line_1", "hateful.one_desc.line_2"}
    case "threat" => {"safe", "threatening", "threatening.one_desc"}
    case "misleading" => {"accurate", "misleading", "misleading.one_desc"}
    case "helpfulness" => {"unhelpful", "helpful", "helpful.one_desc"}
    case "creative" => {"boring", "creative", "creative.one_desc"}
    case "pii" => {"clean", "contains_pii", "contains_pii.one_desc"}
    case "quality" => {"low_quality", "high_quality"}
    case "creativity" => {"ordinary", "creative", "creative.one_desc.line_1", "creative.one_desc.line_2"}
    case "harmful_to_animals" => {"harmful_to_animals.zero_text", "harmful_to_animals.one_text", "harmful_to_animals.one_desc"}
    case "animal_effect" => {"animal_effect.zero", "animal_effect.one", "animal_effect.one_desc"}
    case "cultural_inclusion" => {"cultural_inclusion.zero", "cultural_inclusion.one", "cultural_inclusion.one_desc"}
    case "emotional_effect" => {"emotional_effect.zero", "emotional_effect.one", "emotional_effect.one_desc"}
    case "factuality" => {"factuality.zero", "factuality.one", "factuality.one_desc"}
    case "influence" => {"influence.zero", "influence.one", "influence.one_desc"}
    case "logical" => {"logical.zero", "logical.one", "logical.one_desc"}
    case "advocacy_approach" => {"advocacy_approach.zero", "advocacy_approach.one"}
    case "advocacy_diplomacy" => {"advocacy_diplomacy.zero", "advocacy_diplomacy.one"}
    case "advocacy_empiricism" => {"advocacy_empiricism.zero", "advocacy_empiricism.one"}
    case "advocacy_focus" => {"advocacy_focus.zero", "advocacy_focus.one"}
    case "advocacy_intersectionality" => {"advocacy_intersectionality.zero", "advocacy_intersectionality.one"}
    case "advocacy_rights" => {"advocacy_rights.zero", "advocacy_rights.one"}
    case _ => {}
  }

  /** The descriptor depends on `t` only through the keys of its own label;
      a fallback descriptor does not consult `t` at all. */
  lemma ResolverReadsOnlyItsKeys(labelId: string, t1: string -> string, t2: string -> string)
    requires forall k :: k in TranslationKeys(labelId) ==> t1(k) == t2(k)
    ensures GetLabelInfo(labelId, t1) == GetLabelInfo(labelId, t2)
  {
    if IsInvertedLabel(labelId) {
      InvertedResolverReadsOnlyItsKeys(labelId, t1, t2);
    } else {
      PlainResolverReadsOnlyItsKeys(labelId, t1, t2);
    }
  }

  lemma InvertedResolverReadsOnlyItsKeys(labelId: string, t1: string -> string, t2: string -> string)
    requires IsInvertedLabel(labelId)
    requires forall k :: k in TranslationKeys(labelId) ==> t1(k) == t2(k)
    ensures GetLabelInfo(labelId, t1) == GetLabelInfo(labelId, t2)
  {
    match labelId {
      case "spam" =>
      case "fails_task" =>
      case "not_appropriate" =>
      case "violence" =>
      case "excessive_harm" =>
      case "sexual_content" =>
      case "toxicity" =>
      case "moral_judgement" =>
      case "political_content" =>
      case "hate_speech" =>
      case "threat" =>
      case "misleading" =>
      case "harmful_to_animals" =>
    }
  }

  lemma PlainResolverReadsOnlyItsKeys(labelId: string, t1: string -> string, t2: string -> string)
    requires !IsInvertedLabel(labelId)
    requires forall k :: k in TranslationKeys(labelId) ==> t1(k) == t2(k)
    ensures GetLabelInfo(labelId, t1) == GetLabelInfo(labelId, t2)
  {
    match labelId {
      case "humor" =>
      case "helpfulness" =>
      case "creative" =>
      case "pii" =>
      case "quality" =>
      case "creativity" =>
      case "animal_effect" =>
      case "cultural_inclusion" =>
      case "emotional_effect" =>
      case "factuality" =>
      case "influence" =>
      case "logical" =>
      case "advocacy_approach" =>
      case "advocacy_diplomacy" =>
      case "advocacy_empiricism" =>
      case "advocacy_focus" =>
      case "advocacy_intersectionality" =>
      case "advocacy_rights" =>
      case _ =>
    }
  }

  /** Two recognised labels of the sample: "spam" is inverted and explains its
      one pole in four lines; "humor" is not inverted. An unknown id falls back. */
  lemma SampleDescriptors(t: string -> string)
    ensures GetLabelInfo("spam", t).inverted
    ensures GetLabelInfo("spam", t).oneDescription ==
      [t("spam.one_desc.line_1"), t("spam.one_desc.line_2"), t("spam.one_desc.line_3"), t("spam.one_desc.line_4")]
    ensures !GetLabelInfo("humor", t).inverted
    ensures GetLabelInfo("xyz123", t) == LabelInfo("!xyz123", [], "xyz123", [], false)
  {
  }

  /** The two ends of one row as drawn: text and explanation on the left (A)
      and on the right (B). */
  datatype Sides = Sides(textA: string, descriptionA: seq<string>, textB: string, descriptionB: seq<string>)

  /** The display swap: an inverted label draws its one pole on the left. */
  function DisplaySides(info: LabelInfo): (s: Sides)
    ensures !info.inverted ==> s == Sides(info.zeroText, info.zeroDescription, info.oneText, info.oneDescription)
    ensures info.inverted ==> s == Sides(info.oneText, info.oneDescription, info.zeroText, info.zeroDescription)
  {
    var straight := Sides(info.zeroText, info.zeroDescription, info.oneText, info.oneDescription);
    if info.inverted then Sides(straight.textB, straight.descriptionB, straight.textA, straight.descriptionA)
    else straight
  }

  /** The stored value for a value `v` emitted by a control: `1 - v` for an
      inverted label, `v` otherwise; null stays null. */
  function StoredValue(inverted: bool, v: Option<real>): (r: Option<real>)
    ensures r.None? <==> v.None?
    ensures !inverted ==> r == v
    ensures v.Some? && 0.0 <= v.value <= 1.0 ==> 0.0 <= r.value <= 1.0
  {
    match v
    case None => None
    case Some(x) => Some(if inverted then 1.0 - x else x)
  }

  /** Inverting twice gives the emitted value back. */
  lemma InversionIsInvolution(inverted: bool, v: Option<real>)
    ensures StoredValue(inverted, StoredValue(inverted, v)) == v
  {
  }

  /** Inverting the point of button `i` gives the point of the mirrored button. */
  lemma InvertedPointMirrors(i: int, count: int)
    requires count >= 2 && 0 <= i < count
    ensures StoredValue(true, Some(Point(i, count))) == Some(Point(count - 1 - i, count))
  {
    var n := (count - 1) as real;
    assert n / n == 1.0;
    assert ((count - 1 - i) as real) / n == n / n - (i as real) / n;
  }

  /** Display and inversion agree: the pole drawn beside the leftmost button is
      the pole whose value (0 for zero, 1 for one) that button stores, and the
      same holds for the rightmost button. */
  lemma EndButtonsStoreTheirDrawnPole(info: LabelInfo)
    ensures var s := DisplaySides(info);
      (StoredValue(info.inverted, Some(Point(0, ButtonCount))) == Some(if info.inverted then 1.0 else 0.0))
      && (s.textA, s.descriptionA) == (if info.inverted then (info.oneText, info.oneDescription) else (info.zeroText, info.zeroDescription))
    ensures var s := DisplaySides(info);
      (StoredValue(info.inverted, Some(Point(ButtonCount - 1, ButtonCount))) == Some(if info.inverted then 0.0 else 1.0))
      && (s.textB, s.descriptionB) == (if info.inverted then (info.zeroText, info.zeroDescription) else (info.oneText, info.oneDescription))
  {
    assert Point(0, ButtonCount) == 0.0 && Point(ButtonCount - 1, ButtonCount) == 1.0;
  }

  /** The value a control is seeded with: `currentValues && currentValues[idx]`.
      The stored value is passed as it is, without undoing the inversion. */
  function SeedValue(currentValues: Option<seq<Option<real>>>, idx: nat): (r: Option<real>)
    ensures currentValues.None? ==> r.None?
    ensures currentValues.Some? && idx < |currentValues.value| ==> r == currentValues.value[idx]
    ensures currentValues.Some? && idx >= |currentValues.value| ==> r.None?
  {
    match currentValues
    case None => None
    case Some(values) => if idx < |values| then values[idx] else None
  }

  /** Re-seeding after a click: a control whose button `i` was clicked and whose
      group stored the result is seeded with that stored value, which happens
      when the owner of the group passes the emitted vector back in as
      `currentValues`. Without that, the control keeps the clicked key. For a label
      that is not inverted it selects button `i` again; for an inverted label it
      selects the mirrored button `count - 1 - i`. */
  lemma ReseedAfterClick(selection: string, inverted: bool, i: int, count: int)
    requires 2 <= count <= 10001 && 0 <= i < count
    ensures Synced(selection, StoredValue(inverted, Some(Point(i, count))), count)
      == Decimal(if inverted then count - 1 - i else i)
  {
    if inverted {
      InvertedPointMirrors(i, count);
      SyncWithPointSelectsIt(selection, count - 1 - i, count);
    } else {
      SyncWithPointSelectsIt(selection, i, count);
    }
  }

  /** One group of rating controls, one per label id. `labelValues` is the
      value vector; `t` is the translation lookup. */
  class LikertGroup {
    const labelIDs: seq<string>
    const t: string -> string
    var labelValues: seq<Option<real>>

    /** The vector has one slot per label. */
    predicate Aligned()
      reads this
    {
      |labelValues| == |labelIDs|
    }

    constructor (labelIDs: seq<string>, t: string -> string)
      ensures this.labelIDs == labelIDs && this.t == t
      ensures Aligned()
      ensures forall i :: 0 <= i < |labelValues| ==> labelValues[i] == None
    {
      this.labelIDs := labelIDs;
      this.t := t;
      labelValues := seq(|labelIDs|, _ => None);
    }

    /** The effect on `currentValues`: when present, it replaces the whole
        vector (an overwrite, not a merge); when absent nothing changes. */
    method ReceiveCurrentValues(currentValues: Option<seq<Option<real>>>)
      modifies this
      ensures currentValues.Some? ==> labelValues == currentValues.value
      ensures currentValues.None? ==> labelValues == old(labelValues)
      ensures Aligned() <==> (if currentValues.Some? then |currentValues.value| == |labelIDs| else old(Aligned()))
    {
      if currentValues.Some? {
        labelValues := currentValues.value;
      }
    }

    /** The change handler of the control at `idx`: copy the vector, store the
        (possibly inverted) value in slot `idx`, pass the copy to the owner and
        hold it. Only slot `idx` changes; an aligned vector stays aligned. */
    method OnControlChange(idx: nat, value: Option<real>) returns (emitted: seq<Option<real>>)
      requires idx < |labelIDs|
      modifies this
      ensures emitted == labelValues
      ensures labelValues == Assign(old(labelValues), idx, StoredValue(GetLabelInfo(labelIDs[idx], t).inverted, value))
      ensures old(Aligned()) ==> Aligned()
      ensures labelValues[idx] == StoredValue(IsInvertedLabel(labelIDs[idx]), value)
      ensures forall j :: 0 <= j < |old(labelValues)| && j != idx ==> labelValues[j] == old(labelValues)[j]
    {
      var inverted := GetLabelInfo(labelIDs[idx], t).inverted;
      var newState := Assign(labelValues, idx, StoredValue(inverted, value));
      emitted := newState;
      labelValues := newState;
    }
  }

  /** Scenarios: a click on button 3 of the control of "humor"
      emits [0.75]; a click on button 0 of "spam", which is inverted, emits [1]. */
  method ClickScenarios(t: string -> string) returns (humor: seq<Option<real>>, spam: seq<Option<real>>)
    ensures humor == [Some(0.75)]
    ensures spam == [Some(1.0)]
  {
    assert Decimal(3) == "3" && Decimal(0) == "0";
    var humorGroup := new LikertGroup(["humor"], t);
    var humorControl := new RatingControl(ButtonCount);
    var v := humorControl.Click("3");
    assert v == 0.75;
    humor := humorGroup.OnControlChange(0, Some(v));

    var spamGroup := new LikertGroup(["spam"], t);
    var spamControl := new RatingControl(ButtonCount);
    var w := spamControl.Click("0");
    assert w == 0.0;
    spam := spamGroup.OnControlChange(0, Some(w));
  }
}
