/** The answers a buyer gives about the specification, as `validateCommonInput` of
    beta-app/trade-engine.mjs checks them against data/material-master.json. */
module SpecAnswers {
  import opened Texts
  import opened Wrappers

  /** The six required fields, in their order. */
  datatype Spec = Spec(intendedUse: Text, purity: Text, form: Text, origin: Text, pack: Text, deliveryCondition: Text)

  const SPEC_KEYS: seq<Text> := [
    Lit("intendedUse"), Lit("purity"), Lit("form"), Lit("origin"), Lit("pack"), Lit("deliveryCondition")]

  const OPTIONS: seq<seq<Text>> := [
    [Lit("기능성 식품 원료 개발"), Lit("일반 식품 원료 개발"), Lit("사료·공업용 원료")],
    [Lit("99% 이상"), Lit("98% 이상")],
    [Lit("분말"), Lit("과립")],
    [Lit("한국산"), Lit("중국산"), Lit("원산지 무관")],
    [Lit("20 kg"), Lit("25 kg"), Lit("500 kg")],
    [Lit("상온·밀봉 배송"), Lit("냉장 조건 확인"), Lit("공급자 제안 필요")]]

  /** The specification of the simulated material: the first option of every field. */
  const APPROVED: Spec := Spec(OPTIONS[0][0], OPTIONS[1][0], OPTIONS[2][0], OPTIONS[3][0], OPTIONS[4][0], OPTIONS[5][0])

  function ValuesOf(s: Spec): (r: seq<Text>)
    ensures |r| == |SPEC_KEYS|
  {
    [s.intendedUse, s.purity, s.form, s.origin, s.pack, s.deliveryCondition]
  }

  /** An object of answers: None for null and undefined, other values as text. */
  type Answers = map<Text, Option<Text>>

  /** A specification given back as answers. */
  function AnswersOf(s: Spec): Answers {
    map i | 0 <= i < |SPEC_KEYS| :: SPEC_KEYS[i] := Some(ValueAt(s, SPEC_KEYS[i]))
  }

  /** `specAttributes[field]`. */
  function ValueAt(s: Spec, key: Text): Text {
    if key == SPEC_KEYS[0] then s.intendedUse
    else if key == SPEC_KEYS[1] then s.purity
    else if key == SPEC_KEYS[2] then s.form
    else if key == SPEC_KEYS[3] then s.origin
    else if key == SPEC_KEYS[4] then s.pack
    else s.deliveryCondition
  }

  datatype SpecCode = SPEC_ATTRIBUTES_REQUIRED | SPEC_FIELD_UNKNOWN | SPEC_OPTION_INVALID | SPEC_NOT_MATCHED

  /** The trimmed answer to a field, empty when there is none. */
  function Answer(a: Answers, i: nat): Text
    requires i < |SPEC_KEYS|
  {
    if SPEC_KEYS[i] in a && a[SPEC_KEYS[i]].Some? then Trim(a[SPEC_KEYS[i]].value) else []
  }

  /** The first field, from i on, that is blank or not one of its options. */
  function FieldRefusal(a: Answers, i: nat): Option<SpecCode>
    requires i <= |SPEC_KEYS|
    decreases |SPEC_KEYS| - i
  {
    if i == |SPEC_KEYS| then None
    else if Answer(a, i) == [] then Some(SPEC_ATTRIBUTES_REQUIRED)
    else if Answer(a, i) !in OPTIONS[i] then Some(SPEC_OPTION_INVALID)
    else FieldRefusal(a, i + 1)
  }

  function Normalized(a: Answers): Spec {
    Spec(Answer(a, 0), Answer(a, 1), Answer(a, 2), Answer(a, 3), Answer(a, 4), Answer(a, 5))
  }

  /** None for what is not an object. */
  function AnswerRefusal(given: Option<Answers>): Option<SpecCode> {
    if given.None? then Some(SPEC_ATTRIBUTES_REQUIRED)
    else if exists k :: k in given.value && k !in SPEC_KEYS then Some(SPEC_FIELD_UNKNOWN)
    else
      var refused := FieldRefusal(given.value, 0);
      if refused.Some? then refused else if Normalized(given.value) != APPROVED then Some(SPEC_NOT_MATCHED) else None
  }

  // ---- the keys differ ----

  predicate Distinct<T(==)>(s: seq<T>) {
    forall i, j :: 0 <= i < j < |s| ==> s[i] != s[j]
  }

  lemma SpecKeysDistinct()
    ensures Distinct(SPEC_KEYS)
  {
    assert forall i :: 0 <= i < 6 ==> |SPEC_KEYS[i]| == [11, 6, 4, 6, 4, 17][i];
    assert SPEC_KEYS[1][0] == 112 && SPEC_KEYS[3][0] == 111 && SPEC_KEYS[2][0] == 102 && SPEC_KEYS[4][0] == 112;
  }

  // ---- the approved specification answers itself ----

  predicate Trimmed(t: Text) {
    t != [] && !Blank(t[0]) && !Blank(t[|t| - 1])
  }

  lemma TrimmedStays(t: Text)
    requires Trimmed(t)
    ensures Trim(t) == t
  {
  }

  lemma ApprovedIsTrimmed()
    ensures forall i :: 0 <= i < |SPEC_KEYS| ==> Trimmed(ValuesOf(APPROVED)[i]) && ValuesOf(APPROVED)[i] in OPTIONS[i]
  {
    assert forall i :: 0 <= i < 6 ==> ValuesOf(APPROVED)[i] == OPTIONS[i][0];
  }

  lemma AnswersBack(s: Spec, i: nat)
    requires i < |SPEC_KEYS|
    ensures SPEC_KEYS[i] in AnswersOf(s) && AnswersOf(s)[SPEC_KEYS[i]] == Some(ValuesOf(s)[i])
  {
    SpecKeysDistinct();
    hide Lit;
  }

  lemma {:induction false} ApprovedFields(i: nat)
    requires i <= |SPEC_KEYS|
    ensures FieldRefusal(AnswersOf(APPROVED), i) == None
    decreases |SPEC_KEYS| - i
  {
    if i < |SPEC_KEYS| {
      AnswersBack(APPROVED, i);
      ApprovedIsTrimmed();
      TrimmedStays(ValuesOf(APPROVED)[i]);
      ApprovedFields(i + 1);
    }
  }

  lemma ApprovedAnswer(i: nat)
    requires i < |SPEC_KEYS|
    ensures Answer(AnswersOf(APPROVED), i) == ValuesOf(APPROVED)[i]
  {
    hide Lit;
    hide Trim;
    hide AnswersOf;
    ApprovedIsTrimmed();
    AnswersBack(APPROVED, i);
    TrimmedStays(ValuesOf(APPROVED)[i]);
  }

  lemma ApprovedKeys()
    ensures forall k :: k in AnswersOf(APPROVED) ==> k in SPEC_KEYS
  {
    hide Lit;
  }

  /** Revalidating the approved specification accepts it and leaves it as it is. */
  lemma ApprovedAnswersItself()
    ensures AnswerRefusal(Some(AnswersOf(APPROVED))) == None && Normalized(AnswersOf(APPROVED)) == APPROVED
  {
    hide Lit;
    hide Answer;
    hide AnswersOf;
    hide FieldRefusal;
    ApprovedFields(0);
    ApprovedKeys();
    ApprovedAnswer(0);
    ApprovedAnswer(1);
    ApprovedAnswer(2);
    ApprovedAnswer(3);
    ApprovedAnswer(4);
    ApprovedAnswer(5);
  }
}
