/** Length limits of a task's text fields (`src/constants/validation.ts`) and
    the character counter shown under each field
    (`src/components/CharacterCounter.tsx`). The float thresholds
    `max * 0.9` and `max * 0.1` are compared with integer lengths, so they
    are stated exactly as `10 * len > 9 * max` and `10 * remaining <= max`. */
module Validation {
  import opened Text

  const TitleMaxLength: nat := 200
  const DescriptionMaxLength: nat := 5000
  const DescriptionPreviewLength: nat := 300
  const DescriptionPreviewLines: nat := 3
  const DescriptionPreviewLinesMobile: nat := 2

  datatype Field = Title | Description

  function MaxLength(f: Field): (m: nat)
    ensures m == if f == Title then 200 else 5000
  {
    if f == Title then TitleMaxLength else DescriptionMaxLength
  }

  datatype FieldCheck = FieldCheck(
    isValid: bool, isNearLimit: bool, isOverLimit: bool, remaining: int, current: nat, max: nat)

  /** `validateTaskField(field, value)`, on `value.length`: UTF-16 code
      units, so a character above U+FFFF counts twice. */
  function ValidateTaskField(f: Field, value: string): (r: FieldCheck)
    ensures r.current == Utf16Length(value) && r.max == MaxLength(f)
    ensures r.isValid <==> !r.isOverLimit
    ensures r.isOverLimit <==> r.remaining < 0
    ensures r.current + r.remaining == r.max
    ensures r.isOverLimit ==> r.isNearLimit
  {
    var m := MaxLength(f);
    var n := Utf16Length(value);
    FieldCheck(n <= m, 10 * n > 9 * m, n > m, m - n, n, m)
  }

  /** Being near the limit starts strictly above 90%: 180 title code units
      are not near, 181 are, and exactly 200 is near but still valid. */
  lemma NearLimitBoundary(value: string)
    ensures Utf16Length(value) == 180 ==> !ValidateTaskField(Title, value).isNearLimit
    ensures Utf16Length(value) == 181 ==> ValidateTaskField(Title, value).isNearLimit
    ensures Utf16Length(value) == 200 ==> ValidateTaskField(Title, value).isNearLimit && ValidateTaskField(Title, value).isValid
    ensures Utf16Length(value) == 201 ==> ValidateTaskField(Title, value).isOverLimit && ValidateTaskField(Title, value).remaining == -1
    ensures Utf16Length(value) == 5000 ==> ValidateTaskField(Description, value).isValid
    ensures Utf16Length(value) == 5001 ==> !ValidateTaskField(Description, value).isValid
  {
  }

  /** A title of 101 characters above U+FFFF (emoji, say) is 202 code
      units long, over the limit, while 200 plain characters are within it. */
  lemma AstralTitleOverLimit(value: string, plain: string)
    requires |value| == 101 && forall i :: 0 <= i < |value| ==> value[i] as int > 0xFFFF
    requires |plain| == 200 && forall i :: 0 <= i < |plain| ==> plain[i] as int <= 0xFFFF
    ensures ValidateTaskField(Title, value).isOverLimit && ValidateTaskField(Title, value).remaining == -2
    ensures ValidateTaskField(Title, plain).isValid
  {
    Utf16LengthAllAstral(value);
    Utf16LengthBmp(plain);
  }

  // ---------------------------------------------------------------------------
  // The counter.

  datatype Tone = Red | Yellow | Muted

  datatype CounterView = CounterView(tone: Tone, overLimit: bool, count: nat, text: string)

  const OverSuffix := " characters over limit"
  const RemainingSuffix := " characters remaining"

  /** `<CharacterCounter current max/>`: red and the excess when over, else
      the characters left, coloured yellow from 90% on. */
  function Counter(current: nat, max: nat): (v: CounterView)
    ensures v.overLimit <==> current > max
    ensures v.tone == Red <==> current > max
    ensures v.tone == Yellow <==> current <= max && 10 * (max - current) <= max
    ensures v.overLimit ==> v.count == current - max
    ensures !v.overLimit ==> v.count == max - current
  {
    var remaining := max - current;
    var over := current > max;
    var tone := if over then Red else if 10 * remaining <= max then Yellow else Muted;
    if over then CounterView(tone, true, current - max, NatToString(current - max) + OverSuffix)
    else CounterView(tone, false, remaining, NatToString(remaining) + RemainingSuffix)
  }

  /** The message is the count in decimal followed by the phrase that says
      which way it counts; reading the number back gives the count. */
  lemma CounterMessage(current: nat, max: nat)
    ensures var v := Counter(current, max);
      var suffix := if v.overLimit then OverSuffix else RemainingSuffix;
      |v.text| > |suffix| && v.text[|v.text| - |suffix|..] == suffix &&
      AllDigits(v.text[..|v.text| - |suffix|]) &&
      DecimalValue(v.text[..|v.text| - |suffix|]) == v.count
  {
    var v := Counter(current, max);
    var suffix := if v.overLimit then OverSuffix else RemainingSuffix;
    NatToStringRoundTrip(v.count);
    assert v.text == NatToString(v.count) + suffix;
    assert v.text[..|v.text| - |suffix|] == NatToString(v.count);
  }

  /** Counter and validation agree on "over"; the counter turns yellow one
      character earlier than the field is near its limit, exactly at 90%. */
  lemma CounterMatchesValidation(f: Field, value: string)
    ensures var v := Counter(Utf16Length(value), MaxLength(f));
      var c := ValidateTaskField(f, value);
      (v.tone == Red <==> c.isOverLimit) &&
      (c.isNearLimit && !c.isOverLimit ==> v.tone == Yellow) &&
      (v.tone == Yellow && !c.isNearLimit ==> 10 * Utf16Length(value) == 9 * MaxLength(f))
  {
  }

  /** In a 200-character field 89% usage is muted ... */
  lemma CounterMutedAt89()
    ensures Counter(178, 200).tone == Muted && Counter(178, 200).text == "22" + RemainingSuffix
  {
    assert NatToString(22) == NatToString(2) + [DigitChar(2)] == "22";
    assert Counter(178, 200).text == "22" + RemainingSuffix;
  }

  /** ... and 91% usage is yellow. */
  lemma CounterYellowAt91()
    ensures Counter(182, 200).tone == Yellow && Counter(182, 200).text == "18" + RemainingSuffix
  {
    assert NatToString(18) == NatToString(1) + [DigitChar(8)] == "18";
    assert Counter(182, 200).text == "18" + RemainingSuffix;
  }

  /** At the exact limit the counter reads "0 characters remaining"; at 101%
      it is red and reads "2 characters over limit". */
  lemma CounterLimitExamples()
    ensures Counter(200, 200).text == "0" + RemainingSuffix
    ensures Counter(202, 200).tone == Red && Counter(202, 200).text == "2" + OverSuffix
  {
    assert NatToString(0) == "0";
    assert Counter(200, 200).text == "0" + RemainingSuffix;
    assert NatToString(2) == "2";
    assert Counter(202, 200).text == "2" + OverSuffix;
  }
}
