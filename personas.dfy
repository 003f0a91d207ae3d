/** The persona table of the assistant route: four system prompts keyed by
    assistant type, and the lookup that falls back to the skin-care prompt. */
module Personas {
  import opened JsValues

  /** The four system prompts. Their texts are not modelled; each stands for
      its persona's prompt and the four are distinct and non-empty. */
  const AcneCarePrompt: string := "system prompt: facial skin care"
  const HealthNutritionPrompt: string := "system prompt: health and nutrition"
  const StudyPrompt: string := "system prompt: study"
  const MentalHealthPrompt: string := "system prompt: mental health"

  const DefaultKey: string := "acne-care"

  /** `systemPrompts`: assistant type to system prompt. */
  const SystemPrompts: map<string, string> := map[
    "acne-care" := AcneCarePrompt,
    "health-nutrition" := HealthNutritionPrompt,
    "study" := StudyPrompt,
    "mental-health" := MentalHealthPrompt
  ]

  /** `defaultPrompt`. */
  const DefaultPrompt: string := SystemPrompts[DefaultKey]

  /** The key the table is indexed with: `assistantType || 'acne-care'`,
      turned into a property name by `String(...)`. */
  function LookupKey(assistantType: Value): (key: string)
    ensures !Truthy(assistantType) ==> key == DefaultKey
    ensures Truthy(assistantType) && assistantType.value.JStr? ==> key == assistantType.value.s
  {
    ToText(Or(assistantType, Some(JStr(DefaultKey))))
  }

  /** `systemPrompts[assistantType || 'acne-care'] || defaultPrompt`. */
  function Resolve(assistantType: Value): (prompt: string)
    ensures prompt in SystemPrompts.Values
    ensures prompt != ""
  {
    var key := LookupKey(assistantType);
    if key in SystemPrompts && SystemPrompts[key] != "" then SystemPrompts[key] else DefaultPrompt
  }

  /** A missing, empty or otherwise falsy assistant type, and any value whose
      string form is not one of the four keys, selects the skin-care prompt. */
  lemma ResolveFallsBack(assistantType: Value)
    requires !Truthy(assistantType) || ToText(assistantType) !in SystemPrompts
    ensures Resolve(assistantType) == AcneCarePrompt
  {
  }

  /** Each key of the table selects its own prompt. */
  lemma ResolveKnown(key: string)
    requires key in SystemPrompts
    ensures Resolve(Some(JStr(key))) == SystemPrompts[key]
  {
  }

  /** A prompt other than the default one is selected exactly when the
      assistant type is truthy and its string form is that prompt's key. */
  lemma ResolveExactly(assistantType: Value, key: string)
    requires key in SystemPrompts && key != DefaultKey
    ensures Resolve(assistantType) == SystemPrompts[key]
      <==> Truthy(assistantType) && ToText(assistantType) == key
  {
  }

  /** The string form decides: a one-element array holding a key selects
      that key's prompt, as `String(['study'])` is `'study'`. */
  lemma ResolveArrayKey()
    ensures Resolve(Some(JArr([JStr("study")]))) == StudyPrompt
  {
  }
}
