/**
 * The two fixed lookup tables of the chat front end: the models a user may
 * choose (display name to API identifier) and the response-length profiles
 * (profile name to sampling parameters).
 */
module Presets {

  /** Sampling parameters sent with a completion request. Temperature and
      top_p are fractions in [0, 1]; they are kept here as whole tenths. */
  datatype Sampling = Sampling(maxTokens: int, temperature: int, topP: int)

  /** Display name -> API model identifier. */
  const ModelOptions: map<string, string> :=
    map["Llama3.3-70B-Versatile" := "llama-3.3-70b-versatile",
        "DeepSeek-V2-70B" := "deepseek-r1-distill-llama-70b"]

  /** The display names in the order the model selector lists them. */
  const ModelNames: seq<string> := ["Llama3.3-70B-Versatile", "DeepSeek-V2-70B"]

  const DefaultModelName: string := "Llama3.3-70B-Versatile"

  /** Profile name -> sampling parameters. */
  const ResponseOptions: map<string, Sampling> :=
    map["Short" := Sampling(256, 6, 6),
        "Balanced" := Sampling(1024, 7, 7),
        "Long" := Sampling(2048, 8, 8)]

  /** The profile names the response-length selector offers. */
  const ProfileNames: seq<string> := ["Short", "Balanced", "Long"]

  /** A well-formed sampling profile: a positive token budget, both
      fractions within [0, 1]. */
  predicate WellFormed(s: Sampling) {
    s.maxTokens > 0 && 0 <= s.temperature <= 10 && 0 <= s.topP <= 10
  }

  /** The API identifier of a model the selector offers. */
  function ModelId(name: string): (id: string)
    requires name in ModelOptions
    ensures id in ModelOptions.Values
    ensures name == DefaultModelName ==> id == "llama-3.3-70b-versatile"
  {
    ModelOptions[name]
  }

  /** The sampling parameters of a profile the selector offers. */
  function ProfileSampling(name: string): (s: Sampling)
    requires name in ResponseOptions
    ensures WellFormed(s)
    ensures s.temperature == s.topP
    ensures s.maxTokens in {256, 1024, 2048}
  {
    ResponseOptions[name]
  }

  /** The selector offers exactly the table's keys, starting with the default. */
  lemma ModelSelectorMatchesTable()
    ensures forall n :: n in ModelOptions <==> n in ModelNames
    ensures DefaultModelName in ModelOptions && ModelNames[0] == DefaultModelName
    ensures ModelOptions[DefaultModelName] == "llama-3.3-70b-versatile"
  {
  }

  /** The three profiles carry exactly these parameters, and the selector
      offers exactly the table's keys. */
  lemma ProfileTable()
    ensures forall n :: n in ResponseOptions <==> n in ProfileNames
    ensures ProfileSampling("Short") == Sampling(256, 6, 6)
    ensures ProfileSampling("Balanced") == Sampling(1024, 7, 7)
    ensures ProfileSampling("Long") == Sampling(2048, 8, 8)
  {
  }
}
