/** The form's closed choice sets and the request body built from the form
    state when a poster is requested. */
module Form {
  import opened JsText
  import opened Filtering

  /** The language radio group: Arabic (`ar`) or Bahasa Indonesia (`id`). */
  datatype Language = Ar | Id

  /** The platform radio group. */
  datatype Platform = Instagram | Facebook | Tiktok

  /** The value a language radio button carries and the payload sends. */
  function LanguageCode(l: Language): (code: string)
    ensures code == "ar" <==> l == Ar
    ensures code == "id" <==> l == Id
  {
    match l
    case Ar => "ar"
    case Id => "id"
  }

  /** The key a platform radio button carries and the payload sends. */
  function PlatformCode(p: Platform): (code: string)
    ensures code == "instagram" <==> p == Instagram
    ensures code == "facebook" <==> p == Facebook
    ensures code == "tiktok" <==> p == Tiktok
  {
    match p
    case Instagram => "instagram"
    case Facebook => "facebook"
    case Tiktok => "tiktok"
  }

  /** The callback of the feature filter: `f => f.trim() !== ''`. */
  predicate IsFilled(f: string) {
    !IsBlank(f)
  }

  /** `features.filter(f => f.trim() !== '')`: the entries that are not blank,
      each kept as it was, untrimmed. */
  function KeepFilled(features: seq<string>): (kept: seq<string>)
    ensures |kept| <= |features|
    ensures forall k :: 0 <= k < |kept| ==> !IsBlank(kept[k])
    ensures forall f :: f in kept ==> f in features
  {
    Filter(features, IsFilled)
  }

  /** The sent features are exactly the entries that are not blank, in their
      original order and verbatim; and they are the only such list. */
  lemma KeepFilledIsSubsequence(features: seq<string>, kept: seq<string>, idx: seq<int>)
    ensures Selects(features, KeepFilled(features), KeptPositions(features, IsFilled), IsFilled)
    ensures Selects(features, kept, idx, IsFilled) ==> kept == KeepFilled(features)
  {
    FilterSelects(features, IsFilled);
    if Selects(features, kept, idx, IsFilled) {
      SelectsUnique(features, kept, idx, IsFilled);
    }
  }

  /** Appending an empty slot does not change what is sent. */
  lemma AppendEmptySlotKeepsFiltered(features: seq<string>)
    ensures KeepFilled(features + [""]) == KeepFilled(features)
  {
    FilterAppend(features, [""], IsFilled);
  }

  /** Replacing entry `i` by `v` changes the filtered features only at that
      entry's place: `v` appears there exactly when it is not blank. */
  lemma ReplaceEntryFiltered(features: seq<string>, i: nat, v: string)
    requires i < |features|
    ensures KeepFilled(features[i := v])
         == KeepFilled(features[..i]) + (if IsBlank(v) then [] else [v]) + KeepFilled(features[i + 1..])
  {
    var updated := features[i := v];
    assert updated == features[..i] + ([v] + features[i + 1..]);
    FilterAppend(features[..i], [v] + features[i + 1..], IsFilled);
    FilterAppend([v], features[i + 1..], IsFilled);
  }

  /** Filtering the sent features again changes nothing. */
  lemma KeepFilledIdempotent(features: seq<string>)
    ensures KeepFilled(KeepFilled(features)) == KeepFilled(features)
  {
    FilterIdentity(KeepFilled(features), IsFilled);
  }

  /** The JSON body of the generation request. */
  datatype Payload = Payload(
    appName: string,
    appDesc: string,
    features: seq<string>,
    language: string,
    platform: string)

  /** The request body: name and description are sent verbatim without any
      validation, the chosen language and platform as their codes, and the
      features filtered. */
  function BuildPayload(appName: string, appDesc: string, features: seq<string>,
                        language: Language, platform: Platform): (p: Payload)
    ensures p.appName == appName && p.appDesc == appDesc
    ensures p.language == LanguageCode(language) && p.language in {"ar", "id"}
    ensures p.platform == PlatformCode(platform) && p.platform in {"instagram", "facebook", "tiktok"}
    ensures p.features == KeepFilled(features)
    ensures forall k :: 0 <= k < |p.features| ==> !IsBlank(p.features[k])
  {
    Payload(appName, appDesc, KeepFilled(features), LanguageCode(language), PlatformCode(platform))
  }

  /** The form of the worked scenario: one filled feature and two empty slots. */
  lemma PayloadExample()
    ensures BuildPayload("MyApp", "desc", ["Fast", "", ""], Ar, Tiktok)
         == Payload("MyApp", "desc", ["Fast"], "ar", "tiktok")
  {
    BlankIffAllWhitespace("");
    BlankIffAllWhitespace("Fast");
    assert !IsWhitespace("Fast"[0]);
  }
}
