/** The poster composer view's state and the operations its controls
    trigger. */
module App {
  import opened Optional
  import opened JsText
  import opened Form
  import opened Generation

  class PosterComposer {
    var appName: string
    var appDesc: string
    var features: seq<string>
    var language: Language
    var platform: Platform
    var posterUrl: Option<string>

    /** The two seeded feature slots are never removed: every method keeps
        this invariant. */
    ghost predicate Valid()
      reads this
    {
      |features| >= 2
    }

    /** The defaults the view mounts with. */
    constructor ()
      ensures Valid()
      ensures appName == "" && appDesc == ""
      ensures features == ["", ""]
      ensures language == Ar && platform == Instagram
      ensures posterUrl == None
    {
      appName, appDesc := "", "";
      features := ["", ""];
      language, platform := Ar, Instagram;
      posterUrl := None;
    }

    /** The request body the current state would send. */
    function CurrentPayload(): (p: Payload)
      reads this
      ensures p.appName == appName && p.appDesc == appDesc
      ensures p.language == LanguageCode(language) && p.platform == PlatformCode(platform)
      ensures p.features == KeepFilled(features)
    {
      BuildPayload(appName, appDesc, features, language, platform)
    }

    /** The name input: stored verbatim; nothing else changes. */
    method SetAppName(text: string)
      requires Valid()
      modifies this`appName
      ensures Valid()
      ensures appName == text
    {
      appName := text;
    }

    /** The description input: stored verbatim; nothing else changes. */
    method SetAppDesc(text: string)
      requires Valid()
      modifies this`appDesc
      ensures Valid()
      ensures appDesc == text
    {
      appDesc := text;
    }

    /** "Add another feature": one more empty slot at the end, every earlier
        entry kept in order, and what would be sent unchanged. */
    method AddFeature()
      requires Valid()
      modifies this`features
      ensures Valid()
      ensures features == old(features) + [""]
      ensures CurrentPayload() == old(CurrentPayload())
    {
      features := features + [""];
      AppendEmptySlotKeepsFiltered(old(features));
    }

    /** A feature input: entry `index` becomes `value`; the length and every
        other entry stay as they were. */
    method UpdateFeature(index: nat, value: string)
      requires Valid()
      requires index < |features|
      modifies this`features
      ensures Valid()
      ensures |features| == |old(features)|
      ensures features[index] == value
      ensures forall j :: 0 <= j < |features| && j != index ==> features[j] == old(features[j])
    {
      var newFeatures := features;
      newFeatures := newFeatures[index := value];
      features := newFeatures;
    }

    /** The language radio group. */
    method SetLanguage(value: Language)
      requires Valid()
      modifies this`language
      ensures Valid()
      ensures language == value
    {
      language := value;
    }

    /** The platform radio group. */
    method SetPlatform(value: Platform)
      requires Valid()
      modifies this`platform
      ensures Valid()
      ensures platform == value
    {
      platform := value;
    }

    /** "Create the poster": sends the current payload; a delivered image
        replaces the handle, while a failure leaves it and returns the
        notification text. The form fields are not touched. */
    method GeneratePoster(outcome: FetchOutcome) returns (sent: Payload, notification: Option<string>)
      requires Valid()
      modifies this`posterUrl
      ensures Valid()
      ensures sent == CurrentPayload()
      ensures posterUrl == Generate(old(posterUrl), outcome).poster
      ensures outcome.Delivered? ==> posterUrl == Some(outcome.objectUrl) && notification == None
      ensures !outcome.Delivered? ==>
                posterUrl == old(posterUrl)
                && notification == Some(ErrorPrefix + ErrorMessage(outcome))
    {
      sent := CurrentPayload();
      var step := Generate(posterUrl, outcome);
      if outcome.Delivered? {
        posterUrl := step.poster;
      }
      notification := step.notification;
    }
  }

  /** The form of the worked scenario, filled in through the controls:
      name "MyApp", description "desc", features ["Fast", "", ""] and
      platform tiktok, with no poster yet. */
  method FillScenarioForm() returns (view: PosterComposer)
    ensures fresh(view) && view.Valid()
    ensures view.appName == "MyApp" && view.appDesc == "desc"
    ensures view.features == ["Fast", "", ""]
    ensures view.language == Ar && view.platform == Tiktok
    ensures view.posterUrl == None
  {
    view := new PosterComposer();
    view.SetAppName("MyApp");
    view.SetAppDesc("desc");
    view.AddFeature();
    view.UpdateFeature(0, "Fast");
    view.SetPlatform(Tiktok);
  }

  /** The worked scenario: the form above is submitted and the request comes
      back with a non-ok status. */
  method NotOkScenario() returns (sent: Payload, notification: Option<string>, poster: Option<string>)
    ensures sent == Payload("MyApp", "desc", ["Fast"], "ar", "tiktok")
    ensures notification == Some(ErrorPrefix + NotOkMessage)
    ensures poster == None
  {
    var view := FillScenarioForm();
    PayloadExample();
    sent, notification := view.GeneratePoster(NotOk);
    poster := view.posterUrl;
  }
}
