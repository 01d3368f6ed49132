/**
 * What the gateway decides once, at process start (backend/food.py): which API key to use,
 * and which of the provider's models to call. The environment and the provider's model
 * listing are inputs; the listing is a function of the key, so it is consulted only when
 * a key was resolved.
 */
module Startup {

  import opened Wrappers
  import opened Text

  /** The sample value the start-up check rejects; it counts as no key at all. */
  const Placeholder := "your-gemini-api-key-here"

  /** The generation method a model must advertise to be usable. */
  const GenerateContent := "generateContent"

  /**
   * Credential resolution: `GEMINI_API_KEY or VITE_GEMINI_API_KEY`, then an empty value or
   * the placeholder becomes "no key".
   */
  function ResolveKey(primary: Option<string>, fallback: Option<string>): (key: Option<string>)
    // the resolved key is never empty and never the placeholder
    ensures key.Some? ==> key.value != "" && key.value != Placeholder
    // a non-empty primary decides alone: it is the key, or there is none if it is the placeholder
    ensures Truthy(primary) ==> (key.Some? <==> primary.value != Placeholder) && (key.Some? ==> key == primary)
    // only an unset or empty primary lets the fallback variable be consulted
    ensures !Truthy(primary) ==> (key.Some? <==> Truthy(fallback) && fallback.value != Placeholder) && (key.Some? ==> key == fallback)
  {
    var raw := if Truthy(primary) then primary else fallback;
    if !Truthy(raw) || raw.value == Placeholder then None else raw
  }

  /** One entry of the provider's model listing; a missing method list reads as empty. */
  datatype ModelInfo = ModelInfo(name: string, methods: seq<string>)

  /** What listing the provider's models produced: the models, or the text of the exception raised. */
  datatype Listing = Listed(models: seq<ModelInfo>) | ListingFailed(message: string)

  predicate SupportsGenerate(m: ModelInfo) {
    GenerateContent in m.methods
  }

  /** The name hints that the model takes images: it contains "vision" or "image". */
  predicate HasImageHint(name: string) {
    Contains(name, "vision") || Contains(name, "image")
  }

  /** A model the selection prefers over all others. */
  predicate Preferred(m: ModelInfo) {
    SupportsGenerate(m) && HasImageHint(m.name)
  }

  /** The models that advertise `generateContent`, in listing order. */
  function GenerateCapable(ms: seq<ModelInfo>): (r: seq<ModelInfo>)
    ensures forall k :: 0 <= k < |r| ==> SupportsGenerate(r[k]) && r[k] in ms
    ensures forall m :: m in ms && SupportsGenerate(m) ==> m in r
  {
    if ms == [] then []
    else (if SupportsGenerate(ms[0]) then [ms[0]] else []) + GenerateCapable(ms[1..])
  }

  /** The position of the first model whose name carries an image hint. */
  function FirstHinted(a: seq<ModelInfo>): (k: Option<nat>)
    ensures k.Some? ==> k.value < |a| && HasImageHint(a[k.value].name)
    ensures k.Some? ==> forall j :: 0 <= j < k.value ==> !HasImageHint(a[j].name)
    ensures k.None? ==> forall j :: 0 <= j < |a| ==> !HasImageHint(a[j].name)
  {
    if a == [] then None
    else if HasImageHint(a[0].name) then Some(0)
    else match FirstHinted(a[1..])
      case None => None
      case Some(k) => Some(k + 1)
  }

  /**
   * The selection policy, stated as a function of the listing: among the generate-capable
   * models, the first with an image hint, else the first one, else none. A failed listing
   * selects nothing.
   */
  function SelectFrom(listing: Listing): Option<string> {
    match listing
    case ListingFailed(_) => None
    case Listed(ms) =>
      var available := GenerateCapable(ms);
      match FirstHinted(available)
      case Some(k) => Some(available[k].name)
      case None => if available != [] then Some(available[0].name) else None
  }

  /**
   * Model initialisation as the program runs it: filter the listing, scan it for an image
   * hint, stop at the first, and fall back to the first capable model.
   */
  method SelectModel(key: Option<string>, listModels: string -> Listing) returns (model: Option<string>)
    ensures !Truthy(key) ==> model.None?
    ensures Truthy(key) ==> model == SelectFrom(listModels(key.value))
    ensures Truthy(key) && listModels(key.value).ListingFailed? ==> model.None?
  {
    model := None;
    if Truthy(key) {
      var listing := listModels(key.value);
      match listing {
        case ListingFailed(_) =>
          model := None;
        case Listed(ms) =>
          var available := GenerateCapable(ms);
          for i := 0 to |available|
            invariant model.None?
            invariant forall j :: 0 <= j < i ==> !HasImageHint(available[j].name)
          {
            if HasImageHint(available[i].name) {
              model := Some(available[i].name);
              break;
            }
          }
          if model.None? && available != [] {
            model := Some(available[0].name);
          }
      }
    }
  }

  /** The process-wide state fixed at start-up. */
  datatype Config = Config(apiKey: Option<string>, model: Option<string>)

  /** Start-up: resolve the key, then (only with a key) select a model. */
  method Configure(primary: Option<string>, fallback: Option<string>, listModels: string -> Listing)
    returns (cfg: Config)
    ensures cfg.apiKey == ResolveKey(primary, fallback)
    ensures cfg.apiKey.None? ==> cfg.model.None?
    ensures cfg.apiKey.Some? ==> cfg.model == SelectFrom(listModels(cfg.apiKey.value))
  {
    var key := ResolveKey(primary, fallback);
    var model := SelectModel(key, listModels);
    cfg := Config(key, model);
  }

  // Properties of the selection policy, stated on the provider's listing as given.

  /** Whatever is selected is the name of a listed model that advertises `generateContent`. */
  lemma SelectedSupportsGenerate(ms: seq<ModelInfo>, name: string)
    requires SelectFrom(Listed(ms)) == Some(name)
    ensures exists i :: 0 <= i < |ms| && ms[i].name == name && SupportsGenerate(ms[i])
  {
  }

  /** The first preferred model in listing order is the one selected. */
  lemma PrefersFirstHinted(ms: seq<ModelInfo>, i: nat)
    requires i < |ms| && Preferred(ms[i])
    requires forall j :: 0 <= j < i ==> !Preferred(ms[j])
    ensures SelectFrom(Listed(ms)) == Some(ms[i].name)
  {
    FirstHintedOfCapable(ms, i);
  }

  /** Without any preferred model, the first generate-capable model in listing order is selected. */
  lemma FallsBackToFirstCapable(ms: seq<ModelInfo>, i: nat)
    requires forall j :: 0 <= j < |ms| ==> !Preferred(ms[j])
    requires i < |ms| && SupportsGenerate(ms[i])
    requires forall j :: 0 <= j < i ==> !SupportsGenerate(ms[j])
    ensures SelectFrom(Listed(ms)) == Some(ms[i].name)
  {
    FirstOfCapable(ms, i);
  }

  /** A listing selects nothing exactly when no listed model advertises `generateContent`. */
  lemma NoneOnlyWithoutCapable(ms: seq<ModelInfo>)
    ensures SelectFrom(Listed(ms)) == None <==> forall j :: 0 <= j < |ms| ==> !SupportsGenerate(ms[j])
  {
  }

  /** Filtering keeps order: the first preferred model of the listing is the first hinted capable one. */
  lemma {:induction false} FirstHintedOfCapable(ms: seq<ModelInfo>, i: nat)
    requires i < |ms| && Preferred(ms[i])
    requires forall j :: 0 <= j < i ==> !Preferred(ms[j])
    ensures FirstHinted(GenerateCapable(ms)).Some?
    ensures GenerateCapable(ms)[FirstHinted(GenerateCapable(ms)).value] == ms[i]
  {
    var rest := GenerateCapable(ms[1..]);
    if i == 0 {
      assert GenerateCapable(ms) == [ms[0]] + rest;
    } else {
      FirstHintedOfCapable(ms[1..], i - 1);
      if SupportsGenerate(ms[0]) {
        assert GenerateCapable(ms) == [ms[0]] + rest;
        assert ([ms[0]] + rest)[1..] == rest;
      } else {
        assert GenerateCapable(ms) == rest;
      }
    }
  }

  /** Filtering keeps order: the first capable model of the listing heads the filtered list. */
  lemma {:induction false} FirstOfCapable(ms: seq<ModelInfo>, i: nat)
    requires i < |ms| && SupportsGenerate(ms[i])
    requires forall j :: 0 <= j < i ==> !SupportsGenerate(ms[j])
    ensures GenerateCapable(ms) != [] && GenerateCapable(ms)[0] == ms[i]
  {
    if i > 0 {
      FirstOfCapable(ms[1..], i - 1);
      assert GenerateCapable(ms) == GenerateCapable(ms[1..]);
    }
  }
}
