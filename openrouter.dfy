/** The model catalogue of lib/openrouter.ts: the featured-model filter,
    the mapping of OpenRouter's API records to catalogue entries with their
    defaults, the featured-first/name order, provider names, context-length
    labels, and the ten-minute cache kept in module variables. */
module OpenRouter {
  import opened Wrappers
  import opened Text

  /** One model record as OpenRouter's `/api/v1/models` returns it; the
      optional fields are `None` when absent. */
  datatype ApiPricing = ApiPricing(prompt: Option<string>, completion: Option<string>)

  datatype ApiModel = ApiModel(
    id: string,
    name: Option<string>,
    description: Option<string>,
    contextLength: Option<int>,
    pricing: Option<ApiPricing>)

  datatype Pricing = Pricing(prompt: string, completion: string)

  /** A catalogue entry (`OpenRouterModel`). */
  datatype Model = Model(
    id: string,
    name: string,
    description: string,
    contextLength: int,
    pricing: Pricing,
    provider: string,
    isGemini: bool)

  /** The three model ids the catalogue keeps. */
  const FeaturedIds: set<string> := {
    "stepfun/step-3.5-flash:free",
    "arcee-ai/trinity-large-preview:free",
    "nvidia/nemotron-3-nano-30b-a3b:free"
  }

  const CacheDuration: int := 10 * 60 * 1000

  const NoDescription: string := "No description available."

  predicate IsFeatured(id: string) {
    id in FeaturedIds
  }

  // ---------------------------------------------------------------------
  // Provider names

  const ProviderNames: map<string, string> := map[
    "anthropic" := "Anthropic",
    "openai" := "OpenAI",
    "google" := "Google",
    "deepseek" := "DeepSeek",
    "meta-llama" := "Meta",
    "mistralai" := "Mistral",
    "qwen" := "Qwen",
    "cohere" := "Cohere"
  ]

  /** `formatProvider`: the display name of a known provider slug; any other
      slug with its first character upper-cased. */
  function FormatProvider(raw: string): (r: string)
    ensures raw in ProviderNames ==> r == ProviderNames[raw]
    ensures raw !in ProviderNames ==> |r| == |raw| && (raw != [] ==> r[1..] == raw[1..] && r[0] == UpperAscii(raw[0]))
    ensures r == [] <==> raw == []
  {
    if raw in ProviderNames then ProviderNames[raw] else Capitalize(raw)
  }

  /** Every table key starts with a lower-case letter; no table value does. */
  lemma ProviderTableShape()
    ensures forall k :: k in ProviderNames ==> k != [] && IsLowerAscii(k[0])
    ensures forall k :: k in ProviderNames ==> ProviderNames[k] != [] && !IsLowerAscii(ProviderNames[k][0])
  {
  }

  /** Formatting a provider name again changes nothing. */
  lemma FormatProviderIdempotent(raw: string)
    ensures FormatProvider(FormatProvider(raw)) == FormatProvider(raw)
  {
    ProviderTableShape();
    var once := FormatProvider(raw);
    if raw in ProviderNames {
      assert once !in ProviderNames;
      assert once == Capitalize(once);
    } else {
      assert once !in ProviderNames;
      CapitalizeIdempotent(raw);
    }
  }

  /** The provider slug of a model id: the text before the first '/', or
      "Unknown" when that text is empty. */
  function ProviderSlug(id: string): (r: string)
    ensures r != []
    ensures TextBefore(id, '/') != [] ==> r == TextBefore(id, '/')
    ensures TextBefore(id, '/') == [] ==> r == "Unknown"
    ensures TextBefore(id, '/') == [] <==> id == [] || id[0] == '/'
  {
    if TextBefore(id, '/') == [] then "Unknown" else TextBefore(id, '/')
  }

  // ---------------------------------------------------------------------
  // Filter, map and sort

  /** `rawModels.filter(m => FEATURED_MODEL_IDS.has(m.id))`. */
  function KeepFeatured(raw: seq<ApiModel>): (r: seq<ApiModel>)
    ensures |r| <= |raw|
    ensures forall m :: m in r <==> m in raw && IsFeatured(m.id)
    ensures forall m :: multiset(r)[m] == if IsFeatured(m.id) then multiset(raw)[m] else 0
  {
    if raw == [] then []
    else
      var rest := KeepFeatured(raw[1..]);
      assert raw == [raw[0]] + raw[1..];
      if IsFeatured(raw[0].id) then [raw[0]] + rest else rest
  }

  /** One API record turned into a catalogue entry, defaults filled in. */
  function ToModel(m: ApiModel): (r: Model)
    ensures r.id == m.id && !r.isGemini
    ensures Truthy(m.name) ==> r.name == m.name.value
    ensures !Truthy(m.name) ==> r.name == m.id
    ensures r.name != [] <==> m.id != [] || (m.name.Some? && m.name.value != [])
    ensures Truthy(m.description) ==> r.description == m.description.value
    ensures !Truthy(m.description) ==> r.description == NoDescription
    ensures m.contextLength.Some? ==> r.contextLength == m.contextLength.value
    ensures m.contextLength.None? ==> r.contextLength == 0
    ensures m.pricing.Some? && Truthy(m.pricing.value.prompt) ==> r.pricing.prompt == m.pricing.value.prompt.value
    ensures m.pricing.Some? && Truthy(m.pricing.value.completion) ==> r.pricing.completion == m.pricing.value.completion.value
    ensures m.pricing.None? ==> r.pricing == Pricing("0", "0")
    ensures m.pricing.Some? && !Truthy(m.pricing.value.prompt) ==> r.pricing.prompt == "0"
    ensures m.pricing.Some? && !Truthy(m.pricing.value.completion) ==> r.pricing.completion == "0"
    ensures r.description != [] && r.pricing.prompt != [] && r.pricing.completion != []
    ensures r.provider == FormatProvider(ProviderSlug(m.id)) && r.provider != []
  {
    var pricing := m.pricing.GetOr(ApiPricing(None, None));
    Model(
      m.id,
      OrElse(m.name, m.id),
      OrElse(m.description, NoDescription),
      m.contextLength.GetOr(0),
      Pricing(OrElse(pricing.prompt, "0"), OrElse(pricing.completion, "0")),
      FormatProvider(ProviderSlug(m.id)),
      false)
  }

  function MapModels(raw: seq<ApiModel>): (r: seq<Model>)
    ensures |r| == |raw|
    ensures forall i :: 0 <= i < |raw| ==> r[i] == ToModel(raw[i])
  {
    seq(|raw|, i requires 0 <= i < |raw| => ToModel(raw[i]))
  }

  /** Code-unit lexicographic order, standing for `localeCompare(...) <= 0`. */
  predicate NameLeq(a: string, b: string) {
    a == [] || (b != [] && (a[0] < b[0] || (a[0] == b[0] && NameLeq(a[1..], b[1..]))))
  }

  lemma {:induction false} NameLeqTotal(a: string, b: string)
    ensures NameLeq(a, b) || NameLeq(b, a)
  {
    if a != [] && b != [] && a[0] == b[0] {
      NameLeqTotal(a[1..], b[1..]);
    }
  }

  lemma {:induction false} NameLeqTransitive(a: string, b: string, c: string)
    requires NameLeq(a, b) && NameLeq(b, c)
    ensures NameLeq(a, c)
  {
    if a != [] && a[0] == b[0] && b[0] == c[0] {
      NameLeqTransitive(a[1..], b[1..], c[1..]);
    }
  }

  /** The sort comparator of the catalogue returns a value <= 0: featured
      models first, otherwise by name. */
  predicate Precedes(a: Model, b: Model) {
    (IsFeatured(a.id) && !IsFeatured(b.id))
    || (IsFeatured(a.id) == IsFeatured(b.id) && NameLeq(a.name, b.name))
  }

  lemma PrecedesTotal(a: Model, b: Model)
    ensures Precedes(a, b) || Precedes(b, a)
  {
    NameLeqTotal(a.name, b.name);
  }

  lemma PrecedesTransitive(a: Model, b: Model, c: Model)
    requires Precedes(a, b) && Precedes(b, c)
    ensures Precedes(a, c)
  {
    if IsFeatured(a.id) == IsFeatured(b.id) == IsFeatured(c.id) {
      NameLeqTransitive(a.name, b.name, c.name);
    }
  }

  ghost predicate Sorted(s: seq<Model>) {
    forall i, j :: 0 <= i < j < |s| ==> Precedes(s[i], s[j])
  }

  /** Places `x` before the first element it precedes, so before its ties;
      the sort stays stable because it inserts the earlier elements last. */
  function Insert(x: Model, s: seq<Model>): (r: seq<Model>)
    ensures multiset(r) == multiset(s) + multiset{x}
  {
    if s == [] then [x]
    else if Precedes(x, s[0]) then [x] + s
    else
      assert s == [s[0]] + s[1..];
      [s[0]] + Insert(x, s[1..])
  }

  function SortModels(s: seq<Model>): (r: seq<Model>)
    ensures multiset(r) == multiset(s)
  {
    if s == [] then []
    else
      assert s == [s[0]] + s[1..];
      Insert(s[0], SortModels(s[1..]))
  }

  lemma {:induction false} InsertSorted(x: Model, s: seq<Model>)
    requires Sorted(s)
    ensures Sorted(Insert(x, s))
  {
    if s == [] {
    } else if Precedes(x, s[0]) {
      var r := [x] + s;
      forall i, j | 0 <= i < j < |r| ensures Precedes(r[i], r[j]) {
        if i == 0 && j > 1 {
          PrecedesTransitive(x, s[0], s[j - 1]);
        }
      }
    } else {
      PrecedesTotal(x, s[0]);
      InsertSorted(x, s[1..]);
      var tail := Insert(x, s[1..]);
      var r := [s[0]] + tail;
      forall i, j | 0 <= i < j < |r| ensures Precedes(r[i], r[j]) {
        if i == 0 {
          var y := tail[j - 1];
          assert y in multiset(tail);
          assert y in multiset(s[1..]) + multiset{x};
          if y != x {
            assert y in s[1..];
            var k :| 0 <= k < |s[1..]| && s[1..][k] == y;
            assert s[k + 1] == y;
          }
        }
      }
    }
  }

  lemma {:induction false} SortModelsSorted(s: seq<Model>)
    ensures Sorted(SortModels(s))
  {
    if s != [] {
      SortModelsSorted(s[1..]);
      InsertSorted(s[0], SortModels(s[1..]));
    }
  }

  /** The catalogue a successful fetch yields for the API's model list. */
  function Catalogue(raw: seq<ApiModel>): seq<Model> {
    SortModels(MapModels(KeepFeatured(raw)))
  }

  /** A successful fetch keeps only featured models. */
  lemma CatalogueOnlyFeatured(raw: seq<ApiModel>)
    ensures forall x :: x in Catalogue(raw) ==> IsFeatured(x.id)
  {
    var kept := KeepFeatured(raw);
    var mapped := MapModels(kept);
    forall x | x in Catalogue(raw) ensures IsFeatured(x.id) {
      assert x in multiset(mapped);
      var i :| 0 <= i < |mapped| && mapped[i] == x;
      assert kept[i] in kept;
    }
  }

  /** Every featured record of the reply appears, converted, in the
      catalogue, which is a permutation of the converted featured records. */
  lemma CatalogueComplete(raw: seq<ApiModel>)
    ensures forall m :: m in raw && IsFeatured(m.id) ==> ToModel(m) in Catalogue(raw)
    ensures multiset(Catalogue(raw)) == multiset(MapModels(KeepFeatured(raw)))
  {
    var kept := KeepFeatured(raw);
    var mapped := MapModels(kept);
    forall m | m in raw && IsFeatured(m.id) ensures ToModel(m) in Catalogue(raw) {
      var i :| 0 <= i < |kept| && kept[i] == m;
      assert mapped[i] == ToModel(m);
      assert ToModel(m) in multiset(mapped);
    }
  }

  /** The catalogue is ordered featured-first and then by name; as all its
      models are featured, it is in name order. */
  lemma CatalogueOrdered(raw: seq<ApiModel>)
    ensures Sorted(Catalogue(raw))
    ensures forall i, j :: 0 <= i < j < |Catalogue(raw)| ==> NameLeq(Catalogue(raw)[i].name, Catalogue(raw)[j].name)
  {
    var r := Catalogue(raw);
    SortModelsSorted(MapModels(KeepFeatured(raw)));
    CatalogueOnlyFeatured(raw);
    forall i, j | 0 <= i < j < |r| ensures NameLeq(r[i].name, r[j].name) {
      assert r[i] in r && r[j] in r;
    }
  }

  // ---------------------------------------------------------------------
  // Fallback list

  /** `getFallbackModels`: the three featured models with fixed details. */
  function FallbackModels(): (r: seq<Model>)
    ensures |r| == 3
    ensures (set x | x in r :: x.id) == FeaturedIds
  {
    [
      Model("stepfun/step-3.5-flash:free", "StepFun 3.5 Flash", "Fast free model from StepFun.",
            8192, Pricing("0", "0"), "StepFun", false),
      Model("arcee-ai/trinity-large-preview:free", "Trinity Large Preview", "Free preview model by Arcee AI.",
            8192, Pricing("0", "0"), "Arcee AI", false),
      Model("nvidia/nemotron-3-nano-30b-a3b:free", "Nemotron 3 Nano", "Nvidia lightweight model.",
            8192, Pricing("0", "0"), "Nvidia", false)
    ]
  }

  // ---------------------------------------------------------------------
  // Context-length labels

  const Million: int := 1000000

  /** `(length / 1_000_000).toFixed(1)`, with ties rounded up. */
  function MillionsText(length: nat): string {
    var tenths := (length + 50000) / 100000;
    NatText(tenths / 10) + "." + NatText(tenths % 10)
  }

  /** `formatContextLength`. */
  function FormatContextLength(length: int): (r: string)
    ensures r != []
    ensures length >= Million ==> r[|r| - 1] == 'M'
    ensures 1000 <= length < Million ==> r[|r| - 1] == 'K'
    ensures length < 1000 ==> r == IntText(length)
  {
    if length >= Million then MillionsText(length) + "M"
    else if length >= 1000 then NatText((length + 500) / 1000) + "K"
    else IntText(length)
  }

  /** The 'K' label carries length/1000 rounded half up: the nearest whole
      number of thousands, ties going up. */
  lemma ThousandsLabel(length: int)
    requires 1000 <= length < Million
    ensures exists k: nat ::
      FormatContextLength(length) == NatText(k) + "K"
      && k * 1000 - 500 <= length < k * 1000 + 500
  {
    var k := (length + 500) / 1000;
    assert FormatContextLength(length) == NatText(k) + "K";
  }

  /** A length below 1000 prints as its own digits, which read back as the length. */
  lemma SmallLengthRoundTrip(length: nat)
    requires length < 1000
    ensures AllDigits(FormatContextLength(length))
    ensures ParseNat(FormatContextLength(length)) == length
  {
    NatTextRoundTrip(length);
  }

  // ---------------------------------------------------------------------
  // The cache

  /** What the request to OpenRouter produced. */
  datatype FetchReply =
    | NetworkError
    | HttpError(status: int)
    | InvalidJson
    | Payload(data: Option<seq<ApiModel>>)

  /** The module variables `cachedModels` and `cacheTimestamp`, and
      `fetchOpenRouterModels` reading and writing them. */
  class ModelCache {
    var cachedModels: Option<seq<Model>>
    var cacheTimestamp: int

    constructor ()
      ensures cachedModels == None && cacheTimestamp == 0
    {
      cachedModels := None;
      cacheTimestamp := 0;
    }

    /** A cache is present (an empty list counts) and younger than ten minutes. */
    predicate IsFresh(now: int)
      reads this
    {
      cachedModels.Some? && now - cacheTimestamp < CacheDuration
    }

    /** `fetchOpenRouterModels` at clock value `now`; `reply` is what the
        request would produce if one is made. */
    method FetchModels(now: int, reply: FetchReply) returns (models: seq<Model>)
      modifies this
      ensures old(IsFresh(now)) ==> models == old(cachedModels).value && unchanged(this)
      ensures !old(IsFresh(now)) && reply.Payload? ==>
        models == Catalogue(reply.data.GetOr([]))
        && cachedModels == Some(models) && cacheTimestamp == now
      ensures !old(IsFresh(now)) && !reply.Payload? ==> models == FallbackModels() && unchanged(this)
    {
      if cachedModels.Some? && now - cacheTimestamp < CacheDuration {
        return cachedModels.value;
      }
      match reply {
        case Payload(data) =>
          models := Catalogue(data.GetOr([]));
          cachedModels := Some(models);
          cacheTimestamp := now;
        case _ =>
          models := FallbackModels();
      }
    }
  }

  /** Two calls within ten minutes of a successful fetch return the same
      list, whatever the second reply would have been. */
  method CachedTwice(now: int, later: int, first: FetchReply, second: FetchReply)
    returns (a: seq<Model>, b: seq<Model>)
    requires first.Payload? && now <= later < now + CacheDuration
    ensures a == b
  {
    var cache := new ModelCache();
    a := cache.FetchModels(now, first);
    b := cache.FetchModels(later, second);
  }
}
