/** The API object (`TornadoApi`): credentials per vendor, the lazily filled
    cache of endpoint providers, and the converter that builds a provider for a
    vendor (`EndpointProviderConverter`). */
module Registry {
  import opened Common
  import opened Providers

  /** What the converter builds for a vendor: the provider class, the vendor
      the provider reports as its own, and whether the Groq URL resolver is
      installed on it. */
  datatype ProviderShape = ProviderShape(kind: ProviderKind, tag: LLmProviders, groqResolver: bool)

  /** The converter's switch. The four vendors with a class of their own get it;
      Groq gets an OpenAI-shaped provider tagged Groq with the Groq URL
      resolver; every other value falls back to a plain OpenAI provider, which
      reports OpenAI as its vendor. */
  function ConvertedShape(provider: LLmProviders): (r: ProviderShape)
    ensures r.tag == provider <==> provider in NamedProviders
    ensures !(provider in NamedProviders) ==> r == ProviderShape(OpenAiKind, OpenAi, false)
    ensures r.groqResolver <==> provider == Groq
    ensures r.groqResolver ==> r.kind == OpenAiKind
  {
    match provider
    case OpenAi => ProviderShape(OpenAiKind, OpenAi, false)
    case Anthropic => ProviderShape(AnthropicKind, Anthropic, false)
    case Cohere => ProviderShape(CohereKind, Cohere, false)
    case Google => ProviderShape(GoogleKind, Google, false)
    case Groq => ProviderShape(OpenAiKind, Groq, true)
    case OtherProvider(_) => ProviderShape(OpenAiKind, OpenAi, false)
  }

  /** An endpoint provider: an immutable object bound to the API it was built for. */
  class EndpointProvider {
    const Provider: LLmProviders
    const Kind: ProviderKind
    const Api: TornadoApi
    /** The Groq `UrlResolver` is set. */
    const ResolvesGroqUrls: bool

    constructor (shape: ProviderShape, api: TornadoApi)
      ensures Provider == shape.tag && Kind == shape.kind && ResolvesGroqUrls == shape.groqResolver
      ensures Api == api
    {
      Provider := shape.tag;
      Kind := shape.kind;
      ResolvesGroqUrls := shape.groqResolver;
      Api := api;
    }

    /** The URL for an endpoint plus the caller's suffix. With the Groq resolver
        it is computed from the API's current template and version at call
        time; otherwise the vendor class builds it. */
    function ApiUrl(endpoint: CapabilityEndpoint, url: Option<string>): (r: Result<Url, FormatError>)
      reads Api
      ensures !ResolvesGroqUrls ==> r == Ok(VendorDefault(Kind, Provider, endpoint, url))
      ensures ResolvesGroqUrls && Api.ApiUrlFormat.None? ==>
                r == Ok(Literal("https://api.groq.com/openai/" + Api.ApiVersion + "/" + endpoint.urlFragment + url.GetOr("")))
      ensures ResolvesGroqUrls ==>
                && (r.Ok? <==> GroqUrl(Api.ApiUrlFormat, Api.ApiVersion, endpoint, url).Ok?)
                && (r.Ok? ==> r.value == Literal(GroqUrl(Api.ApiUrlFormat, Api.ApiVersion, endpoint, url).value))
    {
      if ResolvesGroqUrls then
        GroqDefaultUrl(Api.ApiVersion, endpoint, url);
        match GroqUrl(Api.ApiUrlFormat, Api.ApiVersion, endpoint, url)
        case Ok(s) => Ok(Literal(s))
        case Err(e) => Err(e)
      else Ok(VendorDefault(Kind, Provider, endpoint, url))
    }
  }

  /** `EndpointProviderConverter.CreateProvider`. */
  method CreateProvider(provider: LLmProviders, api: TornadoApi) returns (p: EndpointProvider)
    ensures fresh(p)
    ensures p.Api == api && ShapeOf(p) == ConvertedShape(provider)
  {
    p := new EndpointProvider(ConvertedShape(provider), api);
  }

  function ShapeOf(p: EndpointProvider): ProviderShape {
    ProviderShape(p.Kind, p.Provider, p.ResolvesGroqUrls)
  }

  /** The credentials table that `TryAdd`-ing the entries in order leaves behind:
      an entry is dropped when its vendor already has credentials. */
  function FirstWins(keys: seq<ProviderAuthentication>): (m: map<LLmProviders, ProviderAuthentication>)
    ensures forall p | p in m :: m[p].provider == p
  {
    if keys == [] then map[]
    else
      var m := FirstWins(keys[..|keys| - 1]);
      var k := keys[|keys| - 1];
      if k.provider in m then m else m[k.provider := k]
  }

  /** No earlier entry has the same vendor as entry `i`. */
  predicate FirstFor(keys: seq<ProviderAuthentication>, i: int)
    requires 0 <= i < |keys|
  {
    forall j | 0 <= j < i :: keys[j].provider != keys[i].provider
  }

  /** The table has credentials for exactly the vendors that occur in the entries. */
  lemma {:induction false} FirstWinsDomain(keys: seq<ProviderAuthentication>)
    ensures forall p :: p in FirstWins(keys) <==> exists i | 0 <= i < |keys| :: keys[i].provider == p
    decreases |keys|
  {
    if keys != [] {
      var init := keys[..|keys| - 1];
      var last := |keys| - 1;
      FirstWinsDomain(init);
      forall p ensures p in FirstWins(keys) <==> exists i | 0 <= i < |keys| :: keys[i].provider == p {
        if p in FirstWins(init) {
          var i :| 0 <= i < |init| && init[i].provider == p;
          assert keys[i].provider == p;
        }
        if p !in FirstWins(init) && p in FirstWins(keys) {
          assert keys[last].provider == p;
        }
        if i :| 0 <= i < |keys| && keys[i].provider == p {
          if i < last {
            assert init[i].provider == p;
          }
        }
      }
    }
  }

  /** For each vendor the table holds the first entry given for it. */
  lemma {:induction false} FirstWinsKeepsFirst(keys: seq<ProviderAuthentication>)
    ensures forall i | 0 <= i < |keys| && FirstFor(keys, i) ::
              keys[i].provider in FirstWins(keys) && FirstWins(keys)[keys[i].provider] == keys[i]
    decreases |keys|
  {
    if keys != [] {
      var init := keys[..|keys| - 1];
      var last := |keys| - 1;
      FirstWinsKeepsFirst(init);
      forall i | 0 <= i < |keys| && FirstFor(keys, i)
        ensures keys[i].provider in FirstWins(keys) && FirstWins(keys)[keys[i].provider] == keys[i]
      {
        if i < last {
          assert init[i] == keys[i];
          assert FirstFor(init, i);
        } else {
          LaterNotInInit(keys);
        }
      }
    }
  }

  /** A last entry whose vendor is new is not yet in the table built from the
      entries before it. */
  lemma LaterNotInInit(keys: seq<ProviderAuthentication>)
    requires keys != [] && FirstFor(keys, |keys| - 1)
    ensures keys[|keys| - 1].provider !in FirstWins(keys[..|keys| - 1])
  {
    var init := keys[..|keys| - 1];
    FirstWinsDomain(init);
    forall j | 0 <= j < |init| ensures init[j].provider != keys[|keys| - 1].provider {
      assert init[j] == keys[j];
    }
  }

  /** `TornadoApi`. The lazily created capability endpoints other than chat
      are not part of this model. */
  class TornadoApi {
    var Authentications: map<LLmProviders, ProviderAuthentication>
    var EndpointProviders: map<LLmProviders, EndpointProvider>
    /** Base URL template with `{0}` for the version and `{1}` for the endpoint. */
    var ApiUrlFormat: Option<string>
    var ApiVersion: string
    /** `ChatRequestInterceptor` is set; the chat endpoint records its calls. */
    var HasChatRequestInterceptor: bool

    /** Every cached provider was built by the converter for its key and for
        this API. */
    predicate Valid()
      reads this
    {
      forall p | p in EndpointProviders :: EndpointProviders[p].Api == this && ShapeOf(EndpointProviders[p]) == ConvertedShape(p)
    }

    /** A client without credentials (self-hosted models). */
    constructor ()
      ensures Valid()
      ensures Authentications == map[] && EndpointProviders == map[]
      ensures ApiUrlFormat == None && ApiVersion == "v1" && !HasChatRequestInterceptor
    {
      Authentications := map[];
      EndpointProviders := map[];
      ApiUrlFormat := None;
      ApiVersion := "v1";
      HasChatRequestInterceptor := false;
    }

    /** Credentials for one vendor; `TornadoApi(apiKey, provider)` is this with
        no organization. */
    constructor ForProvider(provider: LLmProviders, apiKey: string, organization: Option<string> := None)
      ensures Valid()
      ensures Authentications == map[provider := ProviderAuthentication(provider, Some(apiKey), organization)]
      ensures EndpointProviders == map[]
      ensures ApiUrlFormat == None && ApiVersion == "v1" && !HasChatRequestInterceptor
    {
      Authentications := map[provider := ProviderAuthentication(provider, Some(apiKey), organization)];
      EndpointProviders := map[];
      ApiUrlFormat := None;
      ApiVersion := "v1";
      HasChatRequestInterceptor := false;
    }

    /** An API key and an organization key, by default for OpenAI. */
    constructor WithOrganization(apiKey: string, organizationKey: string, provider: LLmProviders := OpenAi)
      ensures Valid()
      ensures Authentications == map[provider := ProviderAuthentication(provider, Some(apiKey), Some(organizationKey))]
      ensures EndpointProviders == map[]
      ensures ApiUrlFormat == None && ApiVersion == "v1" && !HasChatRequestInterceptor
    {
      Authentications := map[provider := ProviderAuthentication(provider, Some(apiKey), Some(organizationKey))];
      EndpointProviders := map[];
      ApiUrlFormat := None;
      ApiVersion := "v1";
      HasChatRequestInterceptor := false;
    }

    /** Credentials for several vendors, added in order; the first entry for a
        vendor wins. */
    constructor WithKeys(providerKeys: seq<ProviderAuthentication>)
      ensures Valid()
      ensures Authentications == FirstWins(providerKeys)
      ensures EndpointProviders == map[]
      ensures ApiUrlFormat == None && ApiVersion == "v1" && !HasChatRequestInterceptor
    {
      Authentications := map[];
      EndpointProviders := map[];
      ApiUrlFormat := None;
      ApiVersion := "v1";
      HasChatRequestInterceptor := false;
      new;
      for i := 0 to |providerKeys|
        invariant Authentications == FirstWins(providerKeys[..i])
        invariant EndpointProviders == map[] && ApiUrlFormat == None && ApiVersion == "v1" && !HasChatRequestInterceptor
      {
        var key := providerKeys[i];
        assert providerKeys[..i + 1][..i] == providerKeys[..i];
        if key.provider !in Authentications {
          Authentications := Authentications[key.provider := key];
        }
      }
      assert providerKeys[..|providerKeys|] == providerKeys;
    }

    /** The credentials registered for a vendor, or null. */
    function GetProviderAuthentication(provider: LLmProviders): (r: Option<ProviderAuthentication>)
      reads this
      ensures r.Some? <==> provider in Authentications
      ensures r.Some? ==> r.value == Authentications[provider]
    {
      if provider in Authentications then Some(Authentications[provider]) else None
    }

    /** The cached provider for a vendor, created by the converter and cached
        on first use. */
    method GetProvider(provider: LLmProviders) returns (r: EndpointProvider)
      requires Valid()
      modifies this`EndpointProviders
      ensures Valid()
      ensures r.Api == this && ShapeOf(r) == ConvertedShape(provider)
      ensures provider in old(EndpointProviders) ==> r == old(EndpointProviders)[provider] && EndpointProviders == old(EndpointProviders)
      ensures provider !in old(EndpointProviders) ==> fresh(r) && EndpointProviders == old(EndpointProviders)[provider := r]
      ensures provider in EndpointProviders && EndpointProviders[provider] == r
    {
      if provider in EndpointProviders {
        r := EndpointProviders[provider];
      } else {
        r := CreateProvider(provider, this);
        EndpointProviders := EndpointProviders[provider := r];
      }
    }

    /** The provider for the vendor that serves a model. */
    method GetProviderForModel(model: ChatModel) returns (r: EndpointProvider)
      requires Valid()
      modifies this`EndpointProviders
      ensures Valid()
      ensures r.Api == this && ShapeOf(r) == ConvertedShape(model.provider)
      ensures model.provider in old(EndpointProviders) ==> r == old(EndpointProviders)[model.provider] && EndpointProviders == old(EndpointProviders)
      ensures model.provider !in old(EndpointProviders) ==> fresh(r) && EndpointProviders == old(EndpointProviders)[model.provider := r]
    {
      r := GetProvider(model.provider);
    }
  }

  /** The provider cache after a `GetProvider` for `vendor` that returned
      `r`: unchanged, with `r` the cached entry, when the vendor was cached;
      otherwise the old cache with `r` added under the vendor. */
  predicate CachedOrAdded(before: map<LLmProviders, EndpointProvider>, after: map<LLmProviders, EndpointProvider>,
                          vendor: LLmProviders, r: EndpointProvider) {
    if vendor in before then r == before[vendor] && after == before else after == before[vendor := r]
  }

  /** Asking twice for the same vendor yields the same provider object. */
  method GetProviderTwice(api: TornadoApi, provider: LLmProviders) returns (first: EndpointProvider, second: EndpointProvider)
    requires api.Valid()
    modifies api`EndpointProviders
    ensures first == second
    ensures api.EndpointProviders.Keys == old(api.EndpointProviders.Keys) + {provider}
  {
    first := api.GetProvider(provider);
    second := api.GetProvider(provider);
  }
}
