/** Vendors, models, endpoints and URLs: the identifiers that the provider
    registry, the transport and the chat request are keyed by. */
module Providers {
  import opened Common

  /** The vendor enumeration `LLmProviders`. Its declaration is not part of this
      model: the members below are the ones the modelled code names, and
      `OtherProvider` stands for every other value of the enumeration. */
  datatype LLmProviders = OpenAi | Anthropic | Cohere | Google | Groq | OtherProvider(code: int)

  /** The members that enumerating `LLmProviders` visits. */
  const NamedProviders: seq<LLmProviders> := [OpenAi, Anthropic, Cohere, Google, Groq]

  /** The concrete endpoint-provider classes a vendor can be served by. */
  datatype ProviderKind = OpenAiKind | AnthropicKind | CohereKind | GoogleKind

  /** A chat model: its API name and the vendor that serves it. */
  datatype ChatModel = ChatModel(name: string, provider: LLmProviders)

  /** The library-wide fallback model, GPT-3.5 Turbo, served by OpenAI. */
  const Gpt35Turbo: ChatModel := ChatModel("gpt-3.5-turbo", OpenAi)

  /** A capability endpoint with the path fragment the OpenAI-shaped providers
      put into the URL for it. */
  datatype CapabilityEndpoint = CapabilityEndpoint(name: string, urlFragment: string)

  /** The chat endpoint (`CapabilityEndpoints.Chat`). */
  const ChatCapability: CapabilityEndpoint := CapabilityEndpoint("Chat", "chat/completions")

  /** A request URL: either text fixed by the caller or by a resolver of this
      model, or the URL that a vendor's own provider class builds (that class is
      not part of this model, so the URL is kept symbolic). */
  datatype Url =
    | Literal(text: string)
    | VendorDefault(kind: ProviderKind, provider: LLmProviders, endpoint: CapabilityEndpoint, suffix: Option<string>)

  /** The credentials registered for one vendor. */
  datatype ProviderAuthentication = ProviderAuthentication(provider: LLmProviders, apiKey: Option<string>, organization: Option<string>)

  /** `string.Format` threw `FormatException`. */
  datatype FormatError = FormatError

  predicate IsDigit(c: char) { '0' <= c <= '9' }

  /** .NET composite formatting restricted to what a URL template uses: `{d}`
      for a single-digit argument index, `{{` and `}}` for literal braces. Any
      other brace, or an index with no argument, is a `FormatException`. */
  function Format(template: string, args: seq<string>): (r: Result<string, FormatError>)
    decreases |template|
  {
    if template == [] then Ok([])
    else if template[0] == '{' then
      if |template| >= 2 && template[1] == '{' then Prepend("{", Format(template[2..], args))
      else if |template| >= 3 && IsDigit(template[1]) && template[2] == '}'
              && (template[1] as int - '0' as int) < |args| then
        Prepend(args[template[1] as int - '0' as int], Format(template[3..], args))
      else Err(FormatError)
    else if template[0] == '}' then
      if |template| >= 2 && template[1] == '}' then Prepend("}", Format(template[2..], args))
      else Err(FormatError)
    else Prepend([template[0]], Format(template[1..], args))
  }

  function Prepend(prefix: string, r: Result<string, FormatError>): Result<string, FormatError> {
    match r
    case Ok(s) => Ok(prefix + s)
    case Err(e) => Err(e)
  }

  /** Text without braces is copied verbatim by `Format`. */
  lemma {:induction false} FormatCopiesLiteral(lit: string, rest: string, args: seq<string>)
    requires '{' !in lit && '}' !in lit
    ensures Format(lit + rest, args) == Prepend(lit, Format(rest, args))
    decreases |lit|
  {
    if lit == [] {
      assert lit + rest == rest;
      match Format(rest, args) {
        case Ok(s) => assert [] + s == s;
        case Err(_) =>
      }
    } else {
      assert (lit + rest)[1..] == lit[1..] + rest;
      FormatCopiesLiteral(lit[1..], rest, args);
      match Format(rest, args) {
        case Ok(s) => assert [lit[0]] + (lit[1..] + s) == lit + s;
        case Err(_) =>
      }
    }
  }

  /** A placeholder is replaced by its argument, verbatim. */
  lemma FormatSubstitutes(digit: char, rest: string, args: seq<string>)
    requires IsDigit(digit) && (digit as int - '0' as int) < |args|
    ensures Format(['{', digit, '}'] + rest, args) == Prepend(args[digit as int - '0' as int], Format(rest, args))
  {
    var t := ['{', digit, '}'] + rest;
    assert t[3..] == rest;
  }

  /** The URL template used for Groq when `TornadoApi.ApiUrlFormat` is null. */
  const GroqDefaultTemplate: string := "https://api.groq.com/openai/{0}/{1}"

  /** The URL resolver that the provider converter installs for Groq: the
      template (the api's own, else the Groq default) formatted with the API
      version as `{0}` and the endpoint fragment as `{1}`, then the caller's URL
      suffix appended (a null suffix interpolates as nothing). */
  function GroqUrl(apiUrlFormat: Option<string>, apiVersion: string, endpoint: CapabilityEndpoint, url: Option<string>): (r: Result<string, FormatError>)
  {
    match Format(apiUrlFormat.GetOr(GroqDefaultTemplate), [apiVersion, endpoint.urlFragment])
    case Ok(s) => Ok(s + url.GetOr(""))
    case Err(e) => Err(e)
  }

  /** With no custom template the Groq URL is the Groq OpenAI-compatible base,
      the version, the endpoint fragment and the suffix, whatever characters
      (braces included) the version and the fragment contain. */
  lemma GroqDefaultUrl(apiVersion: string, endpoint: CapabilityEndpoint, url: Option<string>)
    ensures GroqUrl(None, apiVersion, endpoint, url)
         == Ok("https://api.groq.com/openai/" + apiVersion + "/" + endpoint.urlFragment + url.GetOr(""))
  {
    DefaultTemplateFormat(GroqDefaultTemplate, [apiVersion, endpoint.urlFragment]);
    ConcatRegroup("https://api.groq.com/openai/", apiVersion, endpoint.urlFragment, url.GetOr(""));
  }

  lemma ConcatRegroup(base: string, v: string, f: string, u: string)
    ensures (base + (v + "/" + f)) + u == base + v + "/" + f + u
  {
  }

  lemma DefaultTemplateFormat(t: string, args: seq<string>)
    requires t == GroqDefaultTemplate && |args| == 2
    ensures Format(t, args) == Ok("https://api.groq.com/openai/" + (args[0] + "/" + args[1]))
  {
    var base := "https://api.groq.com/openai/";
    var tail := ['{', '0', '}'] + ("/" + ['{', '1', '}']);
    assert t == base + tail;
    VersionSlashFragment(args);
    FormatCopiesLiteral(base, tail, args);
  }

  /** The variable part of the Groq template: `{0}/{1}`. */
  lemma VersionSlashFragment(args: seq<string>)
    requires |args| == 2
    ensures Format(['{', '0', '}'] + ("/" + ['{', '1', '}']), args) == Ok(args[0] + "/" + args[1])
  {
    var last := ['{', '1', '}'];
    assert last == last + [];
    FormatSubstitutes('1', [], args);
    assert Format([], args) == Ok([]);
    assert args[1] + [] == args[1];
    assert Format(last, args) == Ok(args[1]);
    FormatCopiesLiteral("/", last, args);
    assert Format("/" + last, args) == Ok("/" + args[1]);
    FormatSubstitutes('0', "/" + last, args);
    assert args[0] + ("/" + args[1]) == args[0] + "/" + args[1];
  }

  /** A template that formats on its own formats the same way in front of
      any continuation. */
  lemma {:induction false} FormatConcat(first: string, rest: string, args: seq<string>)
    requires Format(first, args).Ok?
    ensures Format(first + rest, args) == Prepend(Format(first, args).value, Format(rest, args))
    decreases |first|
  {
    var t := first + rest;
    if first == [] {
      assert t == rest;
      match Format(rest, args) {
        case Ok(s) => assert [] + s == s;
        case Err(_) =>
      }
    } else {
      var n := if first[0] != '{' && first[0] != '}' then 1 else if first[1] == first[0] then 2 else 3;
      assert t[..n] == first[..n] && t[n..] == first[n..] + rest;
      FormatConcat(first[n..], rest, args);
      match Format(rest, args) {
        case Ok(s) =>
          var head := if n == 1 then [first[0]] else if n == 2 then [first[0]] else args[first[1] as int - '0' as int];
          assert head + (Format(first[n..], args).value + s) == (head + Format(first[n..], args).value) + s;
        case Err(_) =>
      }
    }
  }

  /** A custom template that formats cleanly up to a placeholder beyond the
      two arguments (`{2}` to `{9}`) makes the Groq resolver throw instead of
      producing a URL, whatever follows. */
  lemma GroqTemplateOutOfRange(prefix: string, digit: char, rest: string, apiVersion: string, endpoint: CapabilityEndpoint, url: Option<string>)
    requires Format(prefix, [apiVersion, endpoint.urlFragment]).Ok?
    requires '2' <= digit <= '9'
    ensures GroqUrl(Some(prefix + ['{', digit, '}'] + rest), apiVersion, endpoint, url).Err?
  {
    var args := [apiVersion, endpoint.urlFragment];
    assert prefix + ['{', digit, '}'] + rest == prefix + (['{', digit, '}'] + rest);
    FormatConcat(prefix, ['{', digit, '}'] + rest, args);
  }
}
