/**
 * `Localization_ApiClient`: localization bundles, language options and
 * message translations under `api/configuration/localization`. Its own
 * logic is the guards that answer without a request, the language
 * defaults, the escaping of message keys, and the mapping of the server's
 * language records to language options.
 */
module LocalizationClient {
  import opened Wrappers
  import opened Results
  import opened ApiClientBase
  import opened QueryStrings
  import Text
  import PercentEncoding
  import Routes

  const BaseEndpoint := "api/configuration/localization"

  /** `LanguageInfo_DTO`, a language as the server describes it. */
  datatype LanguageInfo = LanguageInfo(
    languageCode: Option<string>, languageName: Option<string>, nativeName: Option<string>,
    flagIcon: Option<string>, isDefault: bool)

  /** `WMS_LanguageOption_DTO`, a language as the client offers it. */
  datatype LanguageOption = LanguageOption(
    languageCode: Option<string>, languageName: Option<string>, nativeName: Option<string>,
    flagIcon: Option<string>, isDefault: bool)

  /** An option that carries the five fields of a language record unchanged. */
  predicate Copies(info: LanguageInfo, option: LanguageOption) {
    && option.languageCode == info.languageCode
    && option.languageName == info.languageName
    && option.nativeName == info.nativeName
    && option.flagIcon == info.flagIcon
    && option.isDefault == info.isDefault
  }

  function ToOption(info: LanguageInfo): (option: LanguageOption)
    ensures Copies(info, option)
  {
    LanguageOption(info.languageCode, info.languageName, info.nativeName, info.flagIcon, info.isDefault)
  }

  /**
   * The language `GetBundleAsync` asks for: the given code, or "en" when it
   * is null or white space; never a blank code.
   */
  function BundleLanguage(languageCode: Option<string>): (code: string)
    ensures !Text.IsNullOrWhiteSpace(Some(code))
    ensures Text.IsNullOrWhiteSpace(languageCode) ==> code == "en"
    ensures !Text.IsNullOrWhiteSpace(languageCode) ==> code == languageCode.value
  {
    if Text.IsNullOrWhiteSpace(languageCode) then
      assert !Text.IsWhiteSpace("en"[0]);
      "en"
    else
      languageCode.value
  }

  /** `GetBundleAsync`: a GET of the bundle of `BundleLanguage(languageCode)`. */
  function GetBundle(languageCode: Option<string>): (c: Call<NoBody>)
    ensures c.verb == GET && c.body.None? && c.shape == Single
    ensures c.endpoint == Routes.Child(BaseEndpoint, "bundle/" + BundleLanguage(languageCode))
  {
    GetAsync(Routes.Child(BaseEndpoint, "bundle/" + BundleLanguage(languageCode)))
  }

  /**
   * Defaulting is stable: a null code, a blank code and "en" ask for the
   * same bundle, and asking again for the language a call asked for makes
   * the same call.
   */
  lemma BundleDefaultStable(languageCode: Option<string>, blank: string)
    requires forall i :: 0 <= i < |blank| ==> Text.IsWhiteSpace(blank[i])
    ensures GetBundle(Some(BundleLanguage(languageCode))) == GetBundle(languageCode)
    ensures GetBundle(None) == GetBundle(Some(blank)) == GetBundle(Some("en"))
  {
    assert !Text.IsWhiteSpace("en"[0]);
  }

  /** `GetSupportedLanguagesAsync`: a GET of the codes at `/languages/supported`. */
  function GetSupportedLanguages(): (c: Call<NoBody>)
    ensures c.verb == GET && c.body.None? && c.shape == Single
    ensures c.endpoint == Routes.Child(BaseEndpoint, "languages/supported")
  {
    GetAsync(Routes.Child(BaseEndpoint, "languages/supported"))
  }

  /** `GetCacheStatisticsAsync`: a GET of the statistics at `/cache/statistics`. */
  function GetCacheStatistics(): (c: Call<NoBody>)
    ensures c.verb == GET && c.body.None? && c.shape == Single
    ensures c.endpoint == Routes.Child(BaseEndpoint, "cache/statistics")
  {
    GetAsync(Routes.Child(BaseEndpoint, "cache/statistics"))
  }

  const LanguagesEndpoint := Routes.Child(BaseEndpoint, "languages")
  const DefaultLanguageEndpoint := Routes.Child(BaseEndpoint, "languages/default")

  /**
   * `GetAvailableLanguagesAsync`, given the outcome of its GET at
   * `/languages`: a failure of the executor passed on by code and message;
   * a null list read as no options; otherwise one option per record, in
   * order, carrying the record's five fields.
   */
  function GetAvailableLanguages(outcome: Outcome<seq<LanguageInfo>>): (r: Result<seq<LanguageOption>>)
    ensures var x := ExecuteSingle(LanguagesEndpoint, outcome);
      && (x.Failure? ==> r == Propagate(x))
      && (x.Success? <==> r.Success?)
    ensures outcome.Responded? && IsSuccessStatusCode(outcome.status) && outcome.body.ParsedNull?
      ==> r == Success([])
    ensures outcome.Responded? && IsSuccessStatusCode(outcome.status) && outcome.body.Parsed?
      ==> && r.Success?
          && |r.value| == |outcome.body.value|
          && forall i :: 0 <= i < |r.value| ==> Copies(outcome.body.value[i], r.value[i])
  {
    var result := ExecuteSingle(LanguagesEndpoint, outcome);
    if result.Failure? then Propagate(result)
    else if result.value.None? then Success([])
    else
      var infos := result.value.value;
      Success(seq(|infos|, i requires 0 <= i < |infos| => ToOption(infos[i])))
  }

  /** English, offered as the default when the server configures none; it has no flag icon. */
  const EnglishFallback := LanguageOption(Some("en"), Some("English"), Some("English"), None, true)

  /**
   * `GetDefaultLanguageAsync`, given the outcome of its GET at
   * `/languages/default`: a failure passed on by code and message; English
   * when the server sends null; otherwise the record's five fields.
   */
  function GetDefaultLanguage(outcome: Outcome<LanguageInfo>): (r: Result<LanguageOption>)
    ensures var x := ExecuteSingle(DefaultLanguageEndpoint, outcome);
      && (x.Failure? ==> r == Propagate(x))
      && (x.Success? <==> r.Success?)
    ensures outcome.Responded? && IsSuccessStatusCode(outcome.status) && outcome.body.ParsedNull?
      ==> r == Success(LanguageOption(Some("en"), Some("English"), Some("English"), None, true))
    ensures outcome.Responded? && IsSuccessStatusCode(outcome.status) && outcome.body.Parsed?
      ==> r.Success? && Copies(outcome.body.value, r.value)
  {
    var result := ExecuteSingle(DefaultLanguageEndpoint, outcome);
    if result.Failure? then Propagate(result)
    else if result.value.None? then Success(EnglishFallback)
    else Success(ToOption(result.value.value))
  }

  /** The language `GetMessageAsync` asks for: only a null code becomes "en"; a blank one is kept. */
  function MessageLanguage(languageCode: Option<string>): string {
    if languageCode.None? then "en" else languageCode.value
  }

  const MessageRoute := Routes.Child(BaseEndpoint, "message")

  /**
   * Reading a message endpoint back: the key segment up to the next `/`,
   * and the language after `language/`.
   */
  function ParseMessageEndpoint(endpoint: string): Option<(string, string)> {
    var prefix := MessageRoute + "/";
    var marker := "language/";
    if |prefix| <= |endpoint| && endpoint[..|prefix|] == prefix then
      var (keyText, rest) := Routes.SplitFirst(endpoint[|prefix|..]);
      if rest.Some? && |marker| <= |rest.value| && rest.value[..|marker|] == marker then
        Some((keyText, rest.value[|marker|..]))
      else None
    else None
  }

  /**
   * `GetMessageAsync`: a validation failure, without any request, for a
   * null or blank key; otherwise a GET whose endpoint reads back as the
   * escaped key, which decodes to the key's UTF-8 bytes, and the language
   * (unescaped, "en" only when null).
   */
  function GetMessage(key: Option<string>, languageCode: Option<string>): (s: Step<NoBody, string>)
    ensures s.Answer? <==> Text.IsNullOrWhiteSpace(key)
    ensures s.Answer? ==> s.result == Failure(Positional([CodeArg(ValidationError), TextArg("Message key is required")], None, None))
    ensures s.Send? ==> s.call.verb == GET && s.call.body.None? && s.call.shape == Single
    ensures s.Send? ==>
      var parsed := ParseMessageEndpoint(s.call.endpoint);
      && parsed.Some?
      && PercentEncoding.UnescapeBytes(parsed.value.0) == PercentEncoding.Utf8String(key.value)
      && parsed.value.1 == MessageLanguage(languageCode)
  {
    if Text.IsNullOrWhiteSpace(key) then
      Answer(Failure(Positional([CodeArg(ValidationError), TextArg("Message key is required")], None, None)))
    else
      var escaped := PercentEncoding.Escape(key.value);
      var language := MessageLanguage(languageCode);
      MessageEndpointReadBack(escaped, language);
      PercentEncoding.UnescapeEscape(key.value);
      Send(GetAsync(MessageRoute + "/" + escaped + "/language/" + language))
  }

  lemma MessageEndpointReadBack(escaped: string, language: string)
    requires PercentEncoding.IsEscaped(escaped)
    ensures ParseMessageEndpoint(MessageRoute + "/" + escaped + "/language/" + language) == Some((escaped, language))
  {
    var prefix := MessageRoute + "/";
    var e := MessageRoute + "/" + escaped + "/language/" + language;
    assert e[..|prefix|] == prefix;
    assert e[|prefix|..] == escaped + "/" + ("language/" + language);
    assert '/' !in escaped by {
      forall i | 0 <= i < |escaped| ensures escaped[i] != '/' {
        assert PercentEncoding.IsUnreserved(escaped[i]) || escaped[i] == '%';
      }
    }
    Routes.SplitFirstOf(escaped, Some("language/" + language));
    var rest := "language/" + language;
    assert rest[..|"language/"|] == "language/";
    assert rest[|"language/"|..] == language;
  }

  /** `WMS_TranslateMessages_Request_DTO`. */
  datatype MessagesRequest = MessagesRequest(messageKeys: Option<seq<string>>, languageCode: Option<string>)

  /** `WMS_TranslateMessages_Response_DTO`. */
  datatype MessagesResponse = MessagesResponse(
    languageCode: Option<string>, translations: map<string, string>, missingKeys: seq<string>)

  const MessagesRoute := Routes.Child(BaseEndpoint, "messages")

  /** `keys.Select(Uri.EscapeDataString)`. */
  function EscapeAll(keys: seq<string>): (escaped: seq<string>)
    ensures |escaped| == |keys|
    ensures forall i :: 0 <= i < |keys| ==> escaped[i] == PercentEncoding.Escape(keys[i])
  {
    seq(|keys|, i requires 0 <= i < |keys| => PercentEncoding.Escape(keys[i]))
  }

  /** The query of a batch: the escaped keys joined by `,`, then the language, unescaped. */
  function MessagesQuery(keys: seq<string>, languageCode: Option<string>): string {
    "?keys=" + Text.Join(EscapeAll(keys), ',') + "&lang=" + MessageLanguage(languageCode)
  }

  /**
   * `GetMessagesAsync`: a validation failure, without any request, for a
   * null request; an empty response in the request's language, without any
   * request, for null or no keys; otherwise one GET of the batch query.
   */
  function GetMessages(request: Option<MessagesRequest>): (s: Step<NoBody, MessagesResponse>)
    ensures request.None? <==> s.Answer? && s.result.Failure?
    ensures request.None? ==> s.result == Failure(Positional([CodeArg(ValidationError), TextArg("Request is required")], None, None))
    ensures s.Send? <==> request.Some? && request.value.messageKeys.Some? && |request.value.messageKeys.value| > 0
    ensures request.Some? && !s.Send? ==> s == Answer(Success(MessagesResponse(request.value.languageCode, map[], [])))
    ensures s.Send? ==> s.call.verb == GET && s.call.body.None? && s.call.shape == Single
    ensures s.Send? ==> s.call.endpoint == MessagesRoute + MessagesQuery(request.value.messageKeys.value, request.value.languageCode)
  {
    if request.None? then
      Answer(Failure(Positional([CodeArg(ValidationError), TextArg("Request is required")], None, None)))
    else if request.value.messageKeys.None? || |request.value.messageKeys.value| == 0 then
      Answer(Success(MessagesResponse(request.value.languageCode, map[], [])))
    else
      Send(GetAsync(MessagesRoute + MessagesQuery(request.value.messageKeys.value, request.value.languageCode)))
  }

  /**
   * The batch query reads back as its keys: the `keys` parameter, split on
   * `,`, gives one part per key, in order, each decoding to the key's UTF-8
   * bytes; `lang` gives the language whenever it holds no `&`.
   */
  lemma MessagesQueryReadBack(keys: seq<string>, languageCode: Option<string>)
    requires |keys| > 0
    ensures var k := QueryValue(MessagesQuery(keys, languageCode), "keys");
      && k.Some?
      && var parts := Text.Split(k.value, ',');
      && |parts| == |keys|
      && forall i :: 0 <= i < |keys| ==>
           PercentEncoding.UnescapeBytes(parts[i]) == PercentEncoding.Utf8String(keys[i])
    ensures '&' !in MessageLanguage(languageCode) ==>
      QueryValue(MessagesQuery(keys, languageCode), "lang") == Some(MessageLanguage(languageCode))
  {
    var escaped := EscapeAll(keys);
    var k := Text.Join(escaped, ',');
    var l := MessageLanguage(languageCode);
    JoinedKeys(keys);
    BatchQueryParsed(k, l);
    assert MessagesQuery(keys, languageCode) == "?keys=" + k + "&lang=" + l;
    forall i | 0 <= i < |keys|
      ensures PercentEncoding.UnescapeBytes(escaped[i]) == PercentEncoding.Utf8String(keys[i])
    {
      PercentEncoding.UnescapeEscape(keys[i]);
    }
  }

  /** The escaped keys, joined by `,`, hold no `&` and split back into the escaped keys. */
  lemma JoinedKeys(keys: seq<string>)
    requires |keys| > 0
    ensures '&' !in Text.Join(EscapeAll(keys), ',')
    ensures Text.Split(Text.Join(EscapeAll(keys), ','), ',') == EscapeAll(keys)
  {
    var escaped := EscapeAll(keys);
    forall i | 0 <= i < |escaped| ensures ',' !in escaped[i] && '&' !in escaped[i] {
      PercentEncoding.EscapedLacks(keys[i], ',');
      PercentEncoding.EscapedLacks(keys[i], '&');
    }
    if '&' in Text.Join(escaped, ',') {
      Text.JoinChars(escaped, ',', '&');
    }
    Text.SplitJoin(escaped, ',');
  }

  /** `?keys={k}&lang={l}` parses with `keys` first, and as exactly the two parameters when `l` has no `&`. */
  lemma BatchQueryParsed(k: string, l: string)
    requires '&' !in k
    ensures QueryValue("?keys=" + k + "&lang=" + l, "keys") == Some(k)
    ensures '&' !in l ==> QueryValue("?keys=" + k + "&lang=" + l, "lang") == Some(l)
  {
    var q := "?keys=" + k + "&lang=" + l;
    var first := "keys=" + k;
    assert q[1..] == first + ['&'] + ("lang=" + l);
    Text.SplitAt(first, "lang=" + l, '&');
    ParseRender(Param("keys", k));
    assert Render(Param("keys", k)) == first;
    var ps := ParseQuery(q);
    assert ps[0] == Param("keys", k);
    if '&' !in l {
      Text.SplitWithout("lang=" + l, '&');
      ParseRender(Param("lang", l));
      assert Render(Param("lang", l)) == "lang=" + l;
      assert ps == [Param("keys", k), Param("lang", l)];
      assert ps[1..] == [Param("lang", l)];
      assert "keys" != "lang" by { assert "keys"[0] != "lang"[0]; }
      assert Lookup(ps[1..], "lang") == Some(l);
      assert QueryValue(q, "lang") == Lookup(ps, "lang");
    }
  }
}
