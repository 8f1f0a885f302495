/**
 * Choosing the language-model API key and base URL from the process environment. The variables
 * are parameters here: `None` is an unset variable.
 */
module Env {
  import opened Common
  import opened Strings

  /** The built-in proxy used when neither URL variable is set. */
  const ManusApiUrl: string := "https://api.manus.im/api/llm-proxy/v1"

  /** Fragments that mark a key as a template value rather than a real key. */
  const Placeholders: seq<string> := ["your-api-key-here", "your-api-key", "sk-xxx", "placeholder"]

  /** Keys shorter than this are treated as placeholders. */
  const MinKeyLength: nat := 20

  /** `process.env.NAME || ""`. */
  function EnvString(v: Option<string>): string
  {
    if v.Some? then v.value else ""
  }

  /** Some fragment of `ps`, lower-cased, occurs in `s`. */
  function IncludesAny(s: string, ps: seq<string>): (r: bool)
    ensures r <==> exists k :: 0 <= k < |ps| && IsSubstring(ToLower(ps[k]), s)
  {
    exists k | 0 <= k < |ps| :: Includes(s, ToLower(ps[k]))
  }

  /** `isPlaceholderKey`: a key that contains a placeholder fragment (ignoring case) or is too short. */
  function IsPlaceholderKey(key: string): bool
  {
    IncludesAny(ToLower(key), Placeholders) || |key| < MinKeyLength
  }

  /** The placeholder fragments are already in lower case. */
  lemma PlaceholdersAreLowerCase()
    ensures forall k :: 0 <= k < |Placeholders| ==> ToLower(Placeholders[k]) == Placeholders[k]
  {
    forall k | 0 <= k < |Placeholders|
      ensures ToLower(Placeholders[k]) == Placeholders[k]
    {
      var p := Placeholders[k];
      forall m | 0 <= m < |p| ensures LowerChar(p[m]) == p[m] {
        assert !('A' <= p[m] <= 'Z');
      }
    }
  }

  /** A key is a placeholder exactly when it is short or its lower-cased form contains a fragment. */
  lemma PlaceholderCharacterization(key: string)
    ensures IsPlaceholderKey(key) <==>
      |key| < MinKeyLength || exists k :: 0 <= k < |Placeholders| && IsSubstring(Placeholders[k], ToLower(key))
  {
    PlaceholdersAreLowerCase();
  }

  /** Any key with fewer than twenty characters is a placeholder. */
  lemma ShortKeyIsPlaceholder(key: string)
    requires |key| < MinKeyLength
    ensures IsPlaceholderKey(key)
  {
  }

  /** Lower-casing twice is the same as lower-casing once. */
  lemma ToLowerIdempotent(s: string)
    ensures ToLower(ToLower(s)) == ToLower(s)
  {
    var t := ToLower(s);
    forall m | 0 <= m < |s| ensures ToLower(t)[m] == t[m] {
      assert LowerChar(LowerChar(s[m])) == LowerChar(s[m]);
    }
  }

  /** The detector ignores letter case: a key and its lower-cased form are judged alike. */
  lemma PlaceholderIgnoresCase(key: string)
    ensures IsPlaceholderKey(ToLower(key)) == IsPlaceholderKey(key)
  {
    ToLowerIdempotent(key);
  }

  /**
   * The first fragment adds nothing to the list: any text containing "your-api-key-here" also
   * contains "your-api-key".
   */
  lemma FirstPlaceholderIsSubsumed(s: string)
    requires IsSubstring(Placeholders[0], s)
    ensures IsSubstring(Placeholders[1], s)
  {
    SliceIsSubstring(Placeholders[0], 0, 12);
    assert Placeholders[0][0..12] == Placeholders[1];
    SubstringTransitive(Placeholders[1], Placeholders[0], s);
  }

  /** The key is usable: set, and not a placeholder. */
  predicate IsUsableKey(key: string)
  {
    key != "" && !IsPlaceholderKey(key)
  }

  /**
   * `getValidApiKey`: BUILT_IN_FORGE_API_KEY when usable, otherwise OPENAI_API_KEY when usable,
   * otherwise the empty string.
   */
  function GetValidApiKey(builtInForgeApiKey: Option<string>, openAiApiKey: Option<string>): (r: string)
    ensures IsUsableKey(EnvString(builtInForgeApiKey)) ==> r == EnvString(builtInForgeApiKey)
    ensures !IsUsableKey(EnvString(builtInForgeApiKey)) && IsUsableKey(EnvString(openAiApiKey)) ==>
      r == EnvString(openAiApiKey)
    ensures !IsUsableKey(EnvString(builtInForgeApiKey)) && !IsUsableKey(EnvString(openAiApiKey)) ==> r == ""
    ensures r == "" || (!IsPlaceholderKey(r) && |r| >= MinKeyLength)
  {
    var builtInKey := EnvString(builtInForgeApiKey);
    var openaiKey := EnvString(openAiApiKey);
    if builtInKey != "" && !IsPlaceholderKey(builtInKey) then builtInKey
    else if openaiKey != "" && !IsPlaceholderKey(openaiKey) then openaiKey
    else ""
  }

  /** The value has a character that `trim` keeps, i.e. `value.trim().length > 0`. */
  predicate HasContent(value: string)
  {
    value != "" && |Trim(value)| > 0
  }

  lemma HasContentMeansNonWhitespace(value: string)
    ensures HasContent(value) <==> exists k :: 0 <= k < |value| && !IsJsWhitespace(value[k])
  {
  }

  /**
   * `getValidApiUrl`: BUILT_IN_FORGE_API_URL if it is not blank, otherwise OPENAI_BASE_URL if it
   * is not blank, otherwise the built-in proxy URL. The chosen variable is returned untrimmed.
   */
  function GetValidApiUrl(builtInForgeApiUrl: Option<string>, openAiBaseUrl: Option<string>): (r: string)
    ensures HasContent(EnvString(builtInForgeApiUrl)) ==> r == EnvString(builtInForgeApiUrl)
    ensures !HasContent(EnvString(builtInForgeApiUrl)) && HasContent(EnvString(openAiBaseUrl)) ==>
      r == EnvString(openAiBaseUrl)
    ensures !HasContent(EnvString(builtInForgeApiUrl)) && !HasContent(EnvString(openAiBaseUrl)) ==>
      r == ManusApiUrl
    ensures exists k :: 0 <= k < |r| && !IsJsWhitespace(r[k])
  {
    var builtInUrl := EnvString(builtInForgeApiUrl);
    var openaiBaseUrl := EnvString(openAiBaseUrl);
    if builtInUrl != "" && |Trim(builtInUrl)| > 0 then builtInUrl
    else if openaiBaseUrl != "" && |Trim(openaiBaseUrl)| > 0 then openaiBaseUrl
    else assert !IsJsWhitespace(ManusApiUrl[0]); ManusApiUrl
  }

  /** The model-API part of the server configuration. */
  datatype ForgeConfig = ForgeConfig(forgeApiUrl: string, forgeApiKey: string)

  /** The part of `ENV` this model covers, built once from the four variables. */
  function LoadForgeConfig(
    builtInForgeApiUrl: Option<string>, openAiBaseUrl: Option<string>,
    builtInForgeApiKey: Option<string>, openAiApiKey: Option<string>): (c: ForgeConfig)
    ensures c.forgeApiKey == "" || IsUsableKey(c.forgeApiKey)
    ensures c.forgeApiUrl != ""
    ensures c.forgeApiUrl == GetValidApiUrl(builtInForgeApiUrl, openAiBaseUrl)
    ensures c.forgeApiKey == GetValidApiKey(builtInForgeApiKey, openAiApiKey)
  {
    ForgeConfig(GetValidApiUrl(builtInForgeApiUrl, openAiBaseUrl), GetValidApiKey(builtInForgeApiKey, openAiApiKey))
  }
}
