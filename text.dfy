/** String operations of ECMAScript that the handlers rely on, and the webhook URL format. */
module Text {
  import opened Wrappers

  /**
   * The code points String.prototype.trim strips (ECMAScript's WhiteSpace and
   * LineTerminator productions): tab, vertical tab, form feed, space, no-break space,
   * zero width no-break space, the space separators of Unicode category Zs, LF, CR,
   * line separator and paragraph separator.
   */
  predicate IsWhitespace(c: char) {
    c == '\t' || c == '\U{000B}' || c == '\U{000C}' || c == ' ' || c == '\U{00A0}'
    || c == '\U{FEFF}' || c == '\U{1680}' || ('\U{2000}' <= c <= '\U{200A}')
    || c == '\U{202F}' || c == '\U{205F}' || c == '\U{3000}'
    || c == '\n' || c == '\r' || c == '\U{2028}' || c == '\U{2029}'
  }

  /** Every character of `s` is whitespace (true of the empty string). */
  predicate AllWhitespace(s: string) {
    forall i :: 0 <= i < |s| ==> IsWhitespace(s[i])
  }

  /** `s` with its leading whitespace removed. */
  function TrimStart(s: string): (r: string)
    ensures |r| <= |s| && r == s[|s| - |r|..]
    ensures forall i :: 0 <= i < |s| - |r| ==> IsWhitespace(s[i])
    ensures r != [] ==> !IsWhitespace(r[0])
  {
    if s != [] && IsWhitespace(s[0]) then TrimStart(s[1..]) else s
  }

  /** `s` with its trailing whitespace removed. */
  function TrimEnd(s: string): (r: string)
    ensures |r| <= |s| && r == s[..|r|]
    ensures forall i :: |r| <= i < |s| ==> IsWhitespace(s[i])
    ensures r != [] ==> !IsWhitespace(r[|r| - 1])
  {
    if s != [] && IsWhitespace(s[|s| - 1]) then TrimEnd(s[..|s| - 1]) else s
  }

  /**
   * String.prototype.trim: the result neither starts nor ends with whitespace;
   * TrimSlice shows it is the slice of `s` left once whitespace is cut from both ends.
   */
  function Trim(s: string): (r: string)
    ensures |r| <= |s|
    ensures r != [] ==> !IsWhitespace(r[0]) && !IsWhitespace(r[|r| - 1])
  {
    TrimEnd(TrimStart(s))
  }

  /** `Trim(s)` is `s` minus a whitespace prefix and a whitespace suffix. */
  lemma TrimSlice(s: string)
    ensures var k := |s| - |TrimStart(s)|; var r := Trim(s);
      k + |r| <= |s| && r == s[k..k + |r|]
      && (forall i :: 0 <= i < k ==> IsWhitespace(s[i]))
      && (forall i :: k + |r| <= i < |s| ==> IsWhitespace(s[i]))
  {
    var t := TrimStart(s);
    var k := |s| - |t|;
    var r := TrimEnd(t);
    SliceOfSuffix(s, k, |r|);
    WhitespaceTailOfSuffix(s, k, |r|);
  }

  /** A prefix of a suffix is a middle slice. */
  lemma SliceOfSuffix(s: string, k: nat, n: nat)
    requires k + n <= |s|
    ensures s[k..][..n] == s[k..k + n]
  {
  }

  /** Whitespace at the end of `s[k..]` is whitespace at the end of `s`. */
  lemma WhitespaceTailOfSuffix(s: string, k: nat, n: nat)
    requires k + n <= |s|
    requires forall i :: n <= i < |s| - k ==> IsWhitespace(s[k..][i])
    ensures forall i :: k + n <= i < |s| ==> IsWhitespace(s[i])
  {
    forall i | k + n <= i < |s| ensures IsWhitespace(s[i]) {
      assert s[i] == s[k..][i - k];
    }
  }

  /** `!s.trim()` in the source: the string is empty once trimmed. */
  predicate IsBlank(s: string) {
    Trim(s) == ""
  }

  /** A string is blank exactly when every character of it is whitespace. */
  lemma BlankIffAllWhitespace(s: string)
    ensures IsBlank(s) <==> AllWhitespace(s)
  {

  }

  /** Trimming a trimmed string changes nothing. */
  lemma TrimIdempotent(s: string)
    ensures Trim(Trim(s)) == Trim(s)
  {
    var r := Trim(s);
    assert TrimStart(r) == r;
    assert TrimEnd(r) == r;
  }

  /** A possibly absent string is truthy in JavaScript when present and non-empty. */
  predicate Truthy(s: Option<string>) {
    s.Some? && s.value != ""
  }

  /** JavaScript's `s || fallback` on a possibly absent string. */
  function OrElse(s: Option<string>, fallback: string): (r: string)
    ensures Truthy(s) ==> r == s.value
    ensures !Truthy(s) ==> r == fallback
    ensures fallback != "" ==> r != ""
  {
    if Truthy(s) then s.value else fallback
  }

  /** The path every webhook URL carries between the base URL and the webhook id. */
  const WebhookPath: string := "/api/webhook/"

  /** The webhook id a URL built on `base` addresses, if it is one. */
  function WebhookIdOf(base: string, url: string): Option<string> {
    var prefix := base + WebhookPath;
    if prefix <= url then Some(url[|prefix|..]) else None
  }

  /** `${base}/api/webhook/${id}`: the URL a webhook with this id is triggered at. */
  function WebhookUrl(base: string, id: string): (url: string)
    ensures base <= url && |url| == |base| + |WebhookPath| + |id|
    ensures WebhookIdOf(base, url) == Some(id)
  {
    base + WebhookPath + id
  }

  /** On one base, distinct webhook ids give distinct URLs. */
  lemma WebhookUrlInjective(base: string, id1: string, id2: string)
    requires WebhookUrl(base, id1) == WebhookUrl(base, id2)
    ensures id1 == id2
  {
    assert WebhookIdOf(base, WebhookUrl(base, id1)) == Some(id1);
  }

  /** Every URL from which an id is read back is the webhook URL of that id. */
  lemma WebhookIdOfSound(base: string, url: string, id: string)
    requires WebhookIdOf(base, url) == Some(id)
    ensures WebhookUrl(base, id) == url
  {
    var prefix := base + WebhookPath;
    assert url == prefix + url[|prefix|..];
  }
}
