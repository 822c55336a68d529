/**
 * The privacy decision `save_scan_result` makes before it stores a scan: whether the content
 * is anonymised, the hash kept in its place, and the preview kept for the user.
 *
 * The SHA-256 digest of the content is an input, `sha256Hex`; the database insert is outside
 * this module.
 */
module ScanStorage {
  import opened Wrappers
  import opened Text

  /** The content-related columns of a `scan_history` row. */
  datatype StoredContent = StoredContent(contentHash: Option<string>, contentPreview: string, isAnonymized: bool)

  /** Scans of these types are always anonymised. */
  const SensitiveTypes: seq<string> := ["message", "url"]

  /** `content[:limit] + "..." if len(content) > limit else content` */
  function Preview(content: string, limit: nat): (p: string)
    ensures |content| <= limit ==> p == content
    ensures |content| > limit ==> p == content[..limit] + "..."
  {
    if |content| > limit then Take(content, limit) + "..." else content
  }

  /**
   * The decision of `save_scan_result`: with privacy mode on, or for a message or URL scan,
   * the content is replaced by its hash and a preview of 50 characters; otherwise no hash is
   * kept and the preview has up to 100 characters.
   */
  function StoreContent(scanType: string, content: string, privacyMode: bool, sha256Hex: string): (r: StoredContent)
    ensures r.isAnonymized <==> privacyMode || scanType in SensitiveTypes
    ensures r.contentHash.Some? <==> r.isAnonymized
    ensures r.contentHash.Some? ==> r.contentHash.value == sha256Hex
  {
    if privacyMode || scanType in SensitiveTypes then
      StoredContent(Some(sha256Hex), Preview(content, 50), true)
    else
      StoredContent(None, Preview(content, 100), false)
  }

  /** The number of characters a preview keeps from the content before any `...`. */
  function Limit(anonymized: bool): nat {
    if anonymized then 50 else 100
  }

  /**
   * A preview starts with the first `min(len, limit)` characters of the content, where the
   * limit is 50 when the content is anonymised and 100 otherwise; it is never longer than the
   * limit plus three. It equals the content exactly when the content fits the limit, or is
   * three characters longer and already ends in `...`.
   */
  lemma PreviewShape(scanType: string, content: string, privacyMode: bool, sha256Hex: string)
    ensures var r := StoreContent(scanType, content, privacyMode, sha256Hex);
      var limit := Limit(r.isAnonymized);
      && |r.contentPreview| <= limit + 3
      && StartsWith(r.contentPreview, Take(content, limit))
      && (r.contentPreview == content <==>
            |content| <= limit || (|content| == limit + 3 && content[limit..] == "..."))
  {
    var r := StoreContent(scanType, content, privacyMode, sha256Hex);
    var limit := Limit(r.isAnonymized);
    var head := Take(content, limit);
    assert r.contentPreview == Preview(content, limit);
    if |content| > limit {
      var p := r.contentPreview;
      assert p[..|head|] == head;
      assert p[limit..] == "...";
      if |content| == limit + 3 && content[limit..] == "..." {
        assert content == content[..limit] + content[limit..];
      }
    }
  }

  /** An anonymised preview never exceeds 53 characters, any other preview never 103. */
  lemma PreviewLength(scanType: string, content: string, privacyMode: bool, sha256Hex: string)
    ensures var r := StoreContent(scanType, content, privacyMode, sha256Hex);
      (r.isAnonymized ==> |r.contentPreview| <= 53) && |r.contentPreview| <= 103
  {
    PreviewShape(scanType, content, privacyMode, sha256Hex);
  }

  /** Without privacy mode, a password of up to 100 characters is stored as its own preview. */
  lemma PasswordKeptWithoutPrivacyMode(password: string, sha256Hex: string)
    requires |password| <= 100
    ensures StoreContent("password", password, false, sha256Hex) == StoredContent(None, password, false)
  {
  }
}
