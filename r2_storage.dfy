/**
 * The object-key and URL logic of the Cloudflare R2 storage adapter: prefix
 * normalisation, key building, public URLs, the completeness check on the
 * configuration and which key each operation uses. The transfers themselves
 * are parameters giving whether the remote call succeeded.
 */
module R2Storage {
  import opened Wrappers
  import opened Text

  /** `_normalize_prefix`: blank prefixes vanish; any other ends in exactly one slash. */
  function NormalizePrefix(prefix: string): (r: string)
    ensures r == "" <==> Strip(prefix) == ""
    ensures r != "" ==> EndsWith(r, "/") && !EndsWith(r, "//")
    ensures r != "" ==> NoOuterSpace(r)
  {
    Slash(Strip(prefix))
  }

  /** The trailing slashes of a stripped prefix replaced by exactly one. */
  function Slash(value: string): (r: string)
    ensures r == "" <==> value == ""
    ensures r != "" ==> EndsWith(r, "/") && !EndsWith(r, "//")
    ensures r != "" && NoOuterSpace(value) ==> NoOuterSpace(r)
  {
    if value == "" then ""
    else
      var head := RStripChar(value, '/');
      assert |head| > 0 ==> head[0] == value[0];
      head + "/"
  }

  /** Text ending in exactly one slash loses just that slash to `rstrip('/')`. */
  lemma RStripOneSlash(s: string)
    requires |s| > 0 && s[|s| - 1] == '/' && (|s| == 1 || s[|s| - 2] != '/')
    ensures RStripChar(s, '/') == s[..|s| - 1]
  {
  }

  /** Normalising twice gives what normalising once gives. */
  lemma NormalizePrefixIdempotent(prefix: string)
    ensures NormalizePrefix(NormalizePrefix(prefix)) == NormalizePrefix(prefix)
  {
    var once := NormalizePrefix(prefix);
    if once != "" {
      assert once[|once| - 1] == '/' by { assert EndsWith(once, "/"); }
      assert |once| == 1 || once[|once| - 2] != '/' by {
        if |once| > 1 { assert once[|once| - 2..] != "//"; }
      }
      assert NormalizePrefix(once) == Slash(once) by { StripOfStripped(once); }
      assert Slash(once) == once by {
        RStripOneSlash(once);
        assert once[..|once| - 1] + "/" == once;
      }
    }
  }

  /** `_build_key`: the normalised prefix, when there is one, in front of the file name. */
  function BuildKey(prefix: string, filename: string): (r: string)
    ensures |r| == |prefix| + |filename| && StartsWith(r, prefix) && EndsWith(r, filename)
  {
    if prefix != "" then prefix + filename else filename
  }

  /** Under one prefix, distinct names give distinct keys. */
  lemma BuildKeyInjective(prefix: string, f1: string, f2: string)
    requires BuildKey(prefix, f1) == BuildKey(prefix, f2)
    ensures f1 == f2
  {
    assert f1 == BuildKey(prefix, f1)[|prefix|..];
    assert f2 == BuildKey(prefix, f2)[|prefix|..];
  }

  /** `public_base_url` as `__init__` stores it: trailing slashes removed, an empty value dropped. */
  function PublicBase(publicBaseUrl: Option<string>): (r: Option<string>)
    ensures r.None? <==> publicBaseUrl.None? || publicBaseUrl.value == ""
    ensures r.Some? ==> (|r.value| == 0 || r.value[|r.value| - 1] != '/') && StartsWith(publicBaseUrl.value, r.value)
  {
    if publicBaseUrl.Some? && publicBaseUrl.value != "" then Some(RStripChar(publicBaseUrl.value, '/')) else None
  }

  /** `_build_public_url`: no URL without a (non-empty) base; otherwise base, one slash, key. */
  function BuildPublicUrl(base: Option<string>, objectKey: string): (r: Option<string>)
    ensures r.None? <==> base.None? || base.value == ""
    ensures r.Some? ==> (StartsWith(r.value, base.value + "/") && EndsWith(r.value, objectKey)
      && |r.value| == |base.value| + 1 + |objectKey|)
  {
    if base.None? || base.value == "" then None
    else
      var url := base.value + "/" + objectKey;
      assert url[..|base.value| + 1] == base.value + "/";
      assert url[|url| - |objectKey|..] == objectKey;
      Some(url)
  }

  /** The fields of an `R2Storage`, fixed once `__init__` has run; the boto3 client is not modelled. */
  datatype Storage = Storage(endpoint: string, accessKeyId: string, secretAccessKey: string, bucket: string,
                             prefix: string, publicBaseUrl: Option<string>)

  /** `R2Storage.__init__`. */
  function NewStorage(endpoint: string, accessKeyId: string, secretAccessKey: string, bucket: string,
                      prefix: string, publicBaseUrl: Option<string>): (s: Storage)
    ensures s.endpoint == endpoint && s.accessKeyId == accessKeyId && s.secretAccessKey == secretAccessKey && s.bucket == bucket
    ensures s.prefix == NormalizePrefix(prefix) && s.publicBaseUrl == PublicBase(publicBaseUrl)
  {
    Storage(endpoint, accessKeyId, secretAccessKey, bucket, NormalizePrefix(prefix), PublicBase(publicBaseUrl))
  }

  /**
   * A storage builds public URLs exactly when its configured base URL has a
   * character other than a slash: a base made only of slashes is stored as
   * the empty string, which `_build_public_url` treats as unset.
   */
  lemma PublicUrlIffBase(publicBaseUrl: Option<string>, objectKey: string)
    ensures BuildPublicUrl(PublicBase(publicBaseUrl), objectKey).Some? <==>
      publicBaseUrl.Some? && exists i :: 0 <= i < |publicBaseUrl.value| && publicBaseUrl.value[i] != '/'
  {
    if publicBaseUrl.Some? && publicBaseUrl.value != "" {
      var v := publicBaseUrl.value;
      var h := RStripChar(v, '/');
      if h != "" {
        assert v[|h| - 1] == h[|h| - 1] != '/';
      }
    }
  }

  /** The R2 settings of the configuration; a missing setting is `None`. */
  datatype Config = Config(endpoint: Option<string>, accessKeyId: Option<string>, secretAccessKey: Option<string>,
                           bucket: Option<string>, prefix: Option<string>, publicBaseUrl: Option<string>)

  /** A setting Python treats as true: present and not empty. */
  predicate Set(v: Option<string>) {
    v.Some? && v.value != ""
  }

  /** `from_config`: a storage only when endpoint, both credentials and bucket are all set. */
  function FromConfig(config: Config): (r: Option<Storage>)
    ensures r.Some? <==> Set(config.endpoint) && Set(config.accessKeyId) && Set(config.secretAccessKey) && Set(config.bucket)
    ensures r.Some? ==> (r.value.endpoint == config.endpoint.value && r.value.bucket == config.bucket.value
      && r.value.accessKeyId == config.accessKeyId.value && r.value.secretAccessKey == config.secretAccessKey.value
      && r.value.prefix == NormalizePrefix(config.prefix.GetOr(""))
      && r.value.publicBaseUrl == PublicBase(config.publicBaseUrl))
  {
    if !Set(config.endpoint) then None
    else if !Set(config.accessKeyId) || !Set(config.secretAccessKey) then None
    else if !Set(config.bucket) then None
    else Some(NewStorage(config.endpoint.value, config.accessKeyId.value, config.secretAccessKey.value,
                         config.bucket.value, config.prefix.GetOr(""), config.publicBaseUrl))
  }

  /** `Path(file_path).name`, taken as the text after the last slash. */
  function FileName(filePath: string): (r: string)
    ensures '/' !in r && EndsWith(filePath, r)
  {
    AfterLast(filePath, '/')
  }

  /** The key `upload_file` writes to: a non-empty explicit key as given, else the prefixed file name. */
  function UploadFileKey(s: Storage, filePath: string, key: Option<string>): (r: string)
    ensures Set(key) ==> r == key.value
    ensures !Set(key) ==> StartsWith(r, s.prefix) && EndsWith(r, FileName(filePath))
  {
    if Set(key) then key.value else BuildKey(s.prefix, FileName(filePath))
  }

  /** The key `upload_text`, `download_text` and `exists` use: always the prefixed key. */
  function ObjectKey(s: Storage, key: string): (r: string)
    ensures StartsWith(r, s.prefix) && EndsWith(r, key)
  {
    BuildKey(s.prefix, key)
  }

  /** The same explicit key names different objects for `upload_file` and `upload_text` under a prefix. */
  lemma ExplicitKeysDiffer(s: Storage, filePath: string, key: string)
    requires s.prefix != "" && key != ""
    ensures UploadFileKey(s, filePath, Some(key)) != ObjectKey(s, key)
  {
  }

  /**
   * `upload_file` / `upload_text`: after a successful transfer, the public URL
   * of the key written (if a base is configured); after a failure, `None`.
   */
  function UploadResult(s: Storage, objectKey: string, transferred: bool): (r: Option<string>)
    ensures r.Some? <==> transferred && s.publicBaseUrl.Some? && s.publicBaseUrl.value != ""
    ensures r.Some? ==> EndsWith(r.value, objectKey)
  {
    if transferred then BuildPublicUrl(s.publicBaseUrl, objectKey) else None
  }
}
