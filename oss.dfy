/** Object-storage signing: the directory check and upload key behind a
    browser POST policy, and the signed GET URL for a private object. The
    cryptography (HMAC-SHA1, Base64, URL encoding) is passed in as
    functions; what is modelled is which texts get signed and what the
    results carry. */
module Oss {
  import opened Wrappers
  import opened Strs
  import opened ResultCodes

  const POLICY_EXPIRE_SECONDS: int := 300
  const SIGNED_URL_EXPIRE_SECONDS: int := 3600
  const MAX_DIRECTORY_LENGTH: int := 120
  const MAX_UPLOAD_BYTES: nat := 10485760

  /** The storage settings the service reads (the access-key secret lives
      inside the signing function). */
  datatype OssProperties = OssProperties(bucketName: string, endpoint: string, accessKeyId: string)

  /** `https://<bucket>.<endpoint>`. */
  function Host(props: OssProperties): string {
    "https://" + props.bucketName + "." + props.endpoint
  }

  // ---------------------------------------------------------------------------
  // Directories and keys
  // ---------------------------------------------------------------------------

  /** One character of `[a-zA-Z0-9/_-]`. */
  predicate DirectoryChar(c: char) {
    ('a' <= c <= 'z') || ('A' <= c <= 'Z') || ('0' <= c <= '9') || c == '/' || c == '_' || c == '-'
  }

  /** What a normalised directory must be: 1 to 120 characters of the
      pattern, neither starting nor ending with `/`, and without `..`. */
  predicate ValidDirectory(d: string) {
    && 1 <= |d| <= MAX_DIRECTORY_LENGTH
    && (forall i :: 0 <= i < |d| ==> DirectoryChar(d[i]))
    && !StartsWith(d, "/") && !EndsWith(d, "/") && !Contains(d, "..")
  }

  /** `validateDirectory`: a null or blank directory is refused, otherwise
      the trimmed text is checked (None is the `IllegalArgumentException`). */
  function ValidateDirectory(directory: Option<string>): (r: Option<string>)
    ensures r.Some? ==> directory.Some? && r.value == Trim(directory.value) && ValidDirectory(r.value)
  {
    if directory.None? || IsBlank(directory.value) then None
    else
      var normalized := Trim(directory.value);
      if StartsWith(normalized, "/") || EndsWith(normalized, "/") || Contains(normalized, "..") then None
      else if !(1 <= |normalized| <= MAX_DIRECTORY_LENGTH && forall i :: 0 <= i < |normalized| ==> DirectoryChar(normalized[i])) then None
      else Some(normalized)
  }

  /** The blank check is subsumed by the pattern: a directory is accepted
      exactly when its trimmed text is valid. */
  lemma ValidateDirectorySpec(directory: string)
    ensures ValidateDirectory(Some(directory)).Some? <==> ValidDirectory(Trim(directory))
  {
    var t := Trim(directory);
    if IsBlank(directory) && |t| >= 1 {
      TrimChars(directory);
      assert t[0] in directory;
      var k :| 0 <= k < |directory| && directory[k] == t[0];
      assert IsWhitespace(t[0]) && !DirectoryChar(t[0]);
    }
  }

  /** Validation is idempotent: an accepted directory is accepted as it is. */
  lemma ValidateDirectoryIdempotent(directory: string)
    requires ValidateDirectory(Some(directory)).Some?
    ensures var d := ValidateDirectory(Some(directory)).value;
      ValidateDirectory(Some(d)) == Some(d)
  {
    var d := ValidateDirectory(Some(directory)).value;
    TrimIdempotent(directory);
    ValidateDirectorySpec(d);
  }

  /** The object key of an upload: the directory, `/`, and the UUID without
      its dashes. */
  function UploadKey(dir: string, u: Uuid): string {
    dir + "/" + RemoveDashes(u.Text())
  }

  /** A `/`-free text after a `/` adds no `..` to a directory without one. */
  lemma NoDotsAfterDirectory(dir: string, tail: string)
    requires !Contains(dir, "..") && '.' !in tail
    ensures !Contains(dir + "/" + tail, "..")
  {
    var s := dir + "/" + tail;
    forall i | 0 <= i <= |s| - 2
      ensures !OccursAt(s, "..", i)
    {
      if i + 1 < |dir| {
        assert s[i..i + 2] == dir[i..i + 2];
        assert !OccursAt(dir, "..", i);
      } else if i + 1 == |dir| {
        assert s[i + 1] == '/';
      } else {
        assert s[i + 1] == tail[i - |dir|];
      }
    }
  }

  /** An upload key lies under the policy's `dir/` prefix, ends in 32 hex
      digits, and is itself a key the signed-URL check accepts. */
  lemma UploadKeyShape(dir: string, u: Uuid)
    requires ValidDirectory(dir) && u.Valid()
    ensures var key := UploadKey(dir, u);
      && StartsWith(key, dir + "/")
      && |key| == |dir| + 33 && AllHex(key[|dir| + 1..])
      && !IsBlank(key) && !StartsWith(key, "/") && !Contains(key, "..")
  {
    var key := UploadKey(dir, u);
    var hex := RemoveDashes(u.Text());
    UuidWithoutDashes(u);
    assert key[|dir| + 1..] == hex;
    assert key[..|dir| + 1] == dir + "/";
    forall k | 0 <= k < |hex|
      ensures hex[k] != '.'
    {
      assert IsHexDigit(hex[k]);
    }
    NoDotsAfterDirectory(dir, hex);
    assert key[0] == dir[0];
    NotBlank(key, 0);
  }

  // ---------------------------------------------------------------------------
  // POST policy
  // ---------------------------------------------------------------------------

  /** The policy document: an expiry and two conditions, the size range and
      the key prefix. */
  datatype PostPolicy = PostPolicy(expiration: string, minBytes: nat, maxBytes: nat, keyPrefix: string) {
    /** Its JSON text. */
    function Json(): string {
      "{\"expiration\":\"" + expiration + "\","
      + "\"conditions\":["
      + "[\"content-length-range\"," + NatToString(minBytes) + "," + NatToString(maxBytes) + "],"
      + "[\"starts-with\",\"$key\",\"" + keyPrefix + "\"]"
      + "]}"
    }
  }

  /** What the browser receives: where to post, the encoded policy and its
      signature, the access key id, the key to use and the expiry second. */
  datatype PolicyResult = PolicyResult(host: string, policy: string, signature: string, accessKeyId: string,
                                       key: string, expire: int)

  /** `generatePostPolicy` at second `now`: `expiration` is that time plus
      300 s in ISO-8601 form, `u` the random UUID, `encode` Base64 and
      `sign` the HMAC-SHA1 signature. Every failure is OSS_POLICY_ERROR. */
  function GeneratePostPolicy(props: OssProperties, directory: Option<string>, now: int, expiration: string, u: Uuid,
                              encode: string -> string, sign: string -> string): (r: Result<PolicyResult, BusinessException>)
    ensures r.Err? <==> ValidateDirectory(directory).None?
    ensures r.Err? ==> r.error == Biz(OSS_POLICY_ERROR)
    ensures r.Ok? ==> var dir := ValidateDirectory(directory).value;
      && r.value.key == UploadKey(dir, u)
      && r.value.policy == encode(PolicyOf(dir, expiration).Json())
      && r.value.signature == sign(r.value.policy)
      && r.value.expire == now + POLICY_EXPIRE_SECONDS
      && r.value.host == Host(props) && r.value.accessKeyId == props.accessKeyId
  {
    match ValidateDirectory(directory)
    case None => Err(Biz(OSS_POLICY_ERROR))
    case Some(dir) =>
      var policy := encode(PolicyOf(dir, expiration).Json());
      Ok(PolicyResult(Host(props), policy, sign(policy), props.accessKeyId, UploadKey(dir, u), now + POLICY_EXPIRE_SECONDS))
  }

  /** The policy for a directory: 0 to 10485760 bytes under `dir/`. */
  function PolicyOf(dir: string, expiration: string): PostPolicy {
    PostPolicy(expiration, 0, MAX_UPLOAD_BYTES, dir + "/")
  }

  /** The key handed out satisfies the policy it is signed with, and the
      policy admits 0 to 10485760 bytes. */
  lemma PolicyAdmitsKey(props: OssProperties, directory: Option<string>, now: int, expiration: string, u: Uuid,
                        encode: string -> string, sign: string -> string)
    requires u.Valid()
    ensures var r := GeneratePostPolicy(props, directory, now, expiration, u, encode, sign);
      r.Ok? ==> var p := PolicyOf(ValidateDirectory(directory).value, expiration);
        && StartsWith(r.value.key, p.keyPrefix)
        && p.minBytes == 0 && p.maxBytes == MAX_UPLOAD_BYTES
  {
    if ValidateDirectory(directory).Some? {
      UploadKeyShape(ValidateDirectory(directory).value, u);
    }
  }

  // ---------------------------------------------------------------------------
  // Signed GET URL
  // ---------------------------------------------------------------------------

  /** The text signed for a GET of `key` expiring at second `expires`. */
  function StringToSign(bucket: string, key: string, expires: int): string {
    "GET\n\n\n" + IntToString(expires) + "\n/" + bucket + "/" + key
  }

  /** The signed text pins the object: two keys of one bucket and expiry
      have the same signed text only if they are the same key. */
  lemma StringToSignBindsKey(bucket: string, key1: string, key2: string, expires: int)
    requires StringToSign(bucket, key1, expires) == StringToSign(bucket, key2, expires)
    ensures key1 == key2
  {
    var prefix := "GET\n\n\n" + IntToString(expires) + "\n/" + bucket + "/";
    assert StringToSign(bucket, key1, expires) == prefix + key1;
    assert StringToSign(bucket, key2, expires) == prefix + key2;
    assert key1 == (prefix + key1)[|prefix|..];
    assert key2 == (prefix + key2)[|prefix|..];
  }

  /** `generateSignedUrl` at second `now`; `sign` is the URL-encoded
      HMAC-SHA1 signature. A null or blank key, one starting with `/` and
      one containing `..` give no URL. */
  function GenerateSignedUrl(props: OssProperties, objectKey: Option<string>, now: int, sign: string -> string): (r: Option<string>)
    ensures r.None? <==>
      objectKey.None? || IsBlank(objectKey.value) || StartsWith(objectKey.value, "/") || Contains(objectKey.value, "..")
    ensures r.Some? ==> var expires := now + SIGNED_URL_EXPIRE_SECONDS;
      r.value == Host(props) + "/" + objectKey.value
        + "?OSSAccessKeyId=" + props.accessKeyId
        + "&Expires=" + IntToString(expires)
        + "&Signature=" + sign(StringToSign(props.bucketName, objectKey.value, expires))
  {
    if objectKey.None? || IsBlank(objectKey.value) then None
    else if StartsWith(objectKey.value, "/") || Contains(objectKey.value, "..") then None
    else
      var expires := now + SIGNED_URL_EXPIRE_SECONDS;
      Some(Host(props) + "/" + objectKey.value
        + "?OSSAccessKeyId=" + props.accessKeyId
        + "&Expires=" + IntToString(expires)
        + "&Signature=" + sign(StringToSign(props.bucketName, objectKey.value, expires)))
  }

  /** Every uploaded object can be read back: the key of a policy gets a
      signed URL. */
  lemma UploadedKeyIsSignable(props: OssProperties, directory: Option<string>, now: int, expiration: string, u: Uuid,
                              encode: string -> string, sign: string -> string, later: int)
    requires u.Valid()
    ensures var r := GeneratePostPolicy(props, directory, now, expiration, u, encode, sign);
      r.Ok? ==> GenerateSignedUrl(props, Some(r.value.key), later, sign).Some?
  {
    if ValidateDirectory(directory).Some? {
      UploadKeyShape(ValidateDirectory(directory).value, u);
    }
  }
}
