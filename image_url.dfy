/** Resolution of a product image reference to a displayable URL: absolute
    URLs pass through, server paths get the API base in front, a bare
    24-character hexadecimal id becomes an `/images/` path, a legacy upload
    file name becomes an `/uploads/` path, and nothing at all becomes a
    placeholder picture. The regular expressions are written out as
    predicates on the string. */
module ImageUrl {
  import opened Common
  import opened Catalog

  const PLACEHOLDER: string := "https://" + "via.placeholder.com/500x500?text=No+Image"

  /** `(VITE_API_URL || '').replace(/\/$/, '')`: at most one trailing slash
      is removed. `raw` is the configured value, `""` when it is unset. */
  function ApiBase(raw: string): (base: string)
    ensures |base| <= |raw| && base == raw[..|base|]
    ensures |raw| - 1 <= |base|
    ensures |base| < |raw| <==> EndsWithSlash(raw)
  {
    if raw != [] && raw[|raw| - 1] == '/' then raw[..|raw| - 1] else raw
  }

  predicate EndsWithSlash(s: string)
  {
    s != [] && s[|s| - 1] == '/'
  }

  /** The base still ends in a slash exactly when the configured value ended
      in two. */
  lemma ApiBaseTrailingSlash(raw: string)
    ensures EndsWithSlash(ApiBase(raw)) <==> |raw| >= 2 && raw[|raw| - 2..] == "//"
  {
    if |raw| >= 2 && raw[|raw| - 1] == '/' {
      assert ApiBase(raw)[|raw| - 2] == raw[|raw| - 2];
    }
  }

  /** `prefix(path)`. */
  function Prefix(base: string, path: string): (r: string)
    ensures path == "" ==> r == ""
    ensures path != "" && base != "" ==> r == base + path
    ensures base == "" ==> r == path
  {
    if path == "" then path
    else if base != "" then base + path
    else path
  }

  /** What `resolveImageUrl` may be given: a string, an object, or nothing. */
  datatype ImageInput = Text(s: string) | Record(p: Product) | Nothing

  /** The reference the function works on: the string itself, or for an object
      `image || images[0]`, or `''`. */
  function Reference(input: ImageInput): string
  {
    match input
    case Text(s) => s
    case Record(p) => ItemImage(p)
    case Nothing => ""
  }

  /** `/^https?:\/\//i`. */
  predicate IsAbsolute(u: string)
  {
    StartsWithIgnoringCase(u, "http://") || StartsWithIgnoringCase(u, "https://")
  }

  /** `/^[a-f\d]{24}$/i`: a MongoDB ObjectId. */
  predicate IsObjectId(u: string)
  {
    |u| == 24 && AllHex(u)
  }

  /** Length of the longest prefix of decimal digits. */
  function DigitSpan(s: string): (n: nat)
    ensures n <= |s|
    ensures forall i :: 0 <= i < n ==> IsDigit(s[i])
    ensures n < |s| ==> !IsDigit(s[n])
  {
    if s != [] && IsDigit(s[0]) then 1 + DigitSpan(s[1..]) else 0
  }

  predicate IsAlnum(c: char)
  {
    IsDigit(c) || IsLowerLetter(c) || IsUpper(c)
  }

  /** `/^image-\d{10,}-\d+\.[a-z0-9]+$/i`. A run of digits is always followed
      by its first non-digit, so each `\d` run is the longest one. */
  predicate IsLegacyName(u: string)
  {
    && StartsWithIgnoringCase(u, "image-")
    && var r := u[6..];
       var stamp := DigitSpan(r);
       && stamp >= 10 && stamp < |r| && r[stamp] == '-'
       && var t := r[stamp + 1..];
          var serial := DigitSpan(t);
          && serial >= 1 && serial < |t| && t[serial] == '.'
          && var ext := t[serial + 1..];
             |ext| >= 1 && forall i :: 0 <= i < |ext| ==> IsAlnum(ext[i])
  }

  /** `resolveImageUrl` on the reference `u`, with the API base `base`. */
  function ResolveReference(base: string, u: string): string
  {
    if u == "" then PLACEHOLDER
    else if IsAbsolute(u) then u
    else if StartsWith(u, "/images/") then Prefix(base, u)
    else if StartsWith(u, "/uploads/") then Prefix(base, u)
    else if IsObjectId(u) then "/images/" + u
    else if IsLegacyName(u) then Prefix(base, "/uploads/" + u)
    else u
  }

  /** `resolveImageUrl(input)`. */
  function Resolve(base: string, input: ImageInput): (r: string)
    ensures r != ""
  {
    ResolveReference(base, Reference(input))
  }

  /** A case-insensitive prefix fixes each character up to case. */
  lemma PrefixIgnoringCaseChars(s: string, p: string)
    requires StartsWithIgnoringCase(s, p)
    ensures forall i :: 0 <= i < |p| ==> LowerChar(s[i]) == p[i]
  {
    forall i | 0 <= i < |p| ensures LowerChar(s[i]) == p[i] {
      assert Lower(s[..|p|])[i] == LowerChar(s[..|p|][i]);
    }
  }

  /** A reference not starting with `h` or `H` is not absolute. */
  lemma NotAbsolute(u: string)
    requires u != [] && LowerChar(u[0]) != 'h'
    ensures !IsAbsolute(u)
  {
    if StartsWithIgnoringCase(u, "http://") {
      PrefixIgnoringCaseChars(u, "http://");
    }
    if StartsWithIgnoringCase(u, "https://") {
      PrefixIgnoringCaseChars(u, "https://");
    }
  }

  lemma PlaceholderAbsolute()
    ensures IsAbsolute(PLACEHOLDER)
  {
    assert PLACEHOLDER[..8] == "https://";
    assert Lower("https://") == "https://";
  }

  /** An absolute URL, in any letter case, comes back unchanged; an empty
      reference gives the placeholder, which is itself absolute. */
  lemma AbsoluteUnchanged(base: string, input: ImageInput)
    ensures IsAbsolute(Reference(input)) ==> Resolve(base, input) == Reference(input)
    ensures Reference(input) == "" ==> Resolve(base, input) == PLACEHOLDER && IsAbsolute(PLACEHOLDER)
  {
    PlaceholderAbsolute();
  }

  /** Server paths get the base in front. */
  lemma ServerPathsPrefixed(base: string, u: string)
    requires StartsWith(u, "/images/") || StartsWith(u, "/uploads/")
    ensures ResolveReference(base, u) == base + u
  {
    assert u[0] == '/';
    NotAbsolute(u);
  }

  /** A bare ObjectId becomes an `/images/` path without the base. */
  lemma ObjectIdToImagesPath(base: string, u: string)
    requires IsObjectId(u)
    ensures ResolveReference(base, u) == "/images/" + u
  {
    assert IsHexDigit(u[0]);
    NotAbsolute(u);
  }

  /** A legacy file name starts with `i` and `m`, in either case. */
  lemma LegacyNameStart(u: string)
    requires IsLegacyName(u)
    ensures |u| >= 2 && LowerChar(u[0]) == 'i' && LowerChar(u[1]) == 'm'
  {
    PrefixIgnoringCaseChars(u, "image-");
  }

  /** A reference starting with `i` and `m`, in either case, is caught by none
      of the rules before the legacy one. */
  lemma NoEarlierRule(u: string)
    requires |u| >= 2 && LowerChar(u[0]) == 'i' && LowerChar(u[1]) == 'm'
    ensures u != "" && !IsAbsolute(u) && !IsObjectId(u)
    ensures !StartsWith(u, "/images/") && !StartsWith(u, "/uploads/")
  {
    NotAbsolute(u);
    assert u[0] != '/';
    if |u| >= 8 {
      assert u[..8][0] == u[0];
    }
    if |u| >= 9 {
      assert u[..9][0] == u[0];
    }
    assert !IsHexDigit(u[1]);
  }

  /** A legacy file name becomes an `/uploads/` path with the base. */
  lemma LegacyNameToUploadsPath(base: string, u: string)
    requires IsLegacyName(u)
    ensures ResolveReference(base, u) == base + "/uploads/" + u
  {
    LegacyNameStart(u);
    NoEarlierRule(u);
  }

  /** Paths the function produces start with `/`, so with no API base a second
      resolution returns them unchanged: resolving is idempotent. */
  lemma ResolveIdempotentWithoutBase(input: ImageInput)
    ensures Resolve("", Text(Resolve("", input))) == Resolve("", input)
  {
    var u := Reference(input);
    if u == "" {
      PlaceholderAbsolute();
    } else if IsAbsolute(u) {
    } else if StartsWith(u, "/images/") || StartsWith(u, "/uploads/") {
      ServerPathsPrefixed("", u);
    } else if IsObjectId(u) {
      ObjectIdToImagesPath("", u);
      assert ("/images/" + u)[..8] == "/images/";
      ServerPathsPrefixed("", "/images/" + u);
    } else if IsLegacyName(u) {
      LegacyNameToUploadsPath("", u);
      assert ("/uploads/" + u)[..9] == "/uploads/";
      ServerPathsPrefixed("", "/uploads/" + u);
    }
  }

  /** Any other non-empty reference comes back unchanged. */
  lemma OtherUnchanged(base: string, u: string)
    requires u != "" && !IsAbsolute(u)
    requires !StartsWith(u, "/images/") && !StartsWith(u, "/uploads/")
    requires !IsObjectId(u) && !IsLegacyName(u)
    ensures ResolveReference(base, u) == u
  {
  }

  /** A product photo name that is neither a path nor a legacy upload name,
      such as `photo.jpg`, is used as it is. */
  lemma PlainFileNameUnchanged(base: string)
    ensures ResolveReference(base, "photo.jpg") == "photo.jpg"
  {
    var u := "photo.jpg";
    NotAbsolute(u);
    assert u[0] != '/';
    assert !IsHexDigit(u[1]);
    if IsLegacyName(u) {
      LegacyNameStart(u);
    }
  }

  /** With an API base, a bare ObjectId resolves to a path without the base,
      and resolving that path again puts the base in front: the two steps
      disagree. */
  lemma ObjectIdBaseMismatch(base: string, u: string)
    requires base != "" && IsObjectId(u)
    ensures ResolveReference(base, u) == "/images/" + u
    ensures ResolveReference(base, ResolveReference(base, u)) == base + "/images/" + u
    ensures ResolveReference(base, ResolveReference(base, u)) != ResolveReference(base, u)
  {
    ObjectIdToImagesPath(base, u);
    assert ("/images/" + u)[..8] == "/images/";
    ServerPathsPrefixed(base, "/images/" + u);
    assert |base + "/images/" + u| > |"/images/" + u|;
  }
}
