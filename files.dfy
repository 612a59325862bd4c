/** File names and paths of the two upload handlers: the file-name sanitisers, the accepted map
    image names, the extension-to-MIME table of the generic upload, slash trimming and the
    chain of directories created before an upload. */
module Files {
  import opened Js
  import opened Strings

  /** The two sanitising rules: generated maps keep `[a-zA-Z0-9_\-.]`, generic uploads
      keep white space as well. */
  datatype NameRule = MapImage | UploadFile

  predicate Kept(rule: NameRule, c: char) {
    AsciiAlnum(c) || c == '_' || c == '-' || c == '.' || (rule == UploadFile && IsSpace(c))
  }

  /** Number of UTF-16 code units of a character. */
  function Units(c: char): nat {
    if c as int > 0xFFFF then 2 else 1
  }

  /** JavaScript string length: UTF-16 code units. */
  function Utf16Length(s: string): nat {
    if s == [] then 0 else Units(s[0]) + Utf16Length(s[1..])
  }

  lemma {:induction false} Utf16LengthAppend(a: string, b: string)
    ensures Utf16Length(a + b) == Utf16Length(a) + Utf16Length(b)
  {
    if a != [] {
      assert (a + b)[0] == a[0];
      assert (a + b)[1..] == a[1..] + b;
      Utf16LengthAppend(a[1..], b);
    } else {
      assert a + b == b;
    }
  }

  /** What one character becomes. The regular expressions have no `u` flag, so they see
      UTF-16 code units: a character outside the Basic Multilingual Plane is two surrogate
      units, each outside both classes, and becomes two underscores. */
  function Replacement(rule: NameRule, c: char): string {
    if c as int > 0xFFFF then "__" else if Kept(rule, c) then [c] else "_"
  }

  /** `name.replace(/[^...]/g, '_')` */
  function Sanitize(rule: NameRule, s: string): (r: string)
    ensures forall i | 0 <= i < |r| :: Kept(rule, r[i])
  {
    if s == [] then [] else Replacement(rule, s[0]) + Sanitize(rule, s[1..])
  }

  /** Sanitising keeps the JavaScript length of the name. */
  lemma {:induction false} SanitizeLength(rule: NameRule, s: string)
    ensures Utf16Length(Sanitize(rule, s)) == Utf16Length(s)
  {
    if s != [] {
      SanitizeLength(rule, s[1..]);
      Utf16LengthAppend(Replacement(rule, s[0]), Sanitize(rule, s[1..]));
    }
  }

  /** On a name inside the Basic Multilingual Plane the sanitiser works character by character:
      each kept character stays where it is and each other character becomes one underscore. */
  lemma {:induction false} SanitizeReplacesEachChar(rule: NameRule, s: string)
    requires forall i | 0 <= i < |s| :: s[i] as int <= 0xFFFF
    ensures |Sanitize(rule, s)| == |s|
    ensures forall i | 0 <= i < |s| :: Sanitize(rule, s)[i] == (if Kept(rule, s[i]) then s[i] else '_')
  {
    if s != [] {
      var tail := s[1..];
      assert forall i | 0 <= i < |tail| :: tail[i] == s[i + 1];
      SanitizeReplacesEachChar(rule, tail);
      var r := Sanitize(rule, s);
      assert r == Replacement(rule, s[0]) + Sanitize(rule, tail);
      assert |Replacement(rule, s[0])| == 1;
      forall i | 0 <= i < |s|
        ensures r[i] == (if Kept(rule, s[i]) then s[i] else '_')
      {
        if i > 0 {
          assert r[i] == Sanitize(rule, tail)[i - 1];
        }
      }
    }
  }

  /** A character outside the Basic Multilingual Plane becomes two underscores, one per
      surrogate code unit. */
  lemma SanitizeSplitsAstral(rule: NameRule, a: string, c: char, b: string)
    requires c as int > 0xFFFF
    ensures Sanitize(rule, a + [c] + b) == Sanitize(rule, a) + "__" + Sanitize(rule, b)
  {
    var one := Sanitize(rule, [c]);
    assert [c][1..] == [];
    assert one == Replacement(rule, c) + Sanitize(rule, []);
    assert one == "__";
    SanitizeAppend(rule, a, [c]);
    SanitizeAppend(rule, a + [c], b);
  }

  /** A name made only of kept characters is left as it is. */
  lemma {:induction false} SanitizeKeepsCleanNames(rule: NameRule, s: string)
    requires forall i | 0 <= i < |s| :: Kept(rule, s[i])
    ensures Sanitize(rule, s) == s
  {
    if s != [] {
      SanitizeKeepsCleanNames(rule, s[1..]);
      assert Kept(rule, s[0]);
      assert s == [s[0]] + s[1..];
    }
  }

  /** Sanitising twice is sanitising once. */
  lemma SanitizeIdempotent(rule: NameRule, s: string)
    ensures Sanitize(rule, Sanitize(rule, s)) == Sanitize(rule, s)
  {
    SanitizeKeepsCleanNames(rule, Sanitize(rule, s));
  }

  /** The map sanitiser is the upload sanitiser followed by replacing the white space it kept. */
  lemma {:induction false} MapRuleRefinesUploadRule(s: string)
    ensures Sanitize(MapImage, Sanitize(UploadFile, s)) == Sanitize(MapImage, s)
  {
    if s != [] {
      MapRuleRefinesUploadRule(s[1..]);
      var u := Replacement(UploadFile, s[0]);
      var rest := Sanitize(UploadFile, s[1..]);
      assert Sanitize(UploadFile, s) == u + rest;
      SanitizeAppend(MapImage, u, rest);
      ReplacementRefines(s[0]);
      assert Sanitize(MapImage, s) == Replacement(MapImage, s[0]) + Sanitize(MapImage, s[1..]);
    }
  }

  /** One character: the map rule applied to what the upload rule made of it. */
  lemma ReplacementRefines(c: char)
    ensures Sanitize(MapImage, Replacement(UploadFile, c)) == Replacement(MapImage, c)
  {
    var u := Replacement(UploadFile, c);
    if c as int > 0xFFFF {
      assert u == ['_'] + ['_'];
      assert Sanitize(MapImage, ['_']) == "_";
      SanitizeAppend(MapImage, ['_'], ['_']);
    } else if Kept(UploadFile, c) {
      assert Sanitize(MapImage, [c]) == Replacement(MapImage, c) + Sanitize(MapImage, []);
    } else {
      assert Sanitize(MapImage, "_") == "_";
    }
  }

  lemma {:induction false} SanitizeAppend(rule: NameRule, a: string, b: string)
    ensures Sanitize(rule, a + b) == Sanitize(rule, a) + Sanitize(rule, b)
  {
    if a != [] {
      var ab := a + b;
      assert ab[0] == a[0];
      assert ab[1..] == a[1..] + b;
      var head := Replacement(rule, a[0]);
      assert Sanitize(rule, ab) == head + Sanitize(rule, a[1..] + b);
      assert Sanitize(rule, a) == head + Sanitize(rule, a[1..]);
      SanitizeAppend(rule, a[1..], b);
    } else {
      assert a + b == b;
    }
  }

  /** No sanitised name holds a path separator, so it cannot leave its directory. */
  lemma SanitizedHasNoSeparator(rule: NameRule, s: string)
    ensures '/' !in Sanitize(rule, s) && '\\' !in Sanitize(rule, s)
  {
  }

  /** The generated-map handler accepts a sanitised name ending in `.png`, `.jpg` or `.jpeg`,
      compared case-sensitively. */
  predicate AcceptedMapName(safe: string) {
    EndsWith(safe, ".png") || EndsWith(safe, ".jpg") || EndsWith(safe, ".jpeg")
  }

  // ----- Extension and MIME type of a generic upload -----

  /** `safe.split('.').pop()?.toLowerCase() || ''`. `pop` of a split never yields undefined,
      and the empty string is its own default. `toLowerCase` is exact here because the
      sanitised name holds only ASCII and white space, which has no case. */
  function Extension(safe: string): (r: string)
    ensures '.' !in r
  {
    SplitPieces(safe, '.');
    LowerAscii(Last(Split(safe, '.')))
  }

  /** The extension is the lower-cased text after the last dot, or the whole name without one. */
  lemma ExtensionIsSuffix(safe: string)
    ensures var t := Last(Split(safe, '.'));
      Extension(safe) == LowerAscii(t) && EndsWith(safe, t) && '.' !in t
      && ('.' !in safe ==> t == safe)
      && (|t| < |safe| ==> safe[|safe| - |t| - 1] == '.')
  {
    SplitLast(safe, '.');
    if '.' !in safe {
      SplitWithout(safe, '.');
    }
  }

  /** The upload MIME table. */
  const MimeTypes: map<string, string> := map[
    "png" := "image/png", "jpg" := "image/jpeg", "jpeg" := "image/jpeg",
    "webp" := "image/webp", "svg" := "image/svg+xml", "gif" := "image/gif",
    "mp3" := "audio/mpeg", "wav" := "audio/wav", "ogg" := "audio/ogg",
    "flac" := "audio/flac", "m4a" := "audio/mp4", "mp4" := "video/mp4",
    "webm" := "video/webm", "pdf" := "application/pdf"]

  /** The table's keys in declaration order, which is the order `Object.keys` reports. */
  const MimeKeys: seq<string> :=
    ["png", "jpg", "jpeg", "webp", "svg", "gif", "mp3", "wav", "ogg", "flac", "m4a", "mp4", "webm", "pdf"]

  lemma MimeKeysListTable()
    ensures forall k :: k in MimeTypes <==> k in MimeKeys
  {
  }

  /** `Object.keys(mimeTypes).join(', ')` */
  function SupportedList(): string {
    Join(MimeKeys, ", ")
  }

  /** The only properties of `Object.prototype` a lower-cased extension can name
      (the others are spelled with capitals). */
  const InheritedNames: set<string> := {"constructor", "__proto__"}

  /** What `mimeTypes[ext]` yields on the object literal as written. */
  datatype Lookup = Own(mime: string) | Inherited(name: string) | Missing

  function MimeLookupAsWritten(ext: string): Lookup {
    if ext in MimeTypes then Own(MimeTypes[ext])
    else if ext in InheritedNames then Inherited(ext)
    else Missing
  }

  /** `if (!mimeType) throw ...` as written: an inherited property is a truthy object. */
  predicate AcceptedAsWritten(ext: string) {
    !MimeLookupAsWritten(ext).Missing?
  }

  /** The evidently intended lookup: only the fourteen listed extensions. */
  function MimeType(ext: string): Option<string> {
    if ext in MimeTypes then Some(MimeTypes[ext]) else None
  }

  /** The intended lookup accepts exactly the extensions the error message lists. */
  lemma MimeTypeListed(ext: string)
    ensures MimeType(ext).Some? <==> ext in MimeKeys
  {
    MimeKeysListTable();
  }

  lemma ConstructorExtension(stem: string)
    ensures Extension(stem + ".constructor") == "constructor"
  {
    assert stem + ".constructor" == stem + ['.'] + "constructor";
    SplitAfterLastSeparator(stem, "constructor", '.');
    LowerAsciiKeepsLower("constructor");
  }

  /** As written, any file named `<stem>.constructor` passes the MIME check though no such
      extension is listed. */
  lemma InheritedExtensionAccepted(stem: string)
    ensures var e := Extension(stem + ".constructor");
      AcceptedAsWritten(e) && MimeType(e).None?
  {
    ConstructorExtension(stem);
    LookupsDifferOnPrototype("constructor");
  }

  /** The last piece of splitting `a + c + e`, where `e` holds no separator, is `e`. */
  lemma {:induction false} SplitAfterLastSeparator(a: string, e: string, c: char)
    requires c !in e
    ensures Last(Split(a + [c] + e, c)) == e
  {
    var s := a + [c] + e;
    if a == [] {
      assert s == [c] + e;
      assert s[1..] == e;
      SplitWithout(e, c);
    } else {
      assert s[1..] == a[1..] + [c] + e;
      SplitAfterLastSeparator(a[1..], e, c);
      assert c in s[1..];
      SplitLastStep(s, c);
    }
  }

  /** The two lookups agree on every extension that is not an inherited property name. */
  lemma LookupsAgreeOffPrototype(ext: string)
    requires ext !in InheritedNames
    ensures AcceptedAsWritten(ext) <==> MimeType(ext).Some?
    ensures MimeType(ext).Some? ==> MimeLookupAsWritten(ext) == Own(MimeType(ext).value)
  {
  }

  /** The two lookups differ only on the inherited names. */
  lemma LookupsDifferOnPrototype(ext: string)
    requires ext in InheritedNames
    ensures AcceptedAsWritten(ext) && MimeType(ext).None?
  {
  }

  /** The error for an extension outside the table. */
  function UnsupportedMessage(ext: string): string {
    "Unsupported file extension: ." + ext + ". Supported: " + SupportedList()
  }

  // ----- Target directory -----

  function TrimLeadingSlashes(s: string): (r: string)
    ensures EndsWith(s, r) && (r == [] || r[0] != '/')
    ensures forall i | 0 <= i < |s| - |r| :: s[i] == '/'
  {
    if s != [] && s[0] == '/' then TrimLeadingSlashes(s[1..]) else s
  }

  function TrimTrailingSlashes(s: string): (r: string)
    ensures StartsWith(s, r) && (r == [] || r[|r| - 1] != '/')
    ensures forall i | |r| <= i < |s| :: s[i] == '/'
  {
    if s != [] && s[|s| - 1] == '/' then TrimTrailingSlashes(s[..|s| - 1]) else s
  }

  /** `targetPath.replace(/^\/+|\/+$/g, '')` */
  function TrimSlashes(s: string): (r: string)
    ensures r == [] || (r[0] != '/' && r[|r| - 1] != '/')
  {
    var t := TrimLeadingSlashes(s);
    var r := TrimTrailingSlashes(t);
    assert r != [] ==> r[0] == t[0];
    r
  }

  /** `currentPath ? `${currentPath}/${part}` : part` */
  function NextPath(current: string, part: string): string {
    if current != "" then current + "/" + part else part
  }

  /** The directories the upload creates, one per path segment, in order. */
  function DirectoryChain(parts: seq<string>): (r: seq<string>)
    ensures |r| == |parts|
  {
    if parts == [] then []
    else
      var prev := DirectoryChain(parts[..|parts| - 1]);
      prev + [NextPath(if prev == [] then "" else Last(prev), Last(parts))]
  }

  /** The loop of the generic upload that creates each directory of the target path; the
      `createDirectory` calls are the returned paths, issued in order. */
  method CreateDirectories(targetPath: string) returns (created: seq<string>)
    ensures created == DirectoryChain(Split(targetPath, '/'))
  {
    var parts := Split(targetPath, '/');
    var currentPath := "";
    created := [];
    for i := 0 to |parts|
      invariant created == DirectoryChain(parts[..i])
      invariant currentPath == (if i == 0 then "" else Last(created))
    {
      assert parts[..i + 1][..i] == parts[..i];
      currentPath := NextPath(currentPath, parts[i]);
      created := created + [currentPath];
    }
    assert parts[..|parts|] == parts;
  }

  /** When the first segment is not empty (or is the only one), every created directory is the
      slash-joined prefix of the segments up to it. */
  lemma {:induction false} ChainIsPrefixes(parts: seq<string>)
    requires parts != [] ==> (parts[0] != "" || |parts| == 1)
    ensures forall k | 0 <= k < |parts| :: DirectoryChain(parts)[k] == Join(parts[..k + 1], "/")
    decreases |parts|
  {
    if parts != [] {
      var init := parts[..|parts| - 1];
      ChainIsPrefixes(init);
      var prev := DirectoryChain(init);
      var k := |parts| - 1;
      forall j | 0 <= j < k
        ensures DirectoryChain(parts)[j] == Join(parts[..j + 1], "/")
      {
        assert parts[..j + 1] == init[..j + 1];
      }
      if k > 0 {
        JoinSnoc(init, Last(parts));
        assert parts[..k + 1] == init + [Last(parts)];
        assert Last(prev) == Join(init, "/") by {
          assert init[..k] == init;
        }
        JoinNonEmpty(init);
      }
    }
  }

  lemma {:induction false} JoinSnoc(xs: seq<string>, y: string)
    requires xs != []
    ensures Join(xs + [y], "/") == Join(xs, "/") + "/" + y
    decreases |xs|
  {
    if |xs| == 1 {
      assert xs + [y] == [xs[0]] + [y];
    } else {
      assert (xs + [y])[1..] == xs[1..] + [y];
      JoinSnoc(xs[1..], y);
    }
  }

  lemma JoinNonEmpty(xs: seq<string>)
    requires xs != [] && xs[0] != ""
    ensures Join(xs, "/") != ""
  {
  }

  /** After trimming, the last directory created is the upload target itself. */
  lemma ChainEndsAtTarget(raw: string)
    ensures var target := TrimSlashes(raw);
      var chain := DirectoryChain(Split(target, '/'));
      Last(chain) == target
      && forall k | 0 <= k < |chain| :: StartsWith(target, chain[k])
  {
    var target := TrimSlashes(raw);
    var parts := Split(target, '/');
    SplitHead(target, '/');
    ChainIsPrefixes(parts);
    JoinSplit(target, '/');
    assert parts[..|parts|] == parts;
    forall k | 0 <= k < |parts|
      ensures StartsWith(target, DirectoryChain(parts)[k])
    {
      JoinPrefix(parts, k + 1);
    }
  }

  lemma {:induction false} JoinPrefix(parts: seq<string>, n: nat)
    requires 0 < n <= |parts|
    ensures StartsWith(Join(parts, "/"), Join(parts[..n], "/"))
    decreases |parts|
  {
    if n < |parts| {
      var init := parts[..|parts| - 1];
      JoinPrefix(init, n);
      JoinSnoc(init, Last(parts));
      assert init + [Last(parts)] == parts;
      assert init[..n] == parts[..n];
      var whole := Join(init, "/");
      var p := Join(parts[..n], "/");
      assert Join(parts, "/") == whole + "/" + Last(parts);
      assert (whole + "/" + Last(parts))[..|p|] == whole[..|p|];
    } else {
      assert parts[..n] == parts;
    }
  }
}
