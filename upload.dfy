/** The upload middleware: the stored-filename builder, the MIME and
    extension filter, the size and count limits read from the environment,
    the mapping of multer errors to responses, cleanup of uploaded files and
    creation of the upload directories. */
module Upload {
  import opened Wrappers
  import opened Strings
  import opened Storage

  newtype byte = x: int | 0 <= x < 256

  // ---------------------------------------------------------------------
  // File names

  /** `path.extname(name)` for a name without '/': from the last '.' to the
      end, unless that dot is the first character or the name is "..". */
  function ExtName(name: string): (e: string)
    ensures e == "" || (e[0] == '.' && 1 <= |e| < |name| && e == name[|name| - |e|..] && '.' !in e[1..])
    ensures '.' !in name ==> e == ""
  {
    var d := LastIndexOf(name, '.');
    if d <= 0 || name == ".." then "" else name[d..]
  }

  /** `path.basename(name, ext)` for a name without '/': `ext` is cut off when
      it is a proper, case-sensitive suffix. */
  function BaseName(name: string, ext: string): (b: string)
    ensures ext == name ==> b == ""
    ensures ext != "" && ext != name && EndsWith(name, ext) ==> b + ext == name
    ensures (ext == "" || !EndsWith(name, ext)) ==> b == name
  {
    if ext == "" || |ext| > |name| then name
    else if ext == name then ""
    else if EndsWith(name, ext) then name[..|name| - |ext|]
    else name
  }

  predicate IsSafeChar(c: char) { IsAsciiAlnum(c) || c == '_' }

  /** `.replace(/[^a-zA-Z0-9]/g, '_')`. Without the `u` flag the pattern
      matches single UTF-16 code units, so a character outside the Basic
      Multilingual Plane becomes two underscores: the result has one
      character per code unit of the input. */
  function Underscored(s: string): (r: string)
    ensures |r| == Utf16Length(s)
    ensures forall i :: 0 <= i < |r| ==> IsSafeChar(r[i])
    ensures (forall i :: 0 <= i < |s| ==> InBmp(s[i])) ==>
      forall i :: 0 <= i < |s| ==> r[i] == (if IsAsciiAlnum(s[i]) then s[i] else '_')
  {
    if s == [] then []
    else (if IsAsciiAlnum(s[0]) then [s[0]] else if InBmp(s[0]) then "_" else "__") + Underscored(s[1..])
  }

  /** An emoji is two code units, so it turns into two underscores. */
  lemma UnderscoredEmoji()
    ensures Underscored("a\U{1F600}") == "a__"
  {
    assert "a\U{1F600}"[1..] == "\U{1F600}";
    assert !InBmp('\U{1F600}');
  }

  /** `.substring(0, n)`, on a string whose characters are single code units
      (it is applied to underscored names only, which are ASCII). */
  function Take(s: string, n: nat): (r: string)
    ensures |r| == if |s| <= n then |s| else n
    ensures r == s[..|r|]
  {
    if |s| <= n then s else s[..n]
  }

  /** The hexadecimal rendering of the random bytes, two lower-case digits per
      byte (backend/middleware/upload.js:37). */
  function Hex(bytes: seq<byte>): (r: string)
    ensures |r| == 2 * |bytes|
    ensures forall i :: 0 <= i < |r| ==> IsHexDigit(r[i]) && r[i] != '-'
  {
    if bytes == [] then []
    else [HexChar(bytes[0] as nat / 16), HexChar(bytes[0] as nat % 16)] + Hex(bytes[1..])
  }

  /** The sanitised base of an original name: at most 20 characters, each a
      letter, a digit or '_'. */
  function SafeBase(originalName: string): (b: string)
    ensures |b| <= 20
    ensures forall i :: 0 <= i < |b| ==> IsSafeChar(b[i])
  {
    Sanitized(BaseName(originalName, Lower(ExtName(originalName))))
  }

  function Sanitized(base: string): (b: string)
    ensures |b| <= 20
    ensures forall i :: 0 <= i < |b| ==> IsSafeChar(b[i])
  {
    var u := Underscored(base);
    var b := Take(u, 20);
    assert forall i :: 0 <= i < |b| ==> b[i] == u[i];
    b
  }

  /** `storage.filename`: `<timestamp>-<12 hex digits>-<base><ext>` from the
      clock, six random bytes and the original name. The stored name splits
      back into the timestamp, the random part, and the sanitised base
      followed by the lower-cased extension. */
  function StoredFilename(timestamp: nat, random: seq<byte>, originalName: string): (r: string)
    ensures |r| == |NatToString(timestamp)| + 1 + |Hex(random)| + 1 + |SafeBase(originalName) + Lower(ExtName(originalName))|
    ensures BeforeFirst(r, '-') == NatToString(timestamp)
    ensures BeforeFirst(r[|NatToString(timestamp)| + 1..], '-') == Hex(random)
    ensures r[|NatToString(timestamp)| + 1 + |Hex(random)| + 1..] == SafeBase(originalName) + Lower(ExtName(originalName))
  {
    var ts, hx, rest := NatToString(timestamp), Hex(random), SafeBase(originalName) + Lower(ExtName(originalName));
    NoDashInParts(timestamp, random);
    DashedParts(ts, hx, rest);
    Dashed(ts, hx, rest)
  }

  function Dashed(a: string, b: string, rest: string): string { a + "-" + b + "-" + rest }

  lemma NoDash(s: string)
    requires forall i :: 0 <= i < |s| ==> s[i] != '-'
    ensures '-' !in s
  {
  }

  lemma NoDashInParts(timestamp: nat, random: seq<byte>)
    ensures '-' !in NatToString(timestamp) && '-' !in Hex(random)
  {
    NoDash(NatToString(timestamp));
    NoDash(Hex(random));
  }

  lemma DashedParts(a: string, b: string, rest: string)
    requires '-' !in a && '-' !in b
    ensures var r := Dashed(a, b, rest);
      BeforeFirst(r, '-') == a && BeforeFirst(r[|a| + 1..], '-') == b && r[|a| + 1 + |b| + 1..] == rest
  {
    var tail := b + ['-'] + rest;
    assert a + "-" + b + "-" + rest == a + ['-'] + tail;
    BeforeFirstConcat(a, '-', tail);
    assert (a + ['-'] + tail)[|a| + 1..] == tail;
    BeforeFirstConcat(b, '-', rest);
    assert tail[|b| + 1..] == rest;
  }

  /** The extension of `b.x` is `.x` when `x` holds no dot. */
  lemma ExtNameOf(b: string, x: string)
    requires b != [] && '.' !in x && b + "." + x != ".."
    ensures ExtName(b + "." + x) == "." + x
  {
    LastIndexOfConcat(b, '.', x);
    assert (b + "." + x)[|b|..] == "." + x;
  }

  lemma {:induction false} LastIndexOfConcat(a: string, c: char, x: string)
    requires c !in x
    ensures LastIndexOf(a + [c] + x, c) == |a|
    decreases |x|
  {
    if x != [] {
      var n := |x| - 1;
      assert (a + [c] + x)[..|a + [c] + x| - 1] == a + [c] + x[..n];
      LastIndexOfConcat(a, c, x[..n]);
    } else {
      assert a + [c] + x == a + [c];
    }
  }

  /** The suffix is compared with the lower-cased extension, so a name whose
      extension has upper-case letters keeps it inside the base:
      "Photo.JPG" gives the base "Photo_JPG" and the extension ".jpg". */
  lemma UpperCaseExtensionKept(b: string, x: string)
    requires b != [] && '.' !in x && b + "." + x != ".." && Lower(x) != x
    ensures Lower(ExtName(b + "." + x)) == "." + Lower(x)
    ensures SafeBase(b + "." + x) == Take(Underscored(b + "." + x), 20)
  {
    ExtNameOf(b, x);
    var name := b + "." + x;
    assert Lower("." + x) == "." + Lower(x);
  }

  /** An extension already in lower case is cut off the base. */
  lemma LowerCaseExtensionCut(b: string, x: string)
    requires b != [] && '.' !in x && b + "." + x != ".." && Lower(x) == x
    ensures SafeBase(b + "." + x) == Take(Underscored(b), 20)
  {
    ExtNameOf(b, x);
    var name := b + "." + x;
    assert Lower("." + x) == "." + x;
    assert name[..|name| - |"." + x|] == b;
  }

  // ---------------------------------------------------------------------
  // fileFilter

  const DefaultTypeList := ["image/jpeg", "image/jpg", "image/png", "image/webp"]
  const DefaultAllowedTypes := "image/jpeg,image/jpg,image/png,image/webp"
  const AllowedExts := [".jpg", ".jpeg", ".png", ".webp"]

  /** The allow-list of MIME types: the `ALLOWED_FILE_TYPES` variable, or the
      default list when it is unset or empty, split at each comma
      (backend/middleware/upload.js:50). */
  function AllowedTypes(env: Option<string>): (ts: seq<string>)
    ensures |ts| >= 1
  {
    Split(if env.Some? && env.value != "" then env.value else DefaultAllowedTypes, ',')
  }

  /** Splitting a comma-joined list of comma-free entries gives the list back. */
  lemma {:induction false} SplitJoin(xs: seq<string>)
    requires xs != []
    requires forall i :: 0 <= i < |xs| ==> ',' !in xs[i]
    ensures Split(Join(xs, ","), ',') == xs
    decreases |xs|
  {
    if |xs| == 1 {
      BeforeFirstWhole(xs[0], ',');
    } else {
      var rest := Join(xs[1..], ",");
      assert Join(xs, ",") == xs[0] + [','] + rest;
      BeforeFirstConcat(xs[0], ',', rest);
      assert (xs[0] + [','] + rest)[|xs[0]| + 1..] == rest;
      SplitJoin(xs[1..]);
    }
  }

  lemma {:induction false} BeforeFirstWhole(s: string, c: char)
    requires c !in s
    ensures BeforeFirst(s, c) == s
  {
    if s != [] { BeforeFirstWhole(s[1..], c); }
  }

  /** The literal default is the four types joined by commas. */
  lemma DefaultTypesJoined()
    ensures Join(DefaultTypeList, ",") == DefaultAllowedTypes
  {
    var xs := DefaultTypeList;
    assert xs[1..][1..][1..] == ["image/webp"];
    assert Join(xs[1..][1..], ",") == "image/png" + "," + "image/webp";
    assert Join(xs[1..], ",") == "image/jpg" + "," + "image/png,image/webp";
  }

  /** With the variable unset the allow-list is jpeg, jpg, png and webp. */
  lemma DefaultTypes()
    ensures AllowedTypes(None) == DefaultTypeList
  {
    DefaultTypesJoined();
    SplitJoin(DefaultTypeList);
  }

  datatype FilterResult = Accepted | Refused(message: string)

  /** `fileFilter`: the lower-cased MIME type is checked first, then the
      lower-cased extension; the first failing check names the error. */
  function FileFilter(env: Option<string>, originalName: string, mimetype: string): (r: FilterResult)
    ensures r.Accepted? <==> Lower(mimetype) in AllowedTypes(env) && Lower(ExtName(originalName)) in AllowedExts
    ensures Lower(mimetype) !in AllowedTypes(env) ==>
      r == Refused("Invalid file type: " + Lower(mimetype) + ". Allowed types: " + Join(AllowedTypes(env), ", "))
    ensures Lower(mimetype) in AllowedTypes(env) && Lower(ExtName(originalName)) !in AllowedExts ==>
      r == Refused("Invalid file extension: " + Lower(ExtName(originalName)) + ". Allowed extensions: " + Join(AllowedExts, ", "))
  {
    var types := AllowedTypes(env);
    var ext := Lower(ExtName(originalName));
    var mime := Lower(mimetype);
    if mime !in types then Refused("Invalid file type: " + mime + ". Allowed types: " + Join(types, ", "))
    else if ext !in AllowedExts then Refused("Invalid file extension: " + ext + ". Allowed extensions: " + Join(AllowedExts, ", "))
    else Accepted
  }

  /** The filter sees only the lower-cased type and extension, so letter
      case in either never changes the outcome. */
  lemma FilterIgnoresCase(env: Option<string>, n1: string, m1: string, n2: string, m2: string)
    requires Lower(m1) == Lower(m2) && Lower(ExtName(n1)) == Lower(ExtName(n2))
    ensures FileFilter(env, n1, m1) == FileFilter(env, n2, m2)
  {
  }

  // ---------------------------------------------------------------------
  // Limits

  const DefaultMaxFileSize := 5242880
  const DefaultMaxFiles := 10

  /** A numeric limit read from the environment: the number the variable
      starts with, or the default when it is unset, starts with no digits, or
      reads as 0 (backend/middleware/upload.js:74-75). */
  function LimitFrom(env: Option<string>, default: int): (n: int)
    ensures env.None? ==> n == default
    ensures n == default || (env.Some? && ParseInt(env.value) == Some(n) && n != 0)
  {
    if env.None? then default
    else match ParseInt(env.value)
      case None => default
      case Some(v) => if v != 0 then v else default
  }

  datatype Limits = Limits(fileSize: int, files: int)

  function UploadLimits(maxFileSize: Option<string>, maxFiles: Option<string>): Limits {
    Limits(LimitFrom(maxFileSize, DefaultMaxFileSize), LimitFrom(maxFiles, DefaultMaxFiles))
  }

  /** Unset variables give 5 MiB per file and ten files; a positive number
      written in decimal is taken as it is. */
  lemma LimitsFromEnvironment(n: nat)
    ensures UploadLimits(None, None) == Limits(5 * 1024 * 1024, 10)
    ensures n > 0 ==> LimitFrom(Some(NatToString(n)), DefaultMaxFileSize) == n
    ensures LimitFrom(Some("0"), DefaultMaxFiles) == DefaultMaxFiles
  {
    ParseIntOfNatToString(n);
    ParseIntOfNatToString(0);
    assert NatToString(0) == "0";
  }

  // ---------------------------------------------------------------------
  // uploadMiddleware.array error mapping

  datatype UploadError =
    | NoError
    | MulterError(code: string, message: string)
    | OtherError(message: string)

  datatype MiddlewareOutcome = Next | Respond(status: int, message: string)

  /** The file count limit of an array upload: the route's own count when it
      is given and non-zero, else the configured limit
      (backend/middleware/upload.js:128). */
  function MaxFiles(maxCount: Option<int>, limits: Limits): int {
    if maxCount.Some? && maxCount.value != 0 then maxCount.value else limits.files
  }

  /** `(bytes / (1024 * 1024)).toFixed(1)`: the size in MiB rounded half up to
      one decimal (the quotient is exact in floating point for sizes below 2^53). */
  function MegabytesOneDecimal(bytes: int): string {
    var m := if bytes < 0 then -bytes else bytes;
    var tenths := (10 * m + 524288) / 1048576;
    (if bytes < 0 then "-" else "") + NatToString(tenths / 10) + "." + [DigitChar(tenths % 10)]
  }

  lemma DefaultSizeText()
    ensures MegabytesOneDecimal(DefaultMaxFileSize) == "5.0"
  {
    assert (10 * 5242880 + 524288) / 1048576 == 50;
  }

  /** The callback of `uploadMiddleware.array`: no error goes on; a size,
      count or field-name multer error gets its own text; any other error
      reports its message; all errors answer 400. */
  function ArrayOutcome(error: UploadError, limits: Limits, maxCount: Option<int>): (o: MiddlewareOutcome)
    ensures o.Next? <==> error.NoError?
    ensures o.Respond? ==> o.status == 400
    ensures error.OtherError? ==> o == Respond(400, error.message)
    ensures error.MulterError? && error.code == "LIMIT_FILE_COUNT" ==>
      o.message == "Too many files. Maximum: " + IntToString(MaxFiles(maxCount, limits)) + " files"
    ensures error.MulterError? && error.code !in {"LIMIT_FILE_SIZE", "LIMIT_FILE_COUNT", "LIMIT_UNEXPECTED_FILE"} ==>
      o == Respond(400, error.message)
  {
    match error
    case NoError => Next
    case OtherError(m) => Respond(400, m)
    case MulterError(code, m) =>
      if code == "LIMIT_FILE_SIZE" then Respond(400, "File too large. Maximum size: " + MegabytesOneDecimal(limits.fileSize) + "MB")
      else if code == "LIMIT_FILE_COUNT" then Respond(400, "Too many files. Maximum: " + IntToString(MaxFiles(maxCount, limits)) + " files")
      else if code == "LIMIT_UNEXPECTED_FILE" then Respond(400, "Unexpected field name for file upload")
      else Respond(400, m)
  }

  /** With the default limits the two limit errors read "5.0MB" and "10 files". */
  lemma DefaultLimitMessages()
    ensures ArrayOutcome(MulterError("LIMIT_FILE_SIZE", ""), UploadLimits(None, None), None)
      == Respond(400, "File too large. Maximum size: 5.0MB")
    ensures ArrayOutcome(MulterError("LIMIT_FILE_COUNT", ""), UploadLimits(None, None), None)
      == Respond(400, "Too many files. Maximum: 10 files")
  {
    DefaultSizeText();
    assert NatToString(10) == "10";
  }

  // ---------------------------------------------------------------------
  // uploadUtils.cleanup

  /** A multer file object as far as cleanup looks at it. */
  datatype FileRef = FileRef(path: Option<string>)

  /** `cleanup`'s argument: nothing, one file object, or an array whose
      entries may be null. */
  datatype CleanupArg = Nothing | Single(file: Option<FileRef>) | Many(files: seq<Option<FileRef>>)

  function Entries(arg: CleanupArg): seq<Option<FileRef>> {
    match arg
    case Nothing => []
    case Single(f) => [f]
    case Many(fs) => fs
  }

  /** Whether a cleanup entry names a file: it is present and carries a non-
      empty path (backend/middleware/upload.js:223-226). */
  predicate HasPath(e: Option<FileRef>) { e.Some? && e.value.path.Some? && e.value.path.value != "" }

  function PathsIn(es: seq<Option<FileRef>>): set<string>
    decreases |es|
  {
    if es == [] then {}
    else PathsIn(es[..|es| - 1]) + (var e := es[|es| - 1]; if HasPath(e) then {e.value.path.value} else {})
  }

  /** `uploadUtils.cleanup`: every listed file that exists is unlinked; an
      unlink that throws is logged and the loop goes on. */
  method Cleanup(db: Store, arg: CleanupArg)
    modifies db`files
    ensures db.files == old(db.files) - (PathsIn(Entries(arg)) - db.locked)
  {
    var es := Entries(arg);
    var i := 0;
    while i < |es|
      invariant 0 <= i <= |es|
      invariant db.files == old(db.files) - (PathsIn(es[..i]) - db.locked)
    {
      assert es[..i + 1][..i] == es[..i];
      var e := es[i];
      if HasPath(e) && e.value.path.value in db.files {
        if e.value.path.value !in db.locked {
          db.files := db.files - {e.value.path.value};
        }
      }
      i := i + 1;
    }
    assert es[..|es|] == es;
  }

  /** A file outside the argument is never touched, and one failing unlink
      does not keep the others. */
  lemma CleanupKeepsOthers(files: set<string>, locked: set<string>, arg: CleanupArg, p: string)
    ensures p !in PathsIn(Entries(arg)) ==> (p in files - (PathsIn(Entries(arg)) - locked) <==> p in files)
    ensures p in PathsIn(Entries(arg)) && p !in locked ==> p !in files - (PathsIn(Entries(arg)) - locked)
  {
  }

  /** An entry is cleaned exactly when it is present and has a path. */
  lemma {:induction false} PathsInMember(es: seq<Option<FileRef>>, p: string)
    ensures p in PathsIn(es) <==> exists i :: 0 <= i < |es| && HasPath(es[i]) && es[i].value.path.value == p
    decreases |es|
  {
    if es != [] {
      var n := |es| - 1;
      PathsInMember(es[..n], p);
      if p in PathsIn(es[..n]) {
        var i :| 0 <= i < n && HasPath(es[..n][i]) && es[..n][i].value.path.value == p;
        assert es[i] == es[..n][i];
      }
      if exists i :: 0 <= i < |es| && HasPath(es[i]) && es[i].value.path.value == p {
        var i :| 0 <= i < |es| && HasPath(es[i]) && es[i].value.path.value == p;
        if i < n { assert es[..n][i] == es[i]; }
      }
    }
  }

  // ---------------------------------------------------------------------
  // Directories

  const UploadDirs := ["./uploads", "./uploads/images", "./uploads/temp", "./uploads/processed"]

  /** The upload directory: the `UPLOAD_DIR` variable when it is set and non-
      empty, else './uploads/images' (backend/middleware/upload.js:30). */
  function Destination(env: Option<string>): string {
    if env.Some? && env.value != "" then env.value else "./uploads/images"
  }

  /** What `mkdirSync(dir, { recursive: true })` creates: the directory and
      every parent named by a '/' inside it. */
  function MkdirChain(dir: string): set<string> {
    {dir} + set i | 0 < i < |dir| && dir[i] == '/' :: dir[..i]
  }

  function MkdirAll(dirs: set<string>, ds: seq<string>): set<string>
    decreases |ds|
  {
    if ds == [] then dirs
    else
      var prev := MkdirAll(dirs, ds[..|ds| - 1]);
      var d := ds[|ds| - 1];
      if d in prev then prev else prev + MkdirChain(d)
  }

  /** `createUploadDirs`: each missing directory is created with its parents. */
  method CreateUploadDirs(db: Store)
    modifies db`dirs
    ensures db.dirs == MkdirAll(old(db.dirs), UploadDirs)
  {
    var ds := UploadDirs;
    var i := 0;
    while i < |ds|
      invariant 0 <= i <= |ds|
      invariant db.dirs == MkdirAll(old(db.dirs), ds[..i])
    {
      assert ds[..i + 1][..i] == ds[..i];
      if ds[i] !in db.dirs {
        db.dirs := db.dirs + MkdirChain(ds[i]);
      }
      i := i + 1;
    }
    assert ds[..|ds|] == ds;
  }

  /** Afterwards every listed directory exists, existing ones are kept, and
      only listed directories and their parents are new. */
  lemma {:induction false} MkdirAllProps(dirs: set<string>, ds: seq<string>)
    ensures dirs <= MkdirAll(dirs, ds)
    ensures forall i :: 0 <= i < |ds| ==> ds[i] in MkdirAll(dirs, ds)
    ensures forall x :: x in MkdirAll(dirs, ds) - dirs ==> exists i :: 0 <= i < |ds| && x in MkdirChain(ds[i])
    decreases |ds|
  {
    if ds != [] {
      var n := |ds| - 1;
      MkdirAllProps(dirs, ds[..n]);
      forall i | 0 <= i < n ensures ds[i] in MkdirAll(dirs, ds) {
        assert ds[..n][i] == ds[i];
      }
      forall x | x in MkdirAll(dirs, ds) - dirs ensures exists i :: 0 <= i < |ds| && x in MkdirChain(ds[i]) {
        if x in MkdirAll(dirs, ds[..n]) {
          assert x in MkdirAll(dirs, ds[..n]) - dirs;
          var i :| 0 <= i < n && x in MkdirChain(ds[..n][i]);
          assert ds[..n][i] == ds[i];
        } else {
          assert x in MkdirChain(ds[n]);
        }
      }
    }
  }
}
