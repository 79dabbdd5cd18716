/** Where the `index` route saves an upload and names its output: the stem
    before the last `.`, an extension chosen by the conversion type, and
    `os.path.join` on POSIX. */
module Naming {
  import opened Wrappers

  const UPLOAD_FOLDER := "static/uploads"
  const OUTPUT_FOLDER := "static/output"

  /** The conversion types the form may request. */
  datatype Kind = JpgToPng | PngToJpg | ImgToPdf

  /** The value of the form's `type` field that asks for each kind. */
  function FormValue(kind: Kind): string {
    match kind
    case JpgToPng => "jpg_to_png"
    case PngToJpg => "png_to_jpg"
    case ImgToPdf => "img_to_pdf"
  }

  /** The `if`/`elif` chain on `request.form["type"]`: it recognises exactly
      the three form values, and any other value matches no branch. */
  function ParseKind(convertType: string): (kind: Option<Kind>)
    ensures kind.Some? ==> FormValue(kind.value) == convertType
    ensures kind.None? ==> forall k :: FormValue(k) != convertType
  {
    if convertType == "jpg_to_png" then Some(JpgToPng)
    else if convertType == "png_to_jpg" then Some(PngToJpg)
    else if convertType == "img_to_pdf" then Some(ImgToPdf)
    else None
  }

  /** The output's extension: a dot and three letters. */
  function Extension(kind: Kind): (ext: string)
    ensures |ext| == 4 && ext[0] == '.' && '.' !in ext[1..]
  {
    match kind
    case JpgToPng => ".png"
    case PngToJpg => ".jpg"
    case ImgToPdf => ".pdf"
  }

  /** Whether the image is converted to RGB (dropping any alpha channel)
      before it is saved. */
  function ForcesRgb(kind: Kind): bool {
    kind != JpgToPng
  }

  /** Index of the last `.` in `s`, if any. */
  function LastDot(s: string): (r: Option<nat>)
    ensures r.None? ==> forall i :: 0 <= i < |s| ==> s[i] != '.'
    ensures r.Some? ==> r.value < |s| && s[r.value] == '.'
    ensures r.Some? ==> forall i :: r.value < i < |s| ==> s[i] != '.'
  {
    if s == [] then None
    else if s[|s| - 1] == '.' then Some(|s| - 1)
    else LastDot(s[..|s| - 1])
  }

  /** `filename.rsplit(".", 1)[0]`: the name up to its last `.`, or the
      whole name when it has none. */
  function Stem(filename: string): (stem: string)
    ensures stem <= filename
    ensures |stem| == |filename| <==> '.' !in filename
    ensures |stem| < |filename| ==>
      filename[|stem|] == '.' && forall i :: |stem| < i < |filename| ==> filename[i] != '.'
  {
    match LastDot(filename)
    case None => filename
    case Some(i) => filename[..i]
  }

  /** `os.path.join(folder, name)` on POSIX: an absolute `name` discards the
      folder; otherwise a `/` separates the two unless the folder is empty
      or already ends in one. */
  function Join(folder: string, name: string): (path: string)
    ensures |path| >= |name| && path[|path| - |name|..] == name
    ensures |name| > 0 && name[0] == '/' ==> path == name
    ensures !(|name| > 0 && name[0] == '/') ==> folder <= path
    ensures !(|name| > 0 && name[0] == '/') && folder != [] && folder[|folder| - 1] != '/' ==>
      path == folder + "/" + name
    ensures !(|name| > 0 && name[0] == '/') && (folder == [] || folder[|folder| - 1] == '/') ==>
      path == folder + name
  {
    if |name| > 0 && name[0] == '/' then name
    else if folder == [] || folder[|folder| - 1] == '/' then folder + name
    else folder + "/" + name
  }

  /** The output path of the `index` route. It lies in `OUTPUT_FOLDER` and
      is the stem followed by the kind's extension, unless the uploaded
      name is absolute: then the folder is dropped. */
  function OutputPath(filename: string, kind: Kind): (path: string)
    ensures !(|filename| > 0 && filename[0] == '/') ==>
      path == OUTPUT_FOLDER + "/" + Stem(filename) + Extension(kind)
    ensures |filename| > 0 && filename[0] == '/' ==>
      path == Stem(filename) + Extension(kind)
  {
    Join(OUTPUT_FOLDER, Stem(filename) + Extension(kind))
  }

  /** The stem of `base.ext`, for an extension without a dot, is `base`. */
  lemma StemOfDottedName(base: string, ext: string)
    requires '.' !in ext
    ensures Stem(base + "." + ext) == base
  {
    var name := base + "." + ext;
    var stem := Stem(name);
    assert name[|base|] == '.';
    assert |stem| >= |base|;
    assert stem == name[..|base|] == base;
  }

  /** Uploading `base.ext` under a relative name yields
      `OUTPUT_FOLDER/base` with the kind's extension. */
  lemma OutputPathOfDottedName(base: string, ext: string, kind: Kind)
    requires '.' !in ext
    requires !(|base| > 0 && base[0] == '/')
    ensures OutputPath(base + "." + ext, kind) == OUTPUT_FOLDER + "/" + base + Extension(kind)
  {
    StemOfDottedName(base, ext);
    var name := base + "." + ext;
    assert |base| > 0 ==> name[0] == base[0];
    assert |base| == 0 ==> name[0] == '.';
  }

  /** Taking the stem of the output's own name gives back the stem of the
      upload: the extension adds one dot and no other. */
  lemma OutputKeepsStem(filename: string, kind: Kind)
    ensures Stem(Stem(filename) + Extension(kind)) == Stem(filename)
  {
    var ext := Extension(kind);
    assert Stem(filename) + ext == Stem(filename) + "." + ext[1..];
    StemOfDottedName(Stem(filename), ext[1..]);
  }
}
