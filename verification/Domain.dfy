/** Result and option types shared by the other modules. */
module Wrappers {
  datatype Option<+T> = None | Some(value: T)

  datatype Result<+T, +E> = Success(value: T) | Failure(error: E)
}

/** The job record and the transformation it asks for. */
module Domain {
  import opened Wrappers

  // A status may be any string. The four known names have a
  // constructor of their own and every other string is an OtherStatus, so each
  // string has exactly one representation.
  datatype Status = Pending | Processing | Done | Failed | OtherStatus(text: string)

  const STATUS_NAMES: seq<string> := ["pending", "processing", "done", "failed"]

  type JobStatus = s: Status | s.OtherStatus? ==> s.text !in STATUS_NAMES
    witness Pending

  predicate KnownStatus(s: JobStatus) {
    !s.OtherStatus?
  }

  predicate Terminal(s: JobStatus) {
    s == Done || s == Failed
  }

  // Same representation for output formats.
  datatype OutputFormat = JPEG | PNG | WebP | AVIF | OtherFormat(text: string)

  const FORMAT_NAMES: seq<string> := ["jpeg", "png", "webp", "avif"]

  type Format = f: OutputFormat | f.OtherFormat? ==> f.text !in FORMAT_NAMES
    witness PNG

  predicate KnownFormat(f: Format) {
    !f.OtherFormat?
  }

  function Ext(f: Format): string {
    match f
    case JPEG => "jpg"
    case PNG => "png"
    case WebP => "webp"
    case AVIF => "avif"
    case OtherFormat(_) => ""
  }

  predicate Lossy(f: Format) {
    f == JPEG || f == WebP || f == AVIF
  }

  const MAX_DIMENSION := 10000

  datatype Spec = Spec(
    width: int,
    height: int,
    format: Format,
    quality: int,
    watermark: bool,
    stripMetadata: bool)

  datatype SpecError = InvalidDimensions | InvalidFormat | InvalidQuality

  /** What a usable specification is, independently of how it is checked. */
  predicate Usable(s: Spec) {
    && 0 <= s.width <= MAX_DIMENSION
    && 0 <= s.height <= MAX_DIMENSION
    && s.width + s.height > 0
    && KnownFormat(s.format)
    && 0 <= s.quality <= 100
    && (s.quality > 0 ==> Lossy(s.format))
  }

  /** Collects every problem with a specification, in the order it is checked.
      A quality on an unknown format is only an error when it is out of range:
      lossless formats refuse a quality, unknown ones are reported as such. */
  method Validate(s: Spec) returns (errs: seq<SpecError>)
    ensures errs == [] <==> Usable(s)
    ensures InvalidDimensions in errs <==>
              s.width < 0 || s.height < 0 || s.width + s.height == 0 ||
              s.width > 10000 || s.height > 10000
    ensures InvalidFormat in errs <==> s.format.OtherFormat?
    ensures InvalidQuality in errs <==>
              s.quality < 0 || s.quality > 100 || (s.quality > 0 && s.format == PNG)
    ensures forall i, j :: 0 <= i < j < |errs| ==>
              errs[i] != errs[j] && errs[j] != InvalidDimensions && errs[i] != InvalidQuality
  {
    errs := [];
    if s.width < 0 || s.height < 0 {
      errs := errs + [InvalidDimensions];
    } else if s.width == 0 && s.height == 0 {
      errs := errs + [InvalidDimensions];
    } else if s.width > MAX_DIMENSION || s.height > MAX_DIMENSION {
      errs := errs + [InvalidDimensions];
    }
    if !KnownFormat(s.format) {
      errs := errs + [InvalidFormat];
    }
    if s.quality < 0 || s.quality > 100 {
      errs := errs + [InvalidQuality];
    } else if s.quality != 0 && KnownFormat(s.format) && !Lossy(s.format) {
      errs := errs + [InvalidQuality];
    }
  }

  // Instants are whole nanoseconds since the Unix epoch, in UTC.
  type Instant = int

  datatype Job = Job(
    id: string,
    originalKey: string,
    resultKey: string,
    status: JobStatus,
    spec: Spec,
    createdAt: Instant,
    updatedAt: Instant,
    error: string)
}

/** The storage keys of a job, and why two jobs never share one. */
module Keys {
  import opened Domain

  function OriginalKey(id: string): string {
    "originals/" + id
  }

  function ResultKey(id: string, spec: Spec): string {
    var ext := Ext(spec.format);
    if ext == "" then "results/" + id else "results/" + id + "." + ext
  }

  /** Where the objects of a job are stored. */
  lemma KeyNames(id: string, spec: Spec)
    ensures OriginalKey(id) == "originals/" + id
    ensures ResultKey(id, spec) == "results/" + id + match spec.format
                                                     case JPEG => ".jpg"
                                                     case PNG => ".png"
                                                     case WebP => ".webp"
                                                     case AVIF => ".avif"
                                                     case OtherFormat(_) => ""
  {
    assert "results/" + id + "." + "jpg" == "results/" + id + ".jpg";
    assert "results/" + id + "." + "png" == "results/" + id + ".png";
    assert "results/" + id + "." + "webp" == "results/" + id + ".webp";
    assert "results/" + id + "." + "avif" == "results/" + id + ".avif";
  }

  /** Original keys are injective in the identifier. */
  lemma OriginalKeyInjective(a: string, b: string)
    requires OriginalKey(a) == OriginalKey(b)
    ensures a == b
  {
    assert a == OriginalKey(a)[10..] == OriginalKey(b)[10..] == b;
  }

  /** No original is ever stored under a result key. */
  lemma OriginalIsNotResult(a: string, b: string, spec: Spec)
    ensures OriginalKey(a) != ResultKey(b, spec)
  {
    assert OriginalKey(a)[0] == 'o';
    assert ResultKey(b, spec)[0] == 'r';
  }

  // The extension is what is left of a key once the identifier before it is
  // known, and its last letters tell the four known ones apart.
  lemma ExtensionsDiffer(a: string, f: Format, b: string, g: Format)
    requires KnownFormat(f) && KnownFormat(g)
    requires a + "." + Ext(f) == b + "." + Ext(g)
    ensures a == b && f == g
  {
    var x, y := a + "." + Ext(f), b + "." + Ext(g);
    assert x[|x| - 1] == Ext(f)[|Ext(f)| - 1] && y[|y| - 1] == Ext(g)[|Ext(g)| - 1];
    assert x[|x| - 2] == Ext(f)[|Ext(f)| - 2] && y[|y| - 2] == Ext(g)[|Ext(g)| - 2];
    assert f == g;
    assert a == x[..|x| - |Ext(f)| - 1] && b == y[..|y| - |Ext(g)| - 1];
  }

  /** For the formats a specification may name, a result key determines both the
      identifier and the format it was built from, whatever the identifiers. */
  lemma ResultKeyInjective(a: string, s: Spec, b: string, t: Spec)
    requires KnownFormat(s.format) && KnownFormat(t.format)
    requires ResultKey(a, s) == ResultKey(b, t)
    ensures a == b && s.format == t.format
  {
    assert ResultKey(a, s)[8..] == a + "." + Ext(s.format);
    assert ResultKey(b, t)[8..] == b + "." + Ext(t.format);
    ExtensionsDiffer(a, s.format, b, t.format);
  }

  // A known format's key is the bare key of an identifier that already ends in
  // its extension.
  predicate Shadows(a: string, s: Spec, b: string, t: Spec) {
    KnownFormat(s.format) && !KnownFormat(t.format) && b == a + "." + Ext(s.format)
  }

  /** Two different identifiers share a result key exactly when one format is
      known, the other is not, and the other identifier is this one with its
      extension: never for two specifications that pass validation. */
  lemma ResultKeysCollide(a: string, s: Spec, b: string, t: Spec)
    requires a != b
    ensures ResultKey(a, s) == ResultKey(b, t) <==> Shadows(a, s, b, t) || Shadows(b, t, a, s)
  {
    if KnownFormat(s.format) && KnownFormat(t.format) {
      if ResultKey(a, s) == ResultKey(b, t) {
        ResultKeyInjective(a, s, b, t);
      }
    } else if KnownFormat(s.format) {
      BareKeys(a, s, b, t);
    } else {
      BareKeys(b, t, a, s);
    }
  }

  lemma BareKeys(a: string, s: Spec, b: string, t: Spec)
    requires !KnownFormat(t.format)
    ensures ResultKey(a, s) == ResultKey(b, t) <==>
            b == if KnownFormat(s.format) then a + "." + Ext(s.format) else a
  {
    var tail := if KnownFormat(s.format) then a + "." + Ext(s.format) else a;
    assert ResultKey(a, s) == "results/" + tail;
    assert ResultKey(a, s)[8..] == tail && ResultKey(b, t)[8..] == b;
  }
}
