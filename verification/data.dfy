/**
 The values a prediction takes and returns: positional inputs, and outputs
 classified as a file reference or an opaque JSON value.
 */
module Data {
  import opened Wrappers
  import opened Json
  import opened Errors
  import Constants

  // ---------------------------------------------------------------------------
  // Inputs
  // ---------------------------------------------------------------------------

  /** One positional input: a JSON value the caller already serialised, or a
      local file to upload first. There is no nested-list form. */
  datatype PredictionInput = Value(value: Json) | File(path: string)

  /** The Rust values the client and the command line hand to `from_value`. */
  datatype Serializable =
    | Text(s: string)
    | Integer(i: int)
    | Boolean(b: bool)
    | Double(r: real)
    | Raw(j: Json)

  /** serde's serialisation of those values. */
  function ToJson(v: Serializable): Json {
    match v
    case Text(s) => Str(s)
    case Integer(i) => Int(i)
    case Boolean(b) => Bool(b)
    case Double(r) => Float(r)
    case Raw(j) => j
  }

  /** `from_file`: a file input for the path. */
  function FromFile(path: string): (r: PredictionInput)
    ensures r.File? && r.path == path
  {
    PredictionInput.File(path)
  }

  /** `from_value`: a value input holding the serialised argument, which
      keeps its kind: a string stays a string, an integer an integer. */
  function FromValue(v: Serializable): (r: PredictionInput)
    ensures r.Value?
    ensures v.Text? ==> r.value == Str(v.s)
    ensures v.Integer? ==> r.value == Int(v.i)
    ensures v.Boolean? ==> r.value == Bool(v.b)
    ensures v.Double? ==> r.value == Float(v.r)
    ensures v.Raw? ==> r.value == v.j
  {
    PredictionInput.Value(ToJson(v))
  }

  // ---------------------------------------------------------------------------
  // Outputs
  // ---------------------------------------------------------------------------

  /** The `meta` of a file descriptor: its `_type` marker. */
  datatype FileMeta = FileMeta(fileType: string)

  /** A file descriptor returned by the server. */
  datatype GradioFileData = GradioFileData(
    path: Option<string>,
    origName: Option<string>,
    meta: FileMeta,
    url: Option<string>,
    size: Option<nat>)

  /** One decoded element of a prediction's result. */
  datatype PredictionOutput = File(file: GradioFileData) | Value(value: Json)

  function DecodeMeta(j: Json): Option<FileMeta> {
    if !StructShaped(j, 1) then None
    else match Required(Field(j, "_type", 0, 1), AsString)
      case Some(t) => Some(FileMeta(t))
      case None => None
  }

  /** `GradioFileData`'s decoder: `meta` with a string `_type` is required; the
      other four fields may be absent or `null`, and are otherwise typed. */
  function DecodeFileData(j: Json): (r: Option<GradioFileData>)
    ensures r.Some? ==> StructShaped(j, 5)
  {
    if !StructShaped(j, 5) then None
    else
      var path := Optional(Field(j, "path", 0, 5), AsString);
      var origName := Optional(Field(j, "orig_name", 1, 5), AsString);
      var meta := Required(Field(j, "meta", 2, 5), DecodeMeta);
      var url := Optional(Field(j, "url", 3, 5), AsString);
      var size := Optional(Field(j, "size", 4, 5), AsUsize);
      if path.Some? && origName.Some? && meta.Some? && url.Some? && size.Some? then
        Some(GradioFileData(path.value, origName.value, meta.value, url.value, size.value))
      else None
  }

  /** The untagged decoder: `File` is tried first, and `Value` accepts any JSON,
      so decoding an output element never fails and a value that is not a file
      descriptor is kept unchanged. */
  function DecodePrediction(j: Json): (r: PredictionOutput)
    ensures r.Value? ==> r.value == j && DecodeFileData(j).None?
    ensures r.File? ==> DecodeFileData(j) == Some(r.file)
  {
    match DecodeFileData(j)
    case Some(f) => PredictionOutput.File(f)
    case None => PredictionOutput.Value(j)
  }

  /** `is_file`: exactly one of `is_file` and `is_value` holds. */
  predicate IsFile(o: PredictionOutput)
    ensures IsFile(o) <==> !IsValue(o)
  {
    o.File?
  }

  predicate IsValue(o: PredictionOutput) {
    o.Value?
  }

  /** `as_file`: the descriptor exactly when the output is a file. */
  function AsFile(o: PredictionOutput): (r: Outcome<GradioFileData>)
    ensures r.Ok? <==> IsFile(o)
    ensures r.Ok? ==> o == PredictionOutput.File(r.value)
    ensures r.Err? ==> r.error == ExpectedFile
  {
    match o
    case File(f) => Ok(f)
    case Value(_) => Err(ExpectedFile)
  }

  /** `as_value`: the JSON exactly when the output is a value. */
  function AsValue(o: PredictionOutput): (r: Outcome<Json>)
    ensures r.Ok? <==> IsValue(o)
    ensures r.Ok? ==> o == PredictionOutput.Value(r.value)
    ensures r.Err? ==> r.error == ExpectedValue
  {
    match o
    case Value(v) => Ok(v)
    case File(_) => Err(ExpectedValue)
  }

  /** The file envelope the client sends in place of an uploaded file. */
  function Envelope(serverPath: string, origName: string): Json {
    Obj(map[
      "path" := Str(serverPath),
      "orig_name" := Str(origName),
      "meta" := Obj(map["_type" := Str(Constants.FileDataType)])])
  }

  /** What serde writes for a file descriptor: all five fields, `null` for
      those absent. */
  function EncodeFileData(f: GradioFileData): Json {
    Obj(map[
      "path" := OptionToJson(f.path, (s: string) => Str(s)),
      "orig_name" := OptionToJson(f.origName, (s: string) => Str(s)),
      "meta" := Obj(map["_type" := Str(f.meta.fileType)]),
      "url" := OptionToJson(f.url, (s: string) => Str(s)),
      "size" := OptionToJson(f.size, (n: nat) => Int(n))])
  }

  // ---------------------------------------------------------------------------
  // Properties of the output decoder
  // ---------------------------------------------------------------------------

  /** The upload envelope reads back as a file with the same server path and
      original name, the file-kind marker, and no url or size. */
  lemma EnvelopeDecodesAsFile(serverPath: string, origName: string)
    ensures DecodePrediction(Envelope(serverPath, origName))
         == PredictionOutput.File(GradioFileData(Some(serverPath), Some(origName), FileMeta(Constants.FileDataType), None, None))
  {
    var j := Envelope(serverPath, origName);
    assert DecodeMeta(j.fields["meta"]) == Some(FileMeta(Constants.FileDataType));
    assert DecodeFileData(j) == Some(GradioFileData(Some(serverPath), Some(origName), FileMeta(Constants.FileDataType), None, None));
  }

  /** A file descriptor written serde's way reads back as the same file. */
  lemma FileDataRoundTrip(f: GradioFileData)
    requires f.size.Some? ==> IsUsize(f.size.value)
    ensures DecodePrediction(EncodeFileData(f)) == PredictionOutput.File(f)
  {
    var j := EncodeFileData(f);
    assert DecodeMeta(j.fields["meta"]) == Some(f.meta);
    assert DecodeFileData(j) == Some(f);
  }

  /** An optional string field of a file descriptor object: absent, `null` or a string. */
  ghost predicate OptionalStringAt(m: map<string, Json>, k: string) {
    k !in m || m[k].Null? || m[k].Str?
  }

  /** The file-descriptor shape of an object, field by field: `meta` carries a
      string `_type` (in either struct form); `path`, `orig_name` and `url` are
      absent, `null` or strings; `size` is absent, `null` or a `usize`. Other
      fields, and the `_type` text itself, play no part. */
  ghost predicate FileShapedObject(m: map<string, Json>) {
    && "meta" in m
    && ((m["meta"].Obj? && "_type" in m["meta"].fields && m["meta"].fields["_type"].Str?)
        || (m["meta"].Arr? && |m["meta"].items| == 1 && m["meta"].items[0].Str?))
    && OptionalStringAt(m, "path")
    && OptionalStringAt(m, "orig_name")
    && OptionalStringAt(m, "url")
    && ("size" !in m || m["size"].Null? || (m["size"].Int? && IsUsize(m["size"].i)))
  }

  /** An object decodes as a file exactly when it has the file-descriptor
      shape, whatever other fields it carries; every other object stays a value. */
  lemma ObjectClassification(m: map<string, Json>)
    ensures IsFile(DecodePrediction(Obj(m))) <==> FileShapedObject(m)
  {
  }

  /** JSON that is neither an object nor a five-element array cannot be a file
      descriptor, so it decodes as itself. */
  lemma NonStructIsValue(j: Json)
    requires !j.Obj? && !(j.Arr? && |j.items| == 5)
    ensures DecodePrediction(j) == PredictionOutput.Value(j)
  {
  }
}
