/**
 * The server's two endpoints. Each checks the uploaded files and the form
 * fields, stores the session under `SessionDataManager`, and answers with a
 * fixed body. A request is its files (by form key) and its form fields;
 * Flask's `abort` and the errors raised while handling are responses with
 * their status codes.
 */
module Server {
  import opened Wrappers
  import opened Json
  import opened SessionData
  import opened PyPath

  /** An uploaded file: `FileStorage`, which is truthy exactly when it has a file name. */
  datatype Upload = Upload(filename: string, data: seq<int>)

  datatype Request = Request(files: map<string, Upload>, form: map<string, string>)

  datatype Response =
    | Abort(code: nat, description: string)
    /** `request.files[key]` for a key that was not sent: werkzeug's `BadRequestKeyError`. */
    | MissingKey(key: string)
    | Body(text: string)
    /** An exception the handler does not catch. */
    | InternalError(exception: string)

  /** The HTTP status each response is sent with. */
  function StatusCode(r: Response): (code: nat)
    ensures r.Body? ==> code == 200
    ensures r.MissingKey? ==> code == 400
    ensures r.InternalError? ==> code == 500
  {
    match r
    case Abort(code, _) => code
    case MissingKey(_) => 400
    case Body(_) => 200
    case InternalError(_) => 500
  }

  const UnexpectedAttachments: string := "Unexpected file attachments."
  const MetadataNotFound: string := "Request metadata not found."
  const NutritionBody: string := "{\"results\": []}"
  const StatusOkBody: string := "{\"status\": \"OK\"}"

  /** The outcome of `files[k1] and files[k2] and ...`, evaluated left to right. */
  datatype Attachments = AllTruthy | SomeFalsy | KeyMissing(key: string)

  function CheckFiles(files: map<string, Upload>, keys: seq<string>): (a: Attachments)
    ensures a == AllTruthy <==> forall k :: k in keys ==> k in files && files[k].filename != ""
    ensures a.KeyMissing? ==> a.key in keys && a.key !in files
    decreases |keys|
  {
    if keys == [] then AllTruthy
    else if keys[0] !in files then KeyMissing(keys[0])
    else if files[keys[0]].filename == "" then SomeFalsy
    else
      var rest := CheckFiles(files, keys[1..]);
      assert forall k :: k in keys ==> k == keys[0] || k in keys[1..];
      rest
  }

  /** `args.get(key)` is truthy: the field was sent and is not empty. */
  predicate FormHas(form: map<string, string>, key: string) {
    key in form && form[key] != ""
  }

  /** The answer a failed check gives, if any: files first, then each pair of form fields in turn. */
  function Validate(req: Request, fileKeys: seq<string>, fieldPairs: seq<(string, string)>): (r: Option<Response>)
    ensures r.None? <==>
      CheckFiles(req.files, fileKeys) == AllTruthy &&
      forall p :: p in fieldPairs ==> FormHas(req.form, p.0) && FormHas(req.form, p.1)
    ensures r.Some? ==> StatusCode(r.value) == 400
    decreases |fieldPairs|
  {
    match CheckFiles(req.files, fileKeys)
    case KeyMissing(k) => Some(MissingKey(k))
    case SomeFalsy => Some(Abort(400, UnexpectedAttachments))
    case AllTruthy =>
      if fieldPairs == [] then None
      else if !(FormHas(req.form, fieldPairs[0].0) && FormHas(req.form, fieldPairs[0].1)) then
        Some(Abort(400, MetadataNotFound))
      else
        var rest := Validate(req, fileKeys, fieldPairs[1..]);
        assert forall p :: p in fieldPairs ==> p == fieldPairs[0] || p in fieldPairs[1..];
        rest
  }

  const NutritionFiles: seq<string> := ["image", "peripheral"]
  const NutritionFields: seq<(string, string)> := [("session_id", "token")]
  const DensityFiles: seq<string> := ["image", "additional", "peripheral"]
  const DensityFields: seq<(string, string)> := [("session_id", "token"), ("name", "weight")]

  /** `nutritionestimation` accepts exactly the requests with both files and both metadata fields. */
  lemma NutritionAcceptance(req: Request)
    ensures Validate(req, NutritionFiles, NutritionFields).None? <==>
      "image" in req.files && req.files["image"].filename != "" &&
      "peripheral" in req.files && req.files["peripheral"].filename != "" &&
      FormHas(req.form, "session_id") && FormHas(req.form, "token")
  {
    assert "image" in NutritionFiles && "peripheral" in NutritionFiles;
    assert ("session_id", "token") in NutritionFields;
  }

  /** `densitycollect` accepts exactly the requests with all three files and all four fields. */
  lemma DensityAcceptance(req: Request)
    ensures Validate(req, DensityFiles, DensityFields).None? <==>
      "image" in req.files && req.files["image"].filename != "" &&
      "additional" in req.files && req.files["additional"].filename != "" &&
      "peripheral" in req.files && req.files["peripheral"].filename != "" &&
      FormHas(req.form, "session_id") && FormHas(req.form, "token") &&
      FormHas(req.form, "name") && FormHas(req.form, "weight")
  {
    assert "image" in DensityFiles && "additional" in DensityFiles && "peripheral" in DensityFiles;
    assert ("session_id", "token") in DensityFields && ("name", "weight") in DensityFields;
  }

  /** A missing attachment is reported before any missing field. */
  lemma FilesCheckedFirst(req: Request)
    requires CheckFiles(req.files, NutritionFiles) != AllTruthy
    ensures Validate(req, NutritionFiles, NutritionFields) != Some(Abort(400, MetadataNotFound))
  {
  }

  /**
   * `response_nutrition_estimate`: a valid request stores the photo and the
   * document of a recognition session and answers with an empty result list.
   */
  method ResponseNutritionEstimate(req: Request, now: DateTime, decoded: seq<int>, parsed: Json<real>)
    returns (resp: Response, stored: map<string, FileContent>)
    ensures Validate(req, NutritionFiles, NutritionFields).Some? ==>
      resp == Validate(req, NutritionFiles, NutritionFields).value && stored == map[]
    ensures Validate(req, NutritionFiles, NutritionFields).None? ==>
      var dir := SessionDir(RecognitionStorageDir, now, req.form["session_id"]);
      resp == Body(NutritionBody) &&
      stored == map[Join(dir, ImageFileName) := Bytes(req.files["image"].data),
                    Join(dir, PeripheralFileName) := Bytes(req.files["peripheral"].data)]
  {
    var invalid := Validate(req, NutritionFiles, NutritionFields);
    if invalid.Some? {
      return invalid.value, map[];
    }
    NutritionAcceptance(req);
    var session := new SessionDataManager(req.form["session_id"], false, now);
    session.RegisterImageFile(req.files["image"].data, decoded);
    session.RegisterPeripheralFile(req.files["peripheral"].data, parsed);
    resp, stored := Body(NutritionBody), session.files;
  }

  /**
   * `response_density_collect` as written: after the photo and the document
   * are stored, the call to `register_collection_additional_image`, which
   * `SessionDataManager` does not define, raises, so no label is written and
   * the client gets a server error.
   */
  method ResponseDensityCollectAsWritten(req: Request, now: DateTime, decoded: seq<int>, parsed: Json<real>)
    returns (resp: Response, stored: map<string, FileContent>)
    ensures Validate(req, DensityFiles, DensityFields).Some? ==>
      resp == Validate(req, DensityFiles, DensityFields).value && stored == map[]
    ensures Validate(req, DensityFiles, DensityFields).None? ==>
      var dir := SessionDir(CollectionStorageDir, now, req.form["session_id"]);
      resp == InternalError("AttributeError") &&
      stored.Keys == {Join(dir, ImageFileName), Join(dir, PeripheralFileName)}
  {
    var invalid := Validate(req, DensityFiles, DensityFields);
    if invalid.Some? {
      return invalid.value, map[];
    }
    DensityAcceptance(req);
    var session := new SessionDataManager(req.form["session_id"], true, now);
    session.RegisterImageFile(req.files["image"].data, decoded);
    session.RegisterPeripheralFile(req.files["peripheral"].data, parsed);
    resp, stored := InternalError("AttributeError"), session.files;
  }

  /**
   * `response_density_collect` as intended: the photo, the document and the
   * label are stored and the request is acknowledged.
   */
  method ResponseDensityCollect(req: Request, now: DateTime, decoded: seq<int>, parsed: Json<real>)
    returns (resp: Response, stored: map<string, FileContent>)
    ensures Validate(req, DensityFiles, DensityFields).Some? ==>
      resp == Validate(req, DensityFiles, DensityFields).value && stored == map[]
    ensures Validate(req, DensityFiles, DensityFields).None? ==>
      var dir := SessionDir(CollectionStorageDir, now, req.form["session_id"]);
      resp == Body(StatusOkBody) &&
      stored.Keys == {Join(dir, ImageFileName), Join(dir, PeripheralFileName), Join(dir, LabelFileName)} &&
      stored[Join(dir, LabelFileName)] == Text(LabelText(req.form["name"], req.form["weight"]))
  {
    var invalid := Validate(req, DensityFiles, DensityFields);
    if invalid.Some? {
      return invalid.value, map[];
    }
    DensityAcceptance(req);
    var session := new SessionDataManager(req.form["session_id"], true, now);
    session.RegisterImageFile(req.files["image"].data, decoded);
    session.RegisterPeripheralFile(req.files["peripheral"].data, parsed);
    session.RegisterCollectionLabel(req.form["name"], req.form["weight"]);
    FileNamesDistinct(session.sessionDir);
    resp, stored := Body(StatusOkBody), session.files;
  }

  /** Every valid collection request fails as written, and succeeds as intended. */
  method DensityCollectDiffers(req: Request, now: DateTime, decoded: seq<int>, parsed: Json<real>)
    returns (written: nat, intended: nat)
    requires Validate(req, DensityFiles, DensityFields).None?
    ensures written == 500 && intended == 200
  {
    var r1, _ := ResponseDensityCollectAsWritten(req, now, decoded, parsed);
    var r2, _ := ResponseDensityCollect(req, now, decoded, parsed);
    written, intended := StatusCode(r1), StatusCode(r2);
  }
}
