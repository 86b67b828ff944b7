/**
 * The stored entities of the client: a recognition session record, the
 * estimate capture a user can submit later, and the Core Data objects that
 * hold them, with their copy-in (`initialize`) and copy-out (`export`) mappers.
 */
module DataModel {
  import opened Wrappers

  /** A file URL, identified by its path. */
  datatype Url = Url(path: string)

  /** A UUID, as its `uuidString`. */
  type Uuid = string

  /** A point in time, as seconds since a reference date. */
  datatype Date = Date(seconds: real)

  datatype SessionRecord = SessionRecord(
    photoURL: Url,
    captureJSONURL: Url,
    recognitionJSONURL: Url,
    timestamp: Date,
    sessionId: Uuid)

  /**
   * A capture waiting for submission. The fields are those its users read
   * and write; `None` in the optional figures stands for the struct's own
   * default, which is not part of this model.
   */
  datatype EstimateCapture = EstimateCapture(
    jsonURL: Option<Url>,
    photoURL: Option<Url>,
    additionalPhotoURL: Option<Url>,
    timestamp: Date,
    sessionId: Uuid,
    isSubmitted: bool,
    initialWeight: Option<real>,
    plateWeight: Option<real>,
    foodName: Option<string>)

  /** The stored form of a session record; every attribute is optional. */
  class ManagedSessionRecord {
    var photoURL: Option<Url>
    var captureJSONURL: Option<Url>
    var recognitionJSONURL: Option<Url>
    var timestamp: Option<Date>
    var sessionId: Option<Uuid>

    /** A freshly inserted object: no attribute set. */
    constructor ()
      ensures photoURL == None && captureJSONURL == None && recognitionJSONURL == None
      ensures timestamp == None && sessionId == None
      ensures !CanExport()
    {
      photoURL := None;
      captureJSONURL := None;
      recognitionJSONURL := None;
      timestamp := None;
      sessionId := None;
    }

    /** `export` force unwraps all five attributes. */
    predicate CanExport()
      reads this
    {
      photoURL.Some? && captureJSONURL.Some? && recognitionJSONURL.Some? && timestamp.Some? && sessionId.Some?
    }

    /** `export()`: the record held in the five attributes. */
    function Export(): (r: SessionRecord)
      reads this
      requires CanExport()
      ensures Some(r.photoURL) == photoURL && Some(r.captureJSONURL) == captureJSONURL
      ensures Some(r.recognitionJSONURL) == recognitionJSONURL
      ensures Some(r.timestamp) == timestamp && Some(r.sessionId) == sessionId
    {
      SessionRecord(photoURL.value, captureJSONURL.value, recognitionJSONURL.value, timestamp.value, sessionId.value)
    }

    /** `initialize(with:)`: every attribute is overwritten from `record`, so exporting gives `record` back. */
    method Initialize(record: SessionRecord)
      modifies this
      ensures photoURL == Some(record.photoURL) && captureJSONURL == Some(record.captureJSONURL)
      ensures recognitionJSONURL == Some(record.recognitionJSONURL)
      ensures timestamp == Some(record.timestamp) && sessionId == Some(record.sessionId)
      ensures CanExport() && Export() == record
    {
      photoURL := Some(record.photoURL);
      captureJSONURL := Some(record.captureJSONURL);
      recognitionJSONURL := Some(record.recognitionJSONURL);
      timestamp := Some(record.timestamp);
      sessionId := Some(record.sessionId);
    }
  }

  /** Storing and re-storing: the last record written is the one read back, whatever came before. */
  method ReinitializeSessionRecord(first: SessionRecord, second: SessionRecord) returns (read: SessionRecord)
    ensures read == second
  {
    var managed := new ManagedSessionRecord();
    managed.Initialize(first);
    managed.Initialize(second);
    read := managed.Export();
  }

  /** The part of a capture the stored object keeps: its two file URLs, timestamp, id and submission flag. */
  function StoredPart(c: EstimateCapture): (s: EstimateCapture)
    ensures s.jsonURL == c.jsonURL && s.photoURL == c.photoURL && s.timestamp == c.timestamp
    ensures s.sessionId == c.sessionId && s.isSubmitted == c.isSubmitted
    ensures s.additionalPhotoURL == None && s.initialWeight == None && s.plateWeight == None && s.foodName == None
  {
    c.(additionalPhotoURL := None, initialWeight := None, plateWeight := None, foodName := None)
  }

  /** The stored form of an estimate capture. */
  class ManagedEstimateCapture {
    var jsonURL: Option<Url>
    var photoURL: Option<Url>
    var isSubmitted: bool
    var sessionId: Option<Uuid>
    var timestamp: Option<Date>

    constructor ()
      ensures jsonURL == None && photoURL == None && !isSubmitted && sessionId == None && timestamp == None
      ensures !CanExport()
    {
      jsonURL := None;
      photoURL := None;
      isSubmitted := false;
      sessionId := None;
      timestamp := None;
    }

    /** `export` force unwraps both URLs, the timestamp and the id. */
    predicate CanExport()
      reads this
    {
      jsonURL.Some? && photoURL.Some? && timestamp.Some? && sessionId.Some?
    }

    /** `export()`: a capture rebuilt from the five stored attributes, nothing else set. */
    function Export(): (c: EstimateCapture)
      reads this
      requires CanExport()
      ensures c.jsonURL == jsonURL && c.photoURL == photoURL && Some(c.timestamp) == timestamp
      ensures Some(c.sessionId) == sessionId && c.isSubmitted == isSubmitted
      ensures StoredPart(c) == c
    {
      EstimateCapture(jsonURL, photoURL, None, timestamp.value, sessionId.value, isSubmitted, None, None, None)
    }

    /** `initialize(with:)`: copies exactly the five stored fields of `capture`. */
    method Initialize(capture: EstimateCapture)
      modifies this
      ensures jsonURL == capture.jsonURL && photoURL == capture.photoURL
      ensures timestamp == Some(capture.timestamp) && sessionId == Some(capture.sessionId)
      ensures isSubmitted == capture.isSubmitted
      ensures capture.jsonURL.Some? && capture.photoURL.Some? ==> CanExport() && Export() == StoredPart(capture)
    {
      jsonURL := capture.jsonURL;
      photoURL := capture.photoURL;
      timestamp := Some(capture.timestamp);
      sessionId := Some(capture.sessionId);
      isSubmitted := capture.isSubmitted;
    }
  }

  /**
   * Storing a capture in a new object and exporting it: the export exists
   * exactly when both file URLs are set, and it gives the capture back
   * exactly when the capture has none of the fields the object does not keep.
   */
  method StoreCapture(c: EstimateCapture) returns (read: Option<EstimateCapture>)
    ensures read.Some? <==> c.jsonURL.Some? && c.photoURL.Some?
    ensures read.Some? ==> read.value == StoredPart(c)
    ensures read.Some? ==> (read.value == c <==>
      c.additionalPhotoURL == None && c.initialWeight == None && c.plateWeight == None && c.foodName == None)
  {
    var managed := new ManagedEstimateCapture();
    managed.Initialize(c);
    if managed.CanExport() {
      read := Some(managed.Export());
    } else {
      read := None;
    }
  }
}
