/**
 * The client's persistence service: session records kept in a Core Data
 * context (modelled as the sequence of records it holds), files in the
 * documents directory (modelled as a map from URL to contents), and the
 * estimate-capture store, whose implementation is not part of this model
 * and is represented by the calls made to it.
 */
module DataManagement {
  import opened Wrappers
  import opened DataModel

  /** File contents. */
  type Data = seq<int>

  /** A call into the estimate-capture store. */
  datatype CaptureStoreCall =
    | SaveCapture(capture: EstimateCapture)
    | UpdateCapture(capture: EstimateCapture)

  /** The records whose `sessionId` is `id`: what the fetch request returns. */
  function Matching(records: seq<SessionRecord>, id: Uuid): (m: seq<SessionRecord>)
    ensures forall r :: r in m <==> r in records && r.sessionId == id
    ensures |m| <= |records|
  {
    if |records| == 0 then []
    else
      var last := records[|records| - 1];
      Matching(records[..|records| - 1], id) + (if last.sessionId == id then [last] else [])
  }

  /** The records whose `sessionId` is not `id`, in order. */
  function Others(records: seq<SessionRecord>, id: Uuid): (o: seq<SessionRecord>)
    ensures forall r :: r in o <==> r in records && r.sessionId != id
    ensures |o| + |Matching(records, id)| == |records|
  {
    if |records| == 0 then []
    else
      var last := records[|records| - 1];
      Others(records[..|records| - 1], id) + (if last.sessionId != id then [last] else [])
  }

  /** The three files a session record points to. */
  function RecordFiles(r: SessionRecord): set<Url> {
    {r.photoURL, r.captureJSONURL, r.recognitionJSONURL}
  }

  /** The files of all of `records`. */
  function FilesOf(records: seq<SessionRecord>): (urls: set<Url>)
  {
    if |records| == 0 then {}
    else FilesOf(records[..|records| - 1]) + RecordFiles(records[|records| - 1])
  }

  /** A URL is among the files of `records` iff one of the records points to it. */
  lemma {:induction false} FilesOfContents(records: seq<SessionRecord>, u: Url)
    ensures u in FilesOf(records) <==> exists i :: 0 <= i < |records| && u in RecordFiles(records[i])
    decreases |records|
  {
    if |records| > 0 {
      var init := records[..|records| - 1];
      FilesOfContents(init, u);
      if u in FilesOf(init) {
        var i :| 0 <= i < |init| && u in RecordFiles(init[i]);
        assert records[i] == init[i];
      }
      if exists i :: 0 <= i < |records| && u in RecordFiles(records[i]) {
        var i :| 0 <= i < |records| && u in RecordFiles(records[i]);
        if i < |init| {
          assert init[i] == records[i];
        }
      }
    }
  }

  /** `files` without the entries at `urls`. */
  function Without(files: map<Url, Data>, urls: set<Url>): (m: map<Url, Data>)
    ensures m.Keys == files.Keys - urls
    ensures forall u :: u in m ==> m[u] == files[u]
  {
    map u | u in files && u !in urls :: files[u]
  }

  /** How many records carry `id`. */
  function CountWithId(records: seq<SessionRecord>, id: Uuid): nat {
    |Matching(records, id)|
  }

  lemma {:induction false} MatchingAppend(a: seq<SessionRecord>, b: seq<SessionRecord>, id: Uuid)
    ensures Matching(a + b, id) == Matching(a, id) + Matching(b, id)
    decreases |b|
  {
    if |b| == 0 {
      assert a + b == a;
    } else {
      assert (a + b)[..|a + b| - 1] == a + b[..|b| - 1];
      MatchingAppend(a, b[..|b| - 1], id);
    }
  }

  /** No record left by a removal carries the id. */
  lemma {:induction false} OthersHaveNoMatch(records: seq<SessionRecord>, id: Uuid)
    ensures Matching(Others(records, id), id) == []
    decreases |records|
  {
    if |records| > 0 {
      var init := records[..|records| - 1];
      OthersHaveNoMatch(init, id);
      var tail := if records[|records| - 1].sessionId != id then [records[|records| - 1]] else [];
      MatchingAppend(Others(init, id), tail, id);
      assert tail == [] || Matching(tail, id) == Matching([], id) + [];
    }
  }

  /** One more fetched record: it joins the matching or the other records. */
  lemma PrefixStep(records: seq<SessionRecord>, i: nat, id: Uuid)
    requires i < |records|
    ensures Matching(records[..i + 1], id) ==
      Matching(records[..i], id) + (if records[i].sessionId == id then [records[i]] else [])
    ensures Others(records[..i + 1], id) ==
      Others(records[..i], id) + (if records[i].sessionId != id then [records[i]] else [])
  {
    assert records[..i + 1][..i] == records[..i];
  }

  lemma FilesOfAppend(removed: seq<SessionRecord>, r: SessionRecord)
    ensures FilesOf(removed + [r]) == FilesOf(removed) + RecordFiles(r)
  {
    assert (removed + [r])[..|removed|] == removed;
  }

  /** Removing `a` and then `b` removes their union. */
  lemma WithoutTwice(files: map<Url, Data>, a: set<Url>, b: set<Url>)
    ensures Without(Without(files, a), b) == Without(files, a + b)
  {
  }

  class DataManager {
    /** The session records in the context, in fetch order. */
    var records: seq<SessionRecord>
    /** The files on disk. */
    var files: map<Url, Data>
    /** The path of the documents directory. */
    const documents: string
    /** Calls made to the estimate-capture store, in order. */
    var captureCalls: seq<CaptureStoreCall>

    constructor (documentsPath: string, existing: map<Url, Data>)
      ensures documents == documentsPath && files == existing
      ensures records == [] && captureCalls == []
    {
      documents := documentsPath;
      files := existing;
      records := [];
      captureCalls := [];
    }

    /** `createSessionRecord`: one new managed object, initialised from `record`. */
    method CreateSessionRecord(record: SessionRecord)
      modifies this
      ensures records == old(records) + [record]
      ensures files == old(files) && captureCalls == old(captureCalls)
    {
      var managed := new ManagedSessionRecord();
      managed.Initialize(record);
      records := records + [managed.Export()];
    }

    /** `removeFile`: nothing for a nil URL or a path that does not exist. */
    method RemoveFile(url: Option<Url>)
      modifies this
      ensures url.None? || url.value !in old(files) ==> files == old(files)
      ensures url.Some? ==> files == Without(old(files), {url.value})
      ensures records == old(records) && captureCalls == old(captureCalls)
    {
      if url.None? {
        return;
      }
      if url.value !in files {
        return;
      }
      files := Without(files, {url.value});
    }

    /** The three `removeFile` calls for one deleted record. */
    method RemoveRecordFiles(r: SessionRecord)
      modifies this
      ensures files == Without(old(files), RecordFiles(r))
      ensures records == old(records) && captureCalls == old(captureCalls)
    {
      ghost var before := files;
      RemoveFile(Some(r.photoURL));
      RemoveFile(Some(r.captureJSONURL));
      RemoveFile(Some(r.recognitionJSONURL));
      WithoutTwice(before, {r.photoURL}, {r.captureJSONURL});
      WithoutTwice(before, {r.photoURL, r.captureJSONURL}, {r.recognitionJSONURL});
    }

    /**
     * `removeSessionRecord`: every record with the id is deleted, its three
     * files too when `withFiles`; all other records stay, in order.
     */
    method RemoveSessionRecord(record: SessionRecord, withFiles: bool)
      modifies this
      ensures records == Others(old(records), record.sessionId)
      ensures withFiles ==> files == Without(old(files), FilesOf(Matching(old(records), record.sessionId)))
      ensures !withFiles ==> files == old(files)
      ensures captureCalls == old(captureCalls)
    {
      var id := record.sessionId;
      var kept: seq<SessionRecord> := [];
      ghost var removed: seq<SessionRecord> := [];
      var i := 0;
      while i < |records|
        invariant 0 <= i <= |records| && records == old(records)
        invariant kept == Others(records[..i], id) && removed == Matching(records[..i], id)
        invariant withFiles ==> files == Without(old(files), FilesOf(removed))
        invariant !withFiles ==> files == old(files)
        invariant captureCalls == old(captureCalls)
      {
        var fetched := records[i];
        PrefixStep(records, i, id);
        if fetched.sessionId == id {
          if withFiles {
            RemoveRecordFiles(fetched);
            WithoutTwice(old(files), FilesOf(removed), RecordFiles(fetched));
            FilesOfAppend(removed, fetched);
          }
          removed := removed + [fetched];
        } else {
          kept := kept + [fetched];
        }
        i := i + 1;
      }
      assert records[..i] == records;
      records := kept;
    }

    /** `updateSessionRecord`: remove without files, then create. */
    method UpdateSessionRecord(record: SessionRecord)
      modifies this
      ensures records == Others(old(records), record.sessionId) + [record]
      ensures files == old(files) && captureCalls == old(captureCalls)
      ensures Matching(records, record.sessionId) == [record]
    {
      RemoveSessionRecord(record, false);
      CreateSessionRecord(record);
      OthersHaveNoMatch(old(records), record.sessionId);
      MatchingAppend(Others(old(records), record.sessionId), [record], record.sessionId);
      assert Matching([record], record.sessionId) == Matching([], record.sessionId) + [record];
    }

    /** `getAllSessionRecords`: every stored record, exported; the fetch order is taken to be the stored order. */
    method GetAllSessionRecords() returns (all: seq<SessionRecord>)
      ensures all == records
    {
      all := [];
      var i := 0;
      while i < |records|
        invariant 0 <= i <= |records| && all == records[..i]
      {
        var managed := new ManagedSessionRecord();
        managed.Initialize(records[i]);
        all := all + [managed.Export()];
        assert records[..i + 1] == records[..i] + [records[i]];
        i := i + 1;
      }
      assert records[..i] == records;
    }

    /** The URL `saveFile` writes to: `<documents>/<uuid>.<extension>`. */
    function FileUrl(uuid: Uuid, extensionName: string): (url: Url)
      reads this
      ensures url.path == documents + "/" + uuid + "." + extensionName
    {
      Url(documents + "/" + uuid + "." + extensionName)
    }

    /** `saveFile`: writes `data` to a fresh name and returns the URL passed to the completion. */
    method SaveFile(data: Data, extensionName: string, uuid: Uuid) returns (url: Url)
      modifies this
      ensures url == FileUrl(uuid, extensionName)
      ensures files == old(files)[url := data]
      ensures records == old(records) && captureCalls == old(captureCalls)
    {
      url := FileUrl(uuid, extensionName);
      files := files[url := data];
    }

    /** `saveEstimateCapture`, recorded as a call. */
    method SaveEstimateCapture(capture: EstimateCapture)
      modifies this
      ensures captureCalls == old(captureCalls) + [SaveCapture(capture)]
      ensures records == old(records) && files == old(files)
    {
      captureCalls := captureCalls + [SaveCapture(capture)];
    }

    /** `updateEstimateCapture`, recorded as a call. */
    method UpdateEstimateCapture(capture: EstimateCapture)
      modifies this
      ensures captureCalls == old(captureCalls) + [UpdateCapture(capture)]
      ensures records == old(records) && files == old(files)
    {
      captureCalls := captureCalls + [UpdateCapture(capture)];
    }
  }

  /** Files saved under different names never overwrite each other. */
  lemma DistinctNamesDistinctFiles(m: DataManager, u1: Uuid, u2: Uuid, ext: string)
    requires u1 != u2 && |u1| == |u2|
    ensures m.FileUrl(u1, ext) != m.FileUrl(u2, ext)
  {
    var p1, p2 := m.FileUrl(u1, ext).path, m.FileUrl(u2, ext).path;
    var k := |m.documents| + 1;
    assert p1[k..k + |u1|] == u1;
    assert p2[k..k + |u2|] == u2;
  }
}
