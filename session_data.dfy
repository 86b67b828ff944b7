/**
 * The server's per-session storage (`SessionDataManager`): one directory per
 * request, named after the time of the request and the session id, holding
 * the uploaded photo, the sensor document, the collection label and the
 * recognition result. The clock is the parameter `now`; decoding the photo
 * and parsing the document are parameters of the register calls.
 */
module SessionData {
  import opened Wrappers
  import opened Text
  import opened Json
  import opened PyPath

  const RecognitionStorageDir: string := "/home/Frost/insulin_calculator_data/recognition_session_data/"
  const CollectionStorageDir: string := "/home/Frost/insulin_calculator_data/collection_session_data/"

  const ImageFileName: string := "image.jpg"
  const PeripheralFileName: string := "peripheral.json"
  const LabelFileName: string := "collection_label.txt"
  const RecognitionFileName: string := "recognition.json"

  /** The fields of `datetime.now()` that name a directory. */
  datatype DateTime = DateTime(year: nat, month: nat, day: nat, hour: nat, minute: nat, second: nat)

  /** What a stored file holds: uploaded bytes or written text. */
  datatype FileContent = Bytes(data: seq<int>) | Text(text: string)

  /** The storage root: the collection one exactly for a collection session. */
  function StorageRoot(collectionSession: bool): (root: string)
    ensures collectionSession ==> root == CollectionStorageDir
    ensures !collectionSession ==> root == RecognitionStorageDir
  {
    if collectionSession then CollectionStorageDir else RecognitionStorageDir
  }

  /** The three directory levels below the root: `<year>_<month>`, `<day>`, `<hour>_<minute>_<second>_<id>`, unpadded. */
  function DirectoryParts(now: DateTime, sessionId: string): seq<string> {
    [NatToString(now.year) + "_" + NatToString(now.month),
     NatToString(now.day),
     NatToString(now.hour) + "_" + NatToString(now.minute) + "_" + NatToString(now.second) + "_" + sessionId]
  }

  /** `_make_session_dir`'s path. */
  function SessionDir(root: string, now: DateTime, sessionId: string): string {
    JoinAll(root, DirectoryParts(now, sessionId))
  }

  lemma DigitsNotSeparator(s: string)
    requires |s| > 0 && AllDigits(s)
    ensures !IsAbsolute(s) && s[|s| - 1] != Sep
  {
    assert IsDigit(s[0]) && IsDigit(s[|s| - 1]);
  }

  /** Under either root the directory is the root, then the three parts separated by single slashes. */
  lemma SessionDirLayout(collectionSession: bool, now: DateTime, sessionId: string)
    ensures var parts := DirectoryParts(now, sessionId);
      SessionDir(StorageRoot(collectionSession), now, sessionId) ==
        StorageRoot(collectionSession) + parts[0] + "/" + parts[1] + "/" + parts[2]
  {
    var root := StorageRoot(collectionSession);
    var parts := DirectoryParts(now, sessionId);
    assert root[|root| - 1] == '/';
    var y := NatToString(now.year);
    assert parts[0][0] == y[0];
    DigitsNotSeparator(y);
    DigitsNotSeparator(NatToString(now.month));
    LastOfAppend(y + "_", NatToString(now.month));
    DigitsNotSeparator(parts[1]);
    var h := NatToString(now.hour);
    assert parts[2][0] == h[0];
    DigitsNotSeparator(h);
    JoinUnderDirectory(root, parts[0], parts[1], parts[2]);
  }

  /** A collection session and a recognition session never share a directory, whatever their times and ids. */
  lemma KindsApart(now1: DateTime, id1: string, now2: DateTime, id2: string)
    ensures SessionDir(StorageRoot(true), now1, id1) != SessionDir(StorageRoot(false), now2, id2)
  {
    SessionDirLayout(true, now1, id1);
    SessionDirLayout(false, now2, id2);
    var prefix := "/home/Frost/insulin_calculator_data/";
    var k := |prefix|;
    assert CollectionStorageDir[k] == 'c' && RecognitionStorageDir[k] == 'r';
    assert SessionDir(StorageRoot(true), now1, id1)[k] == CollectionStorageDir[k];
    assert SessionDir(StorageRoot(false), now2, id2)[k] == RecognitionStorageDir[k];
  }

  /** Everything of a session directory before the session id. */
  function SessionPrefix(collectionSession: bool, now: DateTime): string {
    var parts := DirectoryParts(now, "");
    StorageRoot(collectionSession) + parts[0] + "/" + parts[1] + "/" + parts[2]
  }

  /** A session directory is the prefix fixed by the kind and the time, then the id. */
  lemma SessionDirSplit(collectionSession: bool, now: DateTime, sessionId: string)
    ensures SessionDir(StorageRoot(collectionSession), now, sessionId) == SessionPrefix(collectionSession, now) + sessionId
  {
    SessionDirLayout(collectionSession, now, sessionId);
    var parts := DirectoryParts(now, sessionId);
    var base := DirectoryParts(now, "");
    var front := StorageRoot(collectionSession) + parts[0] + "/" + parts[1] + "/";
    assert parts[2] == base[2] + sessionId;
    assert front + (base[2] + sessionId) == (front + base[2]) + sessionId;
  }

  /** Two sessions registered in the same second under the same root share a directory only if they share an id. */
  lemma SessionDirsDistinct(collectionSession: bool, now: DateTime, id1: string, id2: string)
    requires SessionDir(StorageRoot(collectionSession), now, id1) == SessionDir(StorageRoot(collectionSession), now, id2)
    ensures id1 == id2
  {
    SessionDirSplit(collectionSession, now, id1);
    SessionDirSplit(collectionSession, now, id2);
    var prefix := SessionPrefix(collectionSession, now);
    assert (prefix + id1)[|prefix|..] == id1;
    assert (prefix + id2)[|prefix|..] == id2;
  }

  /** The label file's text: `name: <name>`, a newline, `weight: <weight>`. */
  function LabelText(name: string, weight: string): (t: string)
    ensures t == "name: " + name + "\nweight: " + weight
  {
    "name" + ": " + name + "\n" + "weight" + ": " + weight
  }

  /** Reading a label back: the first line after `name: `, the rest after `weight: `. */
  function ParseLabel(t: string): Option<(string, string)> {
    if |t| < 6 || t[..6] != "name: " then None
    else
      var rest := t[6..];
      var cut := FirstNewline(rest);
      if cut == |rest| then None
      else
        var second := rest[cut + 1..];
        if |second| < 8 || second[..8] != "weight: " then None
        else Some((rest[..cut], second[8..]))
  }

  /** The index of the first newline, or the length when there is none. */
  function FirstNewline(s: string): (k: nat)
    ensures k <= |s| && (k < |s| ==> s[k] == '\n')
    ensures forall i :: 0 <= i < k ==> s[i] != '\n'
  {
    if s == [] then 0 else if s[0] == '\n' then 0 else 1 + FirstNewline(s[1..])
  }

  /** For a one-line name the label reads back as the name and weight it was written from. */
  lemma LabelReadsBack(name: string, weight: string)
    requires forall i :: 0 <= i < |name| ==> name[i] != '\n'
    ensures ParseLabel(LabelText(name, weight)) == Some((name, weight))
  {
    var t := LabelText(name, weight);
    assert t[..6] == "name: ";
    var rest := t[6..];
    assert rest == name + "\nweight: " + weight;
    var cut := FirstNewline(rest);
    assert rest[|name|] == '\n';
    assert cut == |name|;
    assert rest[..cut] == name;
    assert rest[cut + 1..] == "weight: " + weight;
  }

  class SessionDataManager {
    const sessionId: string
    const sessionDir: string
    /** The decoded photo, once registered. */
    var image: Option<seq<int>>
    /** The parsed sensor document, once registered. */
    var peripheral: Option<Json<real>>
    /** The files this session has written, by path. */
    var files: map<string, FileContent>

    /** `__init__`: the directory from the clock, the id and the kind of session; nothing loaded yet. */
    constructor (id: string, collectionSession: bool, now: DateTime)
      ensures sessionId == id && sessionDir == SessionDir(StorageRoot(collectionSession), now, id)
      ensures image == None && peripheral == None && files == map[]
    {
      sessionId := id;
      sessionDir := JoinAll(if collectionSession then CollectionStorageDir else RecognitionStorageDir,
        DirectoryParts(now, id));
      image := None;
      peripheral := None;
      files := map[];
    }

    /** `register_image_file`: store the upload as `image.jpg` and keep the decoded photo. */
    method RegisterImageFile(upload: seq<int>, decoded: seq<int>)
      modifies this
      ensures files == old(files)[Join(sessionDir, ImageFileName) := Bytes(upload)]
      ensures image == Some(decoded) && peripheral == old(peripheral)
    {
      var savePath := Join(sessionDir, ImageFileName);
      files := files[savePath := Bytes(upload)];
      image := Some(decoded);
    }

    /** `register_peripheral_file`: store the upload as `peripheral.json` and keep the parsed document. */
    method RegisterPeripheralFile(upload: seq<int>, parsed: Json<real>)
      modifies this
      ensures files == old(files)[Join(sessionDir, PeripheralFileName) := Bytes(upload)]
      ensures peripheral == Some(parsed) && image == old(image)
    {
      var savePath := Join(sessionDir, PeripheralFileName);
      files := files[savePath := Bytes(upload)];
      peripheral := Some(parsed);
    }

    /** `register_collection_label`: write the name and weight to `collection_label.txt`. */
    method RegisterCollectionLabel(name: string, weight: string)
      modifies this
      ensures files == old(files)[Join(sessionDir, LabelFileName) := Text(LabelText(name, weight))]
      ensures image == old(image) && peripheral == old(peripheral)
    {
      var savePath := Join(sessionDir, LabelFileName);
      files := files[savePath := Text(LabelText(name, weight))];
    }

    /** `save_recognition_file`: write the result text to `recognition.json`. */
    method SaveRecognitionFile(recognitionJson: string)
      modifies this
      ensures files == old(files)[Join(sessionDir, "recognition" + "." + "json") := Text(recognitionJson)]
      ensures image == old(image) && peripheral == old(peripheral)
    {
      var savePath := Join(sessionDir, "recognition" + "." + "json");
      files := files[savePath := Text(recognitionJson)];
    }
  }

  /** Two names that end differently give two paths in any directory. */
  lemma JoinedNamesDiffer(dir: string, a: string, b: string, k: nat)
    requires k <= |a| && k <= |b| && a[|a| - k..] != b[|b| - k..]
    ensures Join(dir, a) != Join(dir, b)
  {
    JoinParts(dir, a);
    JoinParts(dir, b);
    SuffixesDiffer(Join(dir, a), Join(dir, b), a, b, k);
  }

  /** The four files of a session have four different paths inside the session directory. */
  lemma FileNamesDistinct(dir: string)
    ensures Join(dir, ImageFileName) != Join(dir, PeripheralFileName)
    ensures Join(dir, ImageFileName) != Join(dir, LabelFileName)
    ensures Join(dir, ImageFileName) != Join(dir, RecognitionFileName)
    ensures Join(dir, PeripheralFileName) != Join(dir, LabelFileName)
    ensures Join(dir, PeripheralFileName) != Join(dir, RecognitionFileName)
    ensures Join(dir, LabelFileName) != Join(dir, RecognitionFileName)
  {
    assert ImageFileName[|ImageFileName| - 1] == 'g';
    assert PeripheralFileName[|PeripheralFileName| - 1] == 'n';
    assert LabelFileName[|LabelFileName| - 1] == 't';
    assert RecognitionFileName[|RecognitionFileName| - 1] == 'n';
    assert PeripheralFileName[|PeripheralFileName| - 15] == 'p';
    assert RecognitionFileName[|RecognitionFileName| - 15] == 'e';
    JoinedNamesDiffer(dir, ImageFileName, PeripheralFileName, 1);
    JoinedNamesDiffer(dir, ImageFileName, LabelFileName, 1);
    JoinedNamesDiffer(dir, ImageFileName, RecognitionFileName, 1);
    JoinedNamesDiffer(dir, PeripheralFileName, LabelFileName, 1);
    JoinedNamesDiffer(dir, PeripheralFileName, RecognitionFileName, 15);
    JoinedNamesDiffer(dir, LabelFileName, RecognitionFileName, 1);
  }

  /** Two strings ending in names whose last `k` characters differ are different. */
  lemma SuffixesDiffer(p: string, q: string, a: string, b: string, k: nat)
    requires k <= |a| && k <= |b| && a[|a| - k..] != b[|b| - k..]
    requires |a| <= |p| && p[|p| - |a|..] == a && |b| <= |q| && q[|q| - |b|..] == b
    ensures p != q
  {
  }

  /** A whole collection session: photo, document and label land in three files of its directory. */
  method CollectionSession(id: string, now: DateTime, photo: seq<int>, decoded: seq<int>,
                           document: seq<int>, parsed: Json<real>, name: string, weight: string)
    returns (dir: string, files: map<string, FileContent>, image: Option<seq<int>>)
    ensures dir == SessionDir(CollectionStorageDir, now, id)
    ensures files.Keys == {Join(dir, ImageFileName), Join(dir, PeripheralFileName), Join(dir, LabelFileName)}
    ensures files[Join(dir, LabelFileName)] == Text("name: " + name + "\nweight: " + weight)
    ensures files[Join(dir, ImageFileName)] == Bytes(photo) && image == Some(decoded)
  {
    var session := new SessionDataManager(id, true, now);
    session.RegisterImageFile(photo, decoded);
    session.RegisterPeripheralFile(document, parsed);
    session.RegisterCollectionLabel(name, weight);
    FileNamesDistinct(session.sessionDir);
    dir, files, image := session.sessionDir, session.files, session.image;
  }
}
